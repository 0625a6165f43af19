/**
  A line cut until it fits (packages/core/src/activity.ts, `fitted` and `activityLineOf`): never past sixteen kibibytes as
  written, its items a prefix of those given and their count the true one, and reading it back changes nothing.
  */
module ActivityFitted {
  import opened Wrappers
  import opened ActivityText
  import opened ActivityLine
  import opened ActivityBounds

  // ---------- cutting ----------

  function CutItems(l: Line): Line
    decreases |l.items.Or([])|
  {
    if l.items.Or([]) == [] || Fits(l) then l
    else CutItems(l.(items := Some(l.items.value[..|l.items.value| - 1])))
  }

  function CutRecipients(l: Line): Line
    decreases |l.recipients.Or([])|
  {
    if l.recipients.Or([]) == [] || Fits(l) then l
    else CutRecipients(l.(recipients := Some(l.recipients.value[..|l.recipients.value| - 1])))
  }

  function ShortIf(t: Option<Text>, max: nat): Option<Text>
    requires max > 0
  {
    if t.None? then None else Some(Cut(t.value, max))
  }

  function ShortSession(s: Session): Session {
    s.(folder := ShortIf(s.folder, 256),
       client := if s.client.None? then None
                 else Some(Client(Cut(s.client.value.name, 40), ShortIf(s.client.value.version, 20))),
       parent := if s.parent.None? then None else Some(s.parent.value.(name := Cut(s.parent.value.name, 40))),
       ancestors := None)
  }

  // The longer words shortened.
  function Shortened(l: Line): Line {
    l.(channel := Cut(l.channel, 40), operation := Cut(l.operation, 64), accountId := Cut(l.accountId, 64),
       accountAlias := Cut(l.accountAlias, 64), session := ShortSession(l.session), reason := ShortIf(l.reason, 100),
       query := ShortIf(l.query, 100),
       told := if l.told.None? then None else Some(Told(Cut(l.told.value.rule, 60), Cut(l.told.value.target, 60))))
  }

  function Fitted(l: Line): Line {
    if Fits(l) then l
    else
      var listed := CutRecipients(CutItems(l.(truncated := true)));
      if Fits(listed) then listed
      else
        var short := Shortened(listed);
        if Fits(short) then short else short.(reason := None, query := None, told := None, counts := None)
  }

  // The source's loops: one item after another from the end, then one recipient after another.
  method Fit(line: Line) returns (r: Line)
    ensures r == Fitted(line)
  {
    hide Fits;
    if Fits(line) {
      return line;
    }
    var items := line.items.Or([]);
    var recipients := line.recipients.Or([]);
    r := line.(truncated := true);
    ghost var marked := r;
    while items != [] && !Fits(r)
      invariant CutItems(marked) == CutItems(r) && items == r.items.Or([]) && recipients == r.recipients.Or([])
      decreases |items|
    {
      items := items[..|items| - 1];
      r := r.(items := Some(items));
    }
    ghost var listed := r;
    while recipients != [] && !Fits(r)
      invariant CutRecipients(listed) == CutRecipients(r) && recipients == r.recipients.Or([])
      decreases |recipients|
    {
      recipients := recipients[..|recipients| - 1];
      r := r.(recipients := Some(recipients));
    }
    if Fits(r) {
      return r;
    }
    r := Shortened(r);
    if Fits(r) {
      return r;
    }
    r := r.(reason := None, query := None, told := None, counts := None);
  }

  // ---------- what is kept ----------

  predicate IsPrefix<T(==)>(a: Option<seq<T>>, b: Option<seq<T>>) {
    (a.Some? <==> b.Some?) && (a.Some? ==> a.value <= b.value)
  }

  // Cutting items drops no more of them than it has to.
  lemma {:induction false} CutItemsKeeps(l: Line)
    ensures var c := CutItems(l);
            && c == l.(items := c.items) && IsPrefix(c.items, l.items)
            && (Fits(c) || c.items.Or([]) == [])
            && (c.items != l.items ==>
                  var n := |c.items.value|;
                  n < |l.items.value| && !Fits(l.(items := Some(l.items.value[..n + 1]))))
    decreases |l.items.Or([])|
  {
    hide Fits;
    if l.items.Or([]) != [] && !Fits(l) {
      var front := l.items.value[..|l.items.value| - 1];
      var less := l.(items := Some(front));
      CutItemsKeeps(less);
      var c := CutItems(l);
      if c.items == less.items {
        assert l.items.value[..|c.items.value| + 1] == l.items.value;
        assert l.(items := Some(l.items.value)) == l;
      } else {
        var n := |c.items.value|;
        assert less.items.value[..n + 1] == l.items.value[..n + 1];
        assert less.(items := Some(less.items.value[..n + 1])) == l.(items := Some(l.items.value[..n + 1]));
      }
    }
  }

  lemma {:induction false} CutRecipientsKeeps(l: Line)
    ensures var c := CutRecipients(l);
            && c == l.(recipients := c.recipients) && IsPrefix(c.recipients, l.recipients)
            && (Fits(c) || c.recipients.Or([]) == [])
    decreases |l.recipients.Or([])|
  {
    hide Fits;
    if l.recipients.Or([]) != [] && !Fits(l) {
      CutRecipientsKeeps(l.(recipients := Some(l.recipients.value[..|l.recipients.value| - 1])));
    }
  }

  // A fitted line lists a prefix of its items and recipients, as many as fit, and keeps the count of all.
  lemma FittedKeeps(l: Line)
    ensures var f := Fitted(l);
            && IsPrefix(f.items, l.items) && IsPrefix(f.recipients, l.recipients) && f.count == l.count
            && f.at == l.at && f.session.key == l.session.key && f.kind == l.kind && f.outcome == l.outcome
            && (!Fits(l) ==> f.truncated)
            && (f.items != l.items ==>
                  var n := |f.items.value|;
                  n < |l.items.value|
                  && !Fits(l.(truncated := true, items := Some(l.items.value[..n + 1]))))
            && (f.recipients != l.recipients ==> f.items.Or([]) == [])
  {
    hide Fits, Shortened;
    if !Fits(l) {
      var marked := l.(truncated := true);
      CutItemsKeeps(marked);
      CutRecipientsKeeps(CutItems(marked));
      ShortenedKeeps(CutRecipients(CutItems(marked)));
    }
  }

  lemma ShortenedKeeps(l: Line)
    ensures var s := Shortened(l);
            && s.items == l.items && s.recipients == l.recipients && s.count == l.count && s.counts == l.counts
            && s.at == l.at && s.session.key == l.session.key && s.kind == l.kind && s.outcome == l.outcome
            && s.truncated == l.truncated && (s.told.Some? <==> l.told.Some?) && (s.query.Some? <==> l.query.Some?)
            && (s.reason.Some? <==> l.reason.Some?)
  {
    hide Cut;
  }

  // ---------- every cut line is bounded ----------

  lemma CutLineBounded(l: Line)
    requires Bounded(l)
    ensures Bounded(CutRecipients(CutItems(l.(truncated := true))))
  {
    var marked := l.(truncated := true);
    CutItemsKeeps(marked);
    CutRecipientsKeeps(CutItems(marked));
    hide Fits, CutItems, CutRecipients, ItemBounded, SessionBounded, IsIsoTime, IsProviderId, IsApprovalRef, CountsBounded;
  }

  lemma ShortIfBounds(t: Option<Text>, max: nat)
    requires max > 0
    ensures Within(ShortIf(t, max), max) && (ShortIf(t, max) == Some([]) <==> t == Some([]))
  {
    if t.Some? { CutBounds(t.value, max); }
  }

  lemma ShortSessionBounded(s: Session)
    requires SessionBounded(s)
    ensures SessionBounded(ShortSession(s)) && SessionShort(ShortSession(s))
  {
    hide Cut, IsSessionKey, IsConnectionRef;
    ShortIfBounds(s.folder, 256);
    if s.client.Some? {
      CutBounds(s.client.value.name, 40);
      ShortIfBounds(s.client.value.version, 20);
    }
    if s.parent.Some? { CutBounds(s.parent.value.name, 40); }
  }

  // How short the words of a line cut to the last are.
  predicate SessionShort(s: Session) {
    && Within(s.folder, 256) && s.ancestors.None?
    && (s.client.Some? ==> |s.client.value.name| <= 40 && Within(s.client.value.version, 20))
    && (s.parent.Some? ==> |s.parent.value.name| <= 40)
  }

  predicate Short(l: Line) {
    && |l.channel| <= 40 && |l.operation| <= 64 && |l.accountId| <= 64 && |l.accountAlias| <= 64
    && SessionShort(l.session) && Within(l.reason, 100) && Within(l.query, 100)
    && (l.told.Some? ==> |l.told.value.rule| <= 60 && |l.told.value.target| <= 60)
  }

  lemma ShortenedBounded(l: Line)
    requires Bounded(l)
    ensures Bounded(Shortened(l)) && Short(Shortened(l))
  {
    hide Cut, SessionBounded, SessionShort, ShortSession, IsIsoTime, IsProviderId, IsApprovalRef, CountsBounded, ItemsBounded,
         TextsBounded, ShortIf;
    ShortSessionBounded(l.session);
    CutBounds(l.channel, 40);
    CutBounds(l.operation, 64);
    CutBounds(l.accountId, 64);
    CutBounds(l.accountAlias, 64);
    ShortIfBounds(l.reason, 100);
    ShortIfBounds(l.query, 100);
    if l.told.Some? {
      CutBounds(l.told.value.rule, 60);
      CutBounds(l.told.value.target, 60);
    }
  }

  // ---------- a shortened line fits ----------

  lemma StrBytes(key: Key, t: Text, max: nat)
    requires !key.Named? && |t| <= max
    ensures OptionalBytes(Str(key, t)) <= 18 + 6 * max
  {
    KnownNamesAreShort(key);
    TextIsBounded(t);
    assert FieldBytes(Field(key, JStr(t))) == |NameOf(key)| + 4 + TextBytes(t);
  }

  lemma StrIfBytes(key: Key, t: Option<Text>, max: nat)
    requires !key.Named? && Within(t, max)
    ensures OptionalBytes(StrIf(key, t)) <= 18 + 6 * max
  {
    if t.Some? { StrBytes(key, t.value, max); }
  }

  predicate Plain(t: Text) {
    forall i | 0 <= i < |t| :: 32 <= t[i] < 128 && t[i] != 34 && t[i] != 92
  }

  // Text of plain characters takes as many bytes as it has characters.
  lemma PlainBytes(key: Key, t: Text)
    requires !key.Named? && Plain(t)
    ensures OptionalBytes(Str(key, t)) <= 18 + |t|
  {
    KnownNamesAreShort(key);
    TextIsBounded(t);
    assert FieldBytes(Field(key, JStr(t))) == |NameOf(key)| + 4 + TextBytes(t);
  }

  lemma IdBytes(key: Key, t: Option<Text>)
    requires !key.Named? && IsId(t)
    ensures OptionalBytes(StrIf(key, t)) <= 18 + ID
  {
    if t.Some? { PlainBytes(key, t.value); }
  }

  lemma NumBytes(key: Key, w: Option<Whole>)
    requires !key.Named?
    ensures OptionalBytes(NumIf(key, w)) <= 16 + 24
  {
    KnownNamesAreShort(key);
    if w.Some? { assert FieldBytes(Field(key, JNum(Is(w.value)))) == |NameOf(key)| + 4 + w.value.digits; }
  }

  // An object, or the lack of one, under a key.
  lemma ObjBytes(key: Key, fields: seq<Field>, max: nat)
    requires !key.Named? && FieldsBytes(fields) <= max
    ensures OptionalBytes(Obj(key, fields)) <= 18 + max
  {
    KnownNamesAreShort(key);
    assert FieldBytes(Field(key, JObj(fields))) == |NameOf(key)| + 4 + Bytes(JObj(fields));
  }

  lemma ClientBytes(c: Client)
    requires |c.name| <= 40 && Within(c.version, 20)
    ensures FieldsBytes(ClientFields(c)) <= 396
  {
    hide OptionalBytes;
    StrBytes(NameKey, c.name, 40);
    StrIfBytes(VersionKey, c.version, 20);
  }

  lemma ParentBytes(p: Parent)
    requires |p.startedAt| <= STARTED_AT && |p.name| <= 40
    ensures FieldsBytes(ParentFields(p)) <= 700
  {
    hide OptionalBytes;
    NumBytes(PidKey, Some(p.pid));
    StrBytes(StartedAtKey, p.startedAt, 64);
    StrBytes(NameKey, p.name, 40);
  }

  lemma ConnectionBytes(c: Connection)
    requires IsConnectionRef(c.id) && |c.name| <= NAME
    ensures FieldsBytes(ConnectionFields(c)) <= 1265
  {
    PlainBytes(IdKey, c.id);
    hide OptionalBytes, IsConnectionRef;
    StrBytes(NameKey, c.name, NAME);
  }

  lemma FolderBytes(folder: Option<Text>)
    requires Within(folder, 256)
    ensures OptionalBytes(Some(Field(FolderKey, if folder.None? then JNull else JStr(folder.value)))) <= 1554
  {
    if folder.Some? { StrBytes(FolderKey, folder.value, 256); }
  }

  lemma ProcessBytes(s: Session)
    requires SessionBounded(s) && SessionShort(s)
    ensures FieldsBytes(ProcessFields(s)) <= 2660
  {
    PlainBytes(KeyKey, s.key);
    hide OptionalBytes, IsSessionKey, IsConnectionRef, ClientFields;
    StrBytes(ProcessKey, s.process, WORD);
    NumBytes(PidKey, Some(s.pid));
    if s.client.Some? { ClientBytes(s.client.value); ObjBytes(ClientKey, ClientFields(s.client.value), 396); }
    NoFieldNoBytes();
    FolderBytes(s.folder);
  }

  lemma NoFieldNoBytes()
    ensures OptionalBytes(None) == 0
  {
  }

  lemma FlagBytes(key: Key, b: bool)
    requires !key.Named?
    ensures OptionalBytes(Some(Field(key, JBool(b)))) <= 22
  {
    KnownNamesAreShort(key);
    assert FieldBytes(Field(key, JBool(b))) == |NameOf(key)| + 4 + Bytes(JBool(b));
  }

  lemma WindowBytes(f: seq<Field>, s: Session)
    requires SessionBounded(s) && SessionShort(s)
    ensures FieldsBytes(WindowFields(f, s)) <= FieldsBytes(f) + 2080
  {
    hide OptionalBytes, IsSessionKey, IsConnectionRef, ParentFields, ConnectionFields;
    if s.parent.Some? { ParentBytes(s.parent.value); ObjBytes(ParentKey, ParentFields(s.parent.value), 700); }
    if s.connection.Some? {
      ConnectionBytes(s.connection.value);
      ObjBytes(ConnectionKey, ConnectionFields(s.connection.value), 1265);
    }
    FlagBytes(GroupedKey, s.grouped);
    NoFieldNoBytes();
    StrBytes(SurfaceKey, SurfaceText(s.surface), 6);
  }

  lemma SessionBytes(s: Session)
    requires SessionBounded(s) && SessionShort(s)
    ensures OptionalBytes(Obj(SessionKey, SessionFields(s))) <= 4760
  {
    hide OptionalBytes, SessionBounded, SessionShort, ProcessFields, WindowFields;
    ProcessBytes(s);
    WindowBytes(ProcessFields(s), s);
    ObjBytes(SessionKey, SessionFields(s), 4740);
  }

  lemma AccountBytes(id: Text, alias: Text)
    requires |id| <= 64 && |alias| <= 64
    ensures OptionalBytes(Obj(AccountKey, AccountFields(id, alias))) <= 822
  {
    hide OptionalBytes;
    StrBytes(IdKey, id, 64);
    StrBytes(AliasKey, alias, 64);
    ObjBytes(AccountKey, AccountFields(id, alias), 804);
  }

  lemma IsoIsPlain(t: Text)
    requires IsIsoTime(t)
    ensures Plain(t)
  {
  }

  lemma HeadBytes(l: Line)
    requires WordsBounded(l) && Short(l)
    ensures FieldsBytes(HeadFields(l)) <= 7200
  {
    IsoIsPlain(l.at);
    PlainBytes(AtKey, l.at);
    hide OptionalBytes, SessionBounded, SessionShort, SessionFields, AccountFields, IsIsoTime, Plain, KindText, OutcomeText;
    StrBytes(ChannelKey, l.channel, 40);
    AccountBytes(l.accountId, l.accountAlias);
    StrBytes(OperationKey, l.operation, 64);
    WordBytes(l);
    StrIfBytes(ReasonKey, l.reason, 100);
    SessionBytes(l.session);
    NumBytes(MsKey, Some(l.ms));
  }

  lemma WordBytes(l: Line)
    ensures OptionalBytes(Str(KindKey, KindText(l.kind))) <= 66 && OptionalBytes(Str(OutcomeKey, OutcomeText(l.outcome))) <= 60
  {
    hide OptionalBytes;
    StrBytes(KindKey, KindText(l.kind), 8);
    StrBytes(OutcomeKey, OutcomeText(l.outcome), 7);
  }

  lemma {:induction false} CountsBytes(counts: seq<Named>)
    requires CountsBounded(counts)
    ensures FieldsBytes(CountFields(counts)) <= 60 * |counts|
  {
    if counts != [] {
      var front := counts[..|counts| - 1];
      CountsBytes(front);
      assert CountFields(counts)[..|CountFields(counts)| - 1] == CountFields(front);
      OneCountBytes(counts[|counts| - 1]);
      hide FieldBytes, CountsBounded;
    }
  }

  lemma OneCountBytes(n: Named)
    requires IsCountName(NameOf(n.name))
    ensures FieldBytes(Field(n.name, JNum(Is(n.count)))) <= 60
  {
  }

  lemma EmptyListBytes(key: Key)
    requires !key.Named?
    ensures OptionalBytes(Some(Field(key, JArr([])))) <= 18
  {
    KnownNamesAreShort(key);
    hide NameOf;
  }

  lemma TouchedBytes(head: seq<Field>, l: Line)
    requires ListsBounded(l) && Short(l) && l.items.Or([]) == [] && l.recipients.Or([]) == []
    ensures FieldsBytes(TouchedFields(head, l)) <= FieldsBytes(head) + 1400
  {
    hide OptionalBytes, SessionShort, CountsBounded, CountFields;
    EmptyListBytes(ItemsKey);
    EmptyListBytes(RecipientsKey);
    NumBytes(CountKey, l.count);
    if l.counts.Some? {
      CountsBytes(l.counts.value);
      ObjBytes(CountsKey, CountFields(l.counts.value), 600);
    }
    StrIfBytes(QueryKey, l.query, 100);
    NoFieldNoBytes();
  }

  lemma ApprovalBytes(t: Option<Text>)
    requires t.Some? ==> IsApprovalRef(t.value)
    ensures OptionalBytes(StrIf(ApprovalIdKey, t)) <= 82
  {
    if t.Some? { PlainBytes(ApprovalIdKey, t.value); }
  }

  lemma ToldBytes(t: Told)
    requires |t.rule| <= 60 && |t.target| <= 60
    ensures FieldsBytes(ToldFields(t)) <= 756
  {
    hide OptionalBytes;
    StrBytes(RuleKey, t.rule, 60);
    StrBytes(TargetKey, t.target, 60);
  }

  lemma ReplyToBytes(r: ReplyTo)
    requires IsProviderId(r.messageId) && IsId(r.threadId)
    ensures FieldsBytes(ReplyToFields(r)) <= 436
  {
    IdBytes(MessageIdKey, Some(r.messageId));
    IdBytes(ThreadIdKey, r.threadId);
    hide OptionalBytes;
  }

  lemma ReplyFieldsBytes(f: seq<Field>, l: Line)
    requires LinksBounded(l) && Short(l)
    ensures FieldsBytes(ReplyFields(f, l)) <= FieldsBytes(f) + 1528
  {
    hide OptionalBytes, SessionShort, IsProviderId, IsApprovalRef, ToldFields, ReplyToFields;
    ApprovalBytes(l.approvalId);
    if l.told.Some? { ToldBytes(l.told.value); ObjBytes(ToldKey, ToldFields(l.told.value), 756); }
    if l.replyTo.Some? { ReplyToBytes(l.replyTo.value); ObjBytes(ReplyToKey, ReplyToFields(l.replyTo.value), 436); }
    IdBytes(DraftIdKey, l.draftId);
    NoFieldNoBytes();
  }

  lemma ThreadBytes(t: Option<Thread>)
    requires t.Some? && t.value.InThread? ==> IsProviderId(t.value.id)
    ensures OptionalBytes(JsonIf(ThreadKey, ThreadJson(t))) <= 18 + ID
  {
    if t.Some? && t.value.InThread? { IdBytes(ThreadKey, Some(t.value.id)); }
  }

  lemma PlaceFieldsBytes(f: seq<Field>, l: Line)
    requires LinksBounded(l)
    ensures FieldsBytes(PlaceFields(f, l)) <= FieldsBytes(f) + 654
  {
    hide OptionalBytes, IsProviderId, IsApprovalRef, ThreadJson;
    IdBytes(ThreadIdKey, l.threadId);
    IdBytes(ChannelIdKey, l.channelId);
    ThreadBytes(l.thread);
  }

  lemma LastFieldsBytes(f: seq<Field>, l: Line)
    ensures FieldsBytes(LastFields(f, l)) <= FieldsBytes(f) + 90
  {
    hide OptionalBytes;
    if l.act.Some? { StrBytes(ActKey, ActText(l.act.value), 8); }
    FlagBytes(TruncatedKey, true);
    NoFieldNoBytes();
  }

  // Once items and recipients are gone and the words short, a line always fits: the words are never dropped.
  lemma ShortLineFits(l: Line)
    requires Bounded(l) && Short(l) && l.items.Or([]) == [] && l.recipients.Or([]) == []
    ensures Fits(l)
  {
    hide HeadFields, TouchedFields, ReplyFields, PlaceFields, LastFields, WordsBounded, ListsBounded, LinksBounded, Short,
         FieldsBytes;
    HeadBytes(l);
    TouchedBytes(HeadFields(l), l);
    var touched := TouchedFields(HeadFields(l), l);
    ReplyFieldsBytes(touched, l);
    PlaceFieldsBytes(ReplyFields(touched, l), l);
    LastFieldsBytes(PlaceFields(ReplyFields(touched, l), l), l);
  }

  // ---------- the line as it is written ----------

  function ActivityLineOf(raw: seq<Field>, here: Here): Line {
    Fitted(BoundedLine(raw, here))
  }

  lemma FittedFits(l: Line)
    requires Bounded(l)
    ensures Fits(Fitted(l)) && Bounded(Fitted(l))
    // The last resort is never reached: what was told, asked and counted is kept, if shortened.
    ensures Fitted(l).counts == l.counts && (Fitted(l).told.Some? <==> l.told.Some?)
    ensures (Fitted(l).query.Some? <==> l.query.Some?) && (Fitted(l).reason.Some? <==> l.reason.Some?)
  {
    hide Fits, Bounded, Short, Shortened;
    if !Fits(l) {
      var marked := l.(truncated := true);
      var listed := CutRecipients(CutItems(marked));
      CutItemsKeeps(marked);
      CutRecipientsKeeps(CutItems(marked));
      CutLineBounded(l);
      if !Fits(listed) {
        ShortenedBounded(listed);
        ShortenedKeeps(listed);
        ShortLineFits(Shortened(listed));
      }
    }
  }

  // Whatever it is given, a line is written whole in at most sixteen kibibytes.
  lemma EveryLineFits(raw: seq<Field>, here: Here)
    requires HereOk(here)
    ensures LineBytes(ActivityLineOf(raw, here)) <= MAX_LINE_BYTES && Bounded(ActivityLineOf(raw, here))
  {
    hide BoundedLine, Bounded, Fitted, LineBytes, HereOk;
    BoundedLineIsBounded(raw, here);
    FittedFits(BoundedLine(raw, here));
  }

  // The items of a list are its members' that have one, in their order.
  lemma {:induction false} ItemsOfConcat(a: seq<Json>, b: seq<Json>)
    ensures ItemsOf(a + b) == ItemsOf(a) + ItemsOf(b)
  {
    hide ItemOf;
    if b == [] {
      assert a + b == a;
    } else {
      ItemsOfConcat(a, b[..|b| - 1]);
      assert (a + b)[..|a + b| - 1] == a + b[..|b| - 1];
    }
  }

  lemma ItemsOfOne(j: Json)
    ensures ItemsOf([j]) == if ItemOf(j).Some? then [ItemOf(j).value] else []
    ensures ItemOf(j).Some? <==> j.JObj? && Get(j.fields, IdKey).Some? && Get(j.fields, IdKey).value.JStr?
  {
    assert [j][..0] == [];
  }

  // Its items are those of the first fifty given, or of fewer; its count is how many were given, or the larger count
  // that came with them, however many of them are left; and without a list, it is the count that came.
  lemma EveryLineCounts(raw: seq<Field>, here: Here)
    ensures var l := ActivityLineOf(raw, here);
            var given := ListOf(Get(raw, ItemsKey));
            var counted := WholeOf(Get(raw, CountKey));
            && (l.items.Some? <==> given.Some?)
            && (given.None? ==> l.count == counted)
            && (given.Some? ==>
                  && l.items.value <= ItemsOf(given.value[..if |given.value| < 50 then |given.value| else 50])
                  && (!l.truncated ==> l.items.value == ItemsOf(given.value[..if |given.value| < 50 then |given.value| else 50]))
                  && l.count.Some?
                  && (counted.Some? && counted.value.value > |given.value| ==> l.count.value.value == counted.value.value)
                  && (counted.None? || counted.value.value <= |given.value| ==> l.count.value.value == |given.value|))
  {
    hide Fitted, Fits, Cut, CutOf, Get, WholeOf, SessionOf, ItemsOf, CountsOf, StringsOf, ToldOf, ReplyToOf, ThreadOf, ActOf,
         KindOf, OutcomeOf, ProviderIdOf, IsIsoTime, IsApprovalRef, WholeOfLength;
    FittedKeeps(BoundedLine(raw, here));
    UncutIsWhole(BoundedLine(raw, here));
    var given := ListOf(Get(raw, ItemsKey));
    if given.Some? {
      LengthIsItsValue(|given.value|);
      assert FirstOf(given.value, MAX_ITEMS) == given.value[..if |given.value| < 50 then |given.value| else 50];
    }
  }

  lemma UncutIsWhole(l: Line)
    ensures !Fitted(l).truncated ==> Fitted(l) == l
  {
    hide Fits, Shortened;
    if !Fits(l) { FittedKeeps(l); }
  }

  lemma LengthIsItsValue(n: nat)
    ensures WholeOfLength(n).value == n
  {
  }

  function PowerOfTen(n: nat): nat {
    if n == 0 then 1 else 10 * PowerOfTen(n - 1)
  }

  // A length is counted with as many digits as it is written in.
  lemma {:induction false} DigitsAreWritten(n: nat)
    ensures Digits(n) < 24 ==> n < PowerOfTen(Digits(n)) && (n > 0 ==> PowerOfTen(Digits(n) - 1) <= n)
  {
    if n >= 10 { DigitsAreWritten(n / 10); }
  }

  // ---------- reading back ----------

  // A file's line, parsed: one with a time and a session key, rebuilt as it was written; anything else is not one.
  function ReadBack(j: Json, here: Here): Option<Line> {
    if !j.JObj? then None
    else
      var at := StringOf(Get(j.fields, AtKey));
      var session := ObjectOf(Get(j.fields, SessionKey));
      var key := StringOf(Get(session.Or([]), KeyKey));
      if at.None? || !IsIsoTime(at.value) || key.None? || !IsSessionKey(key.value) then None
      else Some(ActivityLineOf(j.fields, here))
  }

  lemma BoundedLineIsALine(l: Line, here: Here)
    requires Bounded(l)
    ensures ReadBack(ToJson(l), here) == Some(ActivityLineOf(LineFields(l), here))
  {
    hide Fitted, BoundedLine, Get, SessionFields, IsIsoTime, IsSessionKey, LineFields;
    LineFieldsAt(l, AtKey);
    LineFieldsAt(l, SessionKey);
    SessionFieldsAt(l.session, KeyKey);
  }

  // Every written line, truncated or not, reads back as itself, whenever and wherever it is read.
  lemma WrittenLineReadsBack(raw: seq<Field>, here: Here, later: Here)
    requires HereOk(here)
    ensures var l := ActivityLineOf(raw, here);
            ActivityLineOf(LineFields(l), later) == l && ReadBack(ToJson(l), later) == Some(l)
  {
    hide BoundedLine, Bounded, LineBytes, LineFields, HereOk, ReadBack;
    var l := ActivityLineOf(raw, here);
    EveryLineFits(raw, here);
    BoundedLineReadsBack(l, later);
    BoundedLineIsALine(l, later);
  }
}
