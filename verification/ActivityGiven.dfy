/**
  What a line of the activity log keeps of what it was given, field by field (packages/core/src/activity.ts,
  `boundedLine`): each text whole up to its bound and shortened past it, and what it says where nothing fit was given.
  */
module ActivityGiven {
  import opened Wrappers
  import opened ActivityText
  import opened ActivityLine
  import opened ActivityBounds
  import opened ActivityFitted

  // What is kept of a value that should be a text: nothing of any other.
  function Kept(j: Option<Json>, max: nat): Option<Text>
    requires max > 0
  {
    if j.None? || !j.value.JStr? then None
    else if |j.value.t| <= max then Some(j.value.t)
    else Some(j.value.t[..max - 1] + [ELLIPSIS])
  }

  // A number at least zero, whole.
  predicate IsWhole(j: Option<Json>, w: Whole) {
    j.Some? && (j.value == JNum(Is(w)) || j.value == JNum(Rounds(w)))
  }

  predicate IsText(j: Option<Json>, s: string) {
    j == Some(JStr(Ascii(s)))
  }

  lemma CutIsKept(j: Option<Json>, max: nat)
    requires max > 0
    ensures CutOf(j, max) == Kept(j, max)
  {
    if j.Some? && j.value.JStr? { CutIsShorten(j.value.t, max); }
  }

  lemma WholeIsKept(j: Option<Json>)
    ensures forall w: Whole :: WholeOf(j) == Some(w) <==> IsWhole(j, w)
    ensures WholeOf(j).Some? <==> j.Some? && j.value.JNum? && !j.value.n.NoWhole?
  {
  }

  lemma Words()
    ensures Ascii("read") != Ascii("write") && Ascii("told") != Ascii("write") && Ascii("approval") != Ascii("write")
    ensures Ascii("approval") != Ascii("told") && Ascii("refused") != Ascii("failed") && Ascii("reply") != Ascii("reaction")
    ensures Ascii("cli") != Ascii("daemon")
  {
    assert Ascii("read")[0] == 114 && Ascii("told")[0] == 116 && Ascii("write")[0] == 119 && Ascii("approval")[0] == 97;
    assert Ascii("refused")[0] == 114 && Ascii("failed")[0] == 102 && |Ascii("reply")| == 5 && |Ascii("reaction")| == 8;
    assert |Ascii("cli")| == 3 && |Ascii("daemon")| == 6;
  }

  // Digits where the shape has a `d`, and else its own characters.
  predicate HasShape(t: Text, shape: string) {
    |t| == |shape| && forall i | 0 <= i < |t| :: if shape[i] == 'd' then 48 <= t[i] <= 57 else t[i] == shape[i] as nat
  }

  lemma TimesAre(t: Text)
    ensures IsIsoTime(t) <==> HasShape(t, "dddd-dd-ddTdd:dd:dd.dddZ")
  {
  }

  // A provider's id is of letters, digits and a few marks, so a link holds no space and no markup.
  lemma IdsAre(t: Text)
    ensures IsProviderId(t) <==>
            && 1 <= |t| <= 200
            && forall i | 0 <= i < |t| ::
                 48 <= t[i] <= 57 || 65 <= t[i] <= 90 || 97 <= t[i] <= 122 || t[i] in Ascii("._:/@+=-")
  {
    assert Ascii("._:/@+=-") == [46, 95, 58, 47, 64, 43, 61, 45];
  }

  // ---------- a line ----------

  // Its time is the one given, or now; its kind and outcome are what was said, a read that went well if nothing was.
  lemma WordsAsGiven(raw: seq<Field>, here: Here)
    ensures var l := BoundedLine(raw, here);
            var at := Get(raw, AtKey);
            && l.at == (if at.Some? && at.value.JStr? && IsIsoTime(at.value.t) then at.value.t else here.now)
            && (l.kind == WriteLine <==> IsText(Get(raw, KindKey), "write"))
            && (l.kind == ToldLine <==> IsText(Get(raw, KindKey), "told"))
            && (l.kind == ApprovalLine <==> IsText(Get(raw, KindKey), "approval"))
            && (l.outcome == RefusedLine <==> IsText(Get(raw, OutcomeKey), "refused"))
            && (l.outcome == FailedLine <==> IsText(Get(raw, OutcomeKey), "failed"))
            && (l.act == Some(ReplyAct) <==> IsText(Get(raw, ActKey), "reply"))
            && (l.act == Some(ReactionAct) <==> IsText(Get(raw, ActKey), "reaction"))
            && (l.truncated <==> Get(raw, TruncatedKey) == Some(JBool(true)))
  {
    Words();
    hide Ascii, Get, CutOf, WholeOf, SessionOf, ItemsOf, CountsOf, StringsOf, ToldOf, ReplyToOf, ThreadOf, ProviderIdOf,
         IsIsoTime, IsApprovalRef, CountOf;
  }

  // Its texts are those given, each up to its bound.
  lemma TextsAsGiven(raw: seq<Field>, here: Here)
    ensures var l := BoundedLine(raw, here);
            var account := if Get(raw, AccountKey).Some? && Get(raw, AccountKey).value.JObj?
                           then Get(raw, AccountKey).value.fields else [];
            && l.channel == Kept(Get(raw, ChannelKey), 100).Or([])
            && l.operation == Kept(Get(raw, OperationKey), 100).Or([])
            && l.accountId == Kept(Get(account, IdKey), 128).Or([])
            && l.accountAlias == Kept(Get(account, AliasKey), 128).Or([])
            && l.reason == (if Kept(Get(raw, ReasonKey), 300) == Some([]) then None else Kept(Get(raw, ReasonKey), 300))
            && l.query == Kept(Get(raw, QueryKey), 500)
            && (l.ms == ZERO || IsWhole(Get(raw, MsKey), l.ms))
            && (forall w: Whole :: IsWhole(Get(raw, MsKey), w) ==> l.ms == w)
            && l.session == SessionOf(Get(raw, SessionKey), here)
  {
    var account := FieldsOf(Get(raw, AccountKey));
    CutIsKept(Get(raw, ChannelKey), 100);
    CutIsKept(Get(raw, OperationKey), 100);
    CutIsKept(Get(account, IdKey), 128);
    CutIsKept(Get(account, AliasKey), 128);
    CutIsKept(Get(raw, ReasonKey), 300);
    CutIsKept(Get(raw, QueryKey), 500);
    WholeIsKept(Get(raw, MsKey));
    hide Get, CutOf, Kept, WholeOf, SessionOf, ItemsOf, CountsOf, StringsOf, ToldOf, ReplyToOf, ThreadOf, ProviderIdOf, IsIsoTime,
         IsApprovalRef, KindOf, OutcomeOf, ActOf, CountOf, IsWhole;
  }

  // A link is a provider's id, or is left out: never shortened.
  lemma LinksAsGiven(raw: seq<Field>, here: Here)
    ensures var l := BoundedLine(raw, here);
            && IsLink(Get(raw, DraftIdKey), l.draftId) && IsLink(Get(raw, ThreadIdKey), l.threadId)
            && IsLink(Get(raw, ChannelIdKey), l.channelId)
            && l.told == ToldOf(Get(raw, ToldKey)) && l.replyTo == ReplyToOf(Get(raw, ReplyToKey))
            && (l.thread == Some(NoThread) <==> Get(raw, ThreadKey) == Some(JNull))
            && (l.thread.Some? && l.thread.value.InThread? ==> IsLink(Get(raw, ThreadKey), Some(l.thread.value.id)))
            && (l.thread.None? ==> Get(raw, ThreadKey) != Some(JNull) && IsLink(Get(raw, ThreadKey), None))
            && (l.approvalId.Some? ==>
                  Get(raw, ApprovalIdKey) == Some(JStr(l.approvalId.value)) && IsApprovalRef(l.approvalId.value))
            && (forall t :: Get(raw, ApprovalIdKey) == Some(JStr(t)) && IsApprovalRef(t) ==> l.approvalId == Some(t))
  {
    hide Get, CutOf, WholeOf, SessionOf, ItemsOf, CountsOf, StringsOf, ToldOf, ReplyToOf, IsProviderId, IsIsoTime, IsApprovalRef,
         KindOf, OutcomeOf, ActOf, CountOf;
  }

  predicate IsLink(j: Option<Json>, link: Option<Text>) {
    if j.Some? && j.value.JStr? && IsProviderId(j.value.t) then link == Some(j.value.t) else link.None?
  }

  // ---------- an item, a session ----------

  lemma ItemAsGiven(j: Json)
    requires ItemOf(j).Some?
    ensures j.JObj?
    ensures var i := ItemOf(j).value;
            var sender := if Get(j.fields, FromKey).Some? && Get(j.fields, FromKey).value.JObj?
                          then Get(j.fields, FromKey).value.fields else [];
            && Some(i.id) == Kept(Get(j.fields, IdKey), 200) && i.subject == Kept(Get(j.fields, SubjectKey), 200)
            && i.name == Kept(Get(j.fields, NameKey), 255) && i.conversation == Kept(Get(j.fields, ConversationKey), 200)
            && (forall w: Whole :: i.size == Some(w) <==> IsWhole(Get(j.fields, SizeKey), w))
            && (i.from.Some? ==>
                  && i.from.value.name == Kept(Get(sender, NameKey), 200)
                  && i.from.value.address == Kept(Get(sender, AddressKey), 320))
            && (i.from.None? ==> Kept(Get(sender, NameKey), 200).None? && Kept(Get(sender, AddressKey), 320).None?)
  {
    CutIsKept(Get(j.fields, IdKey), 200);
    CutIsKept(Get(j.fields, SubjectKey), 200);
    CutIsKept(Get(j.fields, NameKey), 255);
    CutIsKept(Get(j.fields, ConversationKey), 200);
    WholeIsKept(Get(j.fields, SizeKey));
    var sender := FieldsOf(Get(j.fields, FromKey));
    CutIsKept(Get(sender, NameKey), 200);
    CutIsKept(Get(sender, AddressKey), 320);
    NoneOfNothing(NameKey);
    NoneOfNothing(AddressKey);
    hide Get, CutOf, Kept, WholeOf, IsWhole;
  }

  lemma NoneOfNothing(key: Key)
    ensures Get([], key) == None && Kept(None, 200) == None && Kept(None, 320) == None
  {
  }

  // A session key given is kept, and only then may the line be grouped; else the line stands alone, under a fresh one.
  lemma SessionAsGiven(j: Option<Json>, here: Here)
    ensures var s := SessionOf(j, here);
            var given := if j.Some? && j.value.JObj? then j.value.fields else [];
            var key := Get(given, KeyKey);
            && (if key.Some? && key.value.JStr? && IsSessionKey(key.value.t)
                then s.key == key.value.t && (s.grouped <==> Get(given, GroupedKey) == Some(JBool(true)))
                else s.key == here.freshKey && !s.grouped)
            && s.process == Kept(Get(given, ProcessKey), 100).Or(here.processId)
            && s.folder == Kept(Get(given, FolderKey), 4096)
            && (s.surface == Cli <==> IsText(Get(given, SurfaceKey), "cli"))
            && (s.surface == Daemon <==> IsText(Get(given, SurfaceKey), "daemon"))
  {
    var given := FieldsOf(j);
    CutIsKept(Get(given, ProcessKey), 100);
    CutIsKept(Get(given, FolderKey), 4096);
    SurfaceAsGiven(Get(given, SurfaceKey));
    hide Get, CutOf, Kept, WholeOf, IsText, ClientOf, ParentOf, ConnectionOf, StringsOf, IsSessionKey, SurfaceOf, FirstOf;
  }

  lemma SurfaceAsGiven(j: Option<Json>)
    ensures SurfaceOf(j) == Cli <==> IsText(j, "cli")
    ensures SurfaceOf(j) == Daemon <==> IsText(j, "daemon")
  {
    Words();
    hide Ascii;
  }

  // Which process, and who asked: a client with a name, a connection with an id that is one and a name, a parent with a
  // start.
  lemma CallerAsGiven(j: Option<Json>, here: Here)
    ensures var s := SessionOf(j, here);
            var given := if j.Some? && j.value.JObj? then j.value.fields else [];
            && IsClient(ObjectAt(given, ClientKey), s.client)
            && IsConnection(ObjectAt(given, ConnectionKey), s.connection)
            && IsParent(ObjectAt(given, ParentKey), s.parent)
            && (s.pid == ZERO || IsWhole(Get(given, PidKey), s.pid))
            && (forall w: Whole :: IsWhole(Get(given, PidKey), w) ==> s.pid == w)
  {
    var given := FieldsOf(j);
    ClientAsGiven(Get(given, ClientKey));
    ConnectionAsGiven(Get(given, ConnectionKey));
    ParentAsGiven(Get(given, ParentKey));
    WholeIsKept(Get(given, PidKey));
    hide Get, CutOf, Kept, WholeOf, IsWhole, SurfaceOf, StringsOf, IsSessionKey, FirstOf, ClientOf, ConnectionOf, ParentOf,
         IsClient, IsConnection, IsParent;
  }

  lemma ClientAsGiven(j: Option<Json>)
    ensures IsClient(FieldsOf(j), ClientOf(j))
  {
    CutIsKept(Get(FieldsOf(j), NameKey), 100);
    CutIsKept(Get(FieldsOf(j), VersionKey), 64);
    hide Get, CutOf, Kept;
  }

  lemma ConnectionAsGiven(j: Option<Json>)
    ensures IsConnection(FieldsOf(j), ConnectionOf(j))
  {
    CutIsKept(Get(FieldsOf(j), NameKey), 200);
    hide Get, CutOf, Kept, IsConnectionRef;
  }

  lemma ParentAsGiven(j: Option<Json>)
    ensures IsParent(FieldsOf(j), ParentOf(j))
  {
    CutIsKept(Get(FieldsOf(j), StartedAtKey), 64);
    CutIsKept(Get(FieldsOf(j), NameKey), 100);
    WholeIsKept(Get(FieldsOf(j), PidKey));
    hide Get, CutOf, Kept, WholeOf;
  }

  function ObjectAt(fields: seq<Field>, key: Key): seq<Field> {
    if Get(fields, key).Some? && Get(fields, key).value.JObj? then Get(fields, key).value.fields else []
  }

  predicate IsClient(given: seq<Field>, client: Option<Client>) {
    var name := Kept(Get(given, NameKey), 100);
    var version := Kept(Get(given, VersionKey), 64);
    if name.None? || name == Some([]) then client.None?
    else client.Some? && Some(client.value.name) == name
         && client.value.version == if version == Some([]) then None else version
  }

  predicate IsConnection(given: seq<Field>, connection: Option<Connection>) {
    var id := Get(given, IdKey);
    var name := Kept(Get(given, NameKey), 200);
    if id.Some? && id.value.JStr? && IsConnectionRef(id.value.t) && name.Some? && name != Some([])
    then connection == Some(Connection(id.value.t, name.value))
    else connection.None?
  }

  ghost predicate IsParent(given: seq<Field>, parent: Option<Parent>) {
    var startedAt := Kept(Get(given, StartedAtKey), 64);
    if parent.Some?
    then IsWhole(Get(given, PidKey), parent.value.pid) && Some(parent.value.startedAt) == startedAt
         && parent.value.name == Kept(Get(given, NameKey), 100).Or([])
    else startedAt.None? || forall w: Whole :: !IsWhole(Get(given, PidKey), w)
  }

  // ---------- the lists ----------

  // The strings of a list, in their order, each up to its bound.
  lemma {:induction false} StringsOfConcat(a: seq<Json>, b: seq<Json>, max: nat)
    requires max > 0
    ensures StringsOf(a + b, max) == StringsOf(a, max) + StringsOf(b, max)
  {
    hide Cut;
    if b == [] {
      assert a + b == a;
    } else {
      StringsOfConcat(a, b[..|b| - 1], max);
      assert (a + b)[..|a + b| - 1] == a + b[..|b| - 1];
    }
  }

  lemma StringsOfOne(j: Json, max: nat)
    requires max > 0
    ensures StringsOf([j], max) == if j.JStr? then [Kept(Some(j), max).value] else []
  {
    CutIsKept(Some(j), max);
    hide Cut, Kept;
    assert [j][..0] == [];
  }

  // The counts of a list with a name and a whole number each, in their order.
  lemma {:induction false} CountsOfConcat(a: seq<Field>, b: seq<Field>)
    ensures CountsOf(a + b) == CountsOf(a) + CountsOf(b)
  {
    hide IsCountName, NameOf, WholeOf;
    if b == [] {
      assert a + b == a;
    } else {
      CountsOfConcat(a, b[..|b| - 1]);
      assert (a + b)[..|a + b| - 1] == a + b[..|b| - 1];
    }
  }

  lemma CountsOfOne(f: Field)
    ensures |CountsOf([f])| <= 1
    ensures |CountsOf([f])| == 1 <==> IsCountName(NameOf(f.key)) && f.value.JNum? && !f.value.n.NoWhole?
    ensures |CountsOf([f])| == 1 ==> CountsOf([f])[0].name == f.key && IsWhole(Some(f.value), CountsOf([f])[0].count)
  {
    hide IsCountName, NameOf;
    assert [f][..0] == [];
  }

  // The first of a list, or all of a shorter one.
  function First<T>(s: seq<T>, n: nat): seq<T> {
    s[..if |s| < n then |s| else n]
  }

  lemma FirstOfIsFirst<T>(s: seq<T>, n: nat)
    ensures FirstOf(s, n) == First(s, n)
  {
  }

  // Who it went to, and what it counted: the first fifty, the first ten.
  lemma RecipientsAsGiven(raw: seq<Field>, here: Here)
    ensures var l := BoundedLine(raw, here);
            var given := Get(raw, RecipientsKey);
            && (l.recipients.Some? <==> given.Some? && given.value.JArr?)
            && (l.recipients.Some? ==> l.recipients.value == StringsOf(First(given.value.items, 50), 320))
  {
    var given := Get(raw, RecipientsKey);
    if given.Some? && given.value.JArr? { FirstOfIsFirst(given.value.items, 50); }
    hide Get, CutOf, WholeOf, StringsOf, SessionOf, ItemsOf, CountsOf, ToldOf, ReplyToOf, ThreadOf, ProviderIdOf, IsIsoTime,
         IsApprovalRef, KindOf, OutcomeOf, ActOf, CountOf, FirstOf;
  }

  lemma CountsAsGiven(raw: seq<Field>, here: Here)
    ensures var l := BoundedLine(raw, here);
            var counts := Get(raw, CountsKey);
            && (l.counts.Some? <==> counts.Some? && counts.value.JObj? && CountsOf(counts.value.fields) != [])
            && (l.counts.Some? ==> l.counts.value == First(CountsOf(counts.value.fields), 10))
  {
    var counts := Get(raw, CountsKey);
    if counts.Some? && counts.value.JObj? { FirstOfIsFirst(CountsOf(counts.value.fields), 10); }
    hide Get, CutOf, WholeOf, StringsOf, SessionOf, ItemsOf, CountsOf, ToldOf, ReplyToOf, ThreadOf, ProviderIdOf, IsIsoTime,
         IsApprovalRef, KindOf, OutcomeOf, ActOf, CountOf, FirstOf;
  }

  // What ran above it: the nearest three.
  lemma AncestorsAsGiven(j: Option<Json>, here: Here)
    ensures var s := SessionOf(j, here);
            var above := Get(if j.Some? && j.value.JObj? then j.value.fields else [], AncestorsKey);
            && (s.ancestors.Some? <==> above.Some? && above.value.JArr?)
            && (s.ancestors.Some? ==> s.ancestors.value == StringsOf(First(above.value.items, 3), 100))
  {
    var above := Get(FieldsOf(j), AncestorsKey);
    if above.Some? && above.value.JArr? { FirstOfIsFirst(above.value.items, 3); }
    hide Get, CutOf, WholeOf, SurfaceOf, StringsOf, IsSessionKey, ClientOf, ParentOf, ConnectionOf, FirstOf;
  }

  // What was told, by which rule and to whom; and what is answered.
  lemma ToldAsGiven(j: Option<Json>)
    ensures ToldOf(j).Some? <==> j.Some? && j.value.JObj?
    ensures ToldOf(j).Some? ==>
              && ToldOf(j).value.rule == Kept(Get(j.value.fields, RuleKey), 200).Or([])
              && ToldOf(j).value.target == Kept(Get(j.value.fields, TargetKey), 200).Or([])
  {
    CutIsKept(Get(FieldsOf(j), RuleKey), 200);
    CutIsKept(Get(FieldsOf(j), TargetKey), 200);
    hide Get, CutOf, Kept;
  }

  lemma ReplyAsGiven(j: Option<Json>)
    ensures var given := if j.Some? && j.value.JObj? then j.value.fields else [];
            && (ReplyToOf(j).Some? ==>
                  && IsLink(Get(given, MessageIdKey), Some(ReplyToOf(j).value.messageId))
                  && IsLink(Get(given, ThreadIdKey), ReplyToOf(j).value.threadId))
            && (ReplyToOf(j).None? ==> IsLink(Get(given, MessageIdKey), None))
  {
    hide Get, IsProviderId;
  }

  // ---------- shortened to fit ----------

  // The words of a line cut to the last are those it had, up to a shorter bound each; its item, recipient and other
  // counts, links, kind, outcome and time are untouched.
  lemma ShortenedAsItWas(l: Line)
    ensures var s := Shortened(l);
            && s == l.(channel := s.channel, operation := s.operation, accountId := s.accountId,
                       accountAlias := s.accountAlias, session := s.session, reason := s.reason, query := s.query,
                       told := s.told)
            && s.channel == Shorten(l.channel, 40) && s.operation == Shorten(l.operation, 64)
            && s.accountId == Shorten(l.accountId, 64) && s.accountAlias == Shorten(l.accountAlias, 64)
            && ShortenedTo(l.reason, 100, s.reason) && ShortenedTo(l.query, 100, s.query)
            && (s.told.Some? <==> l.told.Some?)
            && (l.told.Some? ==> s.told.value == Told(Shorten(l.told.value.rule, 60), Shorten(l.told.value.target, 60)))
            && s.session == l.session.(folder := s.session.folder, client := s.session.client, parent := s.session.parent,
                                       ancestors := None)
            && ShortenedTo(l.session.folder, 256, s.session.folder)
            && (s.session.client.Some? <==> l.session.client.Some?)
            && (l.session.client.Some? ==>
                  && s.session.client.value.name == Shorten(l.session.client.value.name, 40)
                  && ShortenedTo(l.session.client.value.version, 20, s.session.client.value.version))
            && (s.session.parent.Some? <==> l.session.parent.Some?)
            && (l.session.parent.Some? ==>
                  s.session.parent.value == l.session.parent.value.(name := Shorten(l.session.parent.value.name, 40)))
  {
    forall t: Text, max: nat | max > 0 { CutIsShorten(t, max); }
    hide Cut, Shorten;
  }

  predicate ShortenedTo(was: Option<Text>, max: nat, short: Option<Text>)
    requires max > 0
  {
    short == if was.None? then None else Some(Shorten(was.value, max))
  }
}
