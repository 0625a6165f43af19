/**
  What a bounded line is, that `boundedLine` always gives one, and that reading a bounded line back, as it is written,
  gives that line: the bounds are the ones the cuts leave, so nothing is cut twice.
  */
module ActivityBounds {
  import opened Wrappers
  import opened ActivityText
  import opened ActivityLine

  predicate Within(t: Option<Text>, max: nat) {
    t.Some? ==> |t.value| <= max
  }

  predicate IsId(t: Option<Text>) {
    t.Some? ==> IsProviderId(t.value)
  }

  predicate ItemBounded(i: Item) {
    && |i.id| <= ID && Within(i.subject, SUBJECT) && Within(i.name, FILE_NAME) && Within(i.conversation, CONVERSATION)
    && (i.from.Some? ==>
          && Within(i.from.value.name, NAME) && Within(i.from.value.address, ADDRESS)
          && (i.from.value.name.Some? || i.from.value.address.Some?))
  }

  predicate TextsBounded(texts: seq<Text>, max: nat) {
    forall i | 0 <= i < |texts| :: |texts[i]| <= max
  }

  predicate ItemsBounded(items: seq<Item>) {
    forall i | 0 <= i < |items| :: ItemBounded(items[i])
  }

  predicate CountsBounded(counts: seq<Named>) {
    forall i | 0 <= i < |counts| :: IsCountName(NameOf(counts[i].name))
  }

  predicate SessionBounded(s: Session) {
    && IsSessionKey(s.key) && |s.process| <= WORD && Within(s.folder, FOLDER)
    && (s.client.Some? ==>
          1 <= |s.client.value.name| <= WORD && Within(s.client.value.version, VERSION) && s.client.value.version != Some([]))
    && (s.parent.Some? ==> |s.parent.value.startedAt| <= STARTED_AT && |s.parent.value.name| <= WORD)
    && (s.ancestors.Some? ==> |s.ancestors.value| <= 3 && TextsBounded(s.ancestors.value, WORD))
    && (s.connection.Some? ==> IsConnectionRef(s.connection.value.id) && 1 <= |s.connection.value.name| <= NAME)
  }

  predicate WordsBounded(l: Line) {
    && IsIsoTime(l.at) && |l.channel| <= WORD && |l.accountId| <= ALIAS && |l.accountAlias| <= ALIAS
    && |l.operation| <= WORD && Within(l.reason, REASON) && l.reason != Some([]) && Within(l.query, QUERY)
    && SessionBounded(l.session)
  }

  predicate ListsBounded(l: Line) {
    && (l.items.Some? ==>
          && |l.items.value| <= MAX_ITEMS && ItemsBounded(l.items.value)
          && l.count.Some? && l.count.value.value >= |l.items.value|)
    && (l.counts.Some? ==> 1 <= |l.counts.value| <= MAX_COUNTS && CountsBounded(l.counts.value))
    && (l.recipients.Some? ==> |l.recipients.value| <= MAX_RECIPIENTS && TextsBounded(l.recipients.value, ADDRESS))
  }

  predicate LinksBounded(l: Line) {
    && (l.approvalId.Some? ==> IsApprovalRef(l.approvalId.value))
    && (l.told.Some? ==> |l.told.value.rule| <= NAME && |l.told.value.target| <= NAME)
    && (l.replyTo.Some? ==> IsProviderId(l.replyTo.value.messageId) && IsId(l.replyTo.value.threadId))
    && IsId(l.draftId) && IsId(l.threadId) && IsId(l.channelId)
    && (l.thread.Some? && l.thread.value.InThread? ==> IsProviderId(l.thread.value.id))
  }

  predicate Bounded(l: Line) {
    WordsBounded(l) && ListsBounded(l) && LinksBounded(l)
  }

  // What the process itself adds is well made.
  predicate HereOk(here: Here) {
    IsIsoTime(here.now) && IsSessionKey(here.freshKey) && |here.processId| <= WORD
  }

  // ---------- what is read is bounded ----------

  lemma CutOfBounds(j: Option<Json>, max: nat)
    requires max > 0
    ensures Within(CutOf(j, max), max)
    ensures CutOf(j, max).Some? && j.value.t != [] ==> CutOf(j, max).value != []
  {
    if j.Some? && j.value.JStr? { CutBounds(j.value.t, max); }
  }

  lemma ItemOfBounded(j: Json)
    ensures ItemOf(j).Some? ==> ItemBounded(ItemOf(j).value)
  {
    hide Cut, Get, WholeOf;
    var fields := FieldsOf(Some(j));
    var sender := FieldsOf(Get(fields, FromKey));
    CutOfBounds(Get(fields, IdKey), ID);
    CutOfBounds(Get(fields, SubjectKey), SUBJECT);
    CutOfBounds(Get(fields, NameKey), FILE_NAME);
    CutOfBounds(Get(fields, ConversationKey), CONVERSATION);
    CutOfBounds(Get(sender, NameKey), NAME);
    CutOfBounds(Get(sender, AddressKey), ADDRESS);
  }

  lemma {:induction false} ItemsOfBounded(items: seq<Json>)
    ensures |ItemsOf(items)| <= |items| && ItemsBounded(ItemsOf(items))
  {
    hide ItemOf, ItemBounded;
    if items != [] {
      ItemsOfBounded(items[..|items| - 1]);
      ItemOfBounded(items[|items| - 1]);
    }
  }

  lemma {:induction false} StringsOfBounded(items: seq<Json>, max: nat)
    requires max > 0
    ensures |StringsOf(items, max)| <= |items| && TextsBounded(StringsOf(items, max), max)
  {
    hide Cut;
    if items != [] {
      StringsOfBounded(items[..|items| - 1], max);
      if items[|items| - 1].JStr? { CutBounds(items[|items| - 1].t, max); }
    }
  }

  lemma {:induction false} CountsOfBounded(fields: seq<Field>)
    ensures CountsBounded(CountsOf(fields))
  {
    hide IsCountName, NameOf, WholeOf;
    if fields != [] { CountsOfBounded(fields[..|fields| - 1]); }
  }

  lemma FirstCountsBounded(counts: seq<Named>)
    requires CountsBounded(counts)
    ensures CountsBounded(FirstOf(counts, MAX_COUNTS))
  {
    hide IsCountName, NameOf;
  }

  lemma ClientOfBounded(j: Option<Json>)
    ensures var c := ClientOf(j);
            c.Some? ==> 1 <= |c.value.name| <= WORD && Within(c.value.version, VERSION) && c.value.version != Some([])
  {
    hide Cut, Get;
    CutOfBounds(Get(FieldsOf(j), NameKey), WORD);
    CutOfBounds(Get(FieldsOf(j), VersionKey), VERSION);
  }

  lemma ParentOfBounded(j: Option<Json>)
    ensures var p := ParentOf(j); p.Some? ==> |p.value.startedAt| <= STARTED_AT && |p.value.name| <= WORD
  {
    hide Cut, Get, WholeOf;
    CutOfBounds(Get(FieldsOf(j), StartedAtKey), STARTED_AT);
    CutOfBounds(Get(FieldsOf(j), NameKey), WORD);
  }

  lemma ConnectionOfBounded(j: Option<Json>)
    ensures var c := ConnectionOf(j); c.Some? ==> IsConnectionRef(c.value.id) && 1 <= |c.value.name| <= NAME
  {
    hide Cut, Get, IsConnectionRef;
    CutOfBounds(Get(FieldsOf(j), NameKey), NAME);
  }

  lemma SessionOfBounded(j: Option<Json>, here: Here)
    requires HereOk(here)
    ensures SessionBounded(SessionOf(j, here))
  {
    hide Cut, Get, WholeOf, IsSessionKey, IsConnectionRef, IsIsoTime, StringsOf, Ascii, TextsBounded, ClientOf, ParentOf,
         ConnectionOf, SurfaceOf;
    var fields := FieldsOf(j);
    CutOfBounds(Get(fields, ProcessKey), WORD);
    CutOfBounds(Get(fields, FolderKey), FOLDER);
    ClientOfBounded(Get(fields, ClientKey));
    ParentOfBounded(Get(fields, ParentKey));
    ConnectionOfBounded(Get(fields, ConnectionKey));
    var ancestors := ListOf(Get(fields, AncestorsKey));
    if ancestors.Some? { StringsOfBounded(FirstOf(ancestors.value, 3), WORD); }
  }

  lemma ToldOfBounded(j: Option<Json>)
    ensures ToldOf(j).Some? ==> |ToldOf(j).value.rule| <= NAME && |ToldOf(j).value.target| <= NAME
  {
    hide Cut, Get;
    var fields := FieldsOf(j);
    CutOfBounds(Get(fields, RuleKey), NAME);
    CutOfBounds(Get(fields, TargetKey), NAME);
  }

  lemma CountOfBounded(items: Option<seq<Json>>, given: Option<Whole>)
    ensures items.Some? ==> CountOf(items, given).Some? && CountOf(items, given).value.value >= |items.value|
  {
  }

  lemma WordsAreBounded(raw: seq<Field>, here: Here)
    requires HereOk(here)
    ensures WordsBounded(BoundedLine(raw, here))
  {
    hide Cut, Get, WholeOf, IsSessionKey, IsIsoTime, StringsOf, Ascii, ItemsOf, CountsOf, SessionOf, SessionBounded, ToldOf,
         ProviderIdOf, IsApprovalRef, KindOf, OutcomeOf, ActOf, CountOf, ThreadOf, ReplyToOf;
    SessionOfBounded(Get(raw, SessionKey), here);
    CutOfBounds(Get(raw, ChannelKey), WORD);
    CutOfBounds(Get(raw, OperationKey), WORD);
    var account := FieldsOf(Get(raw, AccountKey));
    CutOfBounds(Get(account, IdKey), ALIAS);
    CutOfBounds(Get(account, AliasKey), ALIAS);
    CutOfBounds(Get(raw, ReasonKey), REASON);
    CutOfBounds(Get(raw, QueryKey), QUERY);
  }

  lemma ListsAreBounded(raw: seq<Field>, here: Here)
    ensures ListsBounded(BoundedLine(raw, here))
  {
    hide Cut, CutOf, Get, WholeOf, IsIsoTime, StringsOf, TextsBounded, ItemsOf, ItemsBounded, CountsOf, CountsBounded,
         SessionOf, ToldOf, ProviderIdOf, IsApprovalRef, KindOf, OutcomeOf, ActOf, CountOf, ThreadOf, ReplyToOf;
    var items := ListOf(Get(raw, ItemsKey));
    CountOfBounded(items, WholeOf(Get(raw, CountKey)));
    if items.Some? { ItemsOfBounded(FirstOf(items.value, MAX_ITEMS)); }
    var counts := ObjectOf(Get(raw, CountsKey));
    if counts.Some? { CountsOfBounded(counts.value); FirstCountsBounded(CountsOf(counts.value)); }
    var recipients := ListOf(Get(raw, RecipientsKey));
    if recipients.Some? { StringsOfBounded(FirstOf(recipients.value, MAX_RECIPIENTS), ADDRESS); }
  }

  lemma LinksAreBounded(raw: seq<Field>, here: Here)
    ensures LinksBounded(BoundedLine(raw, here))
  {
    hide Cut, CutOf, Get, WholeOf, IsIsoTime, StringsOf, ItemsOf, CountsOf, SessionOf, ToldOf, IsProviderId, IsApprovalRef,
         KindOf, OutcomeOf, ActOf, CountOf;
    ToldOfBounded(Get(raw, ToldKey));
  }

  // Whatever the input holds, the line is within every bound.
  lemma BoundedLineIsBounded(raw: seq<Field>, here: Here)
    requires HereOk(here)
    ensures Bounded(BoundedLine(raw, here))
  {
    hide BoundedLine, WordsBounded, ListsBounded, LinksBounded;
    WordsAreBounded(raw, here);
    ListsAreBounded(raw, here);
    LinksAreBounded(raw, here);
  }

  // ---------- what is written reads back ----------

  lemma ShortIsNotCut(t: Text, max: nat)
    requires max > 0 && |t| <= max
    ensures CutOf(Some(JStr(t)), max) == Some(t)
  {
    CutBounds(t, max);
  }

  lemma OptionReadsBack(t: Option<Text>, max: nat)
    requires max > 0 && Within(t, max)
    ensures CutOf(if t.Some? then Some(JStr(t.value)) else None, max) == t
  {
    if t.Some? { ShortIsNotCut(t.value, max); }
  }

  lemma ItemReadsBack(i: Item)
    requires ItemBounded(i)
    ensures ItemOf(JObj(ItemFields(i))) == Some(i)
  {
    hide Cut, Get, Add, ItemFields, SenderFields;
    ItemFieldsHold(i);
    ShortIsNotCut(i.id, ID);
    OptionReadsBack(i.subject, SUBJECT);
    OptionReadsBack(i.name, FILE_NAME);
    OptionReadsBack(i.conversation, CONVERSATION);
    if i.from.Some? {
      SenderFieldsHold(i.from.value);
      OptionReadsBack(i.from.value.name, NAME);
      OptionReadsBack(i.from.value.address, ADDRESS);
    }
  }

  function Held(t: Option<Text>): Option<Json> {
    if t.Some? then Some(JStr(t.value)) else None
  }

  function HeldNum(w: Option<Whole>): Option<Json> {
    if w.Some? then Some(JNum(Is(w.value))) else None
  }

  lemma SenderFieldsHold(s: Sender)
    ensures Get(SenderFields(s), NameKey) == Held(s.name) && Get(SenderFields(s), AddressKey) == Held(s.address)
  {
    hide Add;
  }

  lemma ItemHeadFieldsAt(i: Item, key: Key)
    ensures Get(ItemHeadFields(i), key) ==
            if key == IdKey then Some(JStr(i.id))
            else if key == SubjectKey then Held(i.subject)
            else if key == FromKey && i.from.Some? then Some(JObj(SenderFields(i.from.value))) else None
  {
    hide Add, Get, SenderFields;
    GetNothing();
  }

  lemma ItemFieldsAt(i: Item, key: Key)
    ensures Get(ItemFields(i), key) ==
            if key == NameKey && i.name.Some? then Some(JStr(i.name.value))
            else if key == SizeKey && i.size.Some? then Some(JNum(Is(i.size.value)))
            else if key == ConversationKey && i.conversation.Some? then Some(JStr(i.conversation.value))
            else Get(ItemHeadFields(i), key)
  {
    hide Add, Get, ItemHeadFields;
  }

  lemma ItemFieldsHold(i: Item)
    ensures var f := ItemFields(i);
            && Get(f, IdKey) == Some(JStr(i.id)) && Get(f, SubjectKey) == Held(i.subject)
            && Get(f, FromKey) == (if i.from.Some? then Some(JObj(SenderFields(i.from.value))) else None)
            && Get(f, NameKey) == Held(i.name) && Get(f, SizeKey) == HeldNum(i.size)
            && Get(f, ConversationKey) == Held(i.conversation)
  {
    hide Add, Get, SenderFields, ItemFields, ItemHeadFields;
    ItemHeadFieldsAt(i, IdKey);
    ItemHeadFieldsAt(i, SubjectKey);
    ItemHeadFieldsAt(i, FromKey);
    ItemHeadFieldsAt(i, NameKey);
    ItemHeadFieldsAt(i, SizeKey);
    ItemHeadFieldsAt(i, ConversationKey);
    ItemFieldsAt(i, IdKey);
    ItemFieldsAt(i, SubjectKey);
    ItemFieldsAt(i, FromKey);
    ItemFieldsAt(i, NameKey);
    ItemFieldsAt(i, SizeKey);
    ItemFieldsAt(i, ConversationKey);
  }

  lemma GetNothing()
    ensures forall key: Key :: Get([], key).None?
  {
  }

  lemma {:induction false} ItemsReadBack(items: seq<Item>)
    requires ItemsBounded(items)
    ensures ItemsOf(ItemsJson(items)) == items && |ItemsJson(items)| == |items|
  {
    hide ItemOf, ItemBounded, ItemFields;
    if items != [] {
      var front := items[..|items| - 1];
      ItemsReadBack(front);
      ItemReadsBack(items[|items| - 1]);
      assert ItemsJson(items)[..|items| - 1] == ItemsJson(front);
      assert items == front + [items[|items| - 1]];
    }
  }

  lemma {:induction false} TextsReadBack(texts: seq<Text>, max: nat)
    requires max > 0 && TextsBounded(texts, max)
    ensures StringsOf(TextsJson(texts), max) == texts && |TextsJson(texts)| == |texts|
  {
    hide Cut;
    if texts != [] {
      var front := texts[..|texts| - 1];
      TextsReadBack(front, max);
      CutBounds(texts[|texts| - 1], max);
      assert TextsJson(texts)[..|texts| - 1] == TextsJson(front);
      assert texts == front + [texts[|texts| - 1]];
    }
  }

  lemma {:induction false} CountsReadBack(counts: seq<Named>)
    requires CountsBounded(counts)
    ensures CountsOf(CountFields(counts)) == counts
  {
    hide NameOf, IsCountName;
    if counts != [] {
      var front := counts[..|counts| - 1];
      CountsReadBack(front);
      assert CountFields(counts)[..|CountFields(counts)| - 1] == CountFields(front);
      assert counts == front + [counts[|counts| - 1]];
    }
  }

  lemma ClientReadsBack(c: Client)
    requires 1 <= |c.name| <= WORD && Within(c.version, VERSION) && c.version != Some([])
    ensures ClientOf(Some(JObj(ClientFields(c)))) == Some(c)
  {
    hide Cut, Add;
    ShortIsNotCut(c.name, WORD);
    OptionReadsBack(c.version, VERSION);
    assert Get(ClientFields(c), VersionKey) == Held(c.version);
  }

  lemma ParentReadsBack(p: Parent)
    requires |p.startedAt| <= STARTED_AT && |p.name| <= WORD
    ensures ParentOf(Some(JObj(ParentFields(p)))) == Some(p)
  {
    hide Cut, Add;
    ShortIsNotCut(p.startedAt, STARTED_AT);
    ShortIsNotCut(p.name, WORD);
  }

  lemma ConnectionReadsBack(c: Connection)
    requires IsConnectionRef(c.id) && 1 <= |c.name| <= NAME
    ensures ConnectionOf(Some(JObj(ConnectionFields(c)))) == Some(c)
  {
    hide Cut, Add, IsConnectionRef;
    ShortIsNotCut(c.name, NAME);
  }

  lemma WordsDiffer()
    ensures Ascii("mcp") != Ascii("cli") && Ascii("mcp") != Ascii("daemon") && Ascii("cli") != Ascii("daemon")
    ensures Ascii("read") != Ascii("write") && Ascii("read") != Ascii("told") && Ascii("read") != Ascii("approval")
    ensures Ascii("write") != Ascii("told") && Ascii("write") != Ascii("approval") && Ascii("told") != Ascii("approval")
    ensures Ascii("ok") != Ascii("refused") && Ascii("ok") != Ascii("failed") && Ascii("refused") != Ascii("failed")
    ensures Ascii("reply") != Ascii("reaction")
  {
    assert |Ascii("mcp")| == |Ascii("cli")| == 3 && |Ascii("daemon")| == 6 && Ascii("mcp")[0] == 109 && Ascii("cli")[0] == 99;
    assert |Ascii("read")| == |Ascii("told")| == 4 && |Ascii("write")| == 5 && |Ascii("approval")| == 8;
    assert Ascii("read")[0] == 114 && Ascii("told")[0] == 116;
    assert |Ascii("ok")| == 2 && |Ascii("refused")| == 7 && |Ascii("failed")| == 6;
    assert |Ascii("reply")| == 5 && |Ascii("reaction")| == 8;
  }

  lemma SessionFieldsHold(s: Session)
    ensures var f := SessionFields(s);
            && Get(f, KeyKey) == Some(JStr(s.key)) && Get(f, ProcessKey) == Some(JStr(s.process))
            && Get(f, PidKey) == Some(JNum(Is(s.pid)))
            && Get(f, ClientKey) == (if s.client.Some? then Some(JObj(ClientFields(s.client.value))) else None)
            && Get(f, FolderKey) == Some(if s.folder.Some? then JStr(s.folder.value) else JNull)
            && Get(f, ParentKey) == (if s.parent.Some? then Some(JObj(ParentFields(s.parent.value))) else None)
            && Get(f, AncestorsKey) == (if s.ancestors.Some? then Some(JArr(TextsJson(s.ancestors.value))) else None)
            && Get(f, GroupedKey) == Some(JBool(s.grouped)) && Get(f, SurfaceKey) == Some(JStr(SurfaceText(s.surface)))
            && Get(f, ConnectionKey) ==
               (if s.connection.Some? then Some(JObj(ConnectionFields(s.connection.value))) else None)
  {
    hide Get, SessionFields, ClientFields, ParentFields, ConnectionFields, TextsJson, SurfaceText;
    forall key: Key { SessionFieldsAt(s, key); }
  }

  // What a session is written with under any one key.
  function ProcessAt(s: Session, key: Key): Option<Json> {
    match key
    case KeyKey => Some(JStr(s.key))
    case ProcessKey => Some(JStr(s.process))
    case PidKey => Some(JNum(Is(s.pid)))
    case ClientKey => if s.client.Some? then Some(JObj(ClientFields(s.client.value))) else None
    case FolderKey => Some(if s.folder.Some? then JStr(s.folder.value) else JNull)
    case _ => None
  }

  function WindowAt(s: Session, key: Key): Option<Json> {
    match key
    case ParentKey => if s.parent.Some? then Some(JObj(ParentFields(s.parent.value))) else None
    case AncestorsKey => if s.ancestors.Some? then Some(JArr(TextsJson(s.ancestors.value))) else None
    case GroupedKey => Some(JBool(s.grouped))
    case SurfaceKey => Some(JStr(SurfaceText(s.surface)))
    case ConnectionKey => if s.connection.Some? then Some(JObj(ConnectionFields(s.connection.value))) else None
    case _ => None
  }

  lemma KeyFieldsAt(s: Session, key: Key)
    ensures Get(KeyFields(s), key) ==
            if key == KeyKey then Some(JStr(s.key))
            else if key == ProcessKey then Some(JStr(s.process))
            else if key == PidKey then Some(JNum(Is(s.pid))) else None
  {
    hide Add, Get;
    GetNothing();
  }

  lemma ProcessFieldsAt(s: Session, key: Key)
    ensures Get(ProcessFields(s), key) == ProcessAt(s, key)
  {
    hide Add, Get, ClientFields, KeyFields;
    KeyFieldsAt(s, key);
  }

  lemma AncestryFieldsAt(f: seq<Field>, s: Session, key: Key)
    ensures Get(AncestryFields(f, s), key) ==
            if key == ParentKey && s.parent.Some? then Some(JObj(ParentFields(s.parent.value)))
            else if key == AncestorsKey && s.ancestors.Some? then Some(JArr(TextsJson(s.ancestors.value)))
            else Get(f, key)
  {
    hide Add, Get, ParentFields, TextsJson;
  }

  lemma WindowFieldsAt(f: seq<Field>, s: Session, key: Key)
    ensures Get(WindowFields(f, s), key) == if WindowAt(s, key).Some? then WindowAt(s, key) else Get(f, key)
  {
    hide Add, Get, ParentFields, ConnectionFields, TextsJson, SurfaceText, AncestryFields;
    AncestryFieldsAt(f, s, key);
  }

  lemma SessionFieldsAt(s: Session, key: Key)
    ensures Get(SessionFields(s), key) == if WindowAt(s, key).Some? then WindowAt(s, key) else ProcessAt(s, key)
  {
    hide Get, ProcessFields, WindowFields, ProcessAt, WindowAt;
    ProcessFieldsAt(s, key);
    WindowFieldsAt(ProcessFields(s), s, key);
  }

  lemma SessionReadsBack(s: Session, here: Here)
    requires SessionBounded(s)
    ensures SessionOf(Some(JObj(SessionFields(s))), here) == s
  {
    hide Cut, Get, Add, SessionFields, ClientFields, ParentFields, ConnectionFields, TextsJson, ClientOf, ParentOf,
         ConnectionOf, StringsOf, IsSessionKey, IsConnectionRef, Ascii, TextsBounded;
    SessionFieldsHold(s);
    WordsDiffer();
    ShortIsNotCut(s.process, WORD);
    OptionReadsBack(s.folder, FOLDER);
    if s.client.Some? { ClientReadsBack(s.client.value); }
    if s.parent.Some? { ParentReadsBack(s.parent.value); }
    if s.connection.Some? { ConnectionReadsBack(s.connection.value); }
    if s.ancestors.Some? { TextsReadBack(s.ancestors.value, WORD); }
    NothingReadsAsNothing();
  }

  lemma NothingReadsAsNothing()
    ensures ClientOf(None).None? && ParentOf(None).None? && ConnectionOf(None).None?
  {
  }

  function HeldList(items: Option<seq<Json>>): Option<Json> {
    if items.Some? then Some(JArr(items.value)) else None
  }

  function HeldObject(fields: Option<seq<Field>>): Option<Json> {
    if fields.Some? then Some(JObj(fields.value)) else None
  }

  // What a line is written with under any one key: always, for what it touched, and for what it links to.
  function HeadAt(l: Line, key: Key): Option<Json> {
    match key
    case AtKey => Some(JStr(l.at))
    case ChannelKey => Some(JStr(l.channel))
    case AccountKey => Some(JObj(AccountFields(l.accountId, l.accountAlias)))
    case OperationKey => Some(JStr(l.operation))
    case KindKey => Some(JStr(KindText(l.kind)))
    case OutcomeKey => Some(JStr(OutcomeText(l.outcome)))
    case ReasonKey => Held(l.reason)
    case SessionKey => Some(JObj(SessionFields(l.session)))
    case MsKey => Some(JNum(Is(l.ms)))
    case _ => None
  }

  function TouchedAt(l: Line, key: Key): Option<Json> {
    match key
    case ItemsKey => HeldList(if l.items.Some? then Some(ItemsJson(l.items.value)) else None)
    case CountKey => HeldNum(l.count)
    case CountsKey => HeldObject(if l.counts.Some? then Some(CountFields(l.counts.value)) else None)
    case QueryKey => Held(l.query)
    case RecipientsKey => HeldList(if l.recipients.Some? then Some(TextsJson(l.recipients.value)) else None)
    case _ => None
  }

  function ReplyAt(l: Line, key: Key): Option<Json> {
    match key
    case ApprovalIdKey => Held(l.approvalId)
    case ToldKey => HeldObject(if l.told.Some? then Some(ToldFields(l.told.value)) else None)
    case ReplyToKey => HeldObject(if l.replyTo.Some? then Some(ReplyToFields(l.replyTo.value)) else None)
    case DraftIdKey => Held(l.draftId)
    case _ => None
  }

  function PlaceAt(l: Line, key: Key): Option<Json> {
    match key
    case ThreadIdKey => Held(l.threadId)
    case ChannelIdKey => Held(l.channelId)
    case ThreadKey => ThreadJson(l.thread)
    case _ => None
  }

  function LastAt(l: Line, key: Key): Option<Json> {
    match key
    case ActKey => ActJson(l.act)
    case TruncatedKey => TruncatedJson(l.truncated)
    case _ => None
  }

  function LineAt(l: Line, key: Key): Option<Json> {
    if LastAt(l, key).Some? then LastAt(l, key)
    else if PlaceAt(l, key).Some? then PlaceAt(l, key)
    else if ReplyAt(l, key).Some? then ReplyAt(l, key)
    else if TouchedAt(l, key).Some? then TouchedAt(l, key)
    else HeadAt(l, key)
  }

  lemma WhoFieldsAt(l: Line, key: Key)
    ensures Get(WhoFields(l), key) ==
            if key == AtKey then Some(JStr(l.at))
            else if key == ChannelKey then Some(JStr(l.channel))
            else if key == AccountKey then Some(JObj(AccountFields(l.accountId, l.accountAlias))) else None
  {
    hide Add, Get, AccountFields;
    GetNothing();
  }

  lemma WhatFieldsAt(f: seq<Field>, l: Line, key: Key)
    ensures Get(WhatFields(f, l), key) ==
            if key == OperationKey then Some(JStr(l.operation))
            else if key == KindKey then Some(JStr(KindText(l.kind)))
            else if key == OutcomeKey then Some(JStr(OutcomeText(l.outcome))) else Get(f, key)
  {
    hide Add, Get, KindText, OutcomeText;
  }

  lemma HeadFieldsAt(l: Line, key: Key)
    ensures Get(HeadFields(l), key) == HeadAt(l, key)
  {
    hide Add, Get, AccountFields, KindText, OutcomeText, SessionFields, WhoFields, WhatFields;
    WhoFieldsAt(l, key);
    WhatFieldsAt(WhoFields(l), l, key);
  }

  lemma ItemsFieldsAt(head: seq<Field>, l: Line, key: Key)
    ensures Get(ItemsFields(head, l), key) ==
            if key == ItemsKey && l.items.Some? then Some(JArr(ItemsJson(l.items.value)))
            else if key == CountKey && l.count.Some? then Some(JNum(Is(l.count.value))) else Get(head, key)
  {
    hide Add, Get, ItemsJson;
  }

  lemma TouchedFieldsAt(head: seq<Field>, l: Line, key: Key)
    ensures Get(TouchedFields(head, l), key) == if TouchedAt(l, key).Some? then TouchedAt(l, key) else Get(head, key)
  {
    hide Add, Get, ItemsJson, TextsJson, CountFields, ItemsFields;
    ItemsFieldsAt(head, l, key);
  }

  lemma ReplyFieldsAt(touched: seq<Field>, l: Line, key: Key)
    ensures Get(ReplyFields(touched, l), key) == if ReplyAt(l, key).Some? then ReplyAt(l, key) else Get(touched, key)
  {
    hide Add, Get, ToldFields, ReplyToFields, ApprovalFields;
    ApprovalFieldsAt(touched, l, key);
  }

  lemma ApprovalFieldsAt(touched: seq<Field>, l: Line, key: Key)
    ensures Get(ApprovalFields(touched, l), key) ==
            if key == ApprovalIdKey && l.approvalId.Some? then Some(JStr(l.approvalId.value))
            else if key == ToldKey && l.told.Some? then Some(JObj(ToldFields(l.told.value)))
            else Get(touched, key)
  {
    hide Add, Get, ToldFields;
  }

  lemma PlaceFieldsAt(f: seq<Field>, l: Line, key: Key)
    ensures Get(PlaceFields(f, l), key) == if PlaceAt(l, key).Some? then PlaceAt(l, key) else Get(f, key)
  {
    hide Add, Get, ThreadJson;
  }

  lemma LastFieldsAt(f: seq<Field>, l: Line, key: Key)
    ensures Get(LastFields(f, l), key) == if LastAt(l, key).Some? then LastAt(l, key) else Get(f, key)
  {
    hide Add, Get, ActJson, TruncatedJson;
  }

  lemma LineFieldsAt(l: Line, key: Key)
    ensures Get(LineFields(l), key) == LineAt(l, key)
  {
    hide HeadFields, TouchedFields, ReplyFields, PlaceFields, LastFields, HeadAt, TouchedAt, ReplyAt, PlaceAt, LastAt,
         Get;
    var touched := TouchedFields(HeadFields(l), l);
    HeadFieldsAt(l, key);
    TouchedFieldsAt(HeadFields(l), l, key);
    ReplyFieldsAt(touched, l, key);
    PlaceFieldsAt(ReplyFields(touched, l), l, key);
    LastFieldsAt(PlaceFields(ReplyFields(touched, l), l), l, key);
  }

  // Every key of a line, as it is written.
  ghost predicate WritesLine(f: seq<Field>, l: Line) {
    forall key: Key :: Get(f, key) == LineAt(l, key)
  }

  predicate HeadHolds(f: seq<Field>, l: Line) {
    && Get(f, AtKey) == Some(JStr(l.at)) && Get(f, ChannelKey) == Some(JStr(l.channel))
    && Get(f, AccountKey) == Some(JObj(AccountFields(l.accountId, l.accountAlias)))
    && Get(f, OperationKey) == Some(JStr(l.operation)) && Get(f, KindKey) == Some(JStr(KindText(l.kind)))
    && Get(f, OutcomeKey) == Some(JStr(OutcomeText(l.outcome))) && Get(f, ReasonKey) == Held(l.reason)
    && Get(f, SessionKey) == Some(JObj(SessionFields(l.session))) && Get(f, MsKey) == Some(JNum(Is(l.ms)))
    && Get(f, QueryKey) == Held(l.query)
  }

  predicate TouchedHolds(f: seq<Field>, l: Line) {
    && Get(f, ItemsKey) == HeldList(if l.items.Some? then Some(ItemsJson(l.items.value)) else None)
    && Get(f, CountKey) == HeldNum(l.count)
    && Get(f, CountsKey) == HeldObject(if l.counts.Some? then Some(CountFields(l.counts.value)) else None)
    && Get(f, RecipientsKey) == HeldList(if l.recipients.Some? then Some(TextsJson(l.recipients.value)) else None)
  }

  predicate RepliesHold(f: seq<Field>, l: Line) {
    && Get(f, ApprovalIdKey) == Held(l.approvalId)
    && Get(f, ToldKey) == HeldObject(if l.told.Some? then Some(ToldFields(l.told.value)) else None)
    && Get(f, ReplyToKey) == HeldObject(if l.replyTo.Some? then Some(ReplyToFields(l.replyTo.value)) else None)
    && Get(f, DraftIdKey) == Held(l.draftId)
  }

  predicate PlacesHold(f: seq<Field>, l: Line) {
    && Get(f, ThreadIdKey) == Held(l.threadId)
    && Get(f, ChannelIdKey) == Held(l.channelId) && Get(f, ThreadKey) == ThreadJson(l.thread)
    && Get(f, ActKey) == ActJson(l.act) && Get(f, TruncatedKey) == TruncatedJson(l.truncated)
  }

  lemma HeadIsWritten(f: seq<Field>, l: Line)
    requires WritesLine(f, l)
    ensures HeadHolds(f, l)
  {
    hide Get, AccountFields, SessionFields, KindText, OutcomeText;
  }

  lemma TouchedIsWritten(f: seq<Field>, l: Line)
    requires WritesLine(f, l)
    ensures TouchedHolds(f, l)
  {
    hide Get, ItemsJson, CountFields, TextsJson, HeldList, HeldObject, HeldNum;
  }

  lemma RepliesAreWritten(f: seq<Field>, l: Line)
    requires WritesLine(f, l)
    ensures RepliesHold(f, l)
  {
    hide Get, ToldFields, ReplyToFields, Held, HeldObject, ThreadJson, ActJson, TruncatedJson;
  }

  lemma PlacesAreWritten(f: seq<Field>, l: Line)
    requires WritesLine(f, l)
    ensures PlacesHold(f, l)
  {
    hide Get, ToldFields, ReplyToFields, ThreadJson, ActJson, TruncatedJson, Held, HeldObject;
  }

  lemma ThreadReadsBack(t: Option<Thread>)
    requires t.Some? && t.value.InThread? ==> IsProviderId(t.value.id)
    ensures ThreadOf(ThreadJson(t)) == t
  {
    hide IsProviderId;
  }

  lemma ActReadsBack(a: Option<LineAct>)
    ensures ActOf(ActJson(a)) == a
  {
    WordsDiffer();
    hide Ascii;
  }

  lemma IdReadsBack(t: Option<Text>)
    requires IsId(t)
    ensures ProviderIdOf(Held(t)) == t
  {
    hide IsProviderId;
  }

  lemma AccountReadsBack(id: Text, alias: Text)
    requires |id| <= ALIAS && |alias| <= ALIAS
    ensures CutOf(Get(AccountFields(id, alias), IdKey), ALIAS) == Some(id)
    ensures CutOf(Get(AccountFields(id, alias), AliasKey), ALIAS) == Some(alias)
  {
    hide Add, Get, Cut;
    ShortIsNotCut(id, ALIAS);
    ShortIsNotCut(alias, ALIAS);
  }

  lemma ToldReadsBack(t: Told)
    requires |t.rule| <= NAME && |t.target| <= NAME
    ensures ToldOf(Some(JObj(ToldFields(t)))) == Some(t)
  {
    hide Add, Get, Cut;
    ShortIsNotCut(t.rule, NAME);
    ShortIsNotCut(t.target, NAME);
  }

  lemma ReplyToReadsBack(r: ReplyTo)
    requires IsProviderId(r.messageId) && IsId(r.threadId)
    ensures ReplyToOf(Some(JObj(ReplyToFields(r)))) == Some(r)
  {
    hide Add, Get, IsProviderId;
    GetNothing();
  }

  lemma WordsReadBack(l: Line, f: seq<Field>, here: Here)
    requires WordsBounded(l) && HeadHolds(f, l)
    ensures var b := BoundedLine(f, here);
            && b.at == l.at && b.channel == l.channel && b.accountId == l.accountId && b.accountAlias == l.accountAlias
            && b.operation == l.operation && b.kind == l.kind && b.outcome == l.outcome && b.reason == l.reason
            && b.session == l.session && b.ms == l.ms && b.query == l.query
  {
    hide Cut, Get, Add, SessionFields, SessionOf, AccountFields, Ascii, IsIsoTime, ItemsOf, CountsOf, StringsOf, ToldOf,
         ReplyToOf, ThreadOf, ActOf, CountOf, ProviderIdOf, IsApprovalRef, SessionBounded;
    AccountReadsBack(l.accountId, l.accountAlias);
    SessionReadsBack(l.session, here);
    ShortIsNotCut(l.channel, WORD);
    ShortIsNotCut(l.operation, WORD);
    OptionReadsBack(l.reason, REASON);
    OptionReadsBack(l.query, QUERY);
    WordsDiffer();
  }

  lemma ListsReadBack(l: Line, f: seq<Field>, here: Here)
    requires ListsBounded(l) && TouchedHolds(f, l)
    ensures var b := BoundedLine(f, here);
            b.items == l.items && b.count == l.count && b.counts == l.counts && b.recipients == l.recipients
  {
    hide Cut, CutOf, Get, Add, SessionOf, Ascii, IsIsoTime, ItemsOf, ItemsJson, CountsOf, CountFields, StringsOf, TextsJson,
         ToldOf, ReplyToOf, ThreadOf, ActOf, KindOf, OutcomeOf, ProviderIdOf, IsApprovalRef, ItemsBounded, CountsBounded,
         TextsBounded;
    if l.items.Some? { ItemsReadBack(l.items.value); }
    if l.counts.Some? { CountsReadBack(l.counts.value); }
    if l.recipients.Some? { TextsReadBack(l.recipients.value, ADDRESS); }
  }

  lemma LinksReadBack(l: Line, f: seq<Field>, here: Here)
    requires LinksBounded(l) && RepliesHold(f, l) && PlacesHold(f, l)
    ensures var b := BoundedLine(f, here);
            && b.approvalId == l.approvalId && b.told == l.told && b.replyTo == l.replyTo && b.draftId == l.draftId
            && b.threadId == l.threadId && b.channelId == l.channelId && b.thread == l.thread && b.act == l.act
            && b.truncated == l.truncated
  {
    hide Cut, CutOf, Get, Add, SessionOf, Ascii, IsIsoTime, ItemsOf, CountsOf, StringsOf, ToldOf, ToldFields, ReplyToOf,
         ReplyToFields, KindOf, OutcomeOf, IsProviderId, IsApprovalRef, CountOf, ThreadOf, ThreadJson, ActOf, ActJson,
         ProviderIdOf;
    ThreadReadsBack(l.thread);
    ActReadsBack(l.act);
    IdReadsBack(l.draftId);
    IdReadsBack(l.threadId);
    IdReadsBack(l.channelId);
    if l.told.Some? { ToldReadsBack(l.told.value); }
    if l.replyTo.Some? { ReplyToReadsBack(l.replyTo.value); }
    NoLinkReadsAsNone();
  }

  lemma NoLinkReadsAsNone()
    ensures ToldOf(None).None? && ReplyToOf(None).None?
  {
  }

  // A bounded line, as it is written, reads back as itself.
  lemma BoundedLineReadsBack(l: Line, here: Here)
    requires Bounded(l)
    ensures BoundedLine(LineFields(l), here) == l
  {
    hide BoundedLine, LineFields, WordsBounded, ListsBounded, LinksBounded, LineAt, HeadHolds, TouchedHolds, RepliesHold, PlacesHold;
    forall key: Key ensures Get(LineFields(l), key) == LineAt(l, key) { LineFieldsAt(l, key); }
    HeadIsWritten(LineFields(l), l);
    TouchedIsWritten(LineFields(l), l);
    RepliesAreWritten(LineFields(l), l);
    PlacesAreWritten(LineFields(l), l);
    WordsReadBack(l, LineFields(l), here);
    ListsReadBack(l, LineFields(l), here);
    LinksReadBack(l, LineFields(l), here);
  }
}
