/**
  One line of the activity log (packages/core/src/activity.ts): `boundedLine`, which copies what a line has and cuts each
  field to its bound, and how the line is written. Anything else the input carries is not copied.
  */
module ActivityLine {
  import opened Wrappers
  import opened ActivityText

  // ---------- a line ----------

  datatype LineKind = ReadLine | WriteLine | ToldLine | ApprovalLine
  datatype LineOutcome = OkLine | RefusedLine | FailedLine
  datatype LineSurface = Mcp | Cli | Daemon
  datatype LineAct = ReplyAct | ReactionAct

  datatype Sender = Sender(name: Option<Text>, address: Option<Text>)

  datatype Item = Item(
    id: Text, subject: Option<Text>, from: Option<Sender>, name: Option<Text>, size: Option<Whole>,
    conversation: Option<Text>)

  datatype Client = Client(name: Text, version: Option<Text>)

  datatype Parent = Parent(pid: Whole, startedAt: Text, name: Text)

  datatype Connection = Connection(id: Text, name: Text)

  datatype Session = Session(
    key: Text, process: Text, pid: Whole, client: Option<Client>, folder: Option<Text>, parent: Option<Parent>,
    ancestors: Option<seq<Text>>, grouped: bool, surface: LineSurface, connection: Option<Connection>)

  datatype Told = Told(rule: Text, target: Text)

  datatype ReplyTo = ReplyTo(messageId: Text, threadId: Option<Text>)

  // A post's thread: null says it starts one.
  datatype Thread = NoThread | InThread(id: Text)

  datatype Named = NamedCount(name: Key, count: Whole)

  datatype Line = Line(
    at: Text, channel: Text, accountId: Text, accountAlias: Text, operation: Text, kind: LineKind, outcome: LineOutcome,
    reason: Option<Text>, session: Session, ms: Whole, items: Option<seq<Item>>, count: Option<Whole>,
    counts: Option<seq<Named>>, query: Option<Text>, recipients: Option<seq<Text>>, approvalId: Option<Text>,
    told: Option<Told>, replyTo: Option<ReplyTo>, draftId: Option<Text>, threadId: Option<Text>,
    channelId: Option<Text>, thread: Option<Thread>, act: Option<LineAct>, truncated: bool)

  const MAX_ITEMS := 50
  const MAX_RECIPIENTS := 50
  const MAX_COUNTS := 10
  const MAX_LINE_BYTES := 16_384

  const SUBJECT := 200
  const ID := 200
  const NAME := 200
  const ADDRESS := 320
  const FILE_NAME := 255
  const CONVERSATION := 200
  const QUERY := 500
  const REASON := 300
  const WORD := 100
  const ALIAS := 128
  const FOLDER := 4096
  const STARTED_AT := 64
  const VERSION := 64

  // ---------- the patterns ----------

  predicate IsDigit(c: nat) {
    48 <= c <= 57
  }

  predicate IsLowerHex(c: nat) {
    IsDigit(c) || 97 <= c <= 102
  }

  predicate IsLetter(c: nat) {
    65 <= c <= 90 || 97 <= c <= 122
  }

  // `YYYY-MM-DDTHH:MM:SS.mmmZ`.
  predicate IsIsoTime(t: Text) {
    && |t| == 24 && t[4] == 45 && t[7] == 45 && t[10] == 84 && t[13] == 58 && t[16] == 58 && t[19] == 46 && t[23] == 90
    && forall i | 0 <= i < 24 && i != 4 && i != 7 && i != 10 && i != 13 && i != 16 && i != 19 && i != 23 :: IsDigit(t[i])
  }

  predicate IsSessionKey(t: Text) {
    |t| == 16 && forall i | 0 <= i < 16 :: IsLowerHex(t[i])
  }

  // A character of a provider's id: a letter, a digit or one of `._:/@+=-`.
  predicate IsIdChar(c: nat) {
    IsLetter(c) || IsDigit(c) || c == 46 || c == 95 || c == 58 || c == 47 || c == 64 || c == 43 || c == 61 || c == 45
  }

  predicate IsProviderId(t: Text) {
    1 <= |t| <= ID && forall i | 0 <= i < |t| :: IsIdChar(t[i])
  }

  predicate IsApprovalRef(t: Text) {
    1 <= |t| <= 64 && forall i | 0 <= i < |t| :: IsLetter(t[i]) || IsDigit(t[i]) || t[i] == 95 || t[i] == 45
  }

  predicate IsConnectionRef(t: Text) {
    && |t| == 29 && t[0] == 99 && t[1] == 110 && t[2] == 95
    && forall i | 3 <= i < 29 :: IsDigit(t[i]) || (65 <= t[i] <= 90 && t[i] != 73 && t[i] != 76 && t[i] != 79 && t[i] != 85)
  }

  predicate IsCountName(s: string) {
    && 1 <= |s| <= 32 && 'a' <= s[0] <= 'z'
    && forall i | 0 < i < |s| :: 'a' <= s[i] <= 'z' || 'A' <= s[i] <= 'Z'
  }

  // ---------- reading a value ----------

  function StringOf(j: Option<Json>): Option<Text> {
    if j.Some? && j.value.JStr? then Some(j.value.t) else None
  }

  function CutOf(j: Option<Json>, max: nat): Option<Text>
    requires max > 0
  {
    if j.Some? && j.value.JStr? then Some(Cut(j.value.t, max)) else None
  }

  function WholeOf(j: Option<Json>): Option<Whole> {
    if j.None? || !j.value.JNum? then None
    else
      match j.value.n
      case Is(w) => Some(w)
      case Rounds(w) => Some(w)
      case NoWhole => None
  }

  function ObjectOf(j: Option<Json>): Option<seq<Field>> {
    if j.Some? && j.value.JObj? then Some(j.value.fields) else None
  }

  function FieldsOf(j: Option<Json>): seq<Field> {
    ObjectOf(j).Or([])
  }

  function ListOf(j: Option<Json>): Option<seq<Json>> {
    if j.Some? && j.value.JArr? then Some(j.value.items) else None
  }

  function FirstOf<T>(s: seq<T>, n: nat): (r: seq<T>)
    ensures r <= s && (|s| <= n ==> r == s) && (|s| > n ==> |r| == n)
  {
    if |s| <= n then s else s[..n]
  }

  // The strings of a list, each cut.
  function StringsOf(items: seq<Json>, max: nat): seq<Text>
    requires max > 0
  {
    if items == [] then []
    else
      StringsOf(items[..|items| - 1], max)
      + if items[|items| - 1].JStr? then [Cut(items[|items| - 1].t, max)] else []
  }

  function ProviderIdOf(j: Option<Json>): Option<Text> {
    var t := StringOf(j);
    if t.Some? && IsProviderId(t.value) then t else None
  }

  // ---------- reading a line ----------

  function ItemOf(j: Json): Option<Item> {
    var item := ObjectOf(Some(j));
    var fields := item.Or([]);
    var id := CutOf(Get(fields, IdKey), ID);
    if item.None? || id.None? then None
    else
      var sender := ObjectOf(Get(fields, FromKey));
      var from := Sender(CutOf(Get(sender.Or([]), NameKey), NAME), CutOf(Get(sender.Or([]), AddressKey), ADDRESS));
      Some(Item(
        id.value, CutOf(Get(fields, SubjectKey), SUBJECT),
        if sender.Some? && (from.name.Some? || from.address.Some?) then Some(from) else None,
        CutOf(Get(fields, NameKey), FILE_NAME), WholeOf(Get(fields, SizeKey)),
        CutOf(Get(fields, ConversationKey), CONVERSATION)))
  }

  function ItemsOf(items: seq<Json>): seq<Item> {
    if items == [] then []
    else
      var last := ItemOf(items[|items| - 1]);
      ItemsOf(items[..|items| - 1]) + if last.Some? then [last.value] else []
  }

  function ClientOf(j: Option<Json>): Option<Client> {
    var fields := FieldsOf(j);
    var name := CutOf(Get(fields, NameKey), WORD);
    var version := CutOf(Get(fields, VersionKey), VERSION);
    if name.None? || name.value == [] then None
    else Some(Client(name.value, if version == Some([]) then None else version))
  }

  function ParentOf(j: Option<Json>): Option<Parent> {
    var fields := FieldsOf(j);
    var pid := WholeOf(Get(fields, PidKey));
    var startedAt := CutOf(Get(fields, StartedAtKey), STARTED_AT);
    if pid.None? || startedAt.None? then None
    else Some(Parent(pid.value, startedAt.value, CutOf(Get(fields, NameKey), WORD).Or([])))
  }

  function ConnectionOf(j: Option<Json>): Option<Connection> {
    var fields := FieldsOf(j);
    var id := StringOf(Get(fields, IdKey));
    var name := CutOf(Get(fields, NameKey), NAME);
    if id.None? || !IsConnectionRef(id.value) || name.None? || name.value == [] then None
    else Some(Connection(id.value, name.value))
  }

  function SurfaceOf(j: Option<Json>): LineSurface {
    var t := StringOf(j);
    if t == Some(Ascii("cli")) then Cli else if t == Some(Ascii("daemon")) then Daemon else Mcp
  }

  // What the process adds: the time now, a key of its own, and its id.
  datatype Here = Here(now: Text, freshKey: Text, processId: Text)

  const ZERO: Whole := WholeNumber(0, 1)

  function SessionOf(j: Option<Json>, here: Here): Session {
    var fields := FieldsOf(j);
    var given := StringOf(Get(fields, KeyKey));
    var key := if given.Some? && IsSessionKey(given.value) then given else None;
    var ancestors := ListOf(Get(fields, AncestorsKey));
    Session(
      key.Or(here.freshKey),
      CutOf(Get(fields, ProcessKey), WORD).Or(here.processId),
      WholeOf(Get(fields, PidKey)).Or(ZERO),
      ClientOf(Get(fields, ClientKey)),
      CutOf(Get(fields, FolderKey), FOLDER),
      ParentOf(Get(fields, ParentKey)),
      if ancestors.None? then None else Some(StringsOf(FirstOf(ancestors.value, 3), WORD)),
      key.Some? && Get(fields, GroupedKey) == Some(JBool(true)),
      SurfaceOf(Get(fields, SurfaceKey)),
      ConnectionOf(Get(fields, ConnectionKey)))
  }

  // The digits of a list's length; no list is so long that a double would write it otherwise.
  function Digits(n: nat): (d: nat)
    ensures 1 <= d <= 24
  {
    if n < 10 then 1
    else
      var more := Digits(n / 10);
      if more < 24 then more + 1 else 24
  }

  function WholeOfLength(n: nat): Whole {
    WholeNumber(n, Digits(n))
  }

  // The greater of a list's length and the count given.
  function CountOf(items: Option<seq<Json>>, given: Option<Whole>): Option<Whole> {
    if items.None? then given
    else if given.Some? && given.value.value >= |items.value| then given
    else Some(WholeOfLength(|items.value|))
  }

  function CountsOf(fields: seq<Field>): seq<Named> {
    if fields == [] then []
    else
      var last := fields[|fields| - 1];
      var count := WholeOf(Some(last.value));
      CountsOf(fields[..|fields| - 1])
      + if IsCountName(NameOf(last.key)) && count.Some? then [NamedCount(last.key, count.value)] else []
  }

  function KindOf(j: Option<Json>): LineKind {
    var t := StringOf(j);
    if t == Some(Ascii("write")) then WriteLine
    else if t == Some(Ascii("told")) then ToldLine
    else if t == Some(Ascii("approval")) then ApprovalLine
    else ReadLine
  }

  function OutcomeOf(j: Option<Json>): LineOutcome {
    var t := StringOf(j);
    if t == Some(Ascii("refused")) then RefusedLine else if t == Some(Ascii("failed")) then FailedLine else OkLine
  }

  function ActOf(j: Option<Json>): Option<LineAct> {
    var t := StringOf(j);
    if t == Some(Ascii("reply")) then Some(ReplyAct)
    else if t == Some(Ascii("reaction")) then Some(ReactionAct)
    else None
  }

  function ThreadOf(j: Option<Json>): Option<Thread> {
    if j == Some(JNull) then Some(NoThread)
    else
      var id := ProviderIdOf(j);
      if id.None? then None else Some(InThread(id.value))
  }

  function ReplyToOf(j: Option<Json>): Option<ReplyTo> {
    var fields := FieldsOf(j);
    var messageId := ProviderIdOf(Get(fields, MessageIdKey));
    if messageId.None? then None
    else Some(ReplyTo(messageId.value, ProviderIdOf(Get(fields, ThreadIdKey))))
  }

  function ToldOf(j: Option<Json>): Option<Told> {
    var fields := ObjectOf(j);
    if fields.None? then None
    else Some(Told(CutOf(Get(fields.value, RuleKey), NAME).Or([]), CutOf(Get(fields.value, TargetKey), NAME).Or([])))
  }

  function SomeOf<T(==)>(s: seq<T>): Option<seq<T>> {
    if s == [] then None else Some(s)
  }

  function BoundedLine(raw: seq<Field>, here: Here): Line {
    var at := StringOf(Get(raw, AtKey));
    var account := FieldsOf(Get(raw, AccountKey));
    var items := ListOf(Get(raw, ItemsKey));
    var reason := CutOf(Get(raw, ReasonKey), REASON);
    var counts := ObjectOf(Get(raw, CountsKey));
    var recipients := ListOf(Get(raw, RecipientsKey));
    var approvalId := StringOf(Get(raw, ApprovalIdKey));
    Line(
      if at.Some? && IsIsoTime(at.value) then at.value else here.now,
      CutOf(Get(raw, ChannelKey), WORD).Or([]),
      CutOf(Get(account, IdKey), ALIAS).Or([]),
      CutOf(Get(account, AliasKey), ALIAS).Or([]),
      CutOf(Get(raw, OperationKey), WORD).Or([]),
      KindOf(Get(raw, KindKey)),
      OutcomeOf(Get(raw, OutcomeKey)),
      if reason == Some([]) then None else reason,
      SessionOf(Get(raw, SessionKey), here),
      WholeOf(Get(raw, MsKey)).Or(ZERO),
      if items.None? then None else Some(ItemsOf(FirstOf(items.value, MAX_ITEMS))),
      CountOf(items, WholeOf(Get(raw, CountKey))),
      if counts.None? then None else SomeOf(FirstOf(CountsOf(counts.value), MAX_COUNTS)),
      CutOf(Get(raw, QueryKey), QUERY),
      if recipients.None? then None else Some(StringsOf(FirstOf(recipients.value, MAX_RECIPIENTS), ADDRESS)),
      if approvalId.Some? && IsApprovalRef(approvalId.value) then approvalId else None,
      ToldOf(Get(raw, ToldKey)),
      ReplyToOf(Get(raw, ReplyToKey)),
      ProviderIdOf(Get(raw, DraftIdKey)),
      ProviderIdOf(Get(raw, ThreadIdKey)),
      ProviderIdOf(Get(raw, ChannelIdKey)),
      ThreadOf(Get(raw, ThreadKey)),
      ActOf(Get(raw, ActKey)),
      Get(raw, TruncatedKey) == Some(JBool(true)))
  }

  // ---------- writing a line ----------

  function Str(key: Key, t: Text): Option<Field> {
    Some(Field(key, JStr(t)))
  }

  function StrIf(key: Key, t: Option<Text>): Option<Field> {
    if t.None? then None else Str(key, t.value)
  }

  function Num(key: Key, w: Whole): Option<Field> {
    Some(Field(key, JNum(Is(w))))
  }

  function NumIf(key: Key, w: Option<Whole>): Option<Field> {
    if w.None? then None else Num(key, w.value)
  }

  function Obj(key: Key, fields: seq<Field>): Option<Field> {
    Some(Field(key, JObj(fields)))
  }

  function SenderFields(s: Sender): seq<Field> {
    Add(Add([], StrIf(NameKey, s.name)), StrIf(AddressKey, s.address))
  }

  function ItemHeadFields(i: Item): seq<Field> {
    var f := Add(Add([], Str(IdKey, i.id)), StrIf(SubjectKey, i.subject));
    Add(f, if i.from.None? then None else Obj(FromKey, SenderFields(i.from.value)))
  }

  function ItemFields(i: Item): seq<Field> {
    Add(Add(Add(ItemHeadFields(i), StrIf(NameKey, i.name)), NumIf(SizeKey, i.size)), StrIf(ConversationKey, i.conversation))
  }

  function ItemsJson(items: seq<Item>): seq<Json> {
    if items == [] then []
    else ItemsJson(items[..|items| - 1]) + [JObj(ItemFields(items[|items| - 1]))]
  }

  function TextsJson(texts: seq<Text>): seq<Json> {
    if texts == [] then [] else TextsJson(texts[..|texts| - 1]) + [JStr(texts[|texts| - 1])]
  }

  function CountFields(counts: seq<Named>): seq<Field> {
    if counts == [] then []
    else
      var last := counts[|counts| - 1];
      CountFields(counts[..|counts| - 1]) + [Field(last.name, JNum(Is(last.count)))]
  }

  function ClientFields(c: Client): seq<Field> {
    Add(Add([], Str(NameKey, c.name)), StrIf(VersionKey, c.version))
  }

  function ParentFields(p: Parent): seq<Field> {
    Add(Add(Add([], Num(PidKey, p.pid)), Str(StartedAtKey, p.startedAt)), Str(NameKey, p.name))
  }

  function ConnectionFields(c: Connection): seq<Field> {
    Add(Add([], Str(IdKey, c.id)), Str(NameKey, c.name))
  }

  function SurfaceText(s: LineSurface): Text {
    match s
    case Mcp => Ascii("mcp")
    case Cli => Ascii("cli")
    case Daemon => Ascii("daemon")
  }

  function KeyFields(s: Session): seq<Field> {
    Add(Add(Add([], Str(KeyKey, s.key)), Str(ProcessKey, s.process)), Num(PidKey, s.pid))
  }

  function ProcessFields(s: Session): seq<Field> {
    var g := Add(KeyFields(s), if s.client.None? then None else Obj(ClientKey, ClientFields(s.client.value)));
    Add(g, Some(Field(FolderKey, if s.folder.None? then JNull else JStr(s.folder.value))))
  }

  function AncestryFields(f: seq<Field>, s: Session): seq<Field> {
    var g := Add(f, if s.parent.None? then None else Obj(ParentKey, ParentFields(s.parent.value)));
    Add(g, if s.ancestors.None? then None else Some(Field(AncestorsKey, JArr(TextsJson(s.ancestors.value)))))
  }

  function WindowFields(f: seq<Field>, s: Session): seq<Field> {
    var i := Add(Add(AncestryFields(f, s), Some(Field(GroupedKey, JBool(s.grouped)))),
                 Str(SurfaceKey, SurfaceText(s.surface)));
    Add(i, if s.connection.None? then None else Obj(ConnectionKey, ConnectionFields(s.connection.value)))
  }

  function SessionFields(s: Session): seq<Field> {
    WindowFields(ProcessFields(s), s)
  }

  function ToldFields(t: Told): seq<Field> {
    Add(Add([], Str(RuleKey, t.rule)), Str(TargetKey, t.target))
  }

  function ReplyToFields(r: ReplyTo): seq<Field> {
    Add(Add([], Str(MessageIdKey, r.messageId)), StrIf(ThreadIdKey, r.threadId))
  }

  function KindText(k: LineKind): Text {
    match k
    case ReadLine => Ascii("read")
    case WriteLine => Ascii("write")
    case ToldLine => Ascii("told")
    case ApprovalLine => Ascii("approval")
  }

  function OutcomeText(o: LineOutcome): Text {
    match o
    case OkLine => Ascii("ok")
    case RefusedLine => Ascii("refused")
    case FailedLine => Ascii("failed")
  }

  function ActText(a: LineAct): Text {
    match a
    case ReplyAct => Ascii("reply")
    case ReactionAct => Ascii("reaction")
  }

  function AccountFields(id: Text, alias: Text): seq<Field> {
    Add(Add([], Str(IdKey, id)), Str(AliasKey, alias))
  }

  // The fields every line has, then what it touched, then what it links to.
  function WhoFields(l: Line): seq<Field> {
    var f := Add(Add([], Str(AtKey, l.at)), Str(ChannelKey, l.channel));
    Add(f, Obj(AccountKey, AccountFields(l.accountId, l.accountAlias)))
  }

  function WhatFields(f: seq<Field>, l: Line): seq<Field> {
    Add(Add(Add(f, Str(OperationKey, l.operation)), Str(KindKey, KindText(l.kind))), Str(OutcomeKey, OutcomeText(l.outcome)))
  }

  function HeadFields(l: Line): seq<Field> {
    var f := WhatFields(WhoFields(l), l);
    Add(Add(Add(f, StrIf(ReasonKey, l.reason)), Obj(SessionKey, SessionFields(l.session))), Num(MsKey, l.ms))
  }

  function ItemsFields(head: seq<Field>, l: Line): seq<Field> {
    var f := Add(head, if l.items.None? then None else Some(Field(ItemsKey, JArr(ItemsJson(l.items.value)))));
    Add(f, NumIf(CountKey, l.count))
  }

  function TouchedFields(head: seq<Field>, l: Line): seq<Field> {
    var g := Add(ItemsFields(head, l), if l.counts.None? then None else Obj(CountsKey, CountFields(l.counts.value)));
    Add(Add(g, StrIf(QueryKey, l.query)),
        if l.recipients.None? then None else Some(Field(RecipientsKey, JArr(TextsJson(l.recipients.value)))))
  }

  function ApprovalFields(touched: seq<Field>, l: Line): seq<Field> {
    Add(Add(touched, StrIf(ApprovalIdKey, l.approvalId)),
        if l.told.None? then None else Obj(ToldKey, ToldFields(l.told.value)))
  }

  function ReplyFields(touched: seq<Field>, l: Line): seq<Field> {
    var f := ApprovalFields(touched, l);
    Add(Add(f, if l.replyTo.None? then None else Obj(ReplyToKey, ReplyToFields(l.replyTo.value))),
        StrIf(DraftIdKey, l.draftId))
  }

  function ThreadJson(t: Option<Thread>): Option<Json> {
    if t.None? then None else Some(if t.value.NoThread? then JNull else JStr(t.value.id))
  }

  function ActJson(a: Option<LineAct>): Option<Json> {
    if a.None? then None else Some(JStr(ActText(a.value)))
  }

  function TruncatedJson(truncated: bool): Option<Json> {
    if truncated then Some(JBool(true)) else None
  }

  function JsonIf(key: Key, j: Option<Json>): Option<Field> {
    if j.None? then None else Some(Field(key, j.value))
  }

  function PlaceFields(f: seq<Field>, l: Line): seq<Field> {
    var g := Add(Add(f, StrIf(ThreadIdKey, l.threadId)), StrIf(ChannelIdKey, l.channelId));
    Add(g, JsonIf(ThreadKey, ThreadJson(l.thread)))
  }

  function LastFields(f: seq<Field>, l: Line): seq<Field> {
    Add(Add(f, JsonIf(ActKey, ActJson(l.act))), JsonIf(TruncatedKey, TruncatedJson(l.truncated)))
  }

  function LinkFields(touched: seq<Field>, l: Line): seq<Field> {
    LastFields(PlaceFields(ReplyFields(touched, l), l), l)
  }

  function LineFields(l: Line): seq<Field> {
    LinkFields(TouchedFields(HeadFields(l), l), l)
  }

  function ToJson(l: Line): Json {
    JObj(LineFields(l))
  }

  // As written, its newline included.
  function LineBytes(l: Line): nat {
    Bytes(ToJson(l)) + 1
  }

  predicate Fits(l: Line) {
    LineBytes(l) <= MAX_LINE_BYTES
  }
}
