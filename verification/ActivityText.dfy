/**
  Text as the activity log keeps it (packages/core/src/activity.ts, `cut`) and the JSON it is written as: code points, the
  UTF-16 units a JavaScript string counts, and the bytes of section 7 of RFC 8259.
  */
module ActivityText {
  import opened Wrappers

  // Code points; a surrogate that is half of no pair is one too.
  type Text = seq<nat>

  const ELLIPSIS := 0x2026

  function Ascii(s: string): Text {
    seq(|s|, i requires 0 <= i < |s| => s[i] as nat)
  }

  function Units(c: nat): nat {
    if c >= 0x1_0000 then 2 else 1
  }

  function UnitsOf(t: Text): nat {
    if t == [] then 0 else Units(t[0]) + UnitsOf(t[1..])
  }

  // The code points of a text's first `n` UTF-16 units: a pair cut in two leaves its first half.
  function UnitPrefix(t: Text, n: nat): Text {
    if t == [] || n == 0 then []
    else if Units(t[0]) <= n then [t[0]] + UnitPrefix(t[1..], n - Units(t[0]))
    else [0xD800 + (t[0] - 0x1_0000) / 0x400]
  }

  // `cut` as it is written: no more of a long text is looked at than the bound needs.
  function Cut(t: Text, max: nat): Text
    requires max > 0
  {
    if UnitsOf(t) <= max then t
    else
      var chars := UnitPrefix(t, max * 2 + 2);
      if |chars| <= max then chars else chars[..max - 1] + [ELLIPSIS]
  }

  // What it means: whole characters, never half of one, ending in an ellipsis when cut.
  function Shorten(t: Text, max: nat): Text
    requires max > 0
  {
    if |t| <= max then t else t[..max - 1] + [ELLIPSIS]
  }

  lemma {:induction false} LengthInUnits(t: Text)
    ensures |t| <= UnitsOf(t) <= 2 * |t|
  {
    if t != [] { LengthInUnits(t[1..]); }
  }

  // A prefix long enough in units begins with as many whole characters.
  lemma {:induction false} UnitPrefixKeeps(t: Text, n: nat, k: nat)
    requires k <= |t| && 2 * k <= n
    ensures |UnitPrefix(t, n)| >= k && UnitPrefix(t, n)[..k] == t[..k]
  {
    if k > 0 {
      UnitPrefixKeeps(t[1..], n - Units(t[0]), k - 1);
      assert t[..k] == [t[0]] + t[1..][..k - 1];
    }
  }

  lemma {:induction false} UnitPrefixOfShort(t: Text, n: nat)
    requires UnitsOf(t) <= n
    ensures UnitPrefix(t, n) == t
  {
    if t != [] { UnitPrefixOfShort(t[1..], n - Units(t[0])); }
  }

  lemma CutIsShorten(t: Text, max: nat)
    requires max > 0
    ensures Cut(t, max) == Shorten(t, max)
  {
    LengthInUnits(t);
    if UnitsOf(t) > max {
      if |t| <= max {
        UnitPrefixOfShort(t, max * 2 + 2);
      } else {
        UnitPrefixKeeps(t, max * 2 + 2, max + 1);
        assert UnitPrefix(t, max * 2 + 2)[..max - 1] == UnitPrefix(t, max * 2 + 2)[..max + 1][..max - 1];
        assert t[..max + 1][..max - 1] == t[..max - 1];
      }
    }
  }

  // No longer than its bound; cutting again changes nothing; an empty text stays the only empty one.
  lemma CutBounds(t: Text, max: nat)
    requires max > 0
    ensures |Cut(t, max)| <= max
    ensures Cut(Cut(t, max), max) == Cut(t, max)
    ensures Cut(t, max) == [] <==> t == []
    ensures |t| <= max ==> Cut(t, max) == t
  {
    CutIsShorten(t, max);
    CutIsShorten(Cut(t, max), max);
  }

  // ---------- JSON ----------

  // The keys a line is written with; any other is `Named`.
  datatype Key =
    | AtKey | ChannelKey | AccountKey | IdKey | AliasKey | OperationKey | KindKey | OutcomeKey | ReasonKey | SessionKey
    | KeyKey | ProcessKey | PidKey | ClientKey | NameKey | VersionKey | FolderKey | ParentKey | StartedAtKey
    | AncestorsKey | GroupedKey | SurfaceKey | ConnectionKey | MsKey | ItemsKey | SubjectKey | FromKey | AddressKey
    | SizeKey | ConversationKey | CountKey | CountsKey | QueryKey | RecipientsKey | ApprovalIdKey | ToldKey | RuleKey
    | TargetKey | ReplyToKey | MessageIdKey | ThreadIdKey | DraftIdKey | ChannelIdKey | ThreadKey | ActKey
    | TruncatedKey | Named(name: string)

  function NameOf(k: Key): string {
    match k
    case AtKey => "at" case ChannelKey => "channel" case AccountKey => "account" case IdKey => "id"
    case AliasKey => "alias" case OperationKey => "operation" case KindKey => "kind" case OutcomeKey => "outcome"
    case ReasonKey => "reason" case SessionKey => "session" case KeyKey => "key" case ProcessKey => "process"
    case PidKey => "pid" case ClientKey => "client" case NameKey => "name" case VersionKey => "version"
    case FolderKey => "folder" case ParentKey => "parent" case StartedAtKey => "startedAt"
    case AncestorsKey => "ancestors" case GroupedKey => "grouped" case SurfaceKey => "surface"
    case ConnectionKey => "connection" case MsKey => "ms" case ItemsKey => "items" case SubjectKey => "subject"
    case FromKey => "from" case AddressKey => "address" case SizeKey => "size" case ConversationKey => "conversation"
    case CountKey => "count" case CountsKey => "counts" case QueryKey => "query" case RecipientsKey => "recipients"
    case ApprovalIdKey => "approvalId" case ToldKey => "told" case RuleKey => "rule" case TargetKey => "target"
    case ReplyToKey => "replyTo" case MessageIdKey => "messageId" case ThreadIdKey => "threadId"
    case DraftIdKey => "draftId" case ChannelIdKey => "channelId" case ThreadKey => "thread" case ActKey => "act"
    case TruncatedKey => "truncated" case Named(name) => name
  }

  lemma KnownNamesAreShort(k: Key)
    requires !k.Named?
    ensures |NameOf(k)| <= 12
  {
  }

  // A whole number at least zero, and how many digits JSON writes it in: at most those of a double.
  datatype WholeNumber = WholeNumber(value: nat, digits: nat)

  type Whole = w: WholeNumber | 1 <= w.digits <= 24 witness WholeNumber(0, 1)

  // A number: whole already, one that rounds to a whole number, or one that is not finite or below zero.
  datatype Number = Is(whole: Whole) | Rounds(to: Whole) | NoWhole

  datatype Json =
    | JNull
    | JBool(b: bool)
    | JNum(n: Number)
    | JStr(t: Text)
    | JArr(items: seq<Json>)
    | JObj(fields: seq<Field>)

  datatype Field = Field(key: Key, value: Json)

  function Get(fields: seq<Field>, key: Key): Option<Json> {
    if fields == [] then None
    else if fields[|fields| - 1].key == key then Some(fields[|fields| - 1].value)
    else Get(fields[..|fields| - 1], key)
  }

  // ---------- bytes ----------

  // A quote, a backslash and the named controls in two; other controls and half surrogates in six; the rest as UTF-8.
  function CharBytes(c: nat): (b: nat)
    ensures 1 <= b <= 6
    ensures 32 <= c < 128 && c != 34 && c != 92 ==> b == 1
  {
    if c == 34 || c == 92 || c == 8 || c == 9 || c == 10 || c == 12 || c == 13 then 2
    else if c < 32 then 6
    else if c < 0x80 then 1
    else if c < 0x800 then 2
    else if 0xD800 <= c <= 0xDFFF then 6
    else if c < 0x1_0000 then 3
    else 4
  }

  function CharsBytes(t: Text): nat {
    if t == [] then 0 else CharsBytes(t[..|t| - 1]) + CharBytes(t[|t| - 1])
  }

  function TextBytes(t: Text): nat {
    2 + CharsBytes(t)
  }

  lemma {:induction false} TextIsBounded(t: Text)
    ensures TextBytes(t) <= 2 + 6 * |t|
    ensures (forall i | 0 <= i < |t| :: 32 <= t[i] < 128 && t[i] != 34 && t[i] != 92) ==> TextBytes(t) == 2 + |t|
  {
    if t != [] { TextIsBounded(t[..|t| - 1]); }
  }

  function NumberBytes(n: Number): nat {
    match n
    case Is(w) => w.digits
    case Rounds(w) => w.digits + 18
    case NoWhole => 24
  }

  function Bytes(j: Json): nat {
    match j
    case JNull => 4
    case JBool(b) => if b then 4 else 5
    case JNum(n) => NumberBytes(n)
    case JStr(t) => TextBytes(t)
    case JArr(items) => 2 + ItemsBytes(items) - if items == [] then 0 else 1
    case JObj(fields) => 2 + FieldsBytes(fields) - if fields == [] then 0 else 1
  }

  // Each with the comma after it.
  function ItemsBytes(items: seq<Json>): (b: nat)
    ensures items != [] ==> b > 0
  {
    if items == [] then 0 else ItemsBytes(items[..|items| - 1]) + Bytes(items[|items| - 1]) + 1
  }

  function FieldBytes(f: Field): nat {
    |NameOf(f.key)| + 3 + Bytes(f.value) + 1
  }

  function FieldsBytes(fields: seq<Field>): (b: nat)
    ensures fields != [] ==> b > 0
  {
    if fields == [] then 0 else FieldsBytes(fields[..|fields| - 1]) + FieldBytes(fields[|fields| - 1])
  }

  function OptionalBytes(f: Option<Field>): nat {
    if f.None? then 0 else FieldBytes(f.value)
  }

  // A field, when there is one, after the others.
  function Add(fields: seq<Field>, f: Option<Field>): (r: seq<Field>)
    ensures FieldsBytes(r) == FieldsBytes(fields) + OptionalBytes(f)
    ensures forall key: Key :: Get(r, key) == if f.Some? && f.value.key == key then Some(f.value.value) else Get(fields, key)
  {
    if f.None? then fields
    else
      assert (fields + [f.value])[..|fields|] == fields;
      fields + [f.value]
  }
}
