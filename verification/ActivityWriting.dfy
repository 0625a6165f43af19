/**
  The text a line of the activity log is written as (packages/core/src/activity.ts, and section 25.5.2 of ECMA-262), and
  the text `ActivityLog.show` looks for in it before it reads a line whole. How a number is written is a parameter.
  */
module ActivityWriting {
  import opened Wrappers
  import opened ActivityText
  import opened ActivityLine
  import opened ActivityBounds
  import opened ActivityFitted

  // ---------- writing ----------

  function Hex(n: nat): nat
    requires n < 16
  {
    if n < 10 then 48 + n else 87 + n
  }

  function Escaped(c: nat): Text {
    if c == 34 || c == 92 then [92, c]
    else if c == 8 then [92, 98]
    else if c == 9 then [92, 116]
    else if c == 10 then [92, 110]
    else if c == 12 then [92, 102]
    else if c == 13 then [92, 114]
    else if c < 32 || 0xD800 <= c <= 0xDFFF
    then [92, 117, Hex(c / 4096 % 16), Hex(c / 256 % 16), Hex(c / 16 % 16), Hex(c % 16)]
    else [c]
  }

  function EscapedAll(t: Text): Text {
    if t == [] then [] else EscapedAll(t[..|t| - 1]) + Escaped(t[|t| - 1])
  }

  function Quoted(t: Text): Text {
    [34] + EscapedAll(t) + [34]
  }

  function Written(j: Json, number: Number -> Text): Text
    decreases j
  {
    match j
    case JNull => Ascii("null")
    case JBool(b) => if b then Ascii("true") else Ascii("false")
    case JNum(n) => number(n)
    case JStr(t) => Quoted(t)
    case JArr(items) => [91] + ItemsText(items, number) + [93]
    case JObj(fields) => [123] + FieldsText(fields, number) + [125]
  }

  function ItemsText(items: seq<Json>, number: Number -> Text): Text
    decreases items
  {
    if items == [] then []
    else
      ItemsText(items[..|items| - 1], number) + (if |items| > 1 then [44] else []) + Written(items[|items| - 1], number)
  }

  function FieldText(f: Field, number: Number -> Text): Text
    decreases f
  {
    [34] + Ascii(NameOf(f.key)) + [34, 58] + Written(f.value, number)
  }

  function FieldsText(fields: seq<Field>, number: Number -> Text): Text
    decreases fields
  {
    if fields == [] then []
    else
      FieldsText(fields[..|fields| - 1], number) + (if |fields| > 1 then [44] else [])
      + FieldText(fields[|fields| - 1], number)
  }

  // ---------- looking for a session ----------

  predicate HoldsAt(t: Text, part: Text, i: nat) {
    i + |part| <= |t| && t[i..i + |part|] == part
  }

  predicate Contains(t: Text, part: Text) {
    exists i | 0 <= i <= |t| :: HoldsAt(t, part, i)
  }

  // What a session's lines are looked for by: its key, as a line is written with it.
  function Needle(key: Text): Text {
    Ascii("\"key\":\"") + key + Ascii("\"")
  }

  lemma ContainsItself(t: Text)
    ensures Contains(t, t)
  {
    assert HoldsAt(t, t, 0);
  }

  lemma ContainsAround(before: Text, t: Text, after: Text, part: Text)
    requires Contains(t, part)
    ensures Contains(before + t + after, part)
  {
    var i :| 0 <= i <= |t| && HoldsAt(t, part, i);
    var k := |before| + i;
    assert (before + t + after)[k..k + |part|] == t[i..i + |part|];
    assert HoldsAt(before + t + after, part, k);
  }

  lemma {:induction false} FieldIsIn(fields: seq<Field>, k: nat, number: Number -> Text, part: Text)
    requires k < |fields| && Contains(FieldText(fields[k], number), part)
    ensures Contains(FieldsText(fields, number), part)
  {
    hide Contains, FieldText;
    var last := |fields| - 1;
    var comma: Text := if |fields| > 1 then [44] else [];
    var front := FieldsText(fields[..last], number);
    var end := FieldText(fields[last], number);
    if k < last {
      FieldIsIn(fields[..last], k, number, part);
      ContainsAround([], front, comma + end, part);
      assert [] + front + (comma + end) == front + comma + end;
    } else {
      ContainsAround(front + comma, end, [], part);
      assert front + comma + end + [] == front + comma + end;
    }
  }

  lemma {:induction false} GetIsIn(fields: seq<Field>, key: Key) returns (k: nat)
    requires Get(fields, key).Some?
    ensures k < |fields| && fields[k] == Field(key, Get(fields, key).value)
  {
    k := |fields| - 1;
    if fields[k].key != key { k := GetIsIn(fields[..k], key); }
  }

  // What a field's text contains, its object's does.
  lemma ObjectContains(fields: seq<Field>, key: Key, number: Number -> Text, part: Text)
    requires Get(fields, key).Some? && Contains(FieldText(Field(key, Get(fields, key).value), number), part)
    ensures Contains(Written(JObj(fields), number), part)
  {
    hide Contains, FieldText, FieldsText;
    var k := GetIsIn(fields, key);
    FieldIsIn(fields, k, number, part);
    ContainsAround([123], FieldsText(fields, number), [125], part);
  }

  lemma {:induction false} HexIsWrittenAsItIs(t: Text)
    requires forall i | 0 <= i < |t| :: IsLowerHex(t[i])
    ensures EscapedAll(t) == t
  {
    if t != [] { HexIsWrittenAsItIs(t[..|t| - 1]); }
  }

  lemma KeyFieldIsTheNeedle(key: Text, number: Number -> Text)
    requires IsSessionKey(key)
    ensures FieldText(Field(KeyKey, JStr(key)), number) == Needle(key)
  {
    HexIsWrittenAsItIs(key);
    assert Ascii("key") == [107, 101, 121];
    assert Ascii("\"key\":\"") == [34, 107, 101, 121, 34, 58, 34] && Ascii("\"") == [34];
    assert [34] + [107, 101, 121] + [34, 58] + ([34] + key + [34]) == [34, 107, 101, 121, 34, 58, 34] + key + [34];
  }

  // A bounded line's text contains what its session is looked for by.
  lemma BoundedLineIsFound(l: Line, number: Number -> Text)
    requires Bounded(l)
    ensures Contains(Written(ToJson(l), number), Needle(l.session.key))
  {
    var key := l.session.key;
    assert IsSessionKey(key);
    hide Bounded, Contains, Written, FieldText, Get, LineFields, SessionFields, IsSessionKey, LineAt, Needle;
    SessionIsFound(l.session, number);
    SessionFieldOf(l);
    SessionFieldContains(JObj(SessionFields(l.session)), number, Needle(key));
    ObjectContains(LineFields(l), SessionKey, number, Needle(key));
  }

  lemma SessionIsFound(s: Session, number: Number -> Text)
    requires IsSessionKey(s.key)
    ensures Contains(Written(JObj(SessionFields(s)), number), Needle(s.key))
  {
    hide Contains, Written, FieldText, Get, SessionFields, IsSessionKey, Needle;
    KeyFieldIsTheNeedle(s.key, number);
    ContainsItself(Needle(s.key));
    SessionFieldsAt(s, KeyKey);
    ObjectContains(SessionFields(s), KeyKey, number, Needle(s.key));
  }

  lemma SessionFieldOf(l: Line)
    ensures Get(LineFields(l), SessionKey) == Some(JObj(SessionFields(l.session)))
  {
    hide Get, LineFields, SessionFields;
    LineFieldsAt(l, SessionKey);
  }

  lemma SessionFieldContains(session: Json, number: Number -> Text, part: Text)
    requires Contains(Written(session, number), part)
    ensures Contains(FieldText(Field(SessionKey, session), number), part)
  {
    hide Contains, Written;
    var before := [34] + Ascii(NameOf(SessionKey)) + [34, 58];
    ContainsAround(before, Written(session, number), [], part);
    assert before + Written(session, number) + [] == before + Written(session, number);
  }

  // Whatever it is given, a line is written so that looking for its session finds it.
  lemma EveryLineIsFound(raw: seq<Field>, here: Here, number: Number -> Text)
    requires HereOk(here)
    ensures var l := ActivityLineOf(raw, here);
            Contains(Written(ToJson(l), number), Needle(l.session.key))
  {
    hide Bounded, Contains, Written, Needle, ActivityLineOf, HereOk, LineBytes;
    EveryLineFits(raw, here);
    BoundedLineIsFound(ActivityLineOf(raw, here), number);
  }
}
