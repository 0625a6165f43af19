// The little text handling the store needs (packages/core/src/digest.ts), on ASCII white space and letters.
module Texts {
  predicate IsSpace(c: char) {
    c == ' ' || c == '\t' || c == '\n' || c == '\r'
  }

  function TrimStart(s: string): string {
    if s != "" && IsSpace(s[0]) then TrimStart(s[1..]) else s
  }

  function TrimEnd(s: string): string {
    if s != "" && IsSpace(s[|s| - 1]) then TrimEnd(s[..|s| - 1]) else s
  }

  function Trim(s: string): string {
    TrimEnd(TrimStart(s))
  }

  function LowerChar(c: char): char {
    if 'A' <= c <= 'Z' then c - 'A' + 'a' else c
  }

  function Lower(s: string): string {
    seq(|s|, i requires 0 <= i < |s| => LowerChar(s[i]))
  }

  function UpperChar(c: char): char {
    if 'a' <= c <= 'z' then c - 'a' + 'A' else c
  }

  function Upper(s: string): string {
    seq(|s|, i requires 0 <= i < |s| => UpperChar(s[i]))
  }

  // What a code's hash is taken of, as it is issued and as it is typed (packages/core/src/ids.ts, `hashChallenge`).
  function CodeOf(typed: string): string {
    Upper(Trim(typed))
  }

  // What follows the last `<` of `s`, when there is one and it holds no `>`.
  function AfterLastOpen(s: string): string {
    if s == "" || s[|s| - 1] == '<' || s[|s| - 1] == '>' then ""
    else AfterLastOpen(s[..|s| - 1]) + [s[|s| - 1]]
  }

  predicate EndsInOpen(s: string) {
    s != "" && s[|s| - 1] == '<'
  }

  // The address inside `Name <addr>`, else the whole entry; trimmed and lower-cased.
  function NormaliseAddress(entry: string): string {
    var t := TrimEnd(entry);
    if t != "" && t[|t| - 1] == '>' then
      var inside := AfterLastOpen(t[..|t| - 1]);
      if inside != "" && |inside| < |t| - 1 && EndsInOpen(t[..|t| - 1 - |inside|])
      then Lower(Trim(inside)) else Lower(Trim(entry))
    else Lower(Trim(entry))
  }

  function Addresses(entries: seq<string>): set<string> {
    set e | e in entries :: NormaliseAddress(e)
  }

  // ---------- what they come to ----------

  predicate IsBlank(c: char) {
    c as int == 32 || c as int == 9 || c as int == 10 || c as int == 13
  }

  predicate Blank(s: string) {
    forall i | 0 <= i < |s| :: IsBlank(s[i])
  }

  // Begins and ends with something to read, or is empty.
  predicate Bare(s: string) {
    s != "" ==> !IsBlank(s[0]) && !IsBlank(s[|s| - 1])
  }

  ghost predicate IsTrimOf(t: string, s: string) {
    Bare(t) && exists before, after :: Blank(before) && Blank(after) && s == before + t + after
  }

  lemma {:induction false} TrimStartIs(s: string) returns (before: string)
    ensures Blank(before) && s == before + TrimStart(s)
    ensures TrimStart(s) != "" ==> !IsBlank(TrimStart(s)[0])
  {
    before := "";
    if s != "" && IsSpace(s[0]) {
      var more := TrimStartIs(s[1..]);
      before := [s[0]] + more;
    }
  }

  lemma {:induction false} TrimEndIs(s: string) returns (after: string)
    ensures Blank(after) && s == TrimEnd(s) + after
    ensures TrimEnd(s) != "" ==> !IsBlank(TrimEnd(s)[|TrimEnd(s)| - 1])
  {
    after := "";
    if s != "" && IsSpace(s[|s| - 1]) {
      var front := s[..|s| - 1];
      var more := TrimEndIs(front);
      assert TrimEnd(s) == TrimEnd(front);
      after := more + [s[|s| - 1]];
      assert s == TrimEnd(front) + after;
    } else {
      assert TrimEnd(s) == s;
    }
  }

  // A text without the blanks around it.
  lemma TrimIs(s: string)
    ensures IsTrimOf(Trim(s), s)
  {
    var before := TrimStartIs(s);
    var after := TrimEndIs(TrimStart(s));
    hide TrimStart, TrimEnd;
    var t := Trim(s);
    assert s == before + t + after;
    if t != "" { assert TrimStart(s)[0] == t[0]; }
  }

  predicate InLowerCase(c: char, d: char) {
    d as int == if 65 <= c as int <= 90 then c as int + 32 else c as int
  }

  predicate InUpperCase(c: char, d: char) {
    d as int == if 97 <= c as int <= 122 then c as int - 32 else c as int
  }

  lemma LowerIsPointwise(s: string)
    ensures |Lower(s)| == |s| && forall i | 0 <= i < |s| :: InLowerCase(s[i], Lower(s)[i])
  {
  }

  lemma UpperIsPointwise(s: string)
    ensures |Upper(s)| == |s| && forall i | 0 <= i < |s| :: InUpperCase(s[i], Upper(s)[i])
  {
  }

  // The same letter, in either case, or the same character.
  predicate SameLetter(c: char, d: char) {
    || c == d
    || (65 <= c as int <= 90 && d as int == c as int + 32)
    || (65 <= d as int <= 90 && c as int == d as int + 32)
  }

  // A code typed is the one issued whatever blanks are around it and whatever the case of its letters; and no other is.
  lemma CodesMatchExactly(issued: string, typed: string)
    ensures CodeOf(issued) == CodeOf(typed) <==>
            && |Trim(issued)| == |Trim(typed)|
            && forall i | 0 <= i < |Trim(issued)| :: SameLetter(Trim(issued)[i], Trim(typed)[i])
  {
    var a := Trim(issued);
    var b := Trim(typed);
    UpperIsPointwise(a);
    UpperIsPointwise(b);
    hide Trim, Upper;
    if CodeOf(issued) == CodeOf(typed) {
      forall i | 0 <= i < |a| ensures SameLetter(a[i], b[i]) { assert Upper(a)[i] == Upper(b)[i]; }
    }
    if |a| == |b| && forall i | 0 <= i < |a| :: SameLetter(a[i], b[i]) { assert Upper(a) == Upper(b); }
  }

  // An entry that ends in an address between angle brackets.
  ghost predicate EndsIn(entry: string, inside: string) {
    && inside != "" && '<' !in inside && '>' !in inside
    && exists name, after :: Blank(after) && entry == name + "<" + inside + ">" + after
  }

  lemma {:induction false} AfterLastOpenIs(s: string) returns (before: string)
    ensures s == before + AfterLastOpen(s) && '<' !in AfterLastOpen(s) && '>' !in AfterLastOpen(s)
  {
    if s == "" || s[|s| - 1] == '<' || s[|s| - 1] == '>' {
      before := s;
      assert AfterLastOpen(s) == "";
    } else {
      var front := s[..|s| - 1];
      before := AfterLastOpenIs(front);
      assert s == front + [s[|s| - 1]];
      assert s == before + (AfterLastOpen(front) + [s[|s| - 1]]);
    }
  }

  // The address of `Name <address>`, or the entry itself; without blanks around it, and in lower case.
  lemma AddressIs(entry: string)
    ensures forall inside | EndsIn(entry, inside) :: NormaliseAddress(entry) == Lower(Trim(inside))
    ensures !(exists inside :: EndsIn(entry, inside)) ==> NormaliseAddress(entry) == Lower(Trim(entry))
  {
    forall inside | EndsIn(entry, inside) ensures NormaliseAddress(entry) == Lower(Trim(inside)) {
      AddressIsInside(entry, inside);
    }
    var inside := InsideIs(entry);
    hide EndsIn, NormaliseAddress, Lower, Trim;
  }

  lemma InsideIs(entry: string) returns (inside: string)
    ensures NormaliseAddress(entry) == Lower(Trim(entry)) || EndsIn(entry, inside)
  {
    var t := TrimEnd(entry);
    var after := TrimEndIs(entry);
    inside := "";
    hide TrimEnd, Lower, Trim;
    if t != "" && t[|t| - 1] == '>' {
      var front := t[..|t| - 1];
      inside := AfterLastOpen(front);
      var before := AfterLastOpenIs(front);
      hide AfterLastOpen;
      assert t[..|t| - 1 - |inside|] == before;
      if inside != "" && EndsInOpen(before) { OpenedEndsIn(entry, t, before, inside, after); }
    }
  }

  lemma OpenedEndsIn(entry: string, t: string, before: string, inside: string, after: string)
    requires entry == t + after && Blank(after) && t == before + inside + ">" && EndsInOpen(before)
    requires inside != "" && '<' !in inside && '>' !in inside
    ensures EndsIn(entry, inside)
  {
    var name := before[..|before| - 1];
    assert before == name + "<";
    assert entry == name + "<" + inside + ">" + after;
  }

  lemma {:induction false} TrimEndOf(t: string, after: string)
    requires Blank(after) && t != "" && !IsSpace(t[|t| - 1])
    ensures TrimEnd(t + after) == t
  {
    if after == "" {
      assert t + after == t;
    } else {
      var s := t + after;
      assert s[|s| - 1] == after[|after| - 1];
      assert IsBlank(after[|after| - 1]);
      assert s[..|s| - 1] == t + after[..|after| - 1];
      TrimEndOf(t, after[..|after| - 1]);
    }
  }

  lemma {:induction false} AfterOpen(before: string, inside: string)
    requires '<' !in inside && '>' !in inside
    ensures AfterLastOpen(before + "<" + inside) == inside
  {
    if inside == "" {
      assert before + "<" + inside == before + "<";
    } else {
      var s := before + "<" + inside;
      assert s[..|s| - 1] == before + "<" + inside[..|inside| - 1];
      AfterOpen(before, inside[..|inside| - 1]);
    }
  }

  lemma AddressIsInside(entry: string, inside: string)
    requires EndsIn(entry, inside)
    ensures NormaliseAddress(entry) == Lower(Trim(inside))
  {
    var name, after :| Blank(after) && entry == name + "<" + inside + ">" + after;
    var t := name + "<" + inside + ">";
    TrimEndOf(t, after);
    assert t[..|t| - 1] == name + "<" + inside;
    AfterOpen(name, inside);
    assert t[..|t| - 1 - |inside|] == name + "<";
    hide Lower, Trim;
  }
}
