/**
  The splitter of untrusted-content envelopes (apps/desktop/src/envelope.ts): its opening tag as a language, the matcher
  of that language, the scanning loop, and that the scan undoes the printer.
  */
module Envelope {
  import opened Wrappers

  // ---------- the opening tag, as a language ----------

  datatype Attribute = Attribute(name: string, value: string)

  const TAG := "<untrusted-content"

  predicate IsLower(c: char) {
    'a' <= c <= 'z'
  }

  predicate IsNameChar(c: char) {
    IsLower(c) || c == '-'
  }

  predicate IsValueChar(c: char) {
    'A' <= c <= 'Z' || 'a' <= c <= 'z' || '0' <= c <= '9' || c == '.' || c == '_' || c == ':' || c == '@' || c == '/'
    || c == '-'
  }

  predicate IsName(s: string) {
    s != "" && IsLower(s[0]) && forall i | 0 < i < |s| :: IsNameChar(s[i])
  }

  predicate IsValue(s: string) {
    1 <= |s| <= 128 && forall i | 0 <= i < |s| :: IsValueChar(s[i])
  }

  predicate IsAttribute(a: Attribute) {
    IsName(a.name) && IsValue(a.value)
  }

  function AttributeText(a: Attribute): string {
    " " + a.name + "=\"" + a.value + "\""
  }

  function AttributesText(attributes: seq<Attribute>): string {
    if attributes == [] then "" else AttributeText(attributes[0]) + AttributesText(attributes[1..])
  }

  function OpeningText(attributes: seq<Attribute>): string {
    TAG + AttributesText(attributes) + ">\n"
  }

  // One attribute or more, each of its shape: the language of the opening tag.
  predicate IsOpening(attributes: seq<Attribute>) {
    attributes != [] && forall a | a in attributes :: IsAttribute(a)
  }

  function ClosingText(boundary: string): string {
    "\n</untrusted-content boundary=\"" + boundary + "\">"
  }

  // ---------- the matcher ----------

  // The longest run of characters of one kind a text begins with.
  function Run(s: string, ok: char -> bool): (n: nat)
    ensures n <= |s| && (forall i | 0 <= i < n :: ok(s[i])) && (n < |s| ==> !ok(s[n]))
  {
    if s == "" || !ok(s[0]) then 0 else 1 + Run(s[1..], ok)
  }

  // The `="…"` a text begins with: its value, and how long it is written.
  function ReadValue(s: string): Option<(string, nat)> {
    if |s| < 2 || s[0] != '=' || s[1] != '"' then None
    else
      var n := Run(s[2..], IsValueChar);
      if !(1 <= n <= 128) || |s| <= 2 + n || s[2 + n] != '"' then None else Some((s[2..2 + n], n + 3))
  }

  // The attribute a text begins with, and how long it is written.
  function ReadAttribute(s: string): Option<(Attribute, nat)> {
    if |s| < 2 || s[0] != ' ' || !IsLower(s[1]) then None
    else
      var n := 1 + Run(s[1..], IsNameChar);
      var value := ReadValue(s[n..]);
      if value.None? then None else Some((Attribute(s[1..n], value.value.0), n + value.value.1))
  }

  // As many attributes as a text begins with, and how long they are written.
  function ReadAttributes(s: string): (seq<Attribute>, nat)
    decreases |s|
  {
    var first := ReadAttribute(s);
    if first.None? || first.value.1 > |s| || first.value.1 == 0 then ([], 0)
    else
      var rest := ReadAttributes(s[first.value.1..]);
      ([first.value.0] + rest.0, first.value.1 + rest.1)
  }

  datatype Opening = Opening(attributes: seq<Attribute>, length: nat)

  // The opening tag a text begins with, if it begins with one.
  function ReadOpening(s: string): (o: Option<Opening>)
    ensures o.Some? ==> 0 < o.value.length <= |s|
  {
    if !(TAG <= s) then None
    else
      var read := ReadAttributes(s[|TAG|..]);
      var end := |TAG| + read.1;
      if read.0 == [] || |s| < end + 2 || s[end..end + 2] != ">\n" then None
      else Some(Opening(read.0, end + 2))
  }

  function ValueText(value: string): string {
    "=\"" + value + "\""
  }

  // What it reads, it reads exactly.
  lemma ReadValueSound(s: string)
    requires ReadValue(s).Some?
    ensures var (value, n) := ReadValue(s).value;
            IsValue(value) && 0 < n <= |s| && s[..n] == ValueText(value)
  {
    var n := Run(s[2..], IsValueChar);
    assert forall i | 0 <= i < n :: IsValueChar(s[2..][i]) && s[2..2 + n][i] == s[2..][i];
    assert s[..n + 3] == "=\"" + s[2..2 + n] + "\"";
  }

  lemma TakeInThree(s: string, n: nat, m: nat)
    requires 1 <= n <= n + m <= |s|
    ensures s[..n + m] == s[..1] + s[1..n] + s[n..][..m]
  {
  }

  lemma ReadAttributeSound(s: string)
    requires ReadAttribute(s).Some?
    ensures var (a, n) := ReadAttribute(s).value;
            IsAttribute(a) && 0 < n <= |s| && s[..n] == AttributeText(a)
  {
    hide ReadValue, IsValue, ValueText, AttributeText, Run;
    var n := 1 + Run(s[1..], IsNameChar);
    ReadValueSound(s[n..]);
    var (value, m) := ReadValue(s[n..]).value;
    TakeInThree(s, n, m);
    AttributeTextParts(Attribute(s[1..n], value));
  }

  lemma AttributeTextParts(a: Attribute)
    ensures AttributeText(a) == " " + a.name + ValueText(a.value)
  {
  }

  lemma ReadValueComplete(value: string, tail: string)
    requires IsValue(value)
    ensures ReadValue(ValueText(value) + tail) == Some((value, |ValueText(value)|))
  {
    var s := ValueText(value) + tail;
    var after := "\"" + tail;
    assert s[2..] == value + after;
    RunExact(s[2..], value, IsValueChar);
    assert s[2..2 + |value|] == value;
    assert s[2 + |value|] == after[0];
  }

  lemma {:induction false} RunExact(s: string, prefix: string, ok: char -> bool)
    requires prefix <= s && (forall i | 0 <= i < |prefix| :: ok(prefix[i]))
    requires |s| > |prefix| ==> !ok(s[|prefix|])
    ensures Run(s, ok) == |prefix|
  {
    if prefix != "" {
      RunExact(s[1..], prefix[1..], ok);
    }
  }

  lemma Skip(p: string, tail: string)
    ensures (p + tail)[|p|..] == tail && (p + tail)[..|p|] == p
  {
  }

  lemma AttributeLayout(name: string, v: string, tail: string)
    requires name != ""
    ensures var s := " " + name + v + tail;
            var n := 1 + |name|;
            && |s| >= 2 && s[0] == ' ' && s[1] == name[0] && s[1..] == name + (v + tail)
            && s[1..n] == name && s[n..] == v + tail
  {
    var s := " " + name + v + tail;
    assert s[1..] == name + (v + tail);
  }

  lemma ReadAttributeComplete(a: Attribute, tail: string)
    requires IsAttribute(a)
    ensures ReadAttribute(AttributeText(a) + tail) == Some((a, |AttributeText(a)|))
  {
    hide ReadValue, IsValue, ValueText, AttributeText, IsNameChar, Run;
    AttributeTextParts(a);
    ReadValueComplete(a.value, tail);
    AttributeLayout(a.name, ValueText(a.value), tail);
    ValueStarts(a.value, tail);
    NameEnds(a.name, ValueText(a.value) + tail);
  }

  lemma ValueStarts(value: string, tail: string)
    ensures ValueText(value) + tail != "" && (ValueText(value) + tail)[0] == '='
  {
  }

  lemma NameEnds(name: string, tail: string)
    requires IsName(name) && tail != "" && tail[0] == '='
    ensures Run(name + tail, IsNameChar) == |name|
  {
    RunExact(name + tail, name, IsNameChar);
  }

  lemma {:induction false} ReadAttributesSound(s: string)
    ensures var (attributes, n) := ReadAttributes(s);
            n <= |s| && s[..n] == AttributesText(attributes) && forall a | a in attributes :: IsAttribute(a)
    decreases |s|
  {
    hide ReadAttribute, AttributeText, IsAttribute;
    var first := ReadAttribute(s);
    if first.Some? {
      ReadAttributeSound(s);
      var m := first.value.1;
      ReadAttributesSound(s[m..]);
      var rest := ReadAttributes(s[m..]);
      assert s[..m + rest.1] == s[..m] + s[m..][..rest.1];
      assert ReadAttributes(s).0[1..] == rest.0;
    }
  }

  // Nothing that follows attributes is one: the reading is the only one.
  lemma {:induction false} ReadAttributesComplete(attributes: seq<Attribute>, tail: string)
    requires (forall a | a in attributes :: IsAttribute(a)) && (tail != "" ==> tail[0] != ' ')
    ensures ReadAttributes(AttributesText(attributes) + tail) == (attributes, |AttributesText(attributes)|)
    decreases |attributes|
  {
    hide IsAttribute, AttributeText, ReadAttribute, ReadAttributes, AttributesText;
    if attributes == [] {
      NothingToRead(tail);
    } else {
      var t := AttributeText(attributes[0]);
      var rest := AttributesText(attributes[1..]) + tail;
      ReadAttributesComplete(attributes[1..], tail);
      ReadAttributeComplete(attributes[0], rest);
      ReadOneMore(t, rest, attributes[0]) by { AttributeTextIsSome(attributes[0]); }
      AttributesTextOf(attributes, tail);
      assert attributes == [attributes[0]] + attributes[1..];
    }
  }

  lemma NothingToRead(tail: string)
    requires tail != "" ==> tail[0] != ' '
    ensures AttributesText([]) + tail == tail && ReadAttributes(tail) == ([], 0) && |AttributesText([])| == 0
  {
  }

  lemma AttributesTextOf(attributes: seq<Attribute>, tail: string)
    requires attributes != []
    ensures AttributesText(attributes) + tail == AttributeText(attributes[0]) + (AttributesText(attributes[1..]) + tail)
    ensures |AttributesText(attributes)| == |AttributeText(attributes[0])| + |AttributesText(attributes[1..])|
  {
    hide AttributeText;
  }

  lemma ReadOneMore(t: string, rest: string, a: Attribute)
    requires t != "" && ReadAttribute(t + rest) == Some((a, |t|))
    ensures ReadAttributes(t + rest) == ([a] + ReadAttributes(rest).0, |t| + ReadAttributes(rest).1)
  {
    hide ReadAttribute;
    Skip(t, rest);
  }

  lemma AttributeTextIsSome(a: Attribute)
    ensures AttributeText(a) != ""
  {
  }

  // The matcher is the language: it reads only an opening tag, as it is written.
  lemma ReadOpeningSound(s: string)
    requires ReadOpening(s).Some?
    ensures var o := ReadOpening(s).value;
            IsOpening(o.attributes) && 0 < o.length <= |s| && s[..o.length] == OpeningText(o.attributes)
  {
    hide ReadAttributes, IsAttribute;
    ReadAttributesSound(s[|TAG|..]);
    var read := ReadAttributes(s[|TAG|..]);
    var end := |TAG| + read.1;
    assert s[..end + 2] == s[..|TAG|] + s[|TAG|..][..read.1] + s[end..end + 2];
  }

  // And every text that begins with one, it reads so.
  lemma ReadOpeningComplete(attributes: seq<Attribute>, tail: string)
    requires IsOpening(attributes)
    ensures ReadOpening(OpeningText(attributes) + tail) == Some(Opening(attributes, |OpeningText(attributes)|))
  {
    hide ReadAttributes, AttributesText, IsAttribute;
    var s := OpeningText(attributes) + tail;
    var t := AttributesText(attributes);
    assert s == TAG + (t + (">\n" + tail));
    assert s[|TAG|..] == t + (">\n" + tail);
    ReadAttributesComplete(attributes, ">\n" + tail);
    var end := |TAG| + |t|;
    assert s[end..] == ">\n" + tail;
    assert s[end..end + 2] == s[end..][..2] == ">\n";
  }

  // ---------- the scan ----------

  datatype Part = Shown(text: string) | Outside(text: string)

  // What the parts are taken from: app text, and whole envelopes.
  datatype Piece = Said(text: string) | Held(attributes: seq<Attribute>, content: string)

  predicate Bounded(attributes: seq<Attribute>) {
    attributes != [] && attributes[0].name == "boundary"
  }

  function Print(piece: Piece): string {
    match piece
    case Said(text) => text
    case Held(attributes, content) =>
      OpeningText(attributes) + content + if attributes == [] then "" else ClosingText(attributes[0].value)
  }

  function PrintAll(pieces: seq<Piece>): string {
    if pieces == [] then "" else Print(pieces[0]) + PrintAll(pieces[1..])
  }

  // The first place from `k` on where an opening tag begins.
  function NextOpening(s: string, k: nat): (i: Option<nat>)
    requires k <= |s|
    ensures i.Some? ==> k <= i.value < |s| && ReadOpening(s[i.value..]).Some?
    ensures forall j | k <= j < (if i.Some? then i.value else |s|) :: ReadOpening(s[j..]).None?
    decreases |s| - k
  {
    if k == |s| then None
    else if ReadOpening(s[k..]).Some? then Some(k)
    else NextOpening(s, k + 1)
  }

  predicate Occurs(s: string, word: string, i: nat) {
    i + |word| <= |s| && s[i..i + |word|] == word
  }

  function IndexOf(s: string, word: string, k: nat): (i: Option<nat>)
    requires k <= |s|
    ensures i.Some? ==> k <= i.value && Occurs(s, word, i.value)
    ensures forall j | k <= j < (if i.Some? then i.value else |s| + 1) :: !Occurs(s, word, j)
    decreases |s| - k
  {
    if Occurs(s, word, k) then Some(k)
    else if k == |s| then None
    else IndexOf(s, word, k + 1)
  }

  // The pieces of a text whose first `k` characters are known to be app text.
  function Pieces(s: string, k: nat): seq<Piece>
    requires k <= |s|
    decreases |s|, |s| - k
  {
    var found := NextOpening(s, k);
    if found.None? then (if s == "" then [] else [Said(s)])
    else
      var i := found.value;
      var o := ReadOpening(s[i..]).value;
      var start := i + o.length;
      if !Bounded(o.attributes) then Pieces(s, start)
      else
        var closing := ClosingText(o.attributes[0].value);
        var end := IndexOf(s, closing, start);
        if end.None? then Pieces(s, start)
        else
          (if i > 0 then [Said(s[..i])] else []) + [Held(o.attributes, s[start..end.value])]
          + Pieces(s[end.value + |closing|..], 0)
  }

  function PartOf(piece: Piece): Part {
    match piece
    case Said(text) => Shown(text)
    case Held(_, content) => Outside(content)
  }

  function PartsOf(pieces: seq<Piece>): seq<Part> {
    if pieces == [] then [] else [PartOf(pieces[0])] + PartsOf(pieces[1..])
  }

  // An empty text is one empty part.
  function Split(s: string): seq<Part> {
    var pieces := Pieces(s, 0);
    if pieces == [] then [Shown("")] else PartsOf(pieces)
  }

  // ---------- the scan, in place ----------

  lemma Suffix(text: string, i: nat, j: nat)
    requires i + j <= |text|
    ensures text[i..][j..] == text[i + j..]
  {
  }

  lemma {:induction false} NextOpeningShifts(text: string, shown: nat, k: nat)
    requires shown + k <= |text|
    ensures var here := NextOpening(text[shown..], k);
            NextOpening(text, shown + k) == if here.Some? then Some(shown + here.value) else None
    decreases |text| - k
  {
    hide ReadOpening;
    Suffix(text, shown, k);
    if shown + k < |text| { NextOpeningShifts(text, shown, k + 1); }
  }

  lemma IndexOfShifts(text: string, word: string, shown: nat, k: nat)
    requires shown + k <= |text|
    ensures var here := IndexOf(text[shown..], word, k);
            IndexOf(text, word, shown + k) == if here.Some? then Some(shown + here.value) else None
  {
    forall j: nat ensures Occurs(text[shown..], word, j) <==> Occurs(text, word, shown + j) {
      if shown + j + |word| <= |text| {
        assert text[shown..][j..j + |word|] == text[shown + j..shown + j + |word|];
      }
    }
    hide Occurs;
    var here := IndexOf(text[shown..], word, k);
    var there := IndexOf(text, word, shown + k);
    if here.Some? { assert Occurs(text, word, shown + here.value); }
    if there.Some? { assert Occurs(text[shown..], word, there.value - shown); }
  }

  // What the scan finds next, by its place in the whole text.
  lemma PiecesInPlace(text: string, shown: nat, k: nat)
    requires shown + k <= |text|
    ensures var found := NextOpening(text, shown + k);
            var pieces := Pieces(text[shown..], k);
            if found.None? then pieces == (if shown == |text| then [] else [Said(text[shown..])])
            else
              var o := ReadOpening(text[found.value..]).value;
              var start := found.value + o.length;
              var end := if Bounded(o.attributes) then IndexOf(text, ClosingText(o.attributes[0].value), start) else None;
              if end.None? then pieces == Pieces(text[shown..], start - shown)
              else
                pieces == (if found.value > shown then [Said(text[shown..found.value])] else [])
                          + [Held(o.attributes, text[start..end.value])]
                          + Pieces(text[end.value + |ClosingText(o.attributes[0].value)|..], 0)
  {
    hide ReadOpening, ClosingText, Occurs, Bounded, Pieces, NextOpening, IndexOf;
    NextOpeningShifts(text, shown, k);
    var rest := text[shown..];
    PiecesNext(rest, k);
    var here := NextOpening(rest, k);
    if here.Some? {
      var i := here.value;
      Suffix(text, shown, i);
      var o := ReadOpening(text[shown + i..]).value;
      if Bounded(o.attributes) {
        BoundedIsSome(o.attributes);
        var closing := ClosingText(o.attributes[0].value);
        IndexOfShifts(text, closing, shown, i + o.length);
        var end := IndexOf(rest, closing, i + o.length);
        if end.Some? {
          OccursFits(rest, closing, end.value);
          Suffix(text, shown, end.value + |closing|);
          Slice(text, shown, 0, i);
          Slice(text, shown, i + o.length, end.value);
        }
      }
    }
  }

  lemma Slice(text: string, shown: nat, i: nat, j: nat)
    requires i <= j && shown + j <= |text|
    ensures text[shown..][i..j] == text[shown + i..shown + j]
  {
  }

  lemma PiecesNext(s: string, k: nat)
    requires k <= |s|
    ensures var found := NextOpening(s, k);
            var pieces := Pieces(s, k);
            if found.None? then pieces == (if s == "" then [] else [Said(s)])
            else
              var i := found.value;
              var o := ReadOpening(s[i..]).value;
              var start := i + o.length;
              var end := if Bounded(o.attributes) then IndexOf(s, ClosingText(o.attributes[0].value), start) else None;
              if end.None? then pieces == Pieces(s, start)
              else
                && Occurs(s, ClosingText(o.attributes[0].value), end.value)
                && pieces == (if i > 0 then [Said(s[..i])] else []) + [Held(o.attributes, s[start..end.value])]
                             + Pieces(s[end.value + |ClosingText(o.attributes[0].value)|..], 0)
  {
    hide ReadOpening, ClosingText, NextOpening, IndexOf;
  }

  lemma BoundedIsSome(attributes: seq<Attribute>)
    requires Bounded(attributes)
    ensures attributes != []
  {
  }

  lemma OccursFits(s: string, word: string, i: nat)
    requires Occurs(s, word, i)
    ensures i + |word| <= |s|
  {
  }

  // The scan: one opening after another, the parts pushed as they are found.
  method SplitEnvelopes(text: string) returns (parts: seq<Part>)
    ensures parts == Split(text)
  {
    hide ReadOpening, ClosingText, Occurs, Pieces, NextOpening, IndexOf, PartsOf;
    parts := [];
    EmptyParts([]);
    var shown: nat := 0;
    var lastIndex: nat := 0;
    var found := NextOpening(text, lastIndex);
    assert text[0..] == text;
    while found.Some?
      invariant shown <= lastIndex <= |text|
      invariant found == NextOpening(text, lastIndex)
      invariant PartsOf(Pieces(text, 0)) == parts + PartsOf(Pieces(text[shown..], lastIndex - shown))
      decreases |text| - lastIndex
    {
      PiecesInPlace(text, shown, lastIndex - shown);
      var opening := ReadOpening(text[found.value..]).value;
      var start := found.value + opening.length;
      lastIndex := start;
      if Bounded(opening.attributes) {
        var closing := ClosingText(opening.attributes[0].value);
        var end := IndexOf(text, closing, start);
        if end.Some? {
          OccursFits(text, closing, end.value);
          ghost var was := parts;
          if found.value > shown {
            parts := parts + [Shown(text[shown..found.value])];
          }
          parts := parts + [Outside(text[start..end.value])];
          FoundParts(was, text[shown..found.value], opening.attributes, text[start..end.value],
                     Pieces(text[end.value + |closing|..], 0));
          shown := end.value + |closing|;
          lastIndex := shown;
        }
      }
      found := NextOpening(text, lastIndex);
    }
    PiecesInPlace(text, shown, lastIndex - shown);
    EmptyParts(Pieces(text, 0));
    LastPart(text[shown..]);
    if shown < |text| || |parts| == 0 {
      parts := parts + [Shown(text[shown..])];
    }
  }

  lemma FoundParts(parts: seq<Part>, before: string, attributes: seq<Attribute>, content: string, rest: seq<Piece>)
    ensures parts + PartsOf((if before != "" then [Said(before)] else []) + [Held(attributes, content)] + rest)
            == (if before != "" then parts + [Shown(before)] else parts) + [Outside(content)] + PartsOf(rest)
  {
    var held := [Held(attributes, content)] + rest;
    assert held[1..] == rest;
    if before != "" {
      assert [Said(before)] + [Held(attributes, content)] + rest == [Said(before)] + held;
      assert ([Said(before)] + held)[1..] == held;
    } else {
      assert [] + [Held(attributes, content)] + rest == held;
    }
  }

  lemma EmptyParts(pieces: seq<Piece>)
    ensures PartsOf(pieces) == [] <==> pieces == []
  {
  }

  lemma LastPart(text: string)
    ensures PartsOf([Said(text)]) == [Shown(text)]
  {
    assert [Said(text)][1..] == [];
  }

  // ---------- nothing is lost ----------

  lemma {:induction false} PrintMore(pieces: seq<Piece>, more: seq<Piece>)
    ensures PrintAll(pieces + more) == PrintAll(pieces) + PrintAll(more)
  {
    hide Print;
    if pieces == [] {
      assert pieces + more == more;
    } else {
      PrintMore(pieces[1..], more);
      assert (pieces + more)[1..] == pieces[1..] + more && (pieces + more)[0] == pieces[0];
      TwoMore(Print(pieces[0]), PrintAll(pieces[1..]), PrintAll(more));
    }
  }

  lemma TwoMore(a: string, b: string, c: string)
    ensures a + (b + c) == a + b + c
  {
  }

  lemma PrintOne(piece: Piece)
    ensures PrintAll([piece]) == Print(piece)
  {
    hide Print;
    assert [piece][1..] == [];
  }

  // Every text is its pieces, printed: whatever it holds, the scan loses and adds nothing.
  lemma {:induction false} PiecesPrintTheText(s: string, k: nat)
    requires k <= |s|
    ensures PrintAll(Pieces(s, k)) == s
    decreases |s|, |s| - k
  {
    hide ReadOpening, ClosingText, NextOpening, IndexOf, Pieces, PrintAll, Print, Occurs;
    PiecesNext(s, k);
    var found := NextOpening(s, k);
    if found.None? {
      PrintSaid(s);
    } else {
      var i := found.value;
      var o := ReadOpening(s[i..]).value;
      var start := i + o.length;
      var end := if Bounded(o.attributes) then IndexOf(s, ClosingText(o.attributes[0].value), start) else None;
      if end.None? {
        PiecesPrintTheText(s, start);
      } else {
        var after := end.value + |ClosingText(o.attributes[0].value)|;
        OccursFits(s, ClosingText(o.attributes[0].value), end.value);
        PiecesPrintTheText(s[after..], 0);
        EnvelopePrints(s, i, o, end.value);
        var before := if i > 0 then [Said(s[..i])] else [];
        var held := [Held(o.attributes, s[start..end.value])];
        PrintMore(before + held, Pieces(s[after..], 0));
        PrintMore(before, held);
        PrintOne(held[0]);
        PrintSaid(s[..i]);
        assert s == s[..i] + s[i..after] + s[after..];
      }
    }
  }

  lemma PrintSaid(s: string)
    ensures PrintAll([]) == "" && PrintAll([Said(s)]) == s
  {
    PrintOne(Said(s));
  }

  // An envelope found is its opening, its content and its closing.
  lemma EnvelopePrints(s: string, i: nat, o: Opening, end: nat)
    requires i <= |s| && ReadOpening(s[i..]) == Some(o) && Bounded(o.attributes) && i + o.length <= end
    requires Occurs(s, ClosingText(o.attributes[0].value), end)
    ensures Print(Held(o.attributes, s[i + o.length..end])) == s[i..end + |ClosingText(o.attributes[0].value)|]
  {
    hide ReadOpening, ClosingText, OpeningText, IsOpening, Print;
    ReadOpeningSound(s[i..]);
    var closing := ClosingText(o.attributes[0].value);
    var content := s[i + o.length..end];
    PrintHeld(o.attributes, content);
    Slice(s, i, 0, o.length);
    Join(s, i, i + o.length, end, end + |closing|);
  }

  lemma Join(s: string, a: nat, b: nat, c: nat, d: nat)
    requires a <= b <= c <= d <= |s|
    ensures s[a..d] == s[a..b] + s[b..c] + s[c..d]
  {
  }

  lemma PrintHeld(attributes: seq<Attribute>, content: string)
    requires Bounded(attributes)
    ensures Print(Held(attributes, content)) == OpeningText(attributes) + content + ClosingText(attributes[0].value)
  {
  }

  // ---------- the printer is undone ----------

  predicate NoBracket(s: string) {
    forall i | 0 <= i < |s| :: s[i] != '<'
  }

  lemma {:induction false} AttributesHaveNoBracket(attributes: seq<Attribute>)
    requires forall a | a in attributes :: IsAttribute(a)
    ensures NoBracket(AttributesText(attributes))
  {
    if attributes != [] {
      AttributeHasNoBracket(attributes[0]);
      AttributesHaveNoBracket(attributes[1..]);
      hide AttributeText, IsAttribute;
    }
  }

  lemma AttributeHasNoBracket(a: Attribute)
    requires IsAttribute(a)
    ensures NoBracket(AttributeText(a))
  {
  }

  // An opening tag holds `<` only where it begins.
  lemma OpeningHasOneBracket(attributes: seq<Attribute>)
    requires IsOpening(attributes)
    ensures forall i | 0 <= i < |OpeningText(attributes)| :: OpeningText(attributes)[i] == '<' ==> i == 0
  {
    AttributesHaveNoBracket(attributes);
    hide AttributesText, IsAttribute;
  }

  // No opening tag of a text, and what follows it, begins inside the text.
  lemma NoOpeningInside(u: string, tail: string)
    requires u != "" && ReadOpening(u).None? && (tail == "" || tail[0] == '<')
    ensures ReadOpening(u + tail).None?
  {
    if ReadOpening(u + tail).Some? {
      ReadOpeningSound(u + tail);
      hide ReadOpening, OpeningText, IsOpening;
      var o := ReadOpening(u + tail).value;
      OpeningIsInside(u, tail, o.attributes, o.length);
    }
  }

  lemma OpeningIsInside(u: string, tail: string, attributes: seq<Attribute>, n: nat)
    requires u != "" && (tail == "" || tail[0] == '<')
    requires IsOpening(attributes) && n <= |u + tail| && (u + tail)[..n] == OpeningText(attributes)
    ensures ReadOpening(u).Some?
  {
    hide ReadOpening, OpeningText, IsOpening;
    var t := OpeningText(attributes);
    OpeningHasOneBracket(attributes);
    assert forall i | 0 <= i < n :: (u + tail)[i] == t[i];
    assert tail != "" ==> (u + tail)[|u|] == '<';
    assert n <= |u|;
    assert u == t + u[n..];
    ReadOpeningComplete(attributes, u[n..]);
  }

  predicate CleanText(text: string) {
    text != "" && NextOpening(text, 0).None?
  }

  predicate CleanEnvelope(attributes: seq<Attribute>, content: string) {
    IsOpening(attributes) && Bounded(attributes) && IndexOf(content, ClosingText(attributes[0].value), 0).None?
  }

  // App text that holds no opening tag; an envelope as the printer writes one, its content without its own closing.
  predicate Clean(piece: Piece) {
    match piece
    case Said(text) => CleanText(text)
    case Held(attributes, content) => CleanEnvelope(attributes, content)
  }

  lemma ScanPassesText(text: string, tail: string)
    requires (text == "" || CleanText(text)) && (tail == "" || (tail[0] == '<' && ReadOpening(tail).Some?))
    ensures NextOpening(text + tail, 0) == if tail == "" then None else Some(|text|)
  {
    hide ReadOpening;
    var s := text + tail;
    forall j | 0 <= j < |text| ensures ReadOpening(s[j..]).None? {
      assert s[j..] == text[j..] + tail;
      NoOpeningInside(text[j..], tail);
    }
    if tail != "" { assert s[|text|..] == tail; }
    var found := NextOpening(s, 0);
    if found.Some? { assert ReadOpening(s[found.value..]).Some?; }
  }

  lemma ClosingHasOneBreak(boundary: string)
    requires IsValue(boundary)
    ensures var c := ClosingText(boundary); c != "" && c[0] == '\n' && forall i | 0 < i < |c| :: c[i] != '\n'
  {
    var front := "</untrusted-content boundary=\"";
    assert ClosingText(boundary) == "\n" + (front + (boundary + "\">"));
  }

  lemma OccursAt(s: string, word: string, i: nat)
    ensures Occurs(s, word, i) ==> forall x | i <= x < i + |word| :: s[x] == word[x - i]
  {
    if Occurs(s, word, i) {
      forall x | i <= x < i + |word| ensures s[x] == word[x - i] {
        assert s[i..i + |word|][x - i] == s[x];
      }
    }
  }

  // The first closing after an opening is the envelope's own.
  lemma ClosingIsFound(before: string, content: string, closing: string, tail: string)
    requires closing != "" && closing[0] == '\n' && forall i | 0 < i < |closing| :: closing[i] != '\n'
    requires IndexOf(content, closing, 0).None?
    ensures IndexOf(before + content + closing + tail, closing, |before|) == Some(|before| + |content|)
  {
    var s := before + content + closing + tail;
    var at := |before| + |content|;
    assert s[at..at + |closing|] == closing;
    assert s[at] == '\n';
    forall i | |before| <= i < at ensures !Occurs(s, closing, i) {
      var j := i - |before|;
      if j + |closing| <= |content| {
        assert content[j..j + |closing|] == s[i..i + |closing|];
        assert !Occurs(content, closing, j);
      } else {
        OccursAt(s, closing, i);
      }
    }
    assert Occurs(s, closing, at);
  }

  lemma ScanFindsEnvelope(text: string, attributes: seq<Attribute>, content: string, tail: string)
    requires (text == "" || CleanText(text)) && CleanEnvelope(attributes, content)
    ensures Pieces(text + (Print(Held(attributes, content)) + tail), 0) ==
            (if text != "" then [Said(text)] else []) + [Held(attributes, content)] + Pieces(tail, 0)
  {
    hide Pieces, ClosingText, OpeningText, CleanText, IsOpening, IndexOf, Print;
    PrintHeld(attributes, content);
    ScanFindsHeld(text, attributes, content, tail);
  }

  lemma ScanFindsHeld(text: string, attributes: seq<Attribute>, content: string, tail: string)
    requires (text == "" || CleanText(text)) && CleanEnvelope(attributes, content)
    ensures Pieces(text + (OpeningText(attributes) + content + ClosingText(attributes[0].value) + tail), 0) ==
            (if text != "" then [Said(text)] else []) + [Held(attributes, content)] + Pieces(tail, 0)
  {
    hide ReadOpening, NextOpening, IndexOf, Pieces, ClosingText, OpeningText, IsOpening, CleanText, IsAttribute;
    var opening := OpeningText(attributes);
    BoundedIsSome(attributes);
    var closing := ClosingText(attributes[0].value);
    hide Bounded, IsValue;
    BoundaryIsValue(attributes);
    ClosingHasOneBreak(attributes[0].value);
    EnvelopeIsScanned(text, attributes, content, tail);
    ClosingIsFound(text + opening, content, closing, tail);
    EnvelopeLayout(text, opening, content, closing, tail);
    PiecesNext(text + (opening + content + closing + tail), 0);
  }

  lemma EnvelopeIsScanned(text: string, attributes: seq<Attribute>, content: string, tail: string)
    requires (text == "" || CleanText(text)) && CleanEnvelope(attributes, content)
    ensures var held := OpeningText(attributes) + content + ClosingText(attributes[0].value) + tail;
            && NextOpening(text + held, 0) == Some(|text|)
            && ReadOpening((text + held)[|text|..]) == Some(Opening(attributes, |OpeningText(attributes)|))
  {
    hide ReadOpening, NextOpening, IndexOf, ClosingText, OpeningText, IsOpening, CleanText;
    var opening := OpeningText(attributes);
    var closing := ClosingText(attributes[0].value);
    var held := opening + content + closing + tail;
    HeldLayout(opening, content, closing, tail);
    OpeningStarts(attributes);
    ReadOpeningComplete(attributes, content + closing + tail);
    ScanPassesText(text, held);
    Skip(text, held);
  }

  lemma BoundaryIsValue(attributes: seq<Attribute>)
    requires IsOpening(attributes) && Bounded(attributes)
    ensures IsValue(attributes[0].value)
  {
    assert attributes[0] in attributes;
  }

  lemma OpeningStarts(attributes: seq<Attribute>)
    ensures OpeningText(attributes) != "" && OpeningText(attributes)[0] == '<'
  {
  }

  lemma HeldLayout(opening: string, content: string, closing: string, tail: string)
    ensures opening + content + closing + tail == opening + (content + closing + tail)
  {
  }

  lemma EnvelopeLayout(text: string, opening: string, content: string, closing: string, tail: string)
    ensures var s := text + (opening + content + closing + tail);
            var start := |text| + |opening|;
            var end := start + |content|;
            && s == text + opening + content + closing + tail
            && s[..|text|] == text && s[start..end] == content && s[end + |closing|..] == tail
  {
  }

  // ---------- any document ----------

  // Adjacent app text as one, and empty app text as none.
  function Merge(pieces: seq<Piece>): seq<Piece> {
    if pieces == [] then []
    else
      var rest := Merge(pieces[1..]);
      if pieces[0].Held? then [pieces[0]] + rest
      else if pieces[0].text == "" then rest
      else if rest != [] && rest[0].Said? then [Said(pieces[0].text + rest[0].text)] + rest[1..]
      else [pieces[0]] + rest
  }

  predicate NoAdjacentText(pieces: seq<Piece>) {
    forall i | 0 < i < |pieces| :: pieces[i - 1].Held? || pieces[i].Held?
  }

  lemma PrintBefore(piece: Piece, rest: seq<Piece>)
    ensures PrintAll([piece] + rest) == Print(piece) + PrintAll(rest)
  {
    hide Print;
    assert ([piece] + rest)[1..] == rest;
  }

  lemma PrintJoined(one: string, two: string, rest: seq<Piece>)
    ensures PrintAll([Said(one + two)] + rest) == one + PrintAll([Said(two)] + rest)
  {
    PrintBefore(Said(one + two), rest);
    PrintBefore(Said(two), rest);
    hide PrintAll;
  }

  // What merging does with one more piece in front.
  lemma MergeOne(piece: Piece, rest: seq<Piece>)
    ensures Print(piece) == "" ==> PrintAll(rest) == Print(piece) + PrintAll(rest)
    ensures piece.Said? && rest != [] && rest[0].Said? ==>
              PrintAll([Said(piece.text + rest[0].text)] + rest[1..]) == Print(piece) + PrintAll(rest)
    ensures PrintAll([piece] + rest) == Print(piece) + PrintAll(rest)
  {
    hide OpeningText, ClosingText, PrintAll;
    PrintBefore(piece, rest);
    if piece.Said? && rest != [] && rest[0].Said? {
      PrintJoined(piece.text, rest[0].text, rest[1..]);
      assert [rest[0]] + rest[1..] == rest;
    }
  }

  lemma {:induction false} MergePrintsTheSame(pieces: seq<Piece>)
    ensures PrintAll(Merge(pieces)) == PrintAll(pieces)
  {
    if pieces != [] {
      MergePrintsTheSame(pieces[1..]);
      PrintNext(pieces);
      MergeOne(pieces[0], Merge(pieces[1..]));
      hide PrintAll, OpeningText, ClosingText;
    }
  }

  lemma {:induction false} MergeLeavesNoneAdjacent(pieces: seq<Piece>)
    ensures NoAdjacentText(Merge(pieces))
  {
    if pieces != [] { MergeLeavesNoneAdjacent(pieces[1..]); }
  }

  lemma {:induction false} CleanPiecesComeBack(pieces: seq<Piece>)
    requires NoAdjacentText(pieces) && forall p | p in pieces :: Clean(p)
    ensures Pieces(PrintAll(pieces), 0) == pieces
    decreases |pieces|
  {
    hide Pieces, CleanText, CleanEnvelope, Print, PrintAll, OpeningText, ClosingText, NextOpening, IndexOf, ReadOpening;
    if pieces == [] {
      EmptyText();
    } else if pieces[0].Held? {
      assert Clean(pieces[0]);
      PrintNext(pieces);
      CleanPiecesComeBack(pieces[1..]);
      ScanFindsEnvelope("", pieces[0].attributes, pieces[0].content, PrintAll(pieces[1..]));
      assert "" + PrintAll(pieces) == PrintAll(pieces);
      assert pieces == [pieces[0]] + pieces[1..];
    } else if |pieces| == 1 {
      assert Clean(pieces[0]);
      LoneText(pieces[0].text);
      assert pieces == [Said(pieces[0].text)];
    } else {
      assert Clean(pieces[0]) && Clean(pieces[1]) && pieces[1].Held?;
      PrintNext(pieces);
      PrintNext(pieces[1..]);
      PrintOne(pieces[0]);
      PrintSaid(pieces[0].text);
      assert pieces[1..][1..] == pieces[2..];
      CleanPiecesComeBack(pieces[2..]);
      ScanFindsEnvelope(pieces[0].text, pieces[1].attributes, pieces[1].content, PrintAll(pieces[2..]));
      CleanTextIsSome(pieces[0].text);
      assert pieces == [pieces[0]] + [pieces[1]] + pieces[2..];
    }
  }

  lemma CleanTextIsSome(text: string)
    requires CleanText(text)
    ensures text != ""
  {
  }

  lemma PrintNext(pieces: seq<Piece>)
    requires pieces != []
    ensures PrintAll(pieces) == Print(pieces[0]) + PrintAll(pieces[1..])
  {
    hide Print;
  }

  lemma EmptyText()
    ensures PrintAll([]) == "" && Pieces("", 0) == []
  {
  }

  lemma LoneText(text: string)
    requires CleanText(text)
    ensures PrintAll([Said(text)]) == text && Pieces(text, 0) == [Said(text)]
  {
    PrintSaid(text);
    PiecesNext(text, 0);
    hide Pieces, PrintAll;
  }

  // The splitter undoes the printer: of any app text and envelopes, it gives back those parts, adjacent text merged and
  // empty text dropped, whenever no merged text holds an opening tag and no content its own closing.
  lemma SplitUndoesPrint(document: seq<Piece>)
    requires forall p | p in Merge(document) :: Clean(p)
    ensures Pieces(PrintAll(document), 0) == Merge(document)
    ensures Split(PrintAll(document)) == if Merge(document) == [] then [Shown("")] else PartsOf(Merge(document))
  {
    hide Clean, Pieces, PrintAll, Merge, PartsOf;
    MergePrintsTheSame(document);
    MergeLeavesNoneAdjacent(document);
    CleanPiecesComeBack(Merge(document));
  }
}
