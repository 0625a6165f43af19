/**
  Whether two lists of recipients are the same (packages/core/src/approvals.ts, `sameList`): their distinct addresses,
  sorted and joined by newlines, compared as texts.
  */
module Recipients {
  import opened ApprovalBinding
  import opened Texts

  // One more address, in its place, unless it is there.
  function Place(address: string, sorted: seq<string>): seq<string> {
    if sorted == [] || CompareText(address, sorted[0]) < 0 then [address] + sorted
    else if address == sorted[0] then sorted
    else [sorted[0]] + Place(address, sorted[1..])
  }

  function Listed(entries: seq<string>): seq<string> {
    if entries == [] then [] else Place(NormaliseAddress(entries[0]), Listed(entries[1..]))
  }

  function Joined(lines: seq<string>): string {
    if lines == [] then "" else if |lines| == 1 then lines[0] else lines[0] + "\n" + Joined(lines[1..])
  }

  predicate SameList(a: seq<string>, b: seq<string>) {
    Joined(Listed(a)) == Joined(Listed(b))
  }

  // ---------- what it means ----------

  predicate Increasing(s: seq<string>) {
    forall i, j | 0 <= i < j < |s| :: CompareText(s[i], s[j]) < 0
  }

  lemma {:induction false} PlaceKeepsOrder(address: string, sorted: seq<string>)
    requires Increasing(sorted)
    ensures Increasing(Place(address, sorted))
    ensures forall y :: y in Place(address, sorted) <==> y == address || y in sorted
  {
    var r := Place(address, sorted);
    if sorted == [] || CompareText(address, sorted[0]) < 0 {
      forall j | 0 < j < |r| ensures CompareText(r[0], r[j]) < 0 {
        if j > 1 { CompareTextTransitive(address, sorted[0], sorted[j - 1]); }
      }
    } else if address != sorted[0] {
      PlaceKeepsOrder(address, sorted[1..]);
      CompareTextAntisymmetric(address, sorted[0]);
      assert r[1..] == Place(address, sorted[1..]);
      forall j | 0 < j < |r| ensures CompareText(r[0], r[j]) < 0 {
        assert r[j] in r[1..];
        if r[j] != address { assert r[j] in sorted[1..]; }
      }
    }
  }

  lemma {:induction false} ListedAreTheAddresses(entries: seq<string>)
    ensures Increasing(Listed(entries))
    ensures forall y :: y in Listed(entries) <==> y in Addresses(entries)
  {
    if entries != [] {
      ListedAreTheAddresses(entries[1..]);
      PlaceKeepsOrder(NormaliseAddress(entries[0]), Listed(entries[1..]));
      assert entries == [entries[0]] + entries[1..];
      forall y ensures y in Addresses(entries) <==> y == NormaliseAddress(entries[0]) || y in Addresses(entries[1..]) {
      }
    }
  }

  lemma {:induction false} SameMembersSameList(a: seq<string>, b: seq<string>)
    requires Increasing(a) && Increasing(b) && forall y :: y in a <==> y in b
    ensures a == b
  {
    assert a != [] ==> a[0] in b;
    assert b != [] ==> b[0] in a;
    if a != [] {
      FirstOfBoth(a, b);
      forall y ensures y in a[1..] <==> y in b[1..] {
        NotAgain(a, y);
        NotAgain(b, y);
      }
      SameMembersSameList(a[1..], b[1..]);
      assert a == [a[0]] + a[1..] && b == [b[0]] + b[1..];
    }
  }

  lemma NotAgain(s: seq<string>, y: string)
    requires Increasing(s) && s != []
    ensures y in s[1..] <==> y in s && y != s[0]
  {
    CompareTextAntisymmetric(s[0], s[0]);
    if y in s[1..] {
      var k :| 0 <= k < |s| - 1 && s[1..][k] == y;
      assert CompareText(s[0], s[k + 1]) < 0;
    }
  }

  lemma FirstOfBoth(a: seq<string>, b: seq<string>)
    requires Increasing(a) && Increasing(b) && a != [] && b != [] && forall y :: y in a <==> y in b
    ensures a[0] == b[0]
  {
    assert a[0] in b && b[0] in a;
    var i :| 0 <= i < |b| && b[i] == a[0];
    var j :| 0 <= j < |a| && a[j] == b[0];
    CompareTextAntisymmetric(a[0], b[0]);
  }

  predicate OneLine(s: string) {
    forall i | 0 <= i < |s| :: s[i] != '\n'
  }

  // Where the first line of a joined text ends.
  lemma FirstBreak(lines: seq<string>)
    requires forall x | x in lines :: OneLine(x)
    ensures var text := Joined(lines);
            && (|lines| <= 1 ==> OneLine(text))
            && (|lines| > 1 ==>
                  var n := |lines[0]|;
                  && n < |text| && text[n] == '\n' && (forall i | 0 <= i < n :: text[i] != '\n')
                  && text[..n] == lines[0] && text[n + 1..] == Joined(lines[1..]))
  {
    assert lines != [] ==> OneLine(lines[0]);
  }

  // Lines joined are told apart again, but for no line and one empty line.
  lemma {:induction false} JoinedComesApart(a: seq<string>, b: seq<string>)
    requires Joined(a) == Joined(b)
    requires (forall x | x in a :: OneLine(x)) && (forall x | x in b :: OneLine(x))
    ensures a == b || ((a == [] || a == [""]) && (b == [] || b == [""]))
  {
    FirstBreak(a);
    FirstBreak(b);
    if |a| > 1 && |b| > 1 {
      assert |a[0]| == |b[0]|;
      JoinedComesApart(a[1..], b[1..]);
      assert a == [a[0]] + a[1..] && b == [b[0]] + b[1..];
    }
  }

  // The same addresses are always the same list; and where no address holds a newline, only they are, but that no address
  // and an empty one are not told apart.
  lemma SameListExactly(a: seq<string>, b: seq<string>)
    ensures Addresses(a) == Addresses(b) ==> SameList(a, b)
    ensures (forall x | x in Addresses(a) + Addresses(b) :: OneLine(x)) ==>
              (SameList(a, b) <==> Addresses(a) == Addresses(b) || (Addresses(a) <= {""} && Addresses(b) <= {""}))
  {
    ListedAreTheAddresses(a);
    ListedAreTheAddresses(b);
    if Addresses(a) == Addresses(b) { SameMembersSameList(Listed(a), Listed(b)); }
    if forall x | x in Addresses(a) + Addresses(b) :: OneLine(x) {
      if SameList(a, b) {
        JoinedComesApart(Listed(a), Listed(b));
        ListsOfNothing(a);
        ListsOfNothing(b);
      }
      if Addresses(a) <= {""} && Addresses(b) <= {""} { BlankIsJoinedAsNothing(a); BlankIsJoinedAsNothing(b); }
    }
  }

  lemma ListsOfNothing(entries: seq<string>)
    requires Increasing(Listed(entries)) && forall y :: y in Listed(entries) <==> y in Addresses(entries)
    ensures Listed(entries) == [] || Listed(entries) == [""] ==> Addresses(entries) <= {""}
  {
  }

  lemma BlankIsJoinedAsNothing(entries: seq<string>)
    requires Addresses(entries) <= {""}
    requires Increasing(Listed(entries)) && forall y :: y in Listed(entries) <==> y in Addresses(entries)
    ensures Joined(Listed(entries)) == ""
  {
    var s := Listed(entries);
    if s != [] {
      assert s[0] in s;
      if |s| > 1 {
        assert s[1] in s;
        CompareTextAntisymmetric("", "");
      }
    }
  }

  // Where one does, two addresses and one may pass for each other.
  lemma ANewlineMixesAddresses()
    ensures SameList(["a\nb"], ["a", "b"]) && Addresses(["a\nb"]) != Addresses(["a", "b"])
  {
    assert NormaliseAddress("a") == "a" && NormaliseAddress("b") == "b" && NormaliseAddress("a\nb") == "a\nb";
    assert Listed(["b"]) == ["b"] && Listed(["a", "b"]) == ["a", "b"] by {
      assert ["a", "b"][1..] == ["b"];
    }
    assert Listed(["a\nb"]) == ["a\nb"];
    assert Joined(["a", "b"]) == "a" + "\n" + "b" == "a\nb" by {
      assert ["a", "b"][1..] == ["b"];
    }
    assert "a\nb" in Addresses(["a\nb"]) by { assert "a\nb" in ["a\nb"]; }
    forall y | y in Addresses(["a", "b"]) ensures |y| == 1 {
    }
  }
}
