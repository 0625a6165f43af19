/**
  What a standing approval still permits once it is narrowed (packages/core/src/standing.ts, `effectiveStanding` and
  `narrowedFurther`).
  */
module Standing {
  import opened Wrappers
  import opened Records
  import opened ApprovalBinding

  // ---------- narrowing ----------

  function ContentsKept(contents: seq<StandingContent>, keep: Option<seq<Digest>>): seq<StandingContent> {
    if contents == [] then []
    else
      (if keep.None? || contents[0].digest in keep.value then [contents[0]] else []) + ContentsKept(contents[1..], keep)
  }

  function PlacesKept(ids: seq<string>, keep: Option<seq<string>>): seq<string> {
    if ids == [] then []
    else (if keep.None? || ids[0] in keep.value then [ids[0]] else []) + PlacesKept(ids[1..], keep)
  }

  function DigestsOf(contents: seq<StandingContent>): seq<Digest> {
    seq(|contents|, i requires 0 <= i < |contents| => contents[i].digest)
  }

  function KeepOf(narrowed: Option<Narrowing>): Option<seq<Digest>> {
    if narrowed.Some? then narrowed.value.keep else None
  }

  function PlacesOf(narrowed: Option<Narrowing>): Option<seq<string>> {
    if narrowed.Some? then narrowed.value.places else None
  }

  datatype Further = Narrower(narrowing: Narrowing) | Widening | OutOfRange

  // The narrowing `asked` makes of what is in force, as it is stored beside the binding.
  function NarrowedFurther(s: StandingBinding, narrowed: Option<Narrowing>, asked: Narrowing): Further {
    var contents := ContentsKept(s.contents, KeepOf(narrowed));
    var places := if s.places.ExactPlaces? then PlacesKept(s.places.ids, PlacesOf(narrowed)) else [];
    var kept := ContentsKept(contents, asked.keep);
    var keptPlaces := PlacesKept(places, asked.places);
    var days := StandingDays(s, narrowed);
    if asked.keep.Some? && ((exists d | d in asked.keep.value :: !HoldsContent(contents, d)) || kept == []) then Widening
    else if asked.places.Some? && s.places.ThreadsIAmIn? then Widening
    else if asked.places.Some? && ((exists p | p in asked.places.value :: p !in places) || keptPlaces == []) then Widening
    else if asked.expiresDays.Some? && !(1 <= asked.expiresDays.value <= 30) then OutOfRange
    else if asked.expiresDays.Some? && asked.expiresDays.value > days then Widening
    else
      Narrower(Narrowing(Some(DigestsOf(kept)), if s.places.ExactPlaces? then Some(keptPlaces) else None,
                         Some(asked.expiresDays.Or(days))))
  }

  // ---------- what one may be ----------

  // At most three a thread, thirty an hour, a hundred a day, ten a sender, for thirty days; of at least one content, each
  // once, under its own digest; in the threads a person is in, or in places each named once.
  lemma LimitsAre(s: StandingBinding)
    ensures StandingBindingOk(s) <==>
            && |s.targetId| > 0 && |s.contents| > 0
            && (forall i | 0 <= i < |s.contents| ::
                  s.contents[i].digest == Sha(ContentOf(s.contents[i].reaction, s.contents[i].text)))
            && (forall i, j | 0 <= i < j < |s.contents| :: s.contents[i].digest != s.contents[j].digest)
            && (s.places.ThreadsIAmIn?
                || (|s.places.ids| > 0 && forall i, j | 0 <= i < j < |s.places.ids| :: s.places.ids[i] != s.places.ids[j]))
            && 1 <= s.limits.perThread <= 3 && 1 <= s.limits.perHour <= 30 && 1 <= s.limits.perDay <= 100
            && 1 <= s.limits.perSender <= 10 && 1 <= s.limits.expiresDays <= 30
            && (s.replacing.None? || IsApprovalId(s.replacing.value))
  {
    if StandingBindingOk(s) {
      forall i | 0 <= i < |s.contents|
        ensures s.contents[i].digest == Sha(ContentOf(s.contents[i].reaction, s.contents[i].text))
      {
        assert s.contents[i] in s.contents;
      }
    }
  }

  // ---------- it only ever takes away ----------

  lemma {:induction false} ContentsKeptAre(contents: seq<StandingContent>, keep: Option<seq<Digest>>)
    ensures forall c :: c in ContentsKept(contents, keep) <==> c in contents && (keep.Some? ==> c.digest in keep.value)
  {
    if contents != [] {
      ContentsKeptAre(contents[1..], keep);
      assert contents == [contents[0]] + contents[1..];
    }
  }

  lemma {:induction false} PlacesKeptAre(ids: seq<string>, keep: Option<seq<string>>)
    ensures forall p :: p in PlacesKept(ids, keep) <==> p in ids && (keep.Some? ==> p in keep.value)
  {
    if ids != [] {
      PlacesKeptAre(ids[1..], keep);
      assert ids == [ids[0]] + ids[1..];
    }
  }

  lemma DigestsAre(contents: seq<StandingContent>)
    ensures forall d :: d in DigestsOf(contents) <==> HoldsContent(contents, d)
  {
    forall d | HoldsContent(contents, d) ensures d in DigestsOf(contents) {
      var c :| c in contents && c.digest == d;
      var i :| 0 <= i < |contents| && contents[i] == c;
      assert DigestsOf(contents)[i] == d;
    }
    forall d | d in DigestsOf(contents) ensures HoldsContent(contents, d) {
      var i :| 0 <= i < |contents| && DigestsOf(contents)[i] == d;
      assert contents[i] in contents;
    }
  }

  // What a standing approval covers, whatever it was narrowed to: a content the person approved and a place, each still
  // kept.
  lemma CoversExactly(s: StandingBinding, narrowed: Option<Narrowing>, use: StandingUse)
    ensures Covers(s, narrowed, use) <==>
            && (exists c | c in s.contents :: c.digest == use.content)
            && (s.places == ThreadsIAmIn || (s.places.ExactPlaces? && use.channel in s.places.ids))
            && (narrowed.Some? && narrowed.value.keep.Some? ==> use.content in narrowed.value.keep.value)
            && (narrowed.Some? && narrowed.value.places.Some? && s.places.ExactPlaces? ==>
                  use.channel in narrowed.value.places.value)
  {
  }

  // What is asked is of what is in force, and not more.
  predicate OnlyLess(s: StandingBinding, narrowed: Option<Narrowing>, asked: Narrowing) {
    && (asked.keep.Some? ==>
          && |asked.keep.value| > 0 && forall d | d in asked.keep.value :: IsInForce(s, narrowed, d))
    && (asked.places.Some? ==>
          && s.places.ExactPlaces? && |asked.places.value| > 0
          && forall p | p in asked.places.value ::
               p in s.places.ids && (PlacesOf(narrowed).Some? ==> p in PlacesOf(narrowed).value))
    && (asked.expiresDays.Some? ==> 1 <= asked.expiresDays.value <= StandingDays(s, narrowed))
  }

  lemma ContentsInForce(s: StandingBinding, narrowed: Option<Narrowing>, d: Digest)
    ensures HoldsContent(ContentsKept(s.contents, KeepOf(narrowed)), d) <==>
            (exists c | c in s.contents :: c.digest == d) && (KeepOf(narrowed).Some? ==> d in KeepOf(narrowed).value)
  {
    ContentsKeptAre(s.contents, KeepOf(narrowed));
    hide ContentsKept;
    var kept := ContentsKept(s.contents, KeepOf(narrowed));
    if c :| c in s.contents && c.digest == d && (KeepOf(narrowed).Some? ==> d in KeepOf(narrowed).value) {
      assert c in kept;
    }
  }

  // A content in force: one the person approved, and still kept.
  predicate IsInForce(s: StandingBinding, narrowed: Option<Narrowing>, d: Digest) {
    (exists c | c in s.contents :: c.digest == d) && (KeepOf(narrowed).Some? ==> d in KeepOf(narrowed).value)
  }

  lemma KeepAskedExactly(s: StandingBinding, narrowed: Option<Narrowing>, keep: seq<Digest>)
    ensures var contents := ContentsKept(s.contents, KeepOf(narrowed));
            (exists d | d in keep :: !HoldsContent(contents, d)) || ContentsKept(contents, Some(keep)) == [] <==>
            !(|keep| > 0 && forall d | d in keep :: IsInForce(s, narrowed, d))
  {
    var contents := ContentsKept(s.contents, KeepOf(narrowed));
    forall d ensures HoldsContent(contents, d) <==> IsInForce(s, narrowed, d) { ContentsInForce(s, narrowed, d); }
    ContentsKeptAre(contents, Some(keep));
    if keep == [] { NothingKept(contents); }
    hide ContentsKept, IsInForce;
    if |keep| > 0 && HoldsContent(contents, keep[0]) {
      var c :| c in contents && c.digest == keep[0];
      assert c in ContentsKept(contents, Some(keep));
    }
  }

  lemma PlacesAskedExactly(ids: seq<string>, narrowed: Option<Narrowing>, keep: seq<string>)
    ensures var places := PlacesKept(ids, PlacesOf(narrowed));
            (exists p | p in keep :: p !in places) || PlacesKept(places, Some(keep)) == [] <==>
            !(|keep| > 0
              && forall p | p in keep :: p in ids && (PlacesOf(narrowed).Some? ==> p in PlacesOf(narrowed).value))
  {
    var places := PlacesKept(ids, PlacesOf(narrowed));
    PlacesKeptAre(ids, PlacesOf(narrowed));
    PlacesKeptAre(places, Some(keep));
    if keep == [] { NoPlaceKept(places); }
    hide PlacesKept;
    if |keep| > 0 && keep[0] in places {
      assert keep[0] in PlacesKept(places, Some(keep));
    }
  }

  // Accepted exactly when it only takes away.
  lemma NarrowedExactly(s: StandingBinding, narrowed: Option<Narrowing>, asked: Narrowing)
    requires StandingBindingOk(s)
    ensures NarrowedFurther(s, narrowed, asked).Narrower? <==> OnlyLess(s, narrowed, asked)
  {
    assert StandingDays(s, narrowed) <= 30;
    if asked.keep.Some? { KeepAskedExactly(s, narrowed, asked.keep.value); }
    if asked.places.Some? && s.places.ExactPlaces? { PlacesAskedExactly(s.places.ids, narrowed, asked.places.value); }
    hide ContentsKept, PlacesKept, StandingBindingOk, StandingDays, DigestsOf, HoldsContent, KeepOf, PlacesOf, IsInForce;
  }

  lemma {:induction false} NothingKept(contents: seq<StandingContent>)
    ensures ContentsKept(contents, Some([])) == []
  {
    if contents != [] { NothingKept(contents[1..]); }
  }

  lemma {:induction false} NoPlaceKept(ids: seq<string>)
    ensures PlacesKept(ids, Some([])) == []
  {
    if ids != [] { NoPlaceKept(ids[1..]); }
  }

  // What is then in force is what was, of what was asked to be kept, for as many days as asked: never more.
  lemma NarrowingOnlyTakesAway(s: StandingBinding, narrowed: Option<Narrowing>, asked: Narrowing, use: StandingUse)
    requires StandingBindingOk(s) && NarrowingOk(s, narrowed) && NarrowedFurther(s, narrowed, asked).Narrower?
    ensures var further := NarrowedFurther(s, narrowed, asked).narrowing;
            && NarrowingOk(s, Some(further))
            && (Covers(s, Some(further), use) <==>
                  && Covers(s, narrowed, use)
                  && (asked.keep.Some? ==> use.content in asked.keep.value)
                  && (asked.places.Some? ==> use.channel in asked.places.value))
            && StandingDays(s, Some(further)) == asked.expiresDays.Or(StandingDays(s, narrowed))
            && StandingDays(s, Some(further)) <= StandingDays(s, narrowed)
  {
    var contents := ContentsKept(s.contents, KeepOf(narrowed));
    var kept := ContentsKept(contents, asked.keep);
    var further := NarrowedFurther(s, narrowed, asked).narrowing;
    ContentsKeptAre(s.contents, KeepOf(narrowed));
    ContentsKeptAre(contents, asked.keep);
    DigestsAre(kept);
    SomethingKept(s, narrowed);
    if s.places.ExactPlaces? {
      PlacesKeptAre(s.places.ids, PlacesOf(narrowed));
      PlacesKeptAre(PlacesKept(s.places.ids, PlacesOf(narrowed)), asked.places);
      AllKept(contents, PlacesKept(s.places.ids, PlacesOf(narrowed)));
    } else {
      AllKept(contents, []);
    }
    hide ContentsKept, PlacesKept, DigestsOf;
    forall d | d in further.keep.value ensures HoldsContent(s.contents, d) {
      var c :| c in kept && c.digest == d;
      assert c in s.contents;
    }
    KeptContentIs(s, narrowed, asked, use.content);
  }

  lemma KeptContentIs(s: StandingBinding, narrowed: Option<Narrowing>, asked: Narrowing, d: Digest)
    ensures HoldsContent(ContentsKept(ContentsKept(s.contents, KeepOf(narrowed)), asked.keep), d) <==>
            && HoldsContent(s.contents, d) && (KeepOf(narrowed).Some? ==> d in KeepOf(narrowed).value)
            && (asked.keep.Some? ==> d in asked.keep.value)
  {
    var contents := ContentsKept(s.contents, KeepOf(narrowed));
    ContentsInForce(s, narrowed, d);
    ContentsKeptAre(contents, asked.keep);
    hide ContentsKept;
    if HoldsContent(contents, d) && (asked.keep.Some? ==> d in asked.keep.value) {
      var c :| c in contents && c.digest == d;
      assert c in ContentsKept(contents, asked.keep);
    }
  }

  // Asked for nothing, everything in force is kept.
  lemma {:induction false} AllKept(contents: seq<StandingContent>, ids: seq<string>)
    ensures ContentsKept(contents, None) == contents && PlacesKept(ids, None) == ids
    decreases |contents| + |ids|
  {
    if contents != [] {
      AllKept(contents[1..], ids);
    } else if ids != [] {
      AllKept(contents, ids[1..]);
    }
  }

  // An accepted narrowing leaves a content, and a place.
  lemma SomethingKept(s: StandingBinding, narrowed: Option<Narrowing>)
    requires StandingBindingOk(s) && NarrowingOk(s, narrowed)
    ensures ContentsKept(s.contents, KeepOf(narrowed)) != []
    ensures s.places.ExactPlaces? ==> PlacesKept(s.places.ids, PlacesOf(narrowed)) != []
  {
    ContentsKeptAre(s.contents, KeepOf(narrowed));
    hide ContentsKept, PlacesKept;
    if KeepOf(narrowed).Some? {
      assert HoldsContent(s.contents, KeepOf(narrowed).value[0]);
      var c :| c in s.contents && c.digest == KeepOf(narrowed).value[0];
      assert c in ContentsKept(s.contents, KeepOf(narrowed));
    } else {
      assert s.contents[0] in ContentsKept(s.contents, KeepOf(narrowed));
    }
    if s.places.ExactPlaces? {
      PlacesKeptAre(s.places.ids, PlacesOf(narrowed));
      var p := if PlacesOf(narrowed).Some? then PlacesOf(narrowed).value[0] else s.places.ids[0];
      assert p in PlacesKept(s.places.ids, PlacesOf(narrowed));
    }
  }
}
