/**
  The newest lines of one session in bounded memory (packages/core/src/activity.ts, `ActivityLog.show`): a buffer sorted
  and cut back as it fills gives what sorting every matching line would.
  */
module ActivityShow {
  import opened Wrappers
  import opened ActivitySessions
  import opened ActivityText
  import ActivityLine
  import ActivityBounds
  import opened ActivityWriting

  // ---------- the order ----------

  // Newest first.
  predicate Descending(s: seq<Entry>) {
    forall i, j | 0 <= i < j < |s| :: s[i].at >= s[j].at
  }

  function SameTime(s: seq<Entry>, at: int): seq<Entry> {
    if s == [] then [] else (if s[0].at == at then [s[0]] else []) + SameTime(s[1..], at)
  }

  // A stable sort: in order, and entries of one time in the order they came.
  ghost predicate IsStableSort(s: seq<Entry>, r: seq<Entry>) {
    Descending(r) && forall at: int :: SameTime(r, at) == SameTime(s, at)
  }

  // After everything as new or newer.
  function Insert(e: Entry, s: seq<Entry>): seq<Entry> {
    if s == [] || s[0].at < e.at then [e] + s else [s[0]] + Insert(e, s[1..])
  }

  function Sorted(s: seq<Entry>): seq<Entry> {
    if s == [] then [] else Insert(s[|s| - 1], Sorted(s[..|s| - 1]))
  }

  function Take(s: seq<Entry>, k: nat): seq<Entry> {
    if |s| <= k then s else s[..k]
  }

  lemma {:induction false} SameTimeAppends(a: seq<Entry>, b: seq<Entry>, at: int)
    ensures SameTime(a + b, at) == SameTime(a, at) + SameTime(b, at)
  {
    if a == [] {
      assert a + b == b;
    } else {
      SameTimeAppends(a[1..], b, at);
      assert (a + b)[1..] == a[1..] + b && (a + b)[0] == a[0];
      var first: seq<Entry> := if a[0].at == at then [a[0]] else [];
      assert first + (SameTime(a[1..], at) + SameTime(b, at)) == first + SameTime(a[1..], at) + SameTime(b, at);
    }
  }

  lemma {:induction false} InsertKeepsTimes(e: Entry, s: seq<Entry>, at: int)
    requires Descending(s)
    ensures SameTime(Insert(e, s), at) == SameTime(s, at) + SameTime([e], at)
  {
    if s == [] || s[0].at < e.at {
      assert ([e] + s)[1..] == s;
      if at == e.at { NothingSoNew(s, at); }
    } else {
      InsertKeepsTimes(e, s[1..], at);
      var r := Insert(e, s);
      assert r[0] == s[0] && r[1..] == Insert(e, s[1..]);
      hide Descending, Insert;
    }
  }

  lemma HeadOfDescending(x: Entry, rest: seq<Entry>)
    requires Descending(rest) && forall y | y in rest :: x.at >= y.at
    ensures Descending([x] + rest)
  {
  }

  lemma {:induction false} InsertKeepsOrder(e: Entry, s: seq<Entry>)
    requires Descending(s)
    ensures Descending(Insert(e, s)) && |Insert(e, s)| == |s| + 1
    ensures forall x | x in Insert(e, s) :: x == e || x in s
  {
    if s != [] {
      assert forall y | y in s[1..] :: s[0].at >= y.at;
      if s[0].at >= e.at {
        InsertKeepsOrder(e, s[1..]);
        HeadOfDescending(s[0], Insert(e, s[1..]));
      } else {
        HeadOfDescending(e, s);
      }
    }
  }

  lemma InsertIsStable(e: Entry, s: seq<Entry>)
    requires Descending(s)
    ensures Descending(Insert(e, s)) && |Insert(e, s)| == |s| + 1
    ensures forall at: int :: SameTime(Insert(e, s), at) == SameTime(s, at) + SameTime([e], at)
  {
    InsertKeepsOrder(e, s);
    forall at: int { InsertKeepsTimes(e, s, at); }
  }

  lemma {:induction false} NothingSoNew(s: seq<Entry>, at: int)
    requires Descending(s) && (s == [] || s[0].at < at)
    ensures SameTime(s, at) == []
  {
    if s != [] { NothingSoNew(s[1..], at); }
  }

  lemma {:induction false} SortedIsStable(s: seq<Entry>)
    ensures IsStableSort(s, Sorted(s)) && |Sorted(s)| == |s|
  {
    if s != [] {
      var last := s[|s| - 1];
      SortedIsStable(s[..|s| - 1]);
      InsertIsStable(last, Sorted(s[..|s| - 1]));
      assert s == s[..|s| - 1] + [last];
      forall at: int ensures SameTime(Sorted(s), at) == SameTime(s, at) {
        SameTimeAppends(s[..|s| - 1], [last], at);
      }
    }
  }

  lemma SameTimeOfRest(s: seq<Entry>, at: int)
    requires s != []
    ensures SameTime(s, at) != [] || s[0].at != at
    ensures SameTime(s[1..], at) == SameTime(s, at)[if s[0].at == at then 1 else 0..]
  {
  }

  // Being a stable sort leaves no choice.
  lemma {:induction false} StableSortIsUnique(r: seq<Entry>, q: seq<Entry>)
    requires Descending(r) && Descending(q) && forall at: int :: SameTime(r, at) == SameTime(q, at)
    ensures r == q
  {
    if r != [] { SameTimeOfRest(r, r[0].at); }
    if q != [] { SameTimeOfRest(q, q[0].at); }
    assert r == [] <==> q == [];
    if r != [] {
      if r[0].at > q[0].at { NothingSoNew(q, r[0].at); }
      if q[0].at > r[0].at { NothingSoNew(r, q[0].at); }
      assert SameTime(r, r[0].at)[0] == r[0] && SameTime(q, r[0].at)[0] == q[0];
      forall at: int ensures SameTime(r[1..], at) == SameTime(q[1..], at) {
        assert SameTime(r, at) == SameTime(q, at);
        SameTimeOfRest(r, at);
        SameTimeOfRest(q, at);
      }
      StableSortIsUnique(r[1..], q[1..]);
      assert r == [r[0]] + r[1..] && q == [q[0]] + q[1..];
    }
  }

  // Whatever stable sort is used, it is `Sorted`.
  lemma AnyStableSortIsSorted(s: seq<Entry>, r: seq<Entry>)
    requires IsStableSort(s, r)
    ensures r == Sorted(s)
  {
    SortedIsStable(s);
    StableSortIsUnique(r, Sorted(s));
  }

  lemma SortedAgain(r: seq<Entry>)
    requires Descending(r)
    ensures Sorted(r) == r
  {
    AnyStableSortIsSorted(r, r);
  }

  // ---------- cutting back loses nothing ----------

  lemma {:induction false} TakeInsert(e: Entry, s: seq<Entry>, k: nat)
    ensures Take(Insert(e, Take(s, k)), k) == Take(Insert(e, s), k)
  {
    if k > 0 && |s| > k && s[0].at >= e.at {
      TakeInsert(e, s[1..], k - 1);
      assert Take(s, k)[1..] == Take(s[1..], k - 1);
      assert Take(s, k)[0] == s[0];
      TakeFirst(s[0], Insert(e, Take(s[1..], k - 1)), k);
      TakeFirst(s[0], Insert(e, s[1..]), k);
    }
  }

  lemma TakeFirst(x: Entry, s: seq<Entry>, k: nat)
    requires k > 0
    ensures Take([x] + s, k) == [x] + Take(s, k - 1)
  {
  }

  // What a buffer stands for: the newest `limit` of everything met.
  predicate StandsFor(lines: seq<Entry>, met: seq<Entry>, limit: nat) {
    Take(Sorted(lines), limit) == Take(Sorted(met), limit)
  }

  lemma PushKeepsStanding(lines: seq<Entry>, met: seq<Entry>, limit: nat, e: Entry)
    requires StandsFor(lines, met, limit)
    ensures StandsFor(lines + [e], met + [e], limit)
  {
    assert (lines + [e])[..|lines|] == lines && (met + [e])[..|met|] == met;
    TakeInsert(e, Sorted(lines), limit);
    TakeInsert(e, Sorted(met), limit);
  }

  lemma CutKeepsStanding(lines: seq<Entry>, met: seq<Entry>, limit: nat)
    requires StandsFor(lines, met, limit)
    ensures StandsFor(Take(Sorted(lines), limit), met, limit)
  {
    SortedIsStable(lines);
    SortedAgain(Take(Sorted(lines), limit));
  }

  // ---------- show ----------

  // A line of a day's file: its text, and what it reads as.
  datatype Raw = Raw(text: Text, line: Option<Entry>)

  // A day's file, when there is one; its lines were written from the day's first instant to its last.
  datatype DayFile = DayFile(lastMs: int, text: Option<seq<Raw>>)

  datatype Filters = Filters(
    kind: Option<ActKind>, channel: Option<string>, account: Option<string>, outcome: Option<CallOutcome>, since: Option<int>)

  predicate Matches(e: Entry, filters: Filters) {
    && (filters.kind.Some? ==> e.kind == filters.kind.value)
    && (filters.outcome.Some? ==> e.outcome == filters.outcome.value)
    && (filters.channel.Some? ==> e.channel == filters.channel.value)
    && (filters.account.Some? ==> e.alias == filters.account.value || e.accountId == filters.account.value)
  }

  predicate IsOwn(raw: Raw, key: string, since: Option<int>) {
    raw.line.Some? && raw.line.value.key == key && (since.Some? ==> raw.line.value.at >= since.value)
  }

  // No line is read whole but one whose text contains what the session is looked for by.
  predicate Answers(raw: Raw, key: string, since: Option<int>) {
    Contains(raw.text, Needle(Ascii(key))) && IsOwn(raw, key, since)
  }

  // The session's lines of one file, last written first.
  function AnswersOf(raws: seq<Raw>, key: string, since: Option<int>): seq<Entry> {
    if raws == [] then []
    else
      var last := raws[|raws| - 1];
      (if Answers(last, key, since) then [last.line.value] else []) + AnswersOf(raws[..|raws| - 1], key, since)
  }

  // Of the days, newest first, down to the first that is too old.
  function AllAnswers(days: seq<DayFile>, key: string, since: Option<int>): seq<Entry> {
    if days == [] || (since.Some? && days[0].lastMs < since.value) then []
    else AnswersOf(days[0].text.Or([]), key, since) + AllAnswers(days[1..], key, since)
  }

  function Matching(s: seq<Entry>, filters: Filters): seq<Entry> {
    if s == [] then []
    else Matching(s[..|s| - 1], filters) + if Matches(s[|s| - 1], filters) then [s[|s| - 1]] else []
  }

  datatype ShownLines = ShownLines(lines: seq<Entry>, more: bool, summary: Option<Aggregate>)

  // What has been met so far: the buffer, how many matched, and what they all add up to.
  datatype Buffer = Buffer(lines: seq<Entry>, matched: nat, summary: Option<Aggregate>)

  // One line met: added to the summary and, when it matches, to the buffer, which is sorted and cut back at twice the
  // limit.
  method Meet(held: Buffer, line: Entry, filters: Filters, limit: nat, ghost met: seq<Entry>) returns (b: Buffer)
    requires Standing(held, met, filters, limit)
    ensures Standing(b, met + [line], filters, limit)
  {
    hide Sorted, Matching, Fold, Merge, AggregateOf, Matches, Take;
    b := held.(summary := Some(if held.summary.None? then AggregateOf(line)
                               else Merge(held.summary.value, AggregateOf(line))));
    MeetOne(met, line, filters);
    if Matches(line, filters) {
      PushKeepsStanding(b.lines, Matching(met, filters), limit, line);
      b := b.(lines := b.lines + [line], matched := b.matched + 1);
      if |b.lines| >= limit * 2 {
        CutKeepsStanding(b.lines, Matching(met + [line], filters), limit);
        TakeIsShort(Sorted(b.lines), limit);
        b := b.(lines := Take(Sorted(b.lines), limit));
      }
    } else {
      assert Matching(met, filters) + [] == Matching(met, filters);
    }
  }

  lemma TakeIsShort(s: seq<Entry>, k: nat)
    ensures |Take(s, k)| <= k
  {
  }

  // One day's file, from its last line to its first.
  method MeetDay(held: Buffer, raws: seq<Raw>, key: string, filters: Filters, limit: nat, ghost met: seq<Entry>)
    returns (b: Buffer)
    requires Standing(held, met, filters, limit)
    ensures Standing(b, met + AnswersOf(raws, key, filters.since), filters, limit)
  {
    hide Standing, Answers;
    b := held;
    ghost var now := met;
    var index := |raws|;
    assert raws[..|raws|] == raws;
    while index > 0
      invariant 0 <= index <= |raws|
      invariant met + AnswersOf(raws, key, filters.since) == now + AnswersOf(raws[..index], key, filters.since)
      invariant Standing(b, now, filters, limit)
    {
      index := index - 1;
      var raw := raws[index];
      assert raws[..index + 1][..index] == raws[..index] && raws[..index + 1][index] == raw;
      ghost var rest := AnswersOf(raws[..index], key, filters.since);
      if Answers(raw, key, filters.since) {
        AnswersHasALine(raw, key, filters.since);
        b := Meet(b, raw.line.value, filters, limit, now);
        assert now + ([raw.line.value] + rest) == now + [raw.line.value] + rest;
        now := now + [raw.line.value];
      } else {
        assert [] + rest == rest;
      }
    }
    assert raws[..0] == [] && now + [] == now;
  }

  lemma AnswersHasALine(raw: Raw, key: string, since: Option<int>)
    requires Answers(raw, key, since)
    ensures raw.line.Some?
  {
  }

  // Every line of the session, newest day first; then the buffer sorted once more, and cut.
  method Show(days: seq<DayFile>, key: string, filters: Filters, limit: nat) returns (r: ShownLines)
    ensures var met := AllAnswers(days, key, filters.since);
            var matching := Matching(met, filters);
            && r.lines == Take(Sorted(matching), limit)
            && r.more == (|matching| > limit)
            && r.summary == (if met == [] then None else Some(Fold(met)))
            && (met != [] ==> AddsUp(r.summary.value, met))
  {
    hide AddsUp, Standing, AnswersOf, AllAnswers, Fold, Merge, Sorted, Take, Matching;
    var b := Buffer([], 0, None);
    NothingMet(filters, limit);
    ghost var met: seq<Entry> := [];
    var d: nat := 0;
    var stopped := false;
    while d < |days| && !stopped
      invariant d <= |days|
      invariant stopped ==> AllAnswers(days, key, filters.since) == met
      invariant !stopped ==> AllAnswers(days, key, filters.since) == met + AllAnswers(days[d..], key, filters.since)
      invariant Standing(b, met, filters, limit)
      decreases |days| - d, if stopped then 0 else 1
    {
      NextDay(days, d, key, filters.since, met);
      if filters.since.Some? && days[d].lastMs < filters.since.value {
        stopped := true;
      } else {
        b := MeetDay(b, days[d].text.Or([]), key, filters, limit, met);
        met := met + AnswersOf(days[d].text.Or([]), key, filters.since);
        d := d + 1;
      }
    }
    if !stopped { NoMoreDays(days, key, filters.since, met); }
    StandingShows(b, met, filters, limit);
    if met != [] { FoldAddsUp(met); }
    var lines := Sorted(b.lines);
    if |lines| > limit {
      lines := lines[..limit];
    }
    return ShownLines(lines, b.matched > limit, b.summary);
  }

  lemma NothingMet(filters: Filters, limit: nat)
    ensures Standing(Buffer([], 0, None), [], filters, limit)
  {
  }

  lemma NextDay(days: seq<DayFile>, d: nat, key: string, since: Option<int>, met: seq<Entry>)
    requires d < |days|
    ensures var all := met + AllAnswers(days[d..], key, since);
            if since.Some? && days[d].lastMs < since.value then all == met
            else all == met + AnswersOf(days[d].text.Or([]), key, since) + AllAnswers(days[d + 1..], key, since)
  {
    assert days[d..][0] == days[d] && days[d..][1..] == days[d + 1..];
  }

  lemma NoMoreDays(days: seq<DayFile>, key: string, since: Option<int>, met: seq<Entry>)
    ensures met + AllAnswers(days[|days|..], key, since) == met
  {
  }

  lemma StandingShows(b: Buffer, met: seq<Entry>, filters: Filters, limit: nat)
    requires Standing(b, met, filters, limit)
    ensures Take(Sorted(b.lines), limit) == Take(Sorted(Matching(met, filters)), limit)
    ensures Take(Sorted(b.lines), limit) ==
            if |Sorted(b.lines)| > limit then Sorted(b.lines)[..limit] else Sorted(b.lines)
    ensures b.matched == |Matching(met, filters)| && b.summary == if met == [] then None else Some(Fold(met))
  {
  }

  // What the loops keep: the buffer never past twice the limit, and everything it stands for.
  predicate Standing(b: Buffer, met: seq<Entry>, filters: Filters, limit: nat) {
    && |b.lines| <= limit * 2
    && StandsFor(b.lines, Matching(met, filters), limit)
    && b.matched == |Matching(met, filters)|
    && b.summary == if met == [] then None else Some(Fold(met))
  }

  lemma MeetOne(met: seq<Entry>, line: Entry, filters: Filters)
    ensures Matching(met + [line], filters) == Matching(met, filters) + if Matches(line, filters) then [line] else []
    ensures Fold(met + [line]) == if met == [] then AggregateOf(line) else Merge(Fold(met), AggregateOf(line))
  {
    assert (met + [line])[..|met|] == met;
  }

  // ---------- looking before reading ----------

  // The session's lines of one file, each read whole.
  function OwnLines(raws: seq<Raw>, key: string, since: Option<int>): seq<Entry> {
    if raws == [] then []
    else
      var last := raws[|raws| - 1];
      (if IsOwn(last, key, since) then [last.line.value] else []) + OwnLines(raws[..|raws| - 1], key, since)
  }

  // What reads as a line is the text of a bounded one, under its session's key.
  ghost predicate AsWritten(raw: Raw, number: Number -> Text) {
    raw.line.Some? ==>
      exists l: ActivityLine.Line ::
        && ActivityBounds.Bounded(l) && raw.text == Written(ActivityLine.ToJson(l), number)
        && l.session.key == Ascii(raw.line.value.key)
  }

  // Among lines the log wrote, looking for the key before reading loses none.
  lemma {:induction false} LookingLosesNothing(raws: seq<Raw>, key: string, since: Option<int>, number: Number -> Text)
    requires forall raw | raw in raws :: AsWritten(raw, number)
    ensures AnswersOf(raws, key, since) == OwnLines(raws, key, since)
  {
    if raws != [] {
      LookingLosesNothing(raws[..|raws| - 1], key, since, number);
      var last := raws[|raws| - 1];
      assert AsWritten(last, number);
      if IsOwn(last, key, since) { OwnLineIsFound(last, key, since, number); }
      hide Contains, AsWritten, Needle;
    }
  }

  lemma OwnLineIsFound(raw: Raw, key: string, since: Option<int>, number: Number -> Text)
    requires AsWritten(raw, number) && IsOwn(raw, key, since)
    ensures Answers(raw, key, since)
  {
    hide Contains, Needle, Written, ActivityBounds.Bounded, ActivityLine.ToJson;
    var l: ActivityLine.Line :|
      && ActivityBounds.Bounded(l) && raw.text == Written(ActivityLine.ToJson(l), number)
      && l.session.key == Ascii(raw.line.value.key);
    BoundedLineIsFound(l, number);
  }

  // ---------- stopping at an old day ----------

  function EveryAnswer(days: seq<DayFile>, key: string, since: Option<int>): seq<Entry> {
    if days == [] then [] else AnswersOf(days[0].text.Or([]), key, since) + EveryAnswer(days[1..], key, since)
  }

  // A file holds its own day's lines: none is later than the day.
  predicate OwnDay(day: DayFile) {
    forall raw | raw in day.text.Or([]) && raw.line.Some? :: raw.line.value.at <= day.lastMs
  }

  // Where files hold their own days, newest first, stopping at the first day wholly too old loses no line.
  lemma {:induction false} StoppingLosesNothing(days: seq<DayFile>, key: string, since: Option<int>)
    requires forall i, j | 0 <= i < j < |days| :: days[i].lastMs >= days[j].lastMs
    requires forall day | day in days :: OwnDay(day)
    ensures AllAnswers(days, key, since) == EveryAnswer(days, key, since)
  {
    if days != [] {
      if since.Some? && days[0].lastMs < since.value {
        NothingThatOld(days, key, since.value);
      } else {
        StoppingLosesNothing(days[1..], key, since);
      }
    }
  }

  lemma {:induction false} NothingThatOld(days: seq<DayFile>, key: string, since: int)
    requires forall day | day in days :: OwnDay(day) && day.lastMs < since
    ensures EveryAnswer(days, key, Some(since)) == []
  {
    if days != [] {
      OldDayAnswersNothing(days[0].text.Or([]), key, since);
      NothingThatOld(days[1..], key, since);
    }
  }

  lemma {:induction false} OldDayAnswersNothing(raws: seq<Raw>, key: string, since: int)
    requires forall raw | raw in raws && raw.line.Some? :: raw.line.value.at < since
    ensures AnswersOf(raws, key, Some(since)) == []
  {
    if raws != [] { OldDayAnswersNothing(raws[..|raws| - 1], key, since); }
  }

  // ---------- exactly the session's lines ----------

  // Of the lines met, those that pass every filter given, each as often as it was met.
  lemma {:induction false} MatchingIsAllOfIt(s: seq<Entry>, filters: Filters)
    ensures forall e ::
              multiset(Matching(s, filters))[e] ==
              if && (filters.kind.None? || filters.kind == Some(e.kind))
                 && (filters.outcome.None? || filters.outcome == Some(e.outcome))
                 && (filters.channel.None? || filters.channel == Some(e.channel))
                 && (filters.account.None? || filters.account == Some(e.alias) || filters.account == Some(e.accountId))
              then multiset(s)[e] else 0
  {
    if s != [] {
      MatchingIsAllOfIt(s[..|s| - 1], filters);
      assert s == s[..|s| - 1] + [s[|s| - 1]];
    }
  }

  // A line of the session that some day's file holds, and recent enough.
  predicate IsHeld(days: seq<DayFile>, e: Entry, key: string, since: Option<int>) {
    && e.key == key && (since.None? || e.at >= since.value)
    && exists day | day in days && day.text.Some? :: exists raw | raw in day.text.value :: raw.line == Some(e)
  }

  lemma {:induction false} OwnLinesAre(raws: seq<Raw>, key: string, since: Option<int>)
    ensures forall e :: e in OwnLines(raws, key, since) <==>
              && e.key == key && (since.None? || e.at >= since.value)
              && exists raw | raw in raws :: raw.line == Some(e)
  {
    if raws != [] {
      OwnLinesAre(raws[..|raws| - 1], key, since);
      assert raws == raws[..|raws| - 1] + [raws[|raws| - 1]];
    }
  }

  // Over files of the log's own lines, each of its own day, newest first: what is met is every line of the session since
  // then, and no other.
  lemma LinesMetAreTheSessions(days: seq<DayFile>, key: string, since: Option<int>, number: Number -> Text)
    requires forall i, j | 0 <= i < j < |days| :: days[i].lastMs >= days[j].lastMs
    requires forall day | day in days :: OwnDay(day)
    requires forall day | day in days && day.text.Some? :: forall raw | raw in day.text.value :: AsWritten(raw, number)
    ensures forall e :: e in AllAnswers(days, key, since) <==> IsHeld(days, e, key, since)
  {
    StoppingLosesNothing(days, key, since);
    hide OwnDay, AllAnswers, IsHeld, AsWritten;
    EveryAnswerIsHeld(days, key, since, number);
  }

  lemma {:induction false} EveryAnswerIsHeld(days: seq<DayFile>, key: string, since: Option<int>, number: Number -> Text)
    requires forall day | day in days && day.text.Some? :: forall raw | raw in day.text.value :: AsWritten(raw, number)
    ensures forall e :: e in EveryAnswer(days, key, since) <==> IsHeld(days, e, key, since)
  {
    hide AsWritten, Answers;
    if days != [] {
      EveryAnswerIsHeld(days[1..], key, since, number);
      LookingLosesNothing(days[0].text.Or([]), key, since, number);
      OwnLinesAre(days[0].text.Or([]), key, since);
      assert days == [days[0]] + days[1..];
      hide AnswersOf, OwnLines;
    }
  }
}
