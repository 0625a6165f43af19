/**
  The daily retention batch (packages/core/src/approval-maintenance.ts): when one is due, which slots it takes on in
  which order, and the cursor it leaves, so that a sweep of many batches passes over no slot.
  */
module Maintenance {
  import opened Wrappers
  import opened ApprovalBinding

  const MAINTENANCE_INTERVAL_MS := 86_400_000
  const MAINTENANCE_SLOTS := 200
  const MAINTENANCE_FUTURE_SKEW_MS := 300_000

  // ---------- positions ----------

  datatype Position = Position(mtimeMs: int, approvalId: string)

  // Oldest first, the id breaking ties.
  function CompareSlots(a: Position, b: Position): int {
    if a.mtimeMs != b.mtimeMs then (if a.mtimeMs < b.mtimeMs then -1 else 1) else CompareText(a.approvalId, b.approvalId)
  }

  lemma PositionsAreOrdered(a: Position, b: Position)
    ensures CompareSlots(a, b) == -CompareSlots(b, a)
    ensures CompareSlots(a, b) == 0 <==> a == b
  {
    CompareTextAntisymmetric(a.approvalId, b.approvalId);
  }

  // One slot is before another when it was written earlier, or at the same time under an id that is.
  lemma OldestComesFirst(a: Position, b: Position)
    ensures CompareSlots(a, b) < 0 <==>
            a.mtimeMs < b.mtimeMs || (a.mtimeMs == b.mtimeMs && ComesBefore(a.approvalId, b.approvalId))
  {
    TextOrderIsAlphabetical(a.approvalId, b.approvalId);
    hide ComesBefore;
  }

  lemma PositionsAreTransitive(a: Position, b: Position, c: Position)
    requires CompareSlots(a, b) <= 0 && CompareSlots(b, c) <= 0
    ensures CompareSlots(a, c) <= 0
    ensures CompareSlots(a, b) < 0 || CompareSlots(b, c) < 0 ==> CompareSlots(a, c) < 0
  {
    PositionsAreOrdered(a, b);
    PositionsAreOrdered(b, c);
    if a.mtimeMs == b.mtimeMs == c.mtimeMs && CompareSlots(a, b) < 0 && CompareSlots(b, c) < 0 {
      CompareTextTransitive(a.approvalId, b.approvalId, c.approvalId);
    }
  }

  predicate Ordered(slots: seq<Position>) {
    forall i, j | 0 <= i < j < |slots| :: CompareSlots(slots[i], slots[j]) < 0
  }

  // ---------- due ----------

  datatype PruneState = PruneState(lastAttemptAt: Option<int>, cursor: Option<Position>)

  predicate NotDue(state: PruneState, now: int) {
    && state.lastAttemptAt.Some?
    && state.lastAttemptAt.value <= now + MAINTENANCE_FUTURE_SKEW_MS
    && now - state.lastAttemptAt.value < MAINTENANCE_INTERVAL_MS
  }

  predicate AheadOfSkew(state: PruneState, now: int) {
    state.lastAttemptAt.Some? && state.lastAttemptAt.value > now + MAINTENANCE_FUTURE_SKEW_MS
  }

  // Whether a batch runs, and the state committed before any record is touched: a time further ahead than skew explains
  // is taken as now.
  method Begin(state: PruneState, now: int) returns (runs: bool, committed: PruneState)
    ensures committed.cursor == state.cursor
    ensures runs <==>
            state.lastAttemptAt.None?
            || (now >= state.lastAttemptAt.value + 24 * 60 * 60_000)
    ensures committed.lastAttemptAt ==
            if runs || state.lastAttemptAt.value > now + 5 * 60_000 then Some(now) else state.lastAttemptAt
  {
    if AheadOfSkew(state, now) {
      return false, PruneState(Some(now), state.cursor);
    }
    if NotDue(state, now) {
      return false, state;
    }
    return true, PruneState(Some(now), state.cursor);
  }

  // ---------- one batch ----------

  // How the attempt on one slot went: the deadline came first, the maintenance lock was lost first, or it ran.
  datatype Attempt = Late | LockLost | Finished | Failed | Busy

  predicate Ran(a: Attempt) {
    a == Finished || a == Failed || a == Busy
  }

  // Where the cursor resumes: strictly after its position.
  function First(slots: seq<Position>, cursor: Option<Position>): (k: nat)
    ensures k <= |slots|
    ensures cursor.None? ==> k == 0
    ensures cursor.Some? && k < |slots| ==> CompareSlots(slots[k], cursor.value) > 0
    ensures cursor.Some? ==> forall i | 0 <= i < k :: CompareSlots(slots[i], cursor.value) <= 0
  {
    if cursor.None? || slots == [] || CompareSlots(slots[0], cursor.value) > 0 then 0
    else 1 + First(slots[1..], cursor)
  }

  function Rest(slots: seq<Position>, cursor: Option<Position>): seq<Position> {
    slots[First(slots, cursor)..]
  }

  function Selected(slots: seq<Position>, cursor: Option<Position>): (selected: seq<Position>)
    ensures |selected| <= 200 && First(slots, cursor) + |selected| <= |slots|
    ensures forall i | 0 <= i < |selected| :: selected[i] == slots[First(slots, cursor) + i]
  {
    var rest := Rest(slots, cursor);
    if |rest| <= MAINTENANCE_SLOTS then rest else rest[..MAINTENANCE_SLOTS]
  }

  // How many slots are attempted: up to the deadline or the loss of the lock.
  function Attempted(attempts: seq<Attempt>, n: nat): (k: nat)
    requires n <= |attempts|
    ensures k <= n && (forall i | 0 <= i < k :: Ran(attempts[i])) && (k < n ==> !Ran(attempts[k]))
  {
    if n == 0 || !Ran(attempts[0]) then 0 else 1 + Attempted(attempts[1..], n - 1)
  }

  // How many of them come before the first busy one.
  function Clear(attempts: seq<Attempt>, k: nat): (b: nat)
    requires k <= |attempts|
    ensures b <= k && (forall i | 0 <= i < b :: attempts[i] != Busy) && (b < k ==> attempts[b] == Busy)
  {
    if k == 0 || attempts[0] == Busy then 0 else 1 + Clear(attempts[1..], k - 1)
  }

  function Count(attempts: seq<Attempt>, k: nat, kind: Attempt): nat
    requires k <= |attempts|
  {
    if k == 0 then 0 else Count(attempts, k - 1, kind) + if attempts[k - 1] == kind then 1 else 0
  }

  datatype Batch = Batch(cursor: Option<Position>, processed: nat, skippedBusy: nat, complete: bool)

  // The cursor left just before the earliest busy slot, or after the last attempted; cleared at the directory's end; and
  // where the lock was lost, as it was.
  predicate BatchOf(slots: seq<Position>, cursor: Option<Position>, attempts: seq<Attempt>, heldAtEnd: bool, r: Batch)
    requires |attempts| == MAINTENANCE_SLOTS
  {
    var selected := Selected(slots, cursor);
    var k := Attempted(attempts, |selected|);
    var clear := Clear(attempts, k);
    var lost := k < |selected| && attempts[k] == LockLost;
    var reachedEnd := k == |selected| == |Rest(slots, cursor)|;
    var next := if reachedEnd then None else if clear == 0 then cursor else Some(selected[clear - 1]);
    && r.processed == Count(attempts, k, Finished) && r.skippedBusy == Count(attempts, k, Busy)
    && if lost || (next != cursor && !heldAtEnd) then r.cursor == cursor && !r.complete
       else r.cursor == next && r.complete == reachedEnd
  }

  lemma BatchIsLost(slots: seq<Position>, cursor: Option<Position>, attempts: seq<Attempt>, heldAtEnd: bool)
    requires |attempts| == MAINTENANCE_SLOTS
    requires var k := Attempted(attempts, |Selected(slots, cursor)|);
             k < |Selected(slots, cursor)| && attempts[k] == LockLost
    ensures var k := Attempted(attempts, |Selected(slots, cursor)|);
            BatchOf(slots, cursor, attempts, heldAtEnd,
                    Batch(cursor, Count(attempts, k, Finished), Count(attempts, k, Busy), false))
  {
    hide Selected, First, Clear, Attempted, Rest, Count;
  }

  lemma BatchEnds(slots: seq<Position>, cursor: Option<Position>, attempts: seq<Attempt>, heldAtEnd: bool, k: nat)
    requires |attempts| == MAINTENANCE_SLOTS && k == Attempted(attempts, |Selected(slots, cursor)|)
    requires k < |Selected(slots, cursor)| ==> attempts[k] != LockLost
    ensures var selected := Selected(slots, cursor);
            var clear := Clear(attempts, k);
            var reachedEnd := k == |selected| && First(slots, cursor) + |selected| == |slots|;
            var next := if reachedEnd then None else if clear == 0 then cursor else Some(selected[clear - 1]);
            BatchOf(slots, cursor, attempts, heldAtEnd,
                    if next != cursor && !heldAtEnd
                    then Batch(cursor, Count(attempts, k, Finished), Count(attempts, k, Busy), false)
                    else Batch(next, Count(attempts, k, Finished), Count(attempts, k, Busy), reachedEnd))
  {
    hide Selected, First, Clear, Attempted, Count;
  }

  // The loop over the selected slots. `attempts` says how each would go; `heldAtEnd` whether the lock is still this
  // batch's as the cursor is written.
  method RunBatch(slots: seq<Position>, cursor: Option<Position>, attempts: seq<Attempt>, heldAtEnd: bool)
    returns (r: Batch)
    requires |attempts| == MAINTENANCE_SLOTS
    ensures BatchOf(slots, cursor, attempts, heldAtEnd, r)
  {
    hide Selected, First, Clear, Attempted, Rest, BatchOf;
    var first := First(slots, cursor);
    var selected := Selected(slots, cursor);
    var processed, skippedBusy := 0, 0;
    var done := cursor;
    var beforeBusy: Option<Option<Position>> := None;
    var stopped := false;
    var index: nat := 0;
    while index < |selected| && !stopped
      invariant index <= |selected|
      invariant forall i | 0 <= i < index :: Ran(attempts[i])
      invariant stopped ==> index < |selected| && attempts[index] == Late
      invariant done == if index == 0 then cursor else Some(selected[index - 1])
      invariant beforeBusy.None? ==> forall i | 0 <= i < index :: attempts[i] != Busy
      invariant beforeBusy.Some? ==>
                  var b := Clear(attempts, index);
                  b < index && beforeBusy.value == if b == 0 then cursor else Some(selected[b - 1])
      invariant processed == Count(attempts, index, Finished) && skippedBusy == Count(attempts, index, Busy)
      decreases |selected| - index, if stopped then 0 else 1
    {
      if attempts[index] == Late {
        stopped := true;
      } else if attempts[index] == LockLost {
        AttemptedIs(attempts, |selected|, index);
        BatchIsLost(slots, cursor, attempts, heldAtEnd);
        return Batch(cursor, processed, skippedBusy, false);
      } else {
        if attempts[index] == Busy {
          skippedBusy := skippedBusy + 1;
          if beforeBusy.None? {
            beforeBusy := Some(done);
            ClearIs(attempts, index + 1, index);
          }
        } else if attempts[index] == Finished {
          processed := processed + 1;
        }
        if beforeBusy.Some? && index > 0 { ClearStays(attempts, index); }
        done := Some(selected[index]);
        index := index + 1;
      }
    }
    AttemptedIs(attempts, |selected|, index);
    if beforeBusy.None? { ClearIs(attempts, index, index); }
    var reachedEnd := !stopped && first + |selected| == |slots|;
    var next := if reachedEnd then None else if beforeBusy.Some? then beforeBusy.value else done;
    BatchEnds(slots, cursor, attempts, heldAtEnd, index);
    if next != cursor && !heldAtEnd {
      return Batch(cursor, processed, skippedBusy, false);
    }
    return Batch(next, processed, skippedBusy, reachedEnd);
  }

  lemma AttemptedIs(attempts: seq<Attempt>, n: nat, k: nat)
    requires k <= n <= |attempts| && (forall i | 0 <= i < k :: Ran(attempts[i])) && (k < n ==> !Ran(attempts[k]))
    ensures Attempted(attempts, n) == k
  {
  }

  lemma ClearIs(attempts: seq<Attempt>, k: nat, b: nat)
    requires b <= k <= |attempts| && (forall i | 0 <= i < b :: attempts[i] != Busy) && (b < k ==> attempts[b] == Busy)
    ensures Clear(attempts, k) == b
  {
  }

  lemma ClearStays(attempts: seq<Attempt>, k: nat)
    requires k < |attempts|
    ensures Clear(attempts, k) < k ==> Clear(attempts, k + 1) == Clear(attempts, k)
  {
    if Clear(attempts, k) < k { ClearIs(attempts, k + 1, Clear(attempts, k)); }
  }

  // ---------- a sweep ----------

  // A directory of slots by id, the cursor kept between batches, and the ids whose slot was found and not busy since the
  // sweep began.
  datatype Sweep = Sweep(directory: map<string, int>, cursor: Option<Position>, tried: set<string>)

  // A listing of the directory: each slot once, in order.
  predicate Lists(slots: seq<Position>, directory: map<string, int>) {
    && Ordered(slots)
    && (forall p | p in slots :: p.approvalId in directory && directory[p.approvalId] == p.mtimeMs)
    && (forall id | id in directory :: Position(directory[id], id) in slots)
  }

  // What is made or written anew sorts after the cursor; anything may go.
  predicate SortsAfter(before: map<string, int>, after: map<string, int>, cursor: Option<Position>) {
    forall id | id in after && !(id in before && before[id] == after[id]) ::
      cursor.None? || CompareSlots(Position(after[id], id), cursor.value) > 0
  }

  // The ids a batch attempts and does not find busy.
  function TriedBy(selected: seq<Position>, attempts: seq<Attempt>, k: nat): set<string>
    requires k <= |selected| <= |attempts|
  {
    set i | 0 <= i < k && attempts[i] != Busy :: selected[i].approvalId
  }

  // One due batch over a listing of the directory, and the directory as it then is.
  ghost predicate BatchStep(w: Sweep, slots: seq<Position>, attempts: seq<Attempt>, heldAtEnd: bool, next: Sweep) {
    && |attempts| == MAINTENANCE_SLOTS && Lists(slots, w.directory)
    && var selected := Selected(slots, w.cursor);
       var k := Attempted(attempts, |selected|);
       && next.tried == (if w.cursor.None? then {} else w.tried) + TriedBy(selected, attempts, k)
       && (exists r :: BatchOf(slots, w.cursor, attempts, heldAtEnd, r) && next.cursor == r.cursor)
       && SortsAfter(w.directory, next.directory, next.cursor)
  }

  // Every slot at or before the cursor has been attempted, and was not busy, since the sweep began.
  predicate Swept(w: Sweep) {
    w.cursor.Some? ==>
      forall id | id in w.directory && CompareSlots(Position(w.directory[id], id), w.cursor.value) <= 0 :: id in w.tried
  }

  // Between batches.
  lemma ChangesKeepTheSweep(w: Sweep, directory: map<string, int>)
    requires Swept(w) && SortsAfter(w.directory, directory, w.cursor)
    ensures Swept(w.(directory := directory))
  {
  }

  // A slot at or before the new cursor was at or before the old one, or is among those found clear.
  lemma ClearedOrSwept(slots: seq<Position>, cursor: Option<Position>, clear: nat, p: Position)
    requires Ordered(slots) && p in slots && 0 < clear <= |Selected(slots, cursor)|
    requires CompareSlots(p, Selected(slots, cursor)[clear - 1]) <= 0
    ensures (cursor.Some? && CompareSlots(p, cursor.value) <= 0)
            || exists i | 0 <= i < clear :: Selected(slots, cursor)[i] == p
  {
    hide CompareSlots, Selected, First, Ordered;
    var selected := Selected(slots, cursor);
    var first := First(slots, cursor);
    var j :| 0 <= j < |slots| && slots[j] == p;
    assert selected[clear - 1] == slots[first + clear - 1];
    OrderedBack(slots, j, first + clear - 1);
    if j >= first {
      assert selected[j - first] == p;
    }
  }

  lemma OrderedBack(slots: seq<Position>, j: nat, m: nat)
    requires Ordered(slots) && j < |slots| && m < |slots| && CompareSlots(slots[j], slots[m]) <= 0
    ensures j <= m
  {
    PositionsAreOrdered(slots[m], slots[j]);
  }

  lemma CursorOfBatch(slots: seq<Position>, cursor: Option<Position>, attempts: seq<Attempt>, heldAtEnd: bool, r: Batch)
    requires |attempts| == MAINTENANCE_SLOTS && BatchOf(slots, cursor, attempts, heldAtEnd, r)
    ensures var selected := Selected(slots, cursor);
            var clear := Clear(attempts, Attempted(attempts, |selected|));
            r.cursor == cursor || r.cursor.None? || (0 < clear <= |selected| && r.cursor == Some(selected[clear - 1]))
  {
    hide First, Rest, Selected, Attempted, Clear, Count;
  }

  lemma BatchKeepsTheSweep(w: Sweep, slots: seq<Position>, attempts: seq<Attempt>, heldAtEnd: bool, next: Sweep)
    requires Swept(w) && BatchStep(w, slots, attempts, heldAtEnd, next)
    ensures Swept(next)
  {
    hide BatchOf, Ordered, CompareSlots, Selected, Clear, Attempted;
    var selected := Selected(slots, w.cursor);
    var k := Attempted(attempts, |selected|);
    var clear := Clear(attempts, k);
    var r :| BatchOf(slots, w.cursor, attempts, heldAtEnd, r) && next.cursor == r.cursor;
    CursorOfBatch(slots, w.cursor, attempts, heldAtEnd, r);
    if next.cursor.Some? {
      forall id | id in next.directory && CompareSlots(Position(next.directory[id], id), next.cursor.value) <= 0
        ensures id in next.tried
      {
        var p := Position(next.directory[id], id);
        assert id in w.directory && w.directory[id] == next.directory[id];
        if next.cursor != w.cursor {
          ClearedOrSwept(slots, w.cursor, clear, p);
          if i :| 0 <= i < clear && selected[i] == p {
            assert p.approvalId in TriedBy(selected, attempts, k);
          }
        }
      }
    }
  }

  // The directory changes on its own, or a due batch runs over it.
  ghost predicate SweepStep(w: Sweep, next: Sweep) {
    || (SortsAfter(w.directory, next.directory, w.cursor) && next == w.(directory := next.directory))
    || (exists slots, attempts, heldAtEnd :: BatchStep(w, slots, attempts, heldAtEnd, next))
  }

  // From a sweep's beginning on, whatever the batches met: no slot is passed over.
  lemma {:induction false} NoSlotIsPassedOver(run: seq<Sweep>)
    requires run != [] && run[0].cursor.None? && forall i | 0 < i < |run| :: SweepStep(run[i - 1], run[i])
    ensures Swept(run[|run| - 1])
  {
    if |run| > 1 {
      var before := run[..|run| - 1];
      NoSlotIsPassedOver(before);
      var w, next := before[|before| - 1], run[|run| - 1];
      assert SweepStep(run[|run| - 2], run[|run| - 1]);
      hide Swept, SortsAfter, BatchStep;
      if SortsAfter(w.directory, next.directory, w.cursor) && next == w.(directory := next.directory) {
        ChangesKeepTheSweep(w, next.directory);
      } else {
        var slots, attempts, heldAtEnd :| BatchStep(w, slots, attempts, heldAtEnd, next);
        BatchKeepsTheSweep(w, slots, attempts, heldAtEnd, next);
      }
    }
  }

  // ---------- how many batches a sweep takes ----------

  // A batch in which every slot could be attempted.
  predicate CleanBatch(attempts: seq<Attempt>) {
    |attempts| == MAINTENANCE_SLOTS && forall i | 0 <= i < MAINTENANCE_SLOTS :: attempts[i] == Finished || attempts[i] == Failed
  }

  // The cursor a clean batch leaves.
  function NextCursor(slots: seq<Position>, cursor: Option<Position>): Option<Position> {
    var rest := Rest(slots, cursor);
    if |rest| <= MAINTENANCE_SLOTS then None else Some(rest[MAINTENANCE_SLOTS - 1])
  }

  lemma CleanBatchAdvances(slots: seq<Position>, cursor: Option<Position>, attempts: seq<Attempt>, r: Batch)
    requires CleanBatch(attempts) && BatchOf(slots, cursor, attempts, true, r)
    ensures r.cursor == NextCursor(slots, cursor) && r.complete == (r.cursor.None?)
  {
    var selected := Selected(slots, cursor);
    AttemptedIs(attempts, |selected|, |selected|);
    ClearIs(attempts, |selected|, |selected|);
  }

  // What is left after a clean batch is what it did not take on.
  lemma RestShrinks(slots: seq<Position>, cursor: Option<Position>)
    requires Ordered(slots) && NextCursor(slots, cursor).Some?
    ensures Rest(slots, NextCursor(slots, cursor)) == Rest(slots, cursor)[MAINTENANCE_SLOTS..]
  {
    var first := First(slots, cursor);
    var at := first + MAINTENANCE_SLOTS - 1;
    assert slots[at] == Rest(slots, cursor)[MAINTENANCE_SLOTS - 1];
    FirstAfter(slots, at);
  }

  lemma {:induction false} FirstAfter(slots: seq<Position>, at: nat)
    requires Ordered(slots) && at < |slots|
    ensures First(slots, Some(slots[at])) == at + 1
  {
    var k := First(slots, Some(slots[at]));
    PositionsAreOrdered(slots[at], slots[at]);
    if k < |slots| { PositionsAreOrdered(slots[k], slots[at]); }
    if k > at + 1 { PositionsAreOrdered(slots[at], slots[at + 1]); }
  }

  // Ceiling division; a directory with nothing in it still takes one batch.
  function BatchesFor(n: nat): nat {
    if n == 0 then 1 else (n + MAINTENANCE_SLOTS - 1) / MAINTENANCE_SLOTS
  }

  // So many that all but the last take two hundred, and the last the rest.
  lemma BatchesAreOfTwoHundred(n: nat)
    ensures 200 * (BatchesFor(n) - 1) < n <= 200 * BatchesFor(n) || (n == 0 && BatchesFor(n) == 1)
  {
  }

  lemma SelectedIs(slots: seq<Position>, cursor: Option<Position>)
    ensures var rest := Rest(slots, cursor);
            Selected(slots, cursor) == if |rest| <= MAINTENANCE_SLOTS then rest else rest[..MAINTENANCE_SLOTS]
  {
    hide Rest;
  }

  lemma OneBatchMore(n: nat)
    ensures n <= MAINTENANCE_SLOTS ==> BatchesFor(n) == 1
    ensures n > MAINTENANCE_SLOTS ==> BatchesFor(n) == 1 + BatchesFor(n - MAINTENANCE_SLOTS)
  {
  }

  // What clean batches take on, each over the directory as it is listed that day.
  function AllSelected(listings: seq<seq<Position>>, cursor: Option<Position>): seq<Position>
    decreases |listings|
  {
    if listings == [] then []
    else Selected(listings[0], cursor) + AllSelected(listings[1..], NextCursor(listings[0], cursor))
  }

  predicate AllOrdered(listings: seq<seq<Position>>) {
    forall slots | slots in listings :: Ordered(slots)
  }

  // How many slots wait before `x`.
  function Ahead(rest: seq<Position>, x: Position): (k: nat)
    ensures k <= |rest| && forall i | 0 <= i < k :: CompareSlots(rest[i], x) < 0
    ensures k < |rest| ==> CompareSlots(rest[k], x) >= 0
  {
    if rest == [] || CompareSlots(rest[0], x) >= 0 then 0 else 1 + Ahead(rest[1..], x)
  }

  lemma PastTheCursor(slots: seq<Position>, cursor: Position, i: nat)
    requires Ordered(slots) && First(slots, Some(cursor)) <= i < |slots|
    ensures CompareSlots(slots[i], cursor) > 0
  {
    hide CompareSlots;
    var first := First(slots, Some(cursor));
    if first < i {
      PositionsAreOrdered(slots[first], cursor);
      PositionsAreTransitive(cursor, slots[first], slots[i]);
      PositionsAreOrdered(cursor, slots[i]);
    }
  }

  // What is past the cursor, slot by slot.
  lemma InRest(slots: seq<Position>, cursor: Option<Position>, p: Position)
    requires Ordered(slots)
    ensures p in Rest(slots, cursor) <==> p in slots && (cursor.Some? ==> CompareSlots(p, cursor.value) > 0)
  {
    hide CompareSlots, Ordered, First;
    var first := First(slots, cursor);
    if p in slots[first..] {
      var j :| 0 <= j < |slots| - first && slots[first..][j] == p;
      if cursor.Some? { PastTheCursor(slots, cursor.value, first + j); }
    }
    if p in slots && (cursor.Some? ==> CompareSlots(p, cursor.value) > 0) {
      var i :| 0 <= i < |slots| && slots[i] == p;
      assert slots[first..][i - first] == p;
    }
  }

  lemma RestIsOrdered(slots: seq<Position>, cursor: Option<Position>)
    requires Ordered(slots)
    ensures Ordered(Rest(slots, cursor))
    ensures forall p :: p in Rest(slots, cursor) <==> p in slots && (cursor.Some? ==> CompareSlots(p, cursor.value) > 0)
  {
    TailIsOrdered(slots, First(slots, cursor));
    hide CompareSlots, Ordered, First;
    forall p ensures p in Rest(slots, cursor) <==> p in slots && (cursor.Some? ==> CompareSlots(p, cursor.value) > 0) {
      InRest(slots, cursor, p);
    }
  }

  lemma TailIsOrdered(slots: seq<Position>, n: nat)
    requires Ordered(slots) && n <= |slots|
    ensures Ordered(slots[n..])
  {
    hide CompareSlots;
  }

  lemma AheadIsItsPlace(rest: seq<Position>, x: Position)
    requires Ordered(rest) && x in rest
    ensures Ahead(rest, x) < |rest| && rest[Ahead(rest, x)] == x
  {
    hide CompareSlots;
    var j :| 0 <= j < |rest| && rest[j] == x;
    PositionsAreOrdered(x, x);
    assert j == Ahead(rest, x);
  }

  // A batch takes a slot on exactly when it is past the cursor with fewer than two hundred before it.
  lemma TakenOnExactly(slots: seq<Position>, cursor: Option<Position>, x: Position)
    requires Ordered(slots)
    ensures x in Selected(slots, cursor) <==>
            x in Rest(slots, cursor) && Ahead(Rest(slots, cursor), x) < 200
  {
    hide CompareSlots, Ordered, First;
    var rest := Rest(slots, cursor);
    var selected := Selected(slots, cursor);
    RestIsOrdered(slots, cursor);
    if x in rest {
      AheadIsItsPlace(rest, x);
      if x in selected {
        var i :| 0 <= i < |selected| && selected[i] == x;
        assert rest[i] == x;
        PositionsAreOrdered(x, x);
      }
    }
  }

  // After a clean batch a slot not yet taken on has two hundred fewer before it.
  lemma NextBatchIsNearer(slots: seq<Position>, cursor: Option<Position>, x: Position)
    requires Ordered(slots) && x in Rest(slots, cursor) && x !in Selected(slots, cursor)
    ensures var next := NextCursor(slots, cursor);
            && next.Some? && x in Rest(slots, next)
            && Ahead(Rest(slots, next), x) + MAINTENANCE_SLOTS == Ahead(Rest(slots, cursor), x)
  {
    TailIsOrdered(slots, First(slots, cursor));
    var rest := Rest(slots, cursor);
    assert Ordered(rest);
    hide CompareSlots, First, Ordered, Rest, Ahead, Selected;
    TakenOnExactly(slots, cursor, x);
    AheadIsItsPlace(rest, x);
    RestShrinks(slots, cursor);
    NearerInTail(rest, x);
  }

  lemma NearerInTail(rest: seq<Position>, x: Position)
    requires MAINTENANCE_SLOTS <= Ahead(rest, x) < |rest| && rest[Ahead(rest, x)] == x
    ensures x in rest[MAINTENANCE_SLOTS..]
    ensures Ahead(rest[MAINTENANCE_SLOTS..], x) + MAINTENANCE_SLOTS == Ahead(rest, x)
  {
    hide Ahead;
    AheadOfTail(rest, x, MAINTENANCE_SLOTS);
    assert rest[MAINTENANCE_SLOTS..][Ahead(rest, x) - MAINTENANCE_SLOTS] == x;
  }

  lemma {:induction false} AheadOfTail(rest: seq<Position>, x: Position, n: nat)
    requires n <= Ahead(rest, x)
    ensures Ahead(rest[n..], x) + n == Ahead(rest, x)
  {
    if n > 0 {
      AheadOfTail(rest[1..], x, n - 1);
      assert rest[1..][n - 1..] == rest[n..];
    }
  }

  // Until it is taken on, a slot stays as it is, and no more wait before it than did.
  ghost predicate Waits(listings: seq<seq<Position>>, cursor: Option<Position>, x: Position)
    decreases |listings|
  {
    || |listings| <= 1
    || x in Selected(listings[0], cursor)
    || (var next := NextCursor(listings[0], cursor);
        && x in listings[1] && Ahead(Rest(listings[1], next), x) <= Ahead(Rest(listings[0], next), x)
        && Waits(listings[1..], next, x))
  }

  // Whatever else is made, rewritten or removed meanwhile, a slot that waits is taken on by the batch its place says.
  lemma {:induction false} WaitingSlotIsTakenOn(listings: seq<seq<Position>>, cursor: Option<Position>, x: Position)
    requires listings != [] && AllOrdered(listings) && x in Rest(listings[0], cursor) && Waits(listings, cursor, x)
    requires Ahead(Rest(listings[0], cursor), x) < 200 * |listings|
    ensures x in AllSelected(listings, cursor)
    decreases |listings|
  {
    hide CompareSlots, First, Ordered, Rest, Ahead, Selected, NextCursor;
    var next := NextCursor(listings[0], cursor);
    assert Ordered(listings[0]);
    TakenOnExactly(listings[0], cursor, x);
    if x !in Selected(listings[0], cursor) {
      NextBatchIsNearer(listings[0], cursor, x);
      assert |listings| > 1 && listings[1] in listings && listings[1..][0] == listings[1];
      RestIsOrdered(listings[0], next);
      RestIsOrdered(listings[1], next);
      assert AllOrdered(listings[1..]);
      WaitingSlotIsTakenOn(listings[1..], next, x);
    }
  }

  // ---------- where what is new comes last ----------

  // What is made or rewritten between two batches is as new as a file can be: it sorts after all that was listed.
  predicate NewComesLast(before: seq<Position>, after: seq<Position>) {
    forall p, q | p in after && p !in before && q in before :: CompareSlots(q, p) < 0
  }

  predicate AllNewComesLast(listings: seq<seq<Position>>) {
    forall i | 0 < i < |listings| :: NewComesLast(listings[i - 1], listings[i])
  }

  lemma {:induction false} OrderedPartIsNoLonger(part: seq<Position>, whole: seq<Position>)
    requires Ordered(part) && Ordered(whole) && forall p | p in part :: p in whole
    ensures |part| <= |whole|
    decreases |part|
  {
    hide CompareSlots;
    if part != [] {
      assert part[0] in whole;
      var j :| 0 <= j < |whole| && whole[j] == part[0];
      forall p | p in part[1..] ensures p in whole[j + 1..] {
        var i :| 0 <= i < |part| - 1 && part[1..][i] == p;
        assert CompareSlots(part[0], part[i + 1]) < 0 && part[i + 1] in whole;
        var m :| 0 <= m < |whole| && whole[m] == p;
        PositionsAreOrdered(part[0], p);
        PositionsAreOrdered(whole[m], whole[j]);
        assert whole[j + 1..][m - (j + 1)] == p;
      }
      OrderedPartIsNoLonger(part[1..], whole[j + 1..]);
    }
  }

  lemma NewComesLastWaits(before: seq<Position>, after: seq<Position>, cursor: Option<Position>, x: Position)
    requires Ordered(before) && Ordered(after) && NewComesLast(before, after)
    requires x in Rest(before, cursor) && x in after
    ensures Ahead(Rest(after, cursor), x) <= Ahead(Rest(before, cursor), x)
  {
    hide CompareSlots, First, Rest;
    var was, now := Rest(before, cursor), Rest(after, cursor);
    RestIsOrdered(before, cursor);
    RestIsOrdered(after, cursor);
    var part, whole := now[..Ahead(now, x)], was[..Ahead(was, x)];
    forall p | p in part ensures p in whole {
      var i :| 0 <= i < |part| && part[i] == p;
      assert now[i] == p && CompareSlots(p, x) < 0;
      PositionsAreOrdered(p, x);
      assert p in after && p in before;
      AheadIsBefore(was, x, p);
    }
    OrderedPartIsNoLonger(part, whole);
  }

  lemma AheadIsBefore(rest: seq<Position>, x: Position, p: Position)
    requires Ordered(rest) && p in rest && CompareSlots(p, x) < 0
    ensures p in rest[..Ahead(rest, x)]
  {
    hide CompareSlots, Ahead;
    var i :| 0 <= i < |rest| && rest[i] == p;
    var k := Ahead(rest, x);
    if k <= i {
      PositionsAreOrdered(rest[k], rest[k]);
      PositionsAreTransitive(rest[k], rest[i], x);
      assert false;
    }
    assert rest[..k][i] == p;
  }

  // Neither removed nor rewritten before a batch has taken it on; after that, either may happen to it.
  predicate StaysItsTurn(listings: seq<seq<Position>>, cursor: Option<Position>, x: Position)
    decreases |listings|
  {
    || |listings| <= 1
    || x in Selected(listings[0], cursor)
    || (x in listings[1] && StaysItsTurn(listings[1..], NextCursor(listings[0], cursor), x))
  }

  lemma {:induction false} NewComesLastAllWaits(listings: seq<seq<Position>>, cursor: Option<Position>, x: Position)
    requires AllOrdered(listings) && AllNewComesLast(listings) && StaysItsTurn(listings, cursor, x)
    requires listings != [] ==> x in Rest(listings[0], cursor)
    ensures Waits(listings, cursor, x)
    decreases |listings|
  {
    hide CompareSlots, First, Ordered, Rest, Ahead, Selected, NextCursor, NewComesLast;
    if |listings| > 1 && x !in Selected(listings[0], cursor) {
      var next := NextCursor(listings[0], cursor);
      assert listings[0] in listings && listings[1] in listings && listings[1..][0] == listings[1];
      NextBatchIsNearer(listings[0], cursor, x);
      assert NewComesLast(listings[0], listings[1]);
      NewComesLastWaits(listings[0], listings[1], next, x);
      RestIsOrdered(listings[0], next);
      RestIsOrdered(listings[1], next);
      assert AllNewComesLast(listings[1..]) by {
        forall i | 0 < i < |listings[1..]| ensures NewComesLast(listings[1..][i - 1], listings[1..][i]) {
          assert NewComesLast(listings[i], listings[i + 1]);
        }
      }
      NewComesLastAllWaits(listings[1..], next, x);
    }
  }

  // Where what is new comes last, every slot that waited as the batches began is taken on within as many of them as their
  // number takes, unless it was removed or rewritten before its turn.
  lemma CleanSweepCovers(listings: seq<seq<Position>>, cursor: Option<Position>, x: Position)
    requires listings != [] && AllOrdered(listings) && AllNewComesLast(listings)
    requires 200 * |listings| >= |Rest(listings[0], cursor)|
    requires x in Rest(listings[0], cursor) && StaysItsTurn(listings, cursor, x)
    ensures x in AllSelected(listings, cursor)
  {
    hide CompareSlots, First, Ordered, Rest, Ahead, Selected, NextCursor, NewComesLast, Waits, AllSelected, StaysItsTurn;
    assert listings[0] in listings;
    NewComesLastAllWaits(listings, cursor, x);
    RestIsOrdered(listings[0], cursor);
    AheadIsItsPlace(Rest(listings[0], cursor), x);
    WaitingSlotIsTakenOn(listings, cursor, x);
  }

  function Line(first: int, last: Position): (line: seq<Position>)
    ensures |line| == MAINTENANCE_SLOTS + 1 && line[MAINTENANCE_SLOTS] == last
    ensures forall i | 0 <= i < MAINTENANCE_SLOTS :: line[i] == Position(first + i, "")
  {
    seq(MAINTENANCE_SLOTS, i => Position(first + i, "")) + [last]
  }

  lemma LineIsOrdered(first: int, last: Position)
    requires first + MAINTENANCE_SLOTS <= last.mtimeMs
    ensures Ordered(Line(first, last)) && last in Line(first, last) && Ahead(Line(first, last), last) == MAINTENANCE_SLOTS
  {
    hide Line;
    var line := Line(first, last);
    assert Ordered(line) && line[MAINTENANCE_SLOTS] == last;
    hide CompareSlots, Ahead;
    AheadIsItsPlace(line, last);
    assert line[Ahead(line, last)].mtimeMs == last.mtimeMs;
  }

  const LAST_SLOT := Position(1000, "")
  const FIRST_DAY := Line(0, LAST_SLOT)
  const SECOND_DAY := Line(200, LAST_SLOT)
  const AFTER_FIRST_DAY := Position(199, "")

  lemma FirstDay()
    ensures Rest(FIRST_DAY, None) == FIRST_DAY && NextCursor(FIRST_DAY, None) == Some(AFTER_FIRST_DAY)
  {
    hide Line, CompareSlots, First;
    assert First(FIRST_DAY, None) == 0 && FIRST_DAY[0..] == FIRST_DAY;
    assert FIRST_DAY[MAINTENANCE_SLOTS - 1] == AFTER_FIRST_DAY;
  }

  lemma SecondDay()
    ensures Rest(SECOND_DAY, Some(AFTER_FIRST_DAY)) == SECOND_DAY
  {
    hide Line;
    assert SECOND_DAY[0] == Position(200, "");
    assert CompareSlots(SECOND_DAY[0], AFTER_FIRST_DAY) > 0;
    hide CompareSlots;
    assert First(SECOND_DAY, Some(AFTER_FIRST_DAY)) == 0;
  }

  // To sort after the cursor is not enough: two hundred new slots between it and the last of two hundred and one leave that
  // one out of both batches it would have taken.
  lemma NewSlotsMayDelay()
    ensures var listings := [FIRST_DAY, SECOND_DAY];
            var next := NextCursor(FIRST_DAY, None);
            && AllOrdered(listings) && LAST_SLOT in Rest(FIRST_DAY, None) && StaysItsTurn(listings, None, LAST_SLOT)
            && |listings| == BatchesFor(|Rest(FIRST_DAY, None)|)
            && next.Some? && (forall p | p in SECOND_DAY :: CompareSlots(p, next.value) > 0)
            && LAST_SLOT !in AllSelected(listings, None)
  {
    hide Line, Ordered, Ahead, First, Rest, Selected, NextCursor, CompareSlots;
    LineIsOrdered(0, LAST_SLOT);
    LineIsOrdered(200, LAST_SLOT);
    FirstDay();
    SecondDay();
    RestIsOrdered(SECOND_DAY, Some(AFTER_FIRST_DAY));
    TakenOnExactly(FIRST_DAY, None, LAST_SLOT);
    TakenOnExactly(SECOND_DAY, Some(AFTER_FIRST_DAY), LAST_SLOT);
    BothSelect(FIRST_DAY, SECOND_DAY, LAST_SLOT);
  }

  lemma BothSelect(one: seq<Position>, two: seq<Position>, x: Position)
    ensures x in AllSelected([one, two], None) <==>
            x in Selected(one, None) || x in Selected(two, NextCursor(one, None))
  {
    hide Selected, NextCursor;
    var next := NextCursor(one, None);
    assert [one, two][1..] == [two] && [two][1..] == [];
    assert AllSelected([two], next) == Selected(two, next) + AllSelected([], NextCursor(two, next));
  }

  // ---------- in order, and once ----------

  // No batch but the last reaches the directory's end.
  predicate OneSweep(listings: seq<seq<Position>>, cursor: Option<Position>)
    decreases |listings|
  {
    |listings| > 1 ==> NextCursor(listings[0], cursor).Some? && OneSweep(listings[1..], NextCursor(listings[0], cursor))
  }

  // Whatever happens to the directory, a sweep takes slots on in their order, none of them twice.
  lemma {:induction false} SweepTakesInOrder(listings: seq<seq<Position>>, cursor: Option<Position>)
    requires AllOrdered(listings) && OneSweep(listings, cursor)
    ensures Ordered(AllSelected(listings, cursor))
    ensures cursor.Some? ==> forall p | p in AllSelected(listings, cursor) :: CompareSlots(p, cursor.value) > 0
    decreases |listings|
  {
    hide CompareSlots, First, Rest;
    if listings != [] {
      var selected := Selected(listings[0], cursor);
      var next := NextCursor(listings[0], cursor);
      assert listings[0] in listings;
      RestIsOrdered(listings[0], cursor);
      SelectedIsOrdered(listings[0], cursor);
      assert AllOrdered(listings[1..]);
      if |listings| > 1 {
        SweepTakesInOrder(listings[1..], next);
        OrderedTogether(selected, AllSelected(listings[1..], next));
        if cursor.Some? { AfterBoth(selected, AllSelected(listings[1..], next), cursor.value, next.value); }
      } else {
        assert AllSelected(listings[1..], next) == [];
        assert AllSelected(listings, cursor) == selected;
      }
    }
  }

  lemma SelectedIsOrdered(slots: seq<Position>, cursor: Option<Position>)
    requires Ordered(slots)
    ensures Ordered(Selected(slots, cursor))
    ensures forall p | p in Selected(slots, cursor) :: cursor.Some? ==> CompareSlots(p, cursor.value) > 0
    ensures var next := NextCursor(slots, cursor);
            next.Some? ==> Selected(slots, cursor) != []
                           && Selected(slots, cursor)[|Selected(slots, cursor)| - 1] == next.value
  {
    RestIsOrdered(slots, cursor);
    forall p | p in Selected(slots, cursor) ensures p in Rest(slots, cursor) {
    }
    hide CompareSlots;
  }

  lemma OrderedTogether(a: seq<Position>, b: seq<Position>)
    requires Ordered(a) && Ordered(b) && a != [] && forall p | p in b :: CompareSlots(p, a[|a| - 1]) > 0
    ensures Ordered(a + b)
  {
    hide CompareSlots;
    forall i, j | 0 <= i < j < |a + b| ensures CompareSlots((a + b)[i], (a + b)[j]) < 0 {
      if i < |a| <= j {
        var p := b[j - |a|];
        assert p in b;
        PositionsAreOrdered(p, a[|a| - 1]);
        if i < |a| - 1 { PositionsAreTransitive(a[i], a[|a| - 1], p); }
      }
    }
  }

  lemma AfterBoth(a: seq<Position>, b: seq<Position>, cursor: Position, next: Position)
    requires (forall p | p in a :: CompareSlots(p, cursor) > 0) && (forall p | p in b :: CompareSlots(p, next) > 0)
    requires next in a
    ensures forall p | p in a + b :: CompareSlots(p, cursor) > 0
  {
    hide CompareSlots;
    forall p | p in b ensures CompareSlots(p, cursor) > 0 {
      PositionsAreOrdered(p, next);
      PositionsAreOrdered(next, cursor);
      PositionsAreTransitive(cursor, next, p);
      PositionsAreOrdered(p, cursor);
    }
  }

  // ---------- a sweep of a directory left alone ----------

  // Each batch finds what the last one left.
  ghost predicate StillSweep(listings: seq<seq<Position>>, cursor: Option<Position>)
    decreases |listings|
  {
    listings != [] && Ordered(listings[0])
    && var next := NextCursor(listings[0], cursor);
       if next.None? then |listings| == 1
       else |listings| > 1 && Rest(listings[1], next) == Rest(listings[0], next) && StillSweep(listings[1..], next)
  }

  lemma StillSweepNext(listings: seq<seq<Position>>, cursor: Option<Position>)
    requires StillSweep(listings, cursor)
    ensures listings != [] && Ordered(listings[0])
    ensures var rest := Rest(listings[0], cursor);
            var next := NextCursor(listings[0], cursor);
            && (next.Some? <==> |rest| > MAINTENANCE_SLOTS)
            && (next.None? ==> |listings| == 1 && AllSelected(listings, cursor) == rest)
            && (next.Some? ==>
                  && |listings| > 1 && Rest(listings[1], next) == rest[MAINTENANCE_SLOTS..]
                  && StillSweep(listings[1..], next)
                  && AllSelected(listings, cursor) == rest[..MAINTENANCE_SLOTS] + AllSelected(listings[1..], next))
  {
    SelectedIs(listings[0], cursor);
    if NextCursor(listings[0], cursor).Some? {
      RestShrinks(listings[0], cursor);
    } else {
      assert listings[1..] == [];
      assert AllSelected([], None) == [];
    }
    hide Ordered, Rest, Selected;
  }

  // Then the sweep is over in exactly as many batches as the slots take, and has taken on just those.
  lemma {:induction false} StillSweepIsExact(listings: seq<seq<Position>>, cursor: Option<Position>)
    requires StillSweep(listings, cursor)
    ensures listings != []
    ensures |listings| == BatchesFor(|Rest(listings[0], cursor)|)
    ensures AllSelected(listings, cursor) == Rest(listings[0], cursor)
    decreases |listings|
  {
    StillSweepNext(listings, cursor);
    hide Ordered, Rest, BatchesFor, Selected, StillSweep, AllSelected, NextCursor;
    var rest := Rest(listings[0], cursor);
    OneBatchMore(|rest|);
    if |rest| > MAINTENANCE_SLOTS {
      StillSweepIsExact(listings[1..], NextCursor(listings[0], cursor));
      assert rest == rest[..MAINTENANCE_SLOTS] + rest[MAINTENANCE_SLOTS..];
    }
  }
}
