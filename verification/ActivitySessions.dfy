/**
  What a session's lines add up to (packages/core/src/activity.ts, `aggregateOf`, `merge`, `add`, `sessions`), and that a
  day added up beforehand, in its index, adds up to the same as its lines one by one.
  */
module ActivitySessions {
  import opened Wrappers

  datatype ActKind = ReadKind | WriteKind | ToldKind | ApprovalKind
  datatype CallOutcome = CallOk | CallRefused | CallFailed
  datatype Surface = McpSurface | CliSurface | DaemonSurface

  datatype Client = Client(name: string, version: Option<string>)
  datatype Parent = Parent(pid: nat, startedAt: string, name: string)
  datatype Connection = Connection(id: string, name: string)

  // What of a line the log's answers read. A time is its milliseconds: two ISO times of one format compare as they do.
  datatype Entry = Entry(
    at: int,
    key: string,
    grouped: bool,
    surface: Surface,
    process: string,
    folder: Option<string>,
    client: Option<Client>,
    parent: Option<Parent>,
    channel: string,
    accountId: string,
    alias: string,
    kind: ActKind,
    outcome: CallOutcome,
    connection: Option<Connection>)

  datatype Primary = Primary(at: int, cli: bool, folder: Option<string>, client: Option<Client>, parent: Option<Parent>)

  datatype KindCounts = KindCounts(read: nat, write: nat, told: nat, approval: nat)

  datatype OutcomeCounts = OutcomeCounts(ok: nat, refused: nat, failed: nat)

  datatype Connected = Connected(connection: Connection, at: int)

  // The source keeps the surfaces, processes, channels and accounts as lists without repeats, and answers with their
  // number or sorted.
  datatype Aggregate = Aggregate(
    key: string,
    grouped: bool,
    surfaces: set<Surface>,
    primary: Primary,
    firstSeen: int,
    lastSeen: int,
    processes: set<string>,
    channels: set<string>,
    accounts: set<string>,
    kind: KindCounts,
    outcome: OutcomeCounts,
    connection: Option<Connected>)

  function NoEmpty(s: string): set<string> {
    if s == "" then {} else {s}
  }

  function One(yes: bool): nat {
    if yes then 1 else 0
  }

  function AggregateOf(e: Entry): Aggregate {
    Aggregate(
      e.key, e.grouped, {e.surface}, Primary(e.at, e.surface == CliSurface, e.folder, e.client, e.parent), e.at, e.at,
      {e.process}, NoEmpty(e.channel), NoEmpty(e.alias),
      KindCounts(One(e.kind == ReadKind), One(e.kind == WriteKind), One(e.kind == ToldKind), One(e.kind == ApprovalKind)),
      OutcomeCounts(One(e.outcome == CallOk), One(e.outcome == CallRefused), One(e.outcome == CallFailed)),
      if e.connection.None? then None else Some(Connected(e.connection.value, e.at)))
  }

  // A server process's line names the window; among those, or among CLI lines, the earliest.
  predicate IsFirst(x: Primary, y: Primary) {
    if x.cli != y.cli then y.cli else x.at <= y.at
  }

  function OrElse<T>(a: Option<T>, b: Option<T>): Option<T> {
    if a.Some? then a else b
  }

  function MergePrimary(a: Primary, b: Primary): Primary {
    var primary := if IsFirst(a, b) then a else b;
    var other := if IsFirst(a, b) then b else a;
    primary.(client := OrElse(primary.client, other.client), parent := OrElse(primary.parent, other.parent))
  }

  function MergeKinds(a: KindCounts, b: KindCounts): KindCounts {
    KindCounts(a.read + b.read, a.write + b.write, a.told + b.told, a.approval + b.approval)
  }

  function MergeOutcomes(a: OutcomeCounts, b: OutcomeCounts): OutcomeCounts {
    OutcomeCounts(a.ok + b.ok, a.refused + b.refused, a.failed + b.failed)
  }

  function Latest(a: Option<Connected>, b: Option<Connected>): Option<Connected> {
    if a.None? then b else if b.None? || a.value.at >= b.value.at then a else b
  }

  function Merge(a: Aggregate, b: Aggregate): Aggregate {
    Aggregate(
      a.key, a.grouped || b.grouped, a.surfaces + b.surfaces, MergePrimary(a.primary, b.primary),
      if a.firstSeen <= b.firstSeen then a.firstSeen else b.firstSeen,
      if a.lastSeen >= b.lastSeen then a.lastSeen else b.lastSeen,
      a.processes + b.processes, a.channels + b.channels, a.accounts + b.accounts,
      MergeKinds(a.kind, b.kind), MergeOutcomes(a.outcome, b.outcome), Latest(a.connection, b.connection))
  }

  // ---------- merging in any grouping ----------

  // All but the client and the parent, which fall back from line to line.
  function Core(a: Aggregate): Aggregate {
    a.(primary := a.primary.(client := None, parent := None))
  }

  predicate Alike(a: Aggregate, b: Aggregate) {
    Core(a) == Core(b)
  }

  lemma MergeIsAssociative(a: Aggregate, b: Aggregate, c: Aggregate)
    ensures Alike(Merge(Merge(a, b), c), Merge(a, Merge(b, c)))
  {
    assert (a.surfaces + b.surfaces) + c.surfaces == a.surfaces + (b.surfaces + c.surfaces);
    assert (a.processes + b.processes) + c.processes == a.processes + (b.processes + c.processes);
    assert (a.channels + b.channels) + c.channels == a.channels + (b.channels + c.channels);
    assert (a.accounts + b.accounts) + c.accounts == a.accounts + (b.accounts + c.accounts);
  }

  lemma MergeKeepsAlike(a: Aggregate, a': Aggregate, b: Aggregate, b': Aggregate)
    requires Alike(a, a') && Alike(b, b')
    ensures Alike(Merge(a, b), Merge(a', b'))
  {
    assert Core(Merge(Core(a), Core(b))) == Core(Merge(a, b));
    assert Core(Merge(Core(a'), Core(b'))) == Core(Merge(a', b'));
  }

  // The client is why it is not an equality: a window with none takes the one of whichever line it is merged with first.
  lemma ClientDependsOnGrouping()
    ensures exists a: Primary, b: Primary, c: Primary ::
              MergePrimary(MergePrimary(a, b), c).client != MergePrimary(a, MergePrimary(b, c)).client
  {
    var a := Primary(1, false, None, None, None);
    var b := Primary(2, true, None, Some(Client("b", None)), None);
    var c := Primary(3, false, None, Some(Client("c", None)), None);
    assert MergePrimary(MergePrimary(a, b), c).client == Some(Client("b", None));
    assert MergePrimary(a, MergePrimary(b, c)).client == Some(Client("c", None));
  }

  // Exactly when: the window itself has none, and the two others have different ones and meet in the other order.
  predicate ClientSettled(a: Primary, b: Primary, c: Primary) {
    var first := if IsFirst(a, b) && IsFirst(a, c) then a else if IsFirst(b, c) then b else c;
    || first.client.Some?
    || (first == a && (IsFirst(b, c) || b.client.None? || c.client.None? || b.client == c.client))
    || (first != a && first == b && (a.client.None? || c.client.None? || a.client == c.client))
    || (first != a && first != b
        && (!IsFirst(a, b) || a.client.None? || b.client.None? || a.client == b.client))
  }

  lemma ClientSettledExactly(a: Primary, b: Primary, c: Primary)
    ensures MergePrimary(MergePrimary(a, b), c).client == MergePrimary(a, MergePrimary(b, c)).client
            <==> ClientSettled(a, b, c)
  {
  }

  // ---------- one session's lines ----------

  // The lines one after another, as a reading of the day adds them.
  function Fold(entries: seq<Entry>): Aggregate
    requires entries != []
  {
    var last := AggregateOf(entries[|entries| - 1]);
    if |entries| == 1 then last else Merge(Fold(entries[..|entries| - 1]), last)
  }

  // Two parts added up apart, and then together, are the whole.
  lemma {:induction false} FoldOfConcat(a: seq<Entry>, b: seq<Entry>)
    requires a != [] && b != []
    ensures Alike(Fold(a + b), Merge(Fold(a), Fold(b)))
    decreases |b|
  {
    hide Merge, AggregateOf, Alike;
    var n := |b| - 1;
    assert (a + b)[|a + b| - 1] == b[n];
    if n == 0 {
      assert (a + b)[..|a + b| - 1] == a;
      AlikeItself(Fold(a + b));
    } else {
      assert (a + b)[..|a + b| - 1] == a + b[..n];
      FoldOfConcat(a, b[..n]);
      var last := AggregateOf(b[n]);
      AlikeItself(last);
      MergeKeepsAlike(Fold(a + b[..n]), Merge(Fold(a), Fold(b[..n])), last, last);
      MergeIsAssociative(Fold(a), Fold(b[..n]), last);
      AlikeChains(Fold(a + b), Merge(Merge(Fold(a), Fold(b[..n])), last), Merge(Fold(a), Fold(b)));
    }
  }

  lemma AlikeItself(a: Aggregate)
    ensures Alike(a, a)
  {
  }

  lemma AlikeChains(a: Aggregate, b: Aggregate, c: Aggregate)
    requires Alike(a, b) && Alike(b, c)
    ensures Alike(a, c)
  {
  }

  // ---------- what lines add up to, from the lines alone ----------

  function HowMany(lines: seq<Entry>, kind: ActKind): nat {
    if lines == [] then 0
    else HowMany(lines[..|lines| - 1], kind) + if lines[|lines| - 1].kind == kind then 1 else 0
  }

  function HowManyEnded(lines: seq<Entry>, outcome: CallOutcome): nat {
    if lines == [] then 0
    else HowManyEnded(lines[..|lines| - 1], outcome) + if lines[|lines| - 1].outcome == outcome then 1 else 0
  }

  predicate Counted(a: Aggregate, lines: seq<Entry>) {
    && a.kind.read == HowMany(lines, ReadKind) && a.kind.write == HowMany(lines, WriteKind)
    && a.kind.told == HowMany(lines, ToldKind) && a.kind.approval == HowMany(lines, ApprovalKind)
    && a.outcome.ok == HowManyEnded(lines, CallOk) && a.outcome.refused == HowManyEnded(lines, CallRefused)
    && a.outcome.failed == HowManyEnded(lines, CallFailed)
  }

  predicate Collected(a: Aggregate, lines: seq<Entry>) {
    && a.surfaces == (set e | e in lines :: e.surface)
    && a.processes == (set e | e in lines :: e.process)
    && a.channels == (set e | e in lines && e.channel != "" :: e.channel)
    && a.accounts == (set e | e in lines && e.alias != "" :: e.alias)
    && (a.grouped <==> exists e | e in lines :: e.grouped)
  }

  predicate Spanned(a: Aggregate, lines: seq<Entry>) {
    && (exists e | e in lines :: e.at == a.firstSeen) && (forall e | e in lines :: a.firstSeen <= e.at)
    && (exists e | e in lines :: e.at == a.lastSeen) && (forall e | e in lines :: e.at <= a.lastSeen)
  }

  // The line that names the window: the earliest of a server process, or if none is, the earliest; the first of equals.
  predicate NamesWindow(lines: seq<Entry>, i: nat)
    requires i < |lines|
  {
    && (lines[i].surface == CliSurface ==> forall j | 0 <= j < |lines| :: lines[j].surface == CliSurface)
    && forall j | 0 <= j < |lines| && (lines[j].surface == CliSurface <==> lines[i].surface == CliSurface) ::
         lines[i].at <= lines[j].at && (j < i ==> lines[i].at < lines[j].at)
  }

  predicate IsWindow(p: Primary, e: Entry) {
    && p.at == e.at && (p.cli <==> e.surface == CliSurface) && p.folder == e.folder
    && (e.client.Some? ==> p.client == e.client) && (e.parent.Some? ==> p.parent == e.parent)
  }

  predicate WindowOf(p: Primary, lines: seq<Entry>) {
    exists i | 0 <= i < |lines| :: NamesWindow(lines, i) && IsWindow(p, lines[i])
  }

  predicate Known(p: Primary, lines: seq<Entry>) {
    && (if p.client.Some? then exists e | e in lines :: e.client == p.client else forall e | e in lines :: e.client.None?)
    && (if p.parent.Some? then exists e | e in lines :: e.parent == p.parent else forall e | e in lines :: e.parent.None?)
  }

  // Its folder is that line's; so are its client and its parent, if that line has one, or else some line's.
  predicate Windowed(p: Primary, lines: seq<Entry>) {
    WindowOf(p, lines) && Known(p, lines)
  }

  // The latest line through a connection; the first of equals.
  predicate LastConnected(lines: seq<Entry>, i: nat)
    requires i < |lines|
  {
    && lines[i].connection.Some?
    && forall j | 0 <= j < |lines| && lines[j].connection.Some? ::
         lines[j].at <= lines[i].at && (j < i ==> lines[j].at < lines[i].at)
  }

  predicate Through(c: Option<Connected>, lines: seq<Entry>) {
    if c.None? then forall e | e in lines :: e.connection.None?
    else
      exists i | 0 <= i < |lines| ::
        LastConnected(lines, i) && lines[i].connection == Some(c.value.connection) && lines[i].at == c.value.at
  }

  predicate AddsUp(a: Aggregate, lines: seq<Entry>) {
    lines != [] && Counted(a, lines) && Collected(a, lines) && Spanned(a, lines) && Windowed(a.primary, lines)
    && Through(a.connection, lines)
  }

  lemma {:induction false} HowManyOfConcat(x: seq<Entry>, y: seq<Entry>, kind: ActKind, outcome: CallOutcome)
    ensures HowMany(x + y, kind) == HowMany(x, kind) + HowMany(y, kind)
    ensures HowManyEnded(x + y, outcome) == HowManyEnded(x, outcome) + HowManyEnded(y, outcome)
  {
    if y == [] {
      assert x + y == x;
    } else {
      HowManyOfConcat(x, y[..|y| - 1], kind, outcome);
      assert (x + y)[..|x + y| - 1] == x + y[..|y| - 1];
    }
  }

  lemma MergeIsCounted(a: Aggregate, x: seq<Entry>, b: Aggregate, y: seq<Entry>)
    requires Counted(a, x) && Counted(b, y)
    ensures Counted(Merge(a, b), x + y)
  {
    HowManyOfConcat(x, y, ReadKind, CallOk);
    HowManyOfConcat(x, y, WriteKind, CallRefused);
    HowManyOfConcat(x, y, ToldKind, CallFailed);
    HowManyOfConcat(x, y, ApprovalKind, CallOk);
    hide HowMany, HowManyEnded, MergePrimary, Latest;
  }

  lemma MergeIsCollected(a: Aggregate, x: seq<Entry>, b: Aggregate, y: seq<Entry>)
    requires Collected(a, x) && Collected(b, y)
    ensures Collected(Merge(a, b), x + y)
  {
    hide MergePrimary, Latest, MergeKinds, MergeOutcomes;
  }

  lemma MergeIsSpanned(a: Aggregate, x: seq<Entry>, b: Aggregate, y: seq<Entry>)
    requires Spanned(a, x) && Spanned(b, y)
    ensures Spanned(Merge(a, b), x + y)
  {
    hide MergePrimary, Latest, MergeKinds, MergeOutcomes;
    var e :| e in x && e.at == a.firstSeen;
    var f :| f in y && f.at == b.firstSeen;
    var g :| g in x && g.at == a.lastSeen;
    var h :| h in y && h.at == b.lastSeen;
    assert e in x + y && f in x + y && g in x + y && h in x + y;
  }

  lemma MergeIsWindowed(p: Primary, x: seq<Entry>, q: Primary, y: seq<Entry>)
    requires Windowed(p, x) && Windowed(q, y)
    ensures Windowed(MergePrimary(p, q), x + y)
  {
    MergeIsWindow(p, x, q, y);
    MergeIsKnown(p, x, q, y);
    hide WindowOf, Known, MergePrimary;
  }

  lemma MergeIsWindow(p: Primary, x: seq<Entry>, q: Primary, y: seq<Entry>)
    requires WindowOf(p, x) && WindowOf(q, y)
    ensures WindowOf(MergePrimary(p, q), x + y)
  {
    var i :| 0 <= i < |x| && NamesWindow(x, i) && IsWindow(p, x[i]);
    var k :| 0 <= k < |y| && NamesWindow(y, k) && IsWindow(q, y[k]);
    WindowOfBoth(x, i, y, k);
    hide NamesWindow;
    var m := if IsFirst(p, q) then i else |x| + k;
    assert NamesWindow(x + y, m) && IsWindow(MergePrimary(p, q), (x + y)[m]);
  }

  lemma MergeIsKnown(p: Primary, x: seq<Entry>, q: Primary, y: seq<Entry>)
    requires Known(p, x) && Known(q, y)
    ensures Known(MergePrimary(p, q), x + y)
  {
    if p.client.Some? { var e :| e in x && e.client == p.client; assert e in x + y; }
    if q.client.Some? { var e :| e in y && e.client == q.client; assert e in x + y; }
    if p.parent.Some? { var e :| e in x && e.parent == p.parent; assert e in x + y; }
    if q.parent.Some? { var e :| e in y && e.parent == q.parent; assert e in x + y; }
  }

  lemma WindowOfBoth(x: seq<Entry>, i: nat, y: seq<Entry>, k: nat)
    requires i < |x| && k < |y| && NamesWindow(x, i) && NamesWindow(y, k)
    ensures var first := if (x[i].surface == CliSurface) != (y[k].surface == CliSurface) then y[k].surface == CliSurface
                         else x[i].at <= y[k].at;
            NamesWindow(x + y, if first then i else |x| + k)
  {
  }

  lemma MergeIsThrough(c: Option<Connected>, x: seq<Entry>, d: Option<Connected>, y: seq<Entry>)
    requires Through(c, x) && Through(d, y)
    ensures Through(Latest(c, d), x + y)
  {
    if c.Some? || d.Some? {
      if c.Some? && (d.None? || c.value.at >= d.value.at) {
        var i :| 0 <= i < |x| && LastConnected(x, i) && x[i].connection == Some(c.value.connection) && x[i].at == c.value.at;
        assert LastConnected(x + y, i);
      } else {
        var k :| 0 <= k < |y| && LastConnected(y, k) && y[k].connection == Some(d.value.connection) && y[k].at == d.value.at;
        assert LastConnected(x + y, |x| + k);
      }
    }
  }

  lemma MergeAddsUp(a: Aggregate, x: seq<Entry>, b: Aggregate, y: seq<Entry>)
    requires AddsUp(a, x) && AddsUp(b, y)
    ensures AddsUp(Merge(a, b), x + y)
  {
    MergeIsCounted(a, x, b, y);
    MergeIsCollected(a, x, b, y);
    MergeIsSpanned(a, x, b, y);
    MergeIsWindowed(a.primary, x, b.primary, y);
    MergeIsThrough(a.connection, x, b.connection, y);
    hide Counted, Collected, Spanned, Windowed, Through, MergePrimary, Latest, MergeKinds, MergeOutcomes;
  }

  lemma LineAddsUp(e: Entry)
    ensures AddsUp(AggregateOf(e), [e])
  {
    assert [e][..0] == [];
    assert [e][0] == e;
    assert NamesWindow([e], 0);
    if e.connection.Some? { assert LastConnected([e], 0); }
  }

  // Lines read one after another add up to just what they say.
  lemma {:induction false} FoldAddsUp(lines: seq<Entry>)
    requires lines != []
    ensures AddsUp(Fold(lines), lines)
  {
    hide AddsUp, Merge, AggregateOf;
    var n := |lines| - 1;
    LineAddsUp(lines[n]);
    if n == 0 {
      assert lines == [lines[0]];
    } else {
      FoldAddsUp(lines[..n]);
      MergeAddsUp(Fold(lines[..n]), lines[..n], AggregateOf(lines[n]), [lines[n]]);
      assert lines[..n] + [lines[n]] == lines;
    }
  }

  // ---------- a session's lines ----------

  function OfKey(entries: seq<Entry>, key: string): seq<Entry> {
    if entries == [] then []
    else
      var last := entries[|entries| - 1];
      OfKey(entries[..|entries| - 1], key) + if last.key == key then [last] else []
  }

  // Every line of the session, each as often as it is there, and no other.
  lemma {:induction false} OfKeyIsAllOfIt(entries: seq<Entry>, key: string)
    ensures forall e :: multiset(OfKey(entries, key))[e] == if e.key == key then multiset(entries)[e] else 0
  {
    if entries != [] {
      OfKeyIsAllOfIt(entries[..|entries| - 1], key);
      assert entries == entries[..|entries| - 1] + [entries[|entries| - 1]];
    }
  }

  lemma {:induction false} OfKeyOfConcat(a: seq<Entry>, b: seq<Entry>, key: string)
    ensures OfKey(a + b, key) == OfKey(a, key) + OfKey(b, key)
    decreases |b|
  {
    if b == [] {
      assert a + b == a;
    } else {
      OfKeyOfConcat(a, b[..|b| - 1], key);
      assert (a + b)[..|a + b| - 1] == a + b[..|b| - 1];
    }
  }

  // ---------- groups ----------

  type Groups = map<string, Aggregate>

  function Add(groups: Groups, a: Aggregate): Groups {
    groups[a.key := if a.key in groups then Merge(groups[a.key], a) else a]
  }

  // A session's aggregate is what its lines add up to; one with none has no aggregate.
  predicate GroupIs(groups: Groups, key: string, lines: seq<Entry>) {
    && (key in groups <==> lines != [])
    && (key in groups ==> groups[key].key == key && AddsUp(groups[key], lines) && Alike(groups[key], Fold(lines)))
  }

  ghost predicate GroupsOf(groups: Groups, entries: seq<Entry>) {
    forall key: string :: GroupIs(groups, key, OfKey(entries, key))
  }

  lemma AddToOne(groups: Groups, lines: seq<Entry>, a: Aggregate, more: seq<Entry>)
    requires GroupIs(groups, a.key, lines) && more != [] && AddsUp(a, more) && Alike(a, Fold(more))
    ensures GroupIs(Add(groups, a), a.key, lines + more)
  {
    hide Merge, Alike, Fold, AddsUp;
    if lines == [] {
      assert lines + more == more;
    } else {
      MergeAddsUp(groups[a.key], lines, a, more);
      MergeKeepsAlike(groups[a.key], Fold(lines), a, Fold(more));
      FoldOfConcat(lines, more);
      AlikeIsSymmetric(Fold(lines + more), Merge(Fold(lines), Fold(more)));
      AlikeChains(Merge(groups[a.key], a), Merge(Fold(lines), Fold(more)), Fold(lines + more));
      MergeKeepsKey(groups[a.key], a);
    }
  }

  lemma MergeKeepsKey(a: Aggregate, b: Aggregate)
    ensures Merge(a, b).key == a.key
  {
  }

  lemma AlikeIsSymmetric(a: Aggregate, b: Aggregate)
    requires Alike(a, b)
    ensures Alike(b, a)
  {
  }

  lemma AddLine(groups: Groups, entries: seq<Entry>, e: Entry)
    requires GroupsOf(groups, entries)
    ensures GroupsOf(Add(groups, AggregateOf(e)), entries + [e])
  {
    hide GroupIs, Merge, AggregateOf, Alike, AddsUp;
    var a := AggregateOf(e);
    assert (entries + [e])[..|entries|] == entries;
    forall key: string ensures GroupIs(Add(groups, a), key, OfKey(entries + [e], key)) {
      assert GroupIs(groups, key, OfKey(entries, key));
      LineIsItsFold(e);
      LineAddsUp(e);
      if key == e.key {
        AddToOne(groups, OfKey(entries, key), a, [e]);
      } else {
        assert OfKey(entries + [e], key) == OfKey(entries, key);
        AddElsewhere(groups, a, key, OfKey(entries, key));
      }
    }
  }

  lemma LineIsItsFold(e: Entry)
    ensures AggregateOf(e).key == e.key && Alike(AggregateOf(e), Fold([e]))
  {
  }

  lemma AddElsewhere(groups: Groups, a: Aggregate, key: string, lines: seq<Entry>)
    requires GroupIs(groups, key, lines) && key != a.key
    ensures GroupIs(Add(groups, a), key, lines)
  {
    hide Merge, Alike, Fold, AddsUp;
  }

  // A day's aggregates, as its index keeps them: each session of the day once, as its lines add up.
  ghost predicate IndexOf(sessions: seq<Aggregate>, entries: seq<Entry>) {
    && (forall i, j | 0 <= i < j < |sessions| :: sessions[i].key != sessions[j].key)
    && (forall i | 0 <= i < |sessions| :: Sums(sessions[i], entries))
    && (forall key: string | OfKey(entries, key) != [] :: key in KeysOf(sessions))
  }

  predicate Sums(a: Aggregate, entries: seq<Entry>) {
    && OfKey(entries, a.key) != [] && AddsUp(a, OfKey(entries, a.key))
    && Alike(a, Fold(OfKey(entries, a.key)))
  }

  function KeysOf(sessions: seq<Aggregate>): set<string> {
    set a | a in sessions :: a.key
  }

  // A session's lines before a day, and of that day when its index has been added so far.
  function LinesWith(entries: seq<Entry>, day: seq<Entry>, seen: set<string>, key: string): seq<Entry> {
    OfKey(entries, key) + if key in seen then OfKey(day, key) else []
  }

  ghost predicate GroupsWith(groups: Groups, entries: seq<Entry>, day: seq<Entry>, seen: set<string>) {
    forall key: string :: GroupIs(groups, key, LinesWith(entries, day, seen, key))
  }

  lemma AddIndexed(groups: Groups, entries: seq<Entry>, day: seq<Entry>, seen: set<string>, a: Aggregate)
    requires GroupsWith(groups, entries, day, seen) && a.key !in seen && Sums(a, day)
    ensures GroupsWith(Add(groups, a), entries, day, seen + {a.key})
  {
    hide GroupIs, Merge, Alike, Fold, AddsUp;
    forall key: string ensures GroupIs(Add(groups, a), key, LinesWith(entries, day, seen + {a.key}, key)) {
      assert GroupIs(groups, key, LinesWith(entries, day, seen, key));
      if key == a.key {
        assert OfKey(entries, key) + [] == OfKey(entries, key);
        AddToOne(groups, OfKey(entries, key), a, OfKey(day, key));
      } else {
        AddElsewhere(groups, a, key, LinesWith(entries, day, seen, key));
      }
    }
  }

  lemma WholeIndexAdded(groups: Groups, entries: seq<Entry>, sessions: seq<Aggregate>, day: seq<Entry>)
    requires IndexOf(sessions, day) && GroupsWith(groups, entries, day, KeysOf(sessions))
    ensures GroupsOf(groups, entries + day)
  {
    hide GroupIs, Sums, KeysOf;
    forall key: string ensures GroupIs(groups, key, OfKey(entries + day, key)) {
      OfKeyOfConcat(entries, day, key);
      assert GroupIs(groups, key, LinesWith(entries, day, KeysOf(sessions), key));
    }
  }

  // ---------- sessions ----------

  // A day's file: its first and last instants, its lines, and its index, when one was made from the file as it is.
  datatype Day = Day(firstMs: int, lastMs: int, entries: seq<Entry>, index: Option<seq<Aggregate>>)

  predicate Whole(day: Day, since: Option<int>) {
    since.None? || since.value <= day.firstMs
  }

  function Since(entries: seq<Entry>, since: Option<int>): seq<Entry> {
    if entries == [] then []
    else
      var last := entries[|entries| - 1];
      Since(entries[..|entries| - 1], since) + if since.None? || last.at >= since.value then [last] else []
  }

  // The lines a list of sessions is of, from any day: none of one past the retention or wholly too old, all of a past
  // one wholly recent enough, and of any other those recent enough.
  function LinesOf(day: Day, today: int, cutoff: int, since: Option<int>): seq<Entry> {
    if day.firstMs < cutoff || (since.Some? && day.lastMs < since.value) then []
    else if Whole(day, since) && day.firstMs < today then day.entries
    else Since(day.entries, since)
  }

  function AllLines(days: seq<Day>, today: int, cutoff: int, since: Option<int>): seq<Entry> {
    if days == [] then []
    else AllLines(days[..|days| - 1], today, cutoff, since) + LinesOf(days[|days| - 1], today, cutoff, since)
  }

  // Recent enough: every line of the list that is, and no other.
  lemma {:induction false} SinceIsAllOfIt(entries: seq<Entry>, since: Option<int>)
    ensures forall e :: multiset(Since(entries, since))[e] ==
                        if since.None? || e.at >= since.value then multiset(entries)[e] else 0
  {
    if entries != [] {
      SinceIsAllOfIt(entries[..|entries| - 1], since);
      assert entries == entries[..|entries| - 1] + [entries[|entries| - 1]];
    }
  }

  // A file holds its own day's lines.
  predicate HoldsItsDay(day: Day) {
    day.firstMs <= day.lastMs && forall e | e in day.entries :: day.firstMs <= e.at <= day.lastMs
  }

  function Retained(days: seq<Day>, cutoff: int): seq<Entry> {
    if days == [] then []
    else
      Retained(days[..|days| - 1], cutoff) + if days[|days| - 1].firstMs >= cutoff then days[|days| - 1].entries else []
  }

  // So the lines a list of sessions is of are exactly those of the days kept that are recent enough: no day is skipped
  // that holds one, and none counted whole that holds an older one.
  lemma {:induction false} LinesAreThoseSince(days: seq<Day>, today: int, cutoff: int, since: Option<int>)
    requires forall day | day in days :: HoldsItsDay(day)
    ensures AllLines(days, today, cutoff, since) == Since(Retained(days, cutoff), since)
  {
    if days != [] {
      var front := days[..|days| - 1];
      var day := days[|days| - 1];
      LinesAreThoseSince(front, today, cutoff, since);
      DaysLinesSince(day, today, cutoff, since);
      SinceOfConcat(Retained(front, cutoff), if day.firstMs >= cutoff then day.entries else [], since);
    }
  }

  lemma DaysLinesSince(day: Day, today: int, cutoff: int, since: Option<int>)
    requires HoldsItsDay(day)
    ensures LinesOf(day, today, cutoff, since) == Since(if day.firstMs >= cutoff then day.entries else [], since)
  {
    if day.firstMs >= cutoff {
      if since.Some? && day.lastMs < since.value { NoneSince(day.entries, since.value); }
      if Whole(day, since) { AllSince(day.entries, since); }
    }
  }

  lemma {:induction false} NoneSince(entries: seq<Entry>, since: int)
    requires forall e | e in entries :: e.at < since
    ensures Since(entries, Some(since)) == []
  {
    if entries != [] { NoneSince(entries[..|entries| - 1], since); }
  }

  lemma {:induction false} AllSince(entries: seq<Entry>, since: Option<int>)
    requires forall e | e in entries :: since.None? || e.at >= since.value
    ensures Since(entries, since) == entries
  {
    if entries != [] { AllSince(entries[..|entries| - 1], since); }
  }

  lemma {:induction false} SinceOfConcat(a: seq<Entry>, b: seq<Entry>, since: Option<int>)
    ensures Since(a + b, since) == Since(a, since) + Since(b, since)
  {
    if b == [] {
      assert a + b == a;
    } else {
      SinceOfConcat(a, b[..|b| - 1], since);
      assert (a + b)[..|a + b| - 1] == a + b[..|b| - 1];
    }
  }

  // A past day's sessions, from its index or from its lines.
  method DayAggregates(day: Day) returns (sessions: seq<Aggregate>)
    requires day.index.Some? ==> IndexOf(day.index.value, day.entries)
    ensures IndexOf(sessions, day.entries)
  {
    if day.index.Some? {
      return day.index.value;
    }
    var groups: Groups := map[];
    var order: seq<string> := [];
    for i := 0 to |day.entries|
      invariant GroupsOf(groups, day.entries[..i])
      invariant InOrder(order, groups)
    {
      var a := AggregateOf(day.entries[i]);
      AddLine(groups, day.entries[..i], day.entries[i]);
      assert day.entries[..i + 1] == day.entries[..i] + [day.entries[i]];
      if a.key !in groups {
        order := order + [a.key];
      }
      groups := Add(groups, a);
    }
    assert day.entries[..|day.entries|] == day.entries;
    sessions := [];
    for i := 0 to |order|
      invariant |sessions| == i && forall k | 0 <= k < i :: order[k] in groups && sessions[k] == groups[order[k]]
    {
      sessions := sessions + [groups[order[i]]];
    }
    GroupsListed(groups, order, sessions, day.entries);
  }

  // A map keeps its keys in the order they were first set, each once.
  predicate InOrder(order: seq<string>, groups: Groups) {
    && (forall i, j | 0 <= i < j < |order| :: order[i] != order[j])
    && (forall key | key in order :: key in groups)
    && (forall key | key in groups :: key in order)
  }

  lemma GroupsListed(groups: Groups, order: seq<string>, sessions: seq<Aggregate>, entries: seq<Entry>)
    requires GroupsOf(groups, entries) && InOrder(order, groups) && |sessions| == |order|
    requires forall k | 0 <= k < |order| :: order[k] in groups && sessions[k] == groups[order[k]]
    ensures IndexOf(sessions, entries)
  {
    hide Alike, Fold, AddsUp;
    forall i | 0 <= i < |sessions| ensures sessions[i].key == order[i] && Sums(sessions[i], entries) {
      assert GroupIs(groups, order[i], OfKey(entries, order[i]));
    }
    forall key: string | OfKey(entries, key) != [] ensures key in KeysOf(sessions) {
      assert GroupIs(groups, key, OfKey(entries, key));
      var i :| 0 <= i < |order| && order[i] == key;
      assert sessions[i] in sessions;
    }
  }

  // From indexes and lines alike: each session's aggregate is what its lines add up to, and no other session is listed.
  method Sessions(days: seq<Day>, today: int, cutoff: int, since: Option<int>) returns (groups: Groups)
    requires forall day | day in days && day.index.Some? :: IndexOf(day.index.value, day.entries)
    ensures GroupsOf(groups, AllLines(days, today, cutoff, since))
  {
    hide GroupsOf, IndexOf;
    groups := map[];
    NoGroups();
    for d := 0 to |days|
      invariant GroupsOf(groups, AllLines(days[..d], today, cutoff, since))
    {
      var day := days[d];
      ghost var before := AllLines(days[..d], today, cutoff, since);
      assert days[..d + 1][..d] == days[..d] && days[..d + 1][d] == day;
      assert AllLines(days[..d + 1], today, cutoff, since) == before + LinesOf(day, today, cutoff, since);
      assert before + [] == before;
      if day.firstMs < cutoff {
        continue;
      }
      if since.Some? && day.lastMs < since.value {
        continue;
      }
      if Whole(day, since) && day.firstMs < today {
        var sessions := DayAggregates(day);
        groups := AddSessions(groups, sessions, before, day.entries);
      } else {
        groups := AddLines(groups, day.entries, since, before);
      }
    }
    assert days[..|days|] == days;
  }

  method AddSessions(held: Groups, sessions: seq<Aggregate>, ghost before: seq<Entry>, ghost day: seq<Entry>)
    returns (groups: Groups)
    requires GroupsOf(held, before) && IndexOf(sessions, day)
    ensures GroupsOf(groups, before + day)
  {
    hide GroupIs, Sums;
    groups := held;
    StartIndex(groups, before, day);
    for i := 0 to |sessions|
      invariant GroupsWith(groups, before, day, KeysOf(sessions[..i]))
    {
      assert sessions[..i + 1] == sessions[..i] + [sessions[i]];
      assert KeysOf(sessions[..i + 1]) == KeysOf(sessions[..i]) + {sessions[i].key};
      AddIndexed(groups, before, day, KeysOf(sessions[..i]), sessions[i]);
      groups := Add(groups, sessions[i]);
    }
    assert sessions[..|sessions|] == sessions;
    WholeIndexAdded(groups, before, sessions, day);
  }

  method AddLines(held: Groups, entries: seq<Entry>, since: Option<int>, ghost before: seq<Entry>)
    returns (groups: Groups)
    requires GroupsOf(held, before)
    ensures GroupsOf(groups, before + Since(entries, since))
  {
    hide GroupsOf, AggregateOf;
    groups := held;
    assert before + [] == before;
    for i := 0 to |entries|
      invariant GroupsOf(groups, before + Since(entries[..i], since))
    {
      var e := entries[i];
      ghost var kept := Since(entries[..i], since);
      assert entries[..i + 1][..i] == entries[..i];
      if since.None? || e.at >= since.value {
        AddLine(groups, before + kept, e);
        assert before + kept + [e] == before + (kept + [e]);
        groups := Add(groups, AggregateOf(e));
      } else {
        assert kept + [] == kept;
      }
    }
    assert entries[..|entries|] == entries;
  }

  lemma NoGroups()
    ensures GroupsOf(map[], [])
  {
  }

  lemma StartIndex(groups: Groups, entries: seq<Entry>, day: seq<Entry>)
    requires GroupsOf(groups, entries)
    ensures GroupsWith(groups, entries, day, KeysOf([]))
  {
    hide GroupIs;
    forall key: string ensures GroupIs(groups, key, LinesWith(entries, day, KeysOf([]), key)) {
      assert GroupIs(groups, key, OfKey(entries, key));
      assert OfKey(entries, key) + [] == OfKey(entries, key);
    }
  }

  // What the list says of a session, but for the client and parent: the same from indexes as from lines.
  lemma IndexAgreesWithLines(one: Groups, two: Groups, entries: seq<Entry>)
    requires GroupsOf(one, entries) && GroupsOf(two, entries)
    ensures one.Keys == two.Keys && forall key | key in one :: Alike(one[key], two[key])
  {
    hide Alike, Fold, AddsUp;
    forall key: string ensures key in one <==> key in two {
      assert GroupIs(one, key, OfKey(entries, key)) && GroupIs(two, key, OfKey(entries, key));
    }
    forall key | key in one ensures Alike(one[key], two[key]) {
      assert GroupIs(one, key, OfKey(entries, key)) && GroupIs(two, key, OfKey(entries, key));
      AlikeIsSymmetric(two[key], Fold(OfKey(entries, key)));
      AlikeChains(one[key], Fold(OfKey(entries, key)), two[key]);
    }
  }
}
