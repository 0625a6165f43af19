/**
  The approval store as many processes run it (packages/core/src/approvals.ts, approval-maintenance.ts): every locked
  transition, claim, use and retention slot is cut at each file operation, any step of any call may come next, and a
  call may crash between any two. `exclusive` says whether the record lock excludes anybody, `retains` whether
  retention runs. A locked call reads the clock once, as it reads its file.

  What the callers and the configuration keep to is in `Enabled`: ids are never reused, a call names an id only once it
  has been made, epochs never go down, and a removed owner never returns.
  */
module StoreMachine {
  import opened Wrappers
  import opened Records
  import opened ApprovalBinding
  import opened ApprovalValidate
  import opened ApprovalOutcome
  import opened ApprovalTransitions
  import opened RecordInvariant
  import opened RecordMoves
  import opened Retention

  // ---------- calls ----------

  datatype Job =
    | Do(act: Act)
    | Use(input: UseInput, preparedBy: Option<string>)
    | Retain

  // Where a call is: between which two of its operations. The point fixes which operation comes next.
  datatype Point =
    | Asking
    | Holding
    | Configured(config: Option<Config>, readAt: nat)
    | Seen(config: Option<Config>, readAt: nat, now: int, o: Opened)
    | Settled(config: Option<Config>, readAt: nat, now: int, o: Opened, looked: bool, problem: Option<string>)
    | Examined(now: int, before: Stored, after: Stored)
    | Judged(now: int, stored: Stored)
    | Rowed(now: int, stored: Stored)
    | Unmarked(now: int, stored: Stored)
    | Leaving(claimed: bool, ended: bool)
    | Marking
    | Writing
    | Returning

  // From taking its record's lock to releasing it.
  predicate HoldsLock(at: Point) {
    !at.Asking? && !at.Marking? && !at.Writing? && !at.Returning?
  }

  datatype Call = Call(id: string, job: Job, at: Point)

  // The act a job's record is opened for: a use opens its standing approval as a claim does.
  function ActOf(job: Job): Act {
    match job
    case Do(act) => act
    case Use(input, _) => Inspect(Claiming, Expect(Some(StandingKind), None, Some(input.inboxId)))
    case Retain => Inspect(Inspecting, Expect(None, None, None))
  }

  // ---------- the world ----------

  // A claim marker: the call that created it, and the token it wrote into it, if it got that far.
  datatype Marker = Marker(creator: nat, token: Option<nat>)

  // A claim: its call and act, which configuration that read under the lock, and the record as it became.
  datatype Claim = Claim(call: nat, readAt: nat, act: Act, record: Record)

  // A person's decision, given where an agent cannot give it.
  datatype Person = Person(id: string, binding: Option<Digest>, via: Via, answer: Option<Answer>)

  datatype Return = Return(id: string, call: nat)

  datatype Go = Go(id: string, at: int)

  // What has happened: history variables that no step reads.
  datatype Log = Log(
    claims: map<string, Claim>,
    returned: seq<Return>,
    people: set<Person>,
    goes: seq<Go>,
    outcomes: seq<Return>,
    ended: set<string>,
    rows: map<string, Row>)

  datatype World = World(
    exclusive: bool,
    retains: bool,
    clock: int,
    history: seq<Config>,
    made: set<string>,
    files: map<string, File>,
    markers: map<string, Marker>,
    calls: map<nat, Call>,
    nextCall: nat,
    log: Log)

  function Live(w: World): Config
    requires |w.history| > 0
  {
    w.history[|w.history| - 1]
  }

  function Found(w: World, id: string): Option<Stored> {
    if id in w.files then Some(Decode(id, w.files[id])) else None
  }

  predicate HoldsClaim(w: World, id: string, token: nat) {
    id in w.markers && w.markers[id].token == Some(token)
  }

  predicate LockFree(w: World, id: string) {
    forall c | c in w.calls && w.calls[c].id == id :: !HoldsLock(w.calls[c].at)
  }

  // ---------- creation ----------

  datatype Creation =
    | OfSend(input: SendInput)
    | OfChange(channel: string, change: ChangeBinding, policy: ChangePolicy)
    | OfDownload(channel: string, download: DownloadBinding, policy: ChangePolicy)
    | OfStanding(standing: StandingBinding, inboxSub: string, sendEpoch: int, standingEpoch: int)
    | OfDisclosure(disclosure: DisclosureBinding)

  function CreateOf(creation: Creation, id: string, preparedBy: Option<string>, now: int): Made {
    match creation
    case OfSend(input) => Create(input, id, preparedBy, now)
    case OfChange(channel, change, policy) => CreateChange(channel, change, policy, id, preparedBy, now)
    case OfDownload(channel, download, policy) => CreateDownload(channel, download, policy, id, preparedBy, now)
    case OfStanding(standing, inboxSub, sendEpoch, standingEpoch) =>
      CreateStanding(standing, inboxSub, sendEpoch, standingEpoch, id, preparedBy, now)
    case OfDisclosure(disclosure) => CreateDisclosure(disclosure, id, preparedBy, now)
  }

  predicate EverOwner(history: seq<Config>, owner: string) {
    exists k | 0 <= k < |history| :: owner in history[k].owners
  }

  // The owner and the epochs a creation names were read from the configuration, now or earlier.
  predicate CreationFits(history: seq<Config>, creation: Creation)
    requires |history| > 0
  {
    var live := history[|history| - 1];
    match creation
    case OfSend(input) =>
      input.inboxId != "" && EverOwner(history, input.inboxId)
      && 0 <= input.sendEpoch <= SendEpochOf(live, input.inboxId)
    case OfChange(_, change, _) =>
      change.target.Some? && change.target.value.id.Some? ==> EverOwner(history, change.target.value.id.value)
    case OfDownload(_, download, _) => download.targetId != "" && EverOwner(history, download.targetId)
    case OfStanding(standing, _, sendEpoch, standingEpoch) =>
      EverOwner(history, standing.targetId) && sendEpoch <= SendEpochOf(live, standing.targetId)
      && standingEpoch <= live.standingEpoch
    case OfDisclosure(_) => true
  }

  // ---------- one operation ----------

  datatype Wrote = Wrote(id: string, record: Record)

  datatype Marking = MarkerStays | MarkerGoes | MarkerSet(marker: Marker)

  // What one operation of a call does: where it leaves the call (or that it ends there), the record it writes and
  // whether under a new id, whether it unlinks its own record, what becomes of its marker, and what the history says.
  datatype Effect = Effect(
    at: Option<Point>, wrote: Option<Wrote>, minted: bool, unlinks: bool, marking: Marking, log: Log)

  function Going(log: Log, at: Point): Effect {
    Effect(Some(at), None, false, false, MarkerStays, log)
  }

  function WriteIf(changed: bool, id: string, r: Record): Option<Wrote> {
    if changed then Some(Wrote(id, r)) else None
  }

  // The file, opened for the call's act at this reading of the clock.
  function ReadFile(w: World, call: Call): Effect
    requires call.at.Configured?
  {
    var o := Open(Found(w, call.id), ActOf(call.job), call.at.config, w.clock);
    Going(w.log, if o.Refusal? then Leaving(false, false) else Seen(call.at.config, call.at.readAt, w.clock, o))
  }

  // The marker's token is checked where one is needed, and then what reading derived is written.
  function Settle(w: World, call: Call): Effect
    requires call.at.Seen? && call.at.o.Opened?
  {
    var at := call.at;
    var token := TokenOf(ActOf(call.job));
    if token.Some? && !HoldsClaim(w, call.id, token.value) then Going(w.log, Leaving(false, false))
    else
      var looked := !ReadsParent(ActOf(call.job), at.o.current, at.o.outcome);
      Going(w.log, Settled(at.config, at.readAt, at.now, at.o, looked, None))
        .(wrote := WriteIf(at.o.current.state != at.o.stored.state, call.id, at.o.current))
  }

  // The standing approval a child's claim reads, as that read opens it.
  function ParentOpened(w: World, child: Record): Opened
    requires |w.history| > 0
  {
    if child.base.standingId.None? then Refusal(NotFound)
    else Open(Found(w, child.base.standingId.value), ParentLook(child), Some(Live(w)), w.clock)
  }

  function ParentLook(child: Record): Act {
    Inspect(Claiming, Expect(Some(StandingKind), None, Some(child.base.inboxId)))
  }

  // The parent's own look, under its own lock: opened, what that derives written, and judged.
  function ReadParent(w: World, call: Call): Effect
    requires |w.history| > 0 && call.at.Settled? && call.at.o.Opened?
  {
    var child := call.at.o.current;
    var parent := ParentOpened(w, child);
    Going(w.log, call.at.(looked := true, problem := ParentProblem(child, parent)))
      .(wrote := if parent.Opened? && child.base.standingId.Some?
                 then WriteIf(parent.current.state != parent.stored.state, child.base.standingId.value, parent.current)
                 else None)
  }

  function DecisionOf(call: Call): Decision
    requires call.at.Settled? && call.at.o.Opened?
  {
    var at := call.at;
    Decide(ActOf(call.job), at.o.current, at.o.outcome, at.o.live, at.problem, at.now)
  }

  predicate SaysEnded(o: Opened)
    requires o.Opened?
  {
    o.outcome.record.state == Expired || o.outcome.record.state == Revoked
  }

  function PersonOf(id: string, act: Act, next: Record): set<Person> {
    match act
    case Approve(_, via, _, _) => if next.state == Approved then {Person(id, next.bindingDigest, via, None)} else {}
    case ApproveDisclosure(_, _, via) =>
      if next.state == Approved then {Person(id, next.bindingDigest, via, None)} else {}
    case AnswerDownload(via, answer) => {Person(id, next.bindingDigest, via, Some(answer))}
    case _ => {}
  }

  // What a decision that was written adds to the history.
  function LogPut(log: Log, id: string, c: nat, readAt: nat, act: Act, cur: Record, next: Record): Log {
    log.(claims := if PastClaim(next.state) && !PastClaim(cur.state)
                   then log.claims[id := Claim(c, readAt, act, next)] else log.claims,
         people := log.people + PersonOf(id, act, next),
         outcomes := if act.Complete? then log.outcomes + [Return(id, act.token)] else log.outcomes)
  }

  // A renewal that found the send under way says `go`.
  function LogGo(log: Log, id: string, act: Act, cur: Record, now: int): Log {
    if act.Heartbeat? && cur.state == Sending then log.(goes := log.goes + [Go(id, now)]) else log
  }

  function Finish(w: World, c: nat, call: Call): Effect
    requires call.at.Settled? && call.at.o.Opened?
  {
    var at := call.at;
    var act := ActOf(call.job);
    var d := DecisionOf(call);
    var log := LogGo(w.log, call.id, act, at.o.current, at.now);
    if d.Put? then
      Going(LogPut(log, call.id, c, at.readAt, act, at.o.current, d.next),
            Leaving(IsClaimAct(act) && PastClaim(d.next.state), SaysEnded(at.o)))
        .(wrote := Some(Wrote(call.id, d.next)))
    else Going(log, Leaving(false, SaysEnded(at.o)))
  }

  // One use of a standing approval: a child under an id nothing was made under.
  function Mint(w: World, call: Call): Effect
    requires call.at.Settled? && call.at.o.Opened? && call.job.Use?
  {
    var at := call.at;
    var input := call.job.input;
    var made := MintChild(input, call.id, at.o.outcome, at.o.live, call.job.preparedBy, at.now);
    var left := Going(w.log, Leaving(false, SaysEnded(at.o)));
    if made.Made? && input.approvalId !in w.made && input.approvalId !in w.files
    then left.(wrote := Some(Wrote(input.approvalId, made.record)), minted := true)
    else left
  }

  // The lock is released; a claim goes on to its marker.
  function Unlock(w: World, call: Call): Effect
    requires call.at.Leaving?
  {
    var log := if call.at.ended then w.log.(ended := w.log.ended + {call.id}) else w.log;
    Going(log, Marking).(at := if call.at.claimed then Some(Marking) else None)
  }

  // Retention's read: a lone marker goes with its record; a version-2 record reads with its derived state.
  function Examine(w: World, call: Call): Effect {
    if call.id !in w.files then Going(w.log, Leaving(false, false)).(marking := MarkerGoes)
    else
      var stored := Decode(call.id, w.files[call.id]);
      Going(w.log, Examined(w.clock, stored, if stored.V2? then V2(Derive(stored.record, w.clock)) else stored))
  }

  function SettleDerived(w: World, call: Call): Effect
    requires call.at.Examined?
  {
    var at := call.at;
    Going(w.log, Judged(at.now, at.after))
      .(wrote := if at.before.V2? && at.after.V2?
                 then WriteIf(at.after.record.state != at.before.record.state, call.id, at.after.record) else None)
  }

  // Nothing is unlinked before its row is there.
  function AppendRow(w: World, call: Call): Effect
    requires call.at.Judged?
  {
    var row := VerdictOf(call.at.stored, call.at.now);
    if row.None? then Going(w.log, Leaving(false, false))
    else Going(w.log.(rows := w.log.rows[call.id := row.value]), Rowed(call.at.now, call.at.stored))
  }

  // Created exclusively: only where there is none.
  function CreateMarker(w: World, c: nat, call: Call): Effect {
    var making := Going(w.log, Writing);
    if call.id in w.markers then making.(at := None) else making.(marking := MarkerSet(Marker(c, None)))
  }

  // A send's claim writes its token into the marker it created, if that is still there.
  function WriteToken(w: World, c: nat, call: Call): Effect {
    var mine := call.id in w.markers && w.markers[call.id].creator == c && ActOf(call.job).ClaimForSend?;
    Going(w.log, Returning).(marking := if mine then MarkerSet(Marker(c, Some(c))) else MarkerStays)
  }

  function AnswerCaller(w: World, c: nat, call: Call): Effect {
    Going(w.log.(returned := w.log.returned + [Return(call.id, c)]), Returning).(at := None)
  }

  // The next operation of a call. `loads` says whether its store has a configuration to read.
  function Operation(w: World, c: nat, loads: bool): Effect
    requires |w.history| > 0 && c in w.calls
  {
    var call := w.calls[c];
    match call.at
    case Asking => Going(w.log, Holding)
    case Holding =>
      if call.job.Retain? then Examine(w, call)
      else Going(w.log, Configured(if loads then Some(Live(w)) else None, |w.history| - 1))
    case Configured(_, _) => ReadFile(w, call)
    case Seen(_, _, _, o) => if o.Opened? then Settle(w, call) else Going(w.log, Leaving(false, false))
    case Settled(_, _, _, o, looked, _) =>
      if o.Refusal? then Going(w.log, Leaving(false, false))
      else if !looked then ReadParent(w, call)
      else if call.job.Use? then Mint(w, call)
      else Finish(w, c, call)
    case Examined(_, _, _) => SettleDerived(w, call)
    case Judged(_, _) => AppendRow(w, call)
    case Rowed(now, stored) => Going(w.log, Unmarked(now, stored)).(marking := MarkerGoes)
    case Unmarked(_, _) => Going(w.log, Leaving(false, false)).(unlinks := true)
    case Leaving(_, _) => Unlock(w, call)
    case Marking => CreateMarker(w, c, call)
    case Writing => WriteToken(w, c, call)
    case Returning => AnswerCaller(w, c, call)
  }

  function Run(w: World, c: nat, e: Effect): World
    requires c in w.calls
  {
    var id := w.calls[c].id;
    w.(calls := if e.at.Some? then w.calls[c := w.calls[c].(at := e.at.value)] else w.calls - {c},
       files := if e.wrote.Some? then w.files[e.wrote.value.id := RecordFile(e.wrote.value.record)]
                else if e.unlinks then w.files - {id} else w.files,
       made := if e.wrote.Some? && e.minted then w.made + {e.wrote.value.id} else w.made,
       markers := match e.marking
                  case MarkerStays => w.markers
                  case MarkerGoes => w.markers - {id}
                  case MarkerSet(marker) => w.markers[id := marker],
       log := e.log)
  }

  // ---------- steps ----------

  datatype Step =
    | Tick(ms: nat)
    | Configure(next: Config)
    | Make(newId: string, creation: Creation, preparedBy: Option<string>)
    | Ask(id: string, job: Job)
    | Advance(c: nat, loads: bool)
    | Crash(c: nat)

  // No epoch goes down, and an owner that is gone stays gone.
  ghost predicate ConfigFits(history: seq<Config>, next: Config)
    requires |history| > 0
  {
    var live := history[|history| - 1];
    && (forall o: string :: SendEpochOf(next, o) >= SendEpochOf(live, o))
    && next.standingEpoch >= live.standingEpoch
    && (forall o: string | o in next.owners && o !in live.owners :: !EverOwner(history, o))
  }

  // What callers keep to: the reasons they give are never the store's own word for a clock anomaly, and `approve` is not
  // called for a download's question, which is answered instead.
  predicate ActFits(act: Act) {
    EarlyRefusal(act).None?
    && match act
       case Revoke(reason, _) => reason != CLOCK_ANOMALY
       case Complete(_, FailedWith(error)) => error != CLOCK_ANOMALY
       case Approve(kind, _, _, _) => kind != DownloadKind
       case _ => true
  }

  predicate JobFits(w: World, job: Job) {
    match job
    case Do(act) => ActFits(act)
    case Use(_, preparedBy) => PreparedByOk(preparedBy)
    case Retain => w.retains
  }

  // A call waits only for a lock: its record's, and a child's claim for its standing approval's.
  predicate Ready(w: World, c: nat)
    requires c in w.calls
  {
    var at := w.calls[c].at;
    w.exclusive ==>
      && (at.Asking? ==> LockFree(w, w.calls[c].id))
      && (at.Settled? && !at.looked && at.o.Opened? && at.o.current.base.standingId.Some? ==>
            LockFree(w, at.o.current.base.standingId.value))
  }

  ghost predicate Enabled(w: World, step: Step) {
    |w.history| > 0 &&
    match step
    case Tick(_) => true
    case Configure(next) => ConfigFits(w.history, next)
    case Make(id, creation, preparedBy) =>
      IsApprovalId(id) && id !in w.made && id !in w.files && CreationFits(w.history, creation)
      && PreparedByOk(preparedBy) && CreateOf(creation, id, preparedBy, w.clock).Made?
    case Ask(id, job) => id in w.made && JobFits(w, job)
    case Advance(c, _) => c in w.calls && Ready(w, c)
    case Crash(c) => c in w.calls
  }

  ghost function Apply(w: World, step: Step): World
    requires Enabled(w, step)
  {
    match step
    case Tick(ms) => w.(clock := w.clock + ms)
    case Configure(next) => w.(history := w.history + [next])
    case Make(id, creation, preparedBy) =>
      w.(files := w.files[id := RecordFile(CreateOf(creation, id, preparedBy, w.clock).record)], made := w.made + {id})
    case Ask(id, job) =>
      w.(calls := w.calls[w.nextCall := Call(id, job, Asking)], nextCall := w.nextCall + 1)
    case Advance(c, loads) => Run(w, c, Operation(w, c, loads))
    case Crash(c) => w.(calls := w.calls - {c})
  }

  // ---------- runs ----------

  // A store at rest: no version-2 record yet, only what earlier releases and other hands left.
  predicate Init(w: World) {
    && |w.history| == 1
    && (forall id | id in w.files :: !w.files[id].RecordFile? && id in w.made)
    && (forall id | id in w.made :: id in w.files)
    && w.markers == map[] && w.calls == map[] && w.nextCall == 0
    && w.log == Log(map[], [], {}, [], [], {}, map[])
  }

  ghost predicate Legal(w: World, steps: seq<Step>)
    decreases |steps|
  {
    steps != [] ==> Enabled(w, steps[0]) && Legal(Apply(w, steps[0]), steps[1..])
  }

  // The world a run of steps ends in.
  ghost function After(w: World, steps: seq<Step>): World
    requires Legal(w, steps)
    decreases |steps|
  {
    if steps == [] then w else After(Apply(w, steps[0]), steps[1..])
  }
}
