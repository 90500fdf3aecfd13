/** The shutdown orchestrator of one run, as a machine whose steps are single commits, clock
    reads and adapter calls. Durable rows survive `Crash`; workers do not. */
module Orchestrator {
  import opened Domain
  import I = Integrations

  // ---- Adapters ----

  datatype Adapter =
    | SafeUnknown
    | Synthetic(outcomes: map<ProbeKind, ProbeResult>)
    | Kubernetes(config: I.Config)
    | Custom  // any implementation of the adapter protocol

  datatype Op = Fence | StopProcess | Discover | Probe(kind: ProbeKind)

  /** `result` answers a probe, `children` a discovery; `world` is what the call saw outside. */
  datatype Reply = Ok(result: ProbeResult, world: I.World, children: seq<I.Child>) | Raise

  function Outcome(outcomes: map<ProbeKind, ProbeResult>, kind: ProbeKind): ProbeResult {
    if kind in outcomes then outcomes[kind] else Unknown
  }

  /** Which replies an adapter can give to an operation. */
  predicate CanReply(a: Adapter, op: Op, r: Reply) {
    match a
    case SafeUnknown => r.Ok? && (op.Probe? ==> r.result == Unknown) && (op.Discover? ==> r.children == [])
    case Synthetic(o) => r.Ok? && (op.Probe? ==> r.result == Outcome(o, op.kind)) && (op.Discover? ==> r.children == [])
    case Kubernetes(c) =>
      if !c.namespaceAllowed then r.Raise?
      else
        && (op.Probe? ==> r.Ok? && r.result == I.KubernetesProbe(c, r.world, op.kind))
        && (op.Discover? && r.Ok? ==> I.Discovered(r.world.jobs, r.world.cronjobs) == Some(r.children))
    case Custom => true
  }

  /** `adapter` is the configured one; `outcomes` are those of the drill that reserved this
      run, if the run belongs to a simulated drill. */
  datatype Config = Config(
    lease: int, deadline: int, adapter: Adapter, outcomes: Option<map<ProbeKind, ProbeResult>>)

  /** `_recovery_adapter`. */
  function RecoveryAdapter(cfg: Config): Adapter {
    if cfg.outcomes.Some? then Synthetic(cfg.outcomes.value) else cfg.adapter
  }

  // ---- Durable rows ----

  datatype RunRow = RunRow(
    state: ShutdownState, requestedAt: Option<int>, deadlineAt: Option<int>, key: Option<string>,
    stoppedAt: Option<int>)

  datatype WorkStatus = PENDING | EXECUTING | COMPLETE

  datatype WorkRow = WorkRow(status: WorkStatus, attempts: nat, owner: Option<nat>, expires: Option<int>)

  datatype ProbeRow = ProbeRow(kind: ProbeKind, result: ProbeResult, world: I.World)

  datatype Event =
    | ShutdownRequested
    | RecoveryResumed(state: ShutdownState)
    | PhaseReached(state: ShutdownState)
    | ProbeResultSaved(kind: ProbeKind, result: ProbeResult)
    | ShutdownCompleted(state: ShutdownState)
    | DeadlineExceeded

  /** Adapter calls, and the attempt to save discovered children that raised. */
  datatype CallRecord =
    | Called(op: Op) | Returned(op: Op) | Raised(op: Op)
    | SaveRaised(world: I.World, children: seq<I.Child>)

  // ---- Workers ----

  datatype ClaimMode = Fresh | Resume | ExpireNow

  /** What a worker does next. `p` is the phase it is leaving, `i` an index of `PROBE_KINDS`. */
  datatype Pc =
    | Announce | Check | Claim(mode: ClaimMode)
    | Load | ResumeEvent | DeadlineCheck
    | Renew(p: nat) | Invoke(p: nat) | Await(p: nat) | SaveJobs(world: I.World, children: seq<I.Child>)
    | Commit(p: nat) | PhaseEvent(p: nat) | Reload(p: nat)
    | ProbeNext(i: nat) | ProbeRenew(i: nat) | ProbeInvoke(i: nat) | ProbeAwait(i: nat)
    | ProbeSave(i: nat, row: ProbeRow) | ProbeEvent(i: nat, row: ProbeRow)
    | Decide | TerminalCommit(verdict: ShutdownState) | TerminalEvent(verdict: ShutdownState)
    | ExpireCommit | ExpireEvent | Finish
    | FailWork | FailCommit | FailEvent

  /** `since` is when the worker reached `pc`; `leaseUntil` is the end of the lease it wrote
      last; `view` and `existing` are the run row and the probe results it read last. */
  datatype Worker = Worker(
    pc: Pc, since: int, adapter: Adapter, recovering: bool, leaseUntil: int,
    view: RunRow, existing: map<ProbeKind, ProbeResult>)

  /** `calls` is the history of adapter calls, and `dispatched` records whether the accepted
      shutdown request came from the drill dispatcher; no code reads either. */
  datatype State = State(
    now: int, nextId: nat, run: RunRow, work: Option<WorkRow>, probes: seq<ProbeRow>,
    jobs: I.JobTable, events: seq<Event>, calls: seq<CallRecord>, workers: map<nat, Worker>, dispatched: bool)

  /** Clock readings made by one step (`seen` first) and the adapter's reply, if it makes a call. */
  datatype Choice = Choice(seen: int, stamp: int, reply: Reply)

  datatype Step =
    | Request(key: string, viaDrill: bool, asked: int)
    | Recover
    | Work(t: nat, c: Choice)
    | RestartProbe(row: ProbeRow)
    | Tick(to: int)
    | Crash

  // ---- Phases ----

  function Phase(p: nat): ShutdownState {
    if p == 0 then REQUESTED
    else if p == 1 then FENCING
    else if p == 2 then PROCESS_STOP_SENT
    else if p == 3 then CHILD_DISCOVERY
    else PROBING
  }

  function PhaseOp(p: nat): Op {
    if p == 0 then Fence else if p == 1 then StopProcess else Discover
  }

  /** The probe results by kind, as `_orchestrate` collects them from the rows. */
  function Existing(rows: seq<ProbeRow>): map<ProbeKind, ProbeResult> {
    if rows == [] then map[]
    else
      var last := rows[|rows| - 1];
      Existing(rows[..|rows| - 1])[last.kind := last.result]
  }

  function Results(existing: map<ProbeKind, ProbeResult>): seq<ProbeResult> {
    [Outcome(existing, Process), Outcome(existing, Delegation), Outcome(existing, Kafka),
     Outcome(existing, Credential), Outcome(existing, Network)]
  }

  predicate Expired(run: RunRow, now: int) {
    run.deadlineAt.Some? && run.deadlineAt.value <= now
  }

  // ---- The steps of a worker ----

  function Put(s: State, t: nat, w: Worker, pc: Pc): State {
    s.(workers := s.workers[t := w.(pc := pc, since := s.now)])
  }

  function Drop(s: State, t: nat): State {
    s.(workers := s.workers - {t})
  }

  /** `_claim_shutdown_work`: insert the row if it is missing, then compare and set. */
  function Inserted(work: Option<WorkRow>): WorkRow {
    if work.Some? then work.value else WorkRow(PENDING, 0, None, None)
  }

  predicate Claimable(row: WorkRow, seen: int) {
    row.status != COMPLETE && (row.owner.None? || (row.expires.Some? && row.expires.value <= seen))
  }

  function ClaimWork(cfg: Config, s: State, t: nat, w: Worker, mode: ClaimMode, c: Choice): State {
    var row := Inserted(s.work);
    if Claimable(row, c.seen) then
      var until := c.stamp + cfg.lease;
      Put(s.(work := Some(WorkRow(EXECUTING, row.attempts + 1, Some(t), Some(until)))),
          t, w.(leaseUntil := until), if mode == ExpireNow then ExpireCommit else Load)
    else Drop(s.(work := Some(row)), t)
  }

  predicate Owns(s: State, t: nat) {
    s.work.Some? && s.work.value.owner == Some(t)
  }

  /** `_renew_shutdown_lease`: the worker goes on whether or not it still owned the lease. */
  function RenewLease(cfg: Config, s: State, t: nat, w: Worker, c: Choice, pc: Pc): State {
    if Owns(s, t) then
      var until := c.stamp + cfg.lease;
      Put(s.(work := Some(s.work.value.(expires := Some(until)))), t, w.(leaseUntil := until), pc)
    else Put(s, t, w, pc)
  }

  /** `_finish_shutdown_work` and `_fail_shutdown_work`. */
  function CompleteWork(s: State, t: nat): State {
    if Owns(s, t) then s.(work := Some(s.work.value.(status := COMPLETE, owner := None, expires := None))) else s
  }

  function SetState(s: State, state: ShutdownState): State {
    s.(run := s.run.(state := state))
  }

  function Stop(s: State, state: ShutdownState, stamp: int): State {
    s.(run := s.run.(state := state, stoppedAt := Some(stamp)))
  }

  function Emit(s: State, e: Event): State {
    s.(events := s.events + [e])
  }

  function Record(s: State, r: CallRecord): State {
    s.(calls := s.calls + [r])
  }

  function Read(s: State, w: Worker): Worker {
    w.(view := s.run, existing := Existing(s.probes))
  }

  /** Where `_orchestrate` enters its chain of phases. */
  function EntryPoint(state: ShutdownState): Pc {
    match state
    case REQUESTED => Renew(0)
    case FENCING => Renew(1)
    case PROCESS_STOP_SENT => Renew(2)
    case CHILD_DISCOVERY => Commit(3)
    case PROBING => ProbeNext(0)
    case RUNNING => FailWork
    case _ => Finish
  }

  function PhaseEntry(p: nat): Pc {
    if p < 3 then Renew(p) else if p == 3 then Commit(3) else ProbeNext(0)
  }

  /** Where a phase goes on after its call returned. */
  function AfterCall(p: nat, r: Reply): Pc
    requires r.Ok?
  {
    if p == 2 then SaveJobs(r.world, r.children) else Commit(p)
  }

  function AdvanceEntry(cfg: Config, s: State, t: nat, w: Worker, c: Choice): State {
    match w.pc
    case Announce => Put(Emit(s, ShutdownRequested), t, w, Claim(Fresh))
    case Check => Put(s, t, w, Claim(if Expired(w.view, s.now) then ExpireNow else Resume))
    case Claim(mode) => ClaimWork(cfg, s, t, w, mode, c)
    case Load => Put(s, t, Read(s, w), if w.recovering then ResumeEvent else DeadlineCheck)
    case ResumeEvent => Put(Emit(s, RecoveryResumed(w.view.state)), t, w, DeadlineCheck)
    case DeadlineCheck =>
      Put(s, t, w, if Expired(w.view, s.now) then ExpireCommit else EntryPoint(w.view.state))
    case _ => s
  }

  function AdvancePhase(cfg: Config, s: State, t: nat, w: Worker, c: Choice): State {
    match w.pc
    case Renew(p) => RenewLease(cfg, s, t, w, c, Invoke(p))
    case Invoke(p) => Put(Record(s, Called(PhaseOp(p))), t, w, Await(p))
    case Await(p) =>
      if c.reply.Raise? then Put(Record(s, Raised(PhaseOp(p))), t, w, FailWork)
      else Put(Record(s, Returned(PhaseOp(p))), t, w, AfterCall(p, c.reply))
    case SaveJobs(world, children) =>
      if I.Savable(children) then Put(s.(jobs := I.Saved(s.jobs, children)), t, w, Commit(2))
      else Put(Record(s, SaveRaised(world, children)), t, w, FailWork)
    case Commit(p) => Put(SetState(s, Phase(p + 1)), t, w, PhaseEvent(p))
    case PhaseEvent(p) => Put(Emit(s, PhaseReached(Phase(p + 1))), t, w, Reload(p + 1))
    case Reload(p) => Put(s, t, Read(s, w), PhaseEntry(p))
    case _ => s
  }

  function AdvanceProbe(cfg: Config, s: State, t: nat, w: Worker, c: Choice): State {
    match w.pc
    case ProbeNext(i) =>
      if i >= |PROBE_KINDS| then Put(s, t, w, Decide)
      else if PROBE_KINDS[i] in w.existing then Put(s, t, w, ProbeNext(i + 1))
      else if Expired(w.view, s.now) then Put(s, t, w, ExpireCommit)
      else Put(s, t, w, ProbeRenew(i))
    case ProbeRenew(i) => RenewLease(cfg, s, t, w, c, ProbeInvoke(i))
    case ProbeInvoke(i) =>
      if i >= |PROBE_KINDS| then s else Put(Record(s, Called(Probe(PROBE_KINDS[i]))), t, w, ProbeAwait(i))
    case ProbeAwait(i) =>
      if i >= |PROBE_KINDS| then s
      else if c.reply.Raise? then Put(Record(s, Raised(Probe(PROBE_KINDS[i]))), t, w, FailWork)
      else
        var row := ProbeRow(PROBE_KINDS[i], c.reply.result, c.reply.world);
        Put(Record(s, Returned(Probe(row.kind))), t,
            w.(existing := w.existing[row.kind := row.result]), ProbeSave(i, row))
    case ProbeSave(i, row) => Put(s.(probes := s.probes + [row]), t, w, ProbeEvent(i, row))
    case ProbeEvent(i, row) => Put(Emit(s, ProbeResultSaved(row.kind, row.result)), t, w, ProbeNext(i + 1))
    case _ => s
  }

  function AdvanceExit(s: State, t: nat, w: Worker, c: Choice): State {
    match w.pc
    case Decide => Put(s, t, w.(view := s.run), TerminalCommit(Aggregate(Results(w.existing))))
    case TerminalCommit(v) => Put(Stop(s, v, c.stamp), t, w, TerminalEvent(v))
    case TerminalEvent(v) => Put(Emit(s, ShutdownCompleted(v)), t, w, Finish)
    case ExpireCommit => Put(Stop(s, UNKNOWN, c.stamp), t, w, ExpireEvent)
    case ExpireEvent => Put(Emit(s, DeadlineExceeded), t, w, Finish)
    case Finish => Drop(CompleteWork(s, t), t)
    case FailWork => Put(CompleteWork(s, t), t, w, FailCommit)
    case FailCommit => Put(Stop(s, FAILED, c.stamp), t, w, FailEvent)
    case FailEvent => Drop(Emit(s, ShutdownCompleted(FAILED)), t)
    case _ => s
  }

  predicate IsEntry(pc: Pc) {
    pc.Announce? || pc.Check? || pc.Claim? || pc.Load? || pc.ResumeEvent? || pc.DeadlineCheck?
  }

  predicate IsPhase(pc: Pc) {
    pc.Renew? || pc.Invoke? || pc.Await? || pc.SaveJobs? || pc.Commit? || pc.PhaseEvent? || pc.Reload?
  }

  predicate IsProbe(pc: Pc) {
    pc.ProbeNext? || pc.ProbeRenew? || pc.ProbeInvoke? || pc.ProbeAwait? || pc.ProbeSave? || pc.ProbeEvent?
  }

  function Advance(cfg: Config, s: State, t: nat, c: Choice): State
    requires t in s.workers
  {
    var w := s.workers[t];
    if IsEntry(w.pc) then AdvanceEntry(cfg, s, t, w, c)
    else if IsPhase(w.pc) then AdvancePhase(cfg, s, t, w, c)
    else if IsProbe(w.pc) then AdvanceProbe(cfg, s, t, w, c)
    else AdvanceExit(s, t, w, c)
  }

  /** The operation a worker is waiting for. */
  function Awaited(pc: Pc): Option<Op> {
    match pc
    case Await(p) => Some(PhaseOp(p))
    case ProbeAwait(i) => if i < |PROBE_KINDS| then Some(Probe(PROBE_KINDS[i])) else None
    case _ => None
  }

  // ---- Requests ----

  datatype Receipt = Receipt(requestedAt: Option<int>, deadlineAt: Option<int>, state: ShutdownState)

  datatype Answer = Accepted(receipt: Receipt) | Replayed(receipt: Receipt) | Conflict | Invalid | NotFound

  function ReceiptOf(run: RunRow): Receipt {
    Receipt(run.requestedAt, run.deadlineAt, run.state)
  }

  /** The run row of an accepted request; the clock is read twice, first for the request time. */
  function Requested(cfg: Config, run: RunRow, asked: int, now: int, key: string): RunRow {
    run.(state := REQUESTED, requestedAt := Some(asked), deadlineAt := Some(now + cfg.deadline), key := Some(key))
  }

  /** `request_shutdown` up to its receipt. */
  function AnswerRequest(cfg: Config, s: State, key: string, asked: int): Answer {
    if key == "" then Invalid
    else if s.run.requestedAt.Some? then
      if s.run.key == Some(key) then Replayed(ReceiptOf(s.run)) else Conflict
    else Accepted(ReceiptOf(Requested(cfg, s.run, asked, s.now, key)))
  }

  function ApplyRequest(cfg: Config, s: State, key: string, viaDrill: bool, asked: int): State {
    if AnswerRequest(cfg, s, key, asked).Accepted? then
      var adapter := if viaDrill then RecoveryAdapter(cfg) else cfg.adapter;
      var row := if s.work.Some? then s.work.value.(status := PENDING) else WorkRow(PENDING, 0, None, None);
      s.(run := Requested(cfg, s.run, asked, s.now, key), work := Some(row), dispatched := viaDrill,
         nextId := s.nextId + 1,
         workers := s.workers[s.nextId := Worker(Announce, s.now, adapter, false, s.now, s.run, map[])])
    else s
  }

  /** One row of `recover_incomplete_shutdowns`'s selection: the run as read by the SELECT. */
  function ApplyRecover(cfg: Config, s: State): State {
    if s.run.requestedAt.Some? && !IsTerminal(s.run.state) then
      s.(nextId := s.nextId + 1,
         workers := s.workers[s.nextId := Worker(Check, s.now, RecoveryAdapter(cfg), true, s.now, s.run, map[])])
    else s
  }

  // ---- The machine ----

  predicate Enabled(s: State, step: Step) {
    match step
    case Work(t, c) =>
      && t in s.workers
      && s.workers[t].since <= c.seen <= c.stamp <= s.now
      && (Awaited(s.workers[t].pc).Some? ==> CanReply(s.workers[t].adapter, Awaited(s.workers[t].pc).value, c.reply))
    case Request(_, _, asked) => asked <= s.now
    case RestartProbe(row) => IsTerminal(s.run.state) && row.kind == Restart
    case Tick(to) => s.now <= to
    case _ => true
  }

  function Apply(cfg: Config, s: State, step: Step): State
    requires Enabled(s, step)
  {
    match step
    case Request(key, viaDrill, asked) => ApplyRequest(cfg, s, key, viaDrill, asked)
    case Recover => ApplyRecover(cfg, s)
    case Work(t, c) => Advance(cfg, s, t, c)
    case RestartProbe(row) => s.(probes := s.probes + [row])
    case Tick(to) => s.(now := to)
    case Crash => s.(workers := map[])
  }

  /** A run that was just created: RUNNING, never asked to stop, no work, no probes. */
  predicate Init(s: State) {
    && s.run == RunRow(RUNNING, None, None, None, None)
    && s.work == None && s.probes == [] && s.jobs == map[] && s.events == [] && s.calls == [] && s.workers == map[]
    && !s.dispatched
  }

  /** The worker has not claimed the work yet. */
  predicate IsPending(pc: Pc) { pc.Announce? || pc.Check? || pc.Claim? }

  /** The worker released the work in the exception handler and has yet to finish it. */
  predicate IsFailing(pc: Pc) { pc.FailCommit? || pc.FailEvent? }

  predicate IsHolding(pc: Pc) { !IsPending(pc) && !IsFailing(pc) }

  /** The timing hypothesis: no worker that holds the lease lets it lapse, that is, its gaps
      between lease writes stay below the lease length. */
  ghost predicate InTime(s: State) {
    forall t :: t in s.workers && IsHolding(s.workers[t].pc) ==> s.now < s.workers[t].leaseUntil
  }

  /** States visited by `steps`, any schedule of requests, recoveries, worker steps, clock
      ticks and crashes. */
  ghost predicate IsRun(cfg: Config, states: seq<State>, steps: seq<Step>) {
    && |states| == |steps| + 1
    && Init(states[0])
    && forall i :: 0 <= i < |steps| ==>
                     Enabled(states[i], steps[i]) && states[i + 1] == Apply(cfg, states[i], steps[i])
  }

  /** The run respects the timing hypothesis throughout. */
  ghost predicate IsTimelyRun(cfg: Config, states: seq<State>, steps: seq<Step>) {
    IsRun(cfg, states, steps) && forall i :: 0 <= i < |states| ==> InTime(states[i])
  }
}
