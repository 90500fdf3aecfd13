/** What every step of a timely run keeps. */
module OrchestratorInvariant {
  import opened Domain
  import I = Integrations
  import opened Orchestrator

  predicate Terminal(s: State) { IsTerminal(s.run.state) }

  /** The run was asked to stop and has no verdict yet. */
  predicate Open(run: RunRow) {
    run.requestedAt.Some? && run.state != RUNNING && !IsTerminal(run.state)
  }

  /** The record of a failure inside `_orchestrate`: an adapter call or a save raised. */
  predicate IsFailure(r: CallRecord) { r.Raised? || (r.SaveRaised? && !I.Savable(r.children)) }

  ghost predicate HasRaised(calls: seq<CallRecord>) {
    exists i :: 0 <= i < |calls| && IsFailure(calls[i])
  }

  // ---- Rows ----

  ghost predicate RowsOk(run: RunRow, work: Option<WorkRow>) {
    && (run.requestedAt.Some? <==> run.deadlineAt.Some?)
    && (run.requestedAt.Some? <==> run.key.Some?)
    && (run.requestedAt.Some? <==> run.state != RUNNING)
    && (run.requestedAt.Some? <==> work.Some?)
    && (run.stoppedAt.Some? <==> IsTerminal(run.state))
    && (work.Some? ==> WorkOk(work.value))
  }

  predicate WorkOk(row: WorkRow) {
    && (row.status == EXECUTING <==> row.owner.Some?)
    && (row.owner.Some? <==> row.expires.Some?)
  }

  // ---- Probe rows ----

  /** At most one row for each boundary. */
  ghost predicate Distinct(rows: seq<ProbeRow>) {
    forall i, j :: 0 <= i < j < |rows| && rows[i].kind == rows[j].kind ==> rows[i].kind == Restart
  }

  ghost predicate NoRestart(rows: seq<ProbeRow>) {
    forall i :: 0 <= i < |rows| ==> rows[i].kind != Restart
  }

  ghost predicate ProbesOk(run: RunRow, probes: seq<ProbeRow>) {
    && Distinct(probes)
    && (probes != [] ==> run.state == PROBING || IsTerminal(run.state))
    && (!IsTerminal(run.state) ==> NoRestart(probes))
  }

  predicate AllProbed(existing: map<ProbeKind, ProbeResult>) {
    forall k :: 0 <= k < |PROBE_KINDS| ==> PROBE_KINDS[k] in existing
  }

  /** Why a run carries its verdict: the five probes, a passed deadline, or a failed call. */
  ghost predicate CauseOk(run: RunRow, existing: map<ProbeKind, ProbeResult>, raised: bool) {
    IsTerminal(run.state) ==>
      || (AllProbed(existing) && run.state == Aggregate(Results(existing)))
      || (run.state == UNKNOWN && run.stoppedAt.Some? && Expired(run, run.stoppedAt.value))
      || (run.state == FAILED && raised)
  }

  // ---- Adapter calls ----

  /** The operations of all phases before `p` returned. */
  predicate ReturnedBefore(calls: seq<CallRecord>, p: nat) {
    && (p >= 1 ==> Returned(Fence) in calls)
    && (p >= 2 ==> Returned(StopProcess) in calls)
    && (p >= 3 ==> Returned(Discover) in calls)
  }

  /** What had to return before an operation may be called. */
  predicate CallableAfter(calls: seq<CallRecord>, op: Op) {
    ReturnedBefore(calls, match op case Fence => 0 case StopProcess => 1 case Discover => 2 case Probe(_) => 3)
  }

  ghost predicate CallOrder(calls: seq<CallRecord>) {
    forall i :: 0 <= i < |calls| && calls[i].Called? ==> CallableAfter(calls[..i], calls[i].op)
  }

  /** How many phases a run has completed; 0 once it has a verdict. */
  function PhaseIndex(state: ShutdownState): nat {
    match state
    case FENCING => 1
    case PROCESS_STOP_SENT => 2
    case CHILD_DISCOVERY => 3
    case PROBING => 4
    case _ => 0
  }

  ghost predicate CallsOk(state: ShutdownState, calls: seq<CallRecord>) {
    CallOrder(calls) && ReturnedBefore(calls, PhaseIndex(state))
  }

  // ---- Workers ----

  predicate Probed(run: RunRow, rows: map<ProbeKind, ProbeResult>, w: Worker, n: nat) {
    && run.state == PROBING && w.view.deadlineAt == run.deadlineAt
    && n <= |PROBE_KINDS|
    && forall k :: 0 <= k < n ==> PROBE_KINDS[k] in rows
  }

  predicate Probing(run: RunRow, rows: map<ProbeKind, ProbeResult>, w: Worker, i: nat) {
    i < |PROBE_KINDS| && Probed(run, rows, w, i) && w.existing == rows && PROBE_KINDS[i] !in rows
  }

  /** What holds while a worker is at its program counter; `rows` are the durable results. */
  ghost predicate AtPc(run: RunRow, rows: map<ProbeKind, ProbeResult>, calls: seq<CallRecord>, w: Worker) {
    match w.pc
    case Announce => true
    case Check => w.view.deadlineAt == run.deadlineAt
    case Claim(m) => m == ExpireNow ==> Expired(run, w.since)
    case Load => Open(run)
    case ResumeEvent => Open(run) && w.view == run && w.existing == rows
    case DeadlineCheck => Open(run) && w.view == run && w.existing == rows
    case Renew(p) => p <= 2 && run.state == Phase(p)
    case Invoke(p) => p <= 2 && run.state == Phase(p)
    case Await(p) => p <= 2 && run.state == Phase(p)
    case SaveJobs(_, _) => run.state == Phase(2) && ReturnedBefore(calls, 3)
    case Commit(p) => p <= 3 && run.state == Phase(p) && ReturnedBefore(calls, p + 1)
    case PhaseEvent(p) => p <= 3 && run.state == Phase(p + 1)
    case Reload(p) => 1 <= p <= 4 && run.state == Phase(p)
    case ProbeNext(i) => Probed(run, rows, w, i) && w.existing == rows
    case ProbeRenew(i) => Probing(run, rows, w, i)
    case ProbeInvoke(i) => Probing(run, rows, w, i)
    case ProbeAwait(i) => Probing(run, rows, w, i)
    case ProbeSave(i, row) =>
      && i < |PROBE_KINDS| && row.kind == PROBE_KINDS[i] && row.kind !in rows
      && Probed(run, rows, w, i) && w.existing == rows[row.kind := row.result]
    case ProbeEvent(i, _) => i < |PROBE_KINDS| && Probed(run, rows, w, i + 1) && w.existing == rows
    case Decide => Probed(run, rows, w, |PROBE_KINDS|) && w.existing == rows
    case TerminalCommit(v) => run.state == PROBING && AllProbed(rows) && v == Aggregate(Results(rows))
    case TerminalEvent(v) => IsTerminal(run.state) && run.state == v
    case ExpireCommit => Open(run) && Expired(run, w.since)
    case ExpireEvent => run.state == UNKNOWN
    case Finish => IsTerminal(run.state)
    case FailWork => Open(run) && HasRaised(calls)
    case FailCommit => Open(run) && HasRaised(calls)
    case FailEvent => run.state == FAILED
  }

  ghost predicate SomeoneHolds(workers: map<nat, Worker>) {
    exists t :: t in workers && IsHolding(workers[t].pc)
  }

  /** A lease holder's token and expiry are the ones in the row; a failing worker has released it. */
  predicate LeaseOk(work: WorkRow, t: nat, w: Worker) {
    && (IsHolding(w.pc) ==> work.status == EXECUTING && work.owner == Some(t) && work.expires == Some(w.leaseUntil))
    && (IsFailing(w.pc) ==> work.status == COMPLETE)
  }

  ghost predicate WorkerOk(s: State, t: nat, w: Worker) {
    && t < s.nextId && w.since <= s.now && s.run.requestedAt.Some? && s.run.deadlineAt.Some? && s.work.Some?
    && AtPc(s.run, Existing(s.probes), s.calls, w)
    && LeaseOk(s.work.value, t, w)
    && (IsPending(w.pc) && IsTerminal(s.run.state) ==> s.work.value.status == COMPLETE || SomeoneHolds(s.workers))
  }

  ghost predicate WorkersOk(s: State) {
    forall t :: t in s.workers ==> WorkerOk(s, t, s.workers[t])
  }

  ghost predicate OneFailing(workers: map<nat, Worker>) {
    forall t, u :: t in workers && u in workers && IsFailing(workers[t].pc) && IsFailing(workers[u].pc) ==> t == u
  }

  /** Everything but the workers. */
  ghost predicate TablesOk(s: State) {
    && RowsOk(s.run, s.work) && ProbesOk(s.run, s.probes)
    && CauseOk(s.run, Existing(s.probes), HasRaised(s.calls)) && CallsOk(s.run.state, s.calls)
    && (s.work.Some? && s.work.value.owner.Some? ==> s.work.value.owner.value < s.nextId)
  }

  ghost predicate Inv(s: State) {
    TablesOk(s) && WorkersOk(s) && OneFailing(s.workers)
  }

  /** The worker may still change the run. */
  predicate Acts(pc: Pc) { !IsPending(pc) }

  /** Two workers never act on one run. */
  lemma OneActor(s: State, t: nat, u: nat)
    requires Inv(s) && t in s.workers && u in s.workers
    requires Acts(s.workers[t].pc) && Acts(s.workers[u].pc)
    ensures t == u
  {
    assert WorkerOk(s, t, s.workers[t]) && WorkerOk(s, u, s.workers[u]);
  }

  // ---- Probe rows: the map that `_orchestrate` keeps is the table ----

  lemma {:induction false} ExistingHolds(rows: seq<ProbeRow>, k: ProbeKind)
    ensures k in Existing(rows) <==> exists i :: 0 <= i < |rows| && rows[i].kind == k
  {
    if rows != [] {
      var n := |rows| - 1;
      ExistingHolds(rows[..n], k);
      if k in Existing(rows[..n]) {
        var i :| 0 <= i < n && rows[..n][i].kind == k;
        assert rows[i].kind == k;
      } else if i :| 0 <= i < |rows| && rows[i].kind == k {
        assert i < n ==> rows[..n][i].kind == k;
      }
    }
  }

  lemma ExistingGrows(rows: seq<ProbeRow>, row: ProbeRow)
    ensures Existing(rows + [row]) == Existing(rows)[row.kind := row.result]
  {
    assert (rows + [row])[..|rows|] == rows;
  }

  lemma {:induction false} ExistingAt(rows: seq<ProbeRow>, i: nat)
    requires i < |rows| && Distinct(rows) && rows[i].kind != Restart
    ensures rows[i].kind in Existing(rows) && Existing(rows)[rows[i].kind] == rows[i].result
  {
    var n := |rows| - 1;
    if i < n {
      ExistingAt(rows[..n], i);
    }
  }

  // ---- Assembling the invariant after a worker's step ----

  /** A step of `t` left the clock, the request and every other worker alone. */
  ghost predicate Frame(s: State, s': State, t: nat) {
    && s'.now == s.now && s'.nextId == s.nextId
    && s'.run.requestedAt == s.run.requestedAt && s'.run.deadlineAt == s.run.deadlineAt && s'.run.key == s.run.key
    && s'.work.Some?
    && forall u :: u in s'.workers && u != t ==> u in s.workers && s'.workers[u] == s.workers[u]
  }

  /** What a step of an acting worker `t` has to establish. */
  ghost predicate ActorOk(s: State, t: nat) {
    && TablesOk(s) && s.work.Some?
    && (t in s.workers ==> WorkerOk(s, t, s.workers[t]))
    && ((t in s.workers && IsHolding(s.workers[t].pc)) || s.work.value.status == COMPLETE || Open(s.run))
  }

  /** After a step of an acting worker, only that worker's own facts need checking. */
  lemma ActorStep(s: State, s': State, t: nat)
    requires Inv(s) && t in s.workers && Acts(s.workers[t].pc) && Frame(s, s', t) && ActorOk(s', t)
    ensures Inv(s')
  {
    forall u | u in s'.workers ensures WorkerOk(s', u, s'.workers[u]) {
      if u != t {
        PendingPeer(s, t, u);
        assert WorkerOk(s, u, s.workers[u]);
      }
    }
    forall u, v | u in s'.workers && v in s'.workers && IsFailing(s'.workers[u].pc) && IsFailing(s'.workers[v].pc)
      ensures u == v
    {
      if u != t {
        PendingPeer(s, t, u);
      } else if v != t {
        PendingPeer(s, t, v);
      }
    }
  }

  lemma PendingPeer(s: State, t: nat, u: nat)
    requires Inv(s) && t in s.workers && Acts(s.workers[t].pc) && u in s.workers && u != t
    ensures IsPending(s.workers[u].pc)
  {
    if Acts(s.workers[u].pc) {
      OneActor(s, t, u);
    }
  }

  lemma CallsGrow(calls: seq<CallRecord>, r: CallRecord)
    requires CallOrder(calls)
    requires r.Called? ==> CallableAfter(calls, r.op)
    ensures CallOrder(calls + [r])
    ensures forall p: nat :: ReturnedBefore(calls, p) ==> ReturnedBefore(calls + [r], p)
    ensures HasRaised(calls) || IsFailure(r) <==> HasRaised(calls + [r])
  {
    var calls' := calls + [r];
    forall i | 0 <= i < |calls'| && calls'[i].Called? ensures CallableAfter(calls'[..i], calls'[i].op) {
      assert calls'[..i] == calls[..i];
    }
    if HasRaised(calls) {
      var i :| 0 <= i < |calls| && IsFailure(calls[i]);
      assert IsFailure(calls'[i]);
    } else if IsFailure(r) {
      assert IsFailure(calls'[|calls|]);
    }
  }

  // ---- Every step of a worker keeps the invariant ----

  ghost predicate Ready(s: State, t: nat, c: Choice) {
    t in s.workers && s.workers[t].since <= c.seen <= c.stamp <= s.now && TablesOk(s) && WorkerOk(s, t, s.workers[t])
  }

  lemma EntryFrames(cfg: Config, s: State, t: nat, w: Worker, c: Choice)
    requires t in s.workers && s.work.Some?
    ensures Frame(s, AdvanceEntry(cfg, s, t, w, c), t)
  {
  }

  lemma PhaseFrames(cfg: Config, s: State, t: nat, w: Worker, c: Choice)
    requires t in s.workers && s.work.Some?
    ensures Frame(s, AdvancePhase(cfg, s, t, w, c), t)
  {
  }

  lemma ProbeFrames(cfg: Config, s: State, t: nat, w: Worker, c: Choice)
    requires t in s.workers && s.work.Some?
    ensures Frame(s, AdvanceProbe(cfg, s, t, w, c), t)
  {
  }

  lemma PutFrames(s: State, s1: State, t: nat, w: Worker, pc: Pc)
    requires t in s.workers && Frame(s, s1, t)
    ensures Frame(s, Put(s1, t, w, pc), t)
  {
  }

  lemma DropFrames(s: State, s1: State, t: nat)
    requires t in s.workers && Frame(s, s1, t)
    ensures Frame(s, Drop(s1, t), t)
  {
  }

  /** Every exit step puts the worker somewhere or drops it, after at most one of these. */
  lemma CommitFrames(s: State, t: nat, v: ShutdownState, at: int, e: Event)
    requires t in s.workers && s.work.Some?
    ensures Frame(s, s, t) && Frame(s, Stop(s, v, at), t) && Frame(s, Emit(s, e), t) && Frame(s, CompleteWork(s, t), t)
  {
  }

  lemma ExitFrames(s: State, t: nat, w: Worker, c: Choice)
    requires t in s.workers && s.work.Some?
    ensures Frame(s, AdvanceExit(s, t, w, c), t)
  {
    match w.pc
    case Decide =>
      CommitFrames(s, t, UNKNOWN, c.stamp, DeadlineExceeded);
      PutFrames(s, s, t, w.(view := s.run), TerminalCommit(Aggregate(Results(w.existing))));
    case TerminalCommit(v) =>
      CommitFrames(s, t, v, c.stamp, DeadlineExceeded);
      PutFrames(s, Stop(s, v, c.stamp), t, w, TerminalEvent(v));
    case TerminalEvent(v) =>
      CommitFrames(s, t, v, c.stamp, ShutdownCompleted(v));
      PutFrames(s, Emit(s, ShutdownCompleted(v)), t, w, Finish);
    case ExpireCommit =>
      CommitFrames(s, t, UNKNOWN, c.stamp, DeadlineExceeded);
      PutFrames(s, Stop(s, UNKNOWN, c.stamp), t, w, ExpireEvent);
    case ExpireEvent =>
      CommitFrames(s, t, UNKNOWN, c.stamp, DeadlineExceeded);
      PutFrames(s, Emit(s, DeadlineExceeded), t, w, Finish);
    case Finish =>
      CommitFrames(s, t, UNKNOWN, c.stamp, DeadlineExceeded);
      DropFrames(s, CompleteWork(s, t), t);
    case FailWork =>
      CommitFrames(s, t, UNKNOWN, c.stamp, DeadlineExceeded);
      PutFrames(s, CompleteWork(s, t), t, w, FailCommit);
    case FailCommit =>
      CommitFrames(s, t, FAILED, c.stamp, DeadlineExceeded);
      PutFrames(s, Stop(s, FAILED, c.stamp), t, w, FailEvent);
    case FailEvent =>
      CommitFrames(s, t, FAILED, c.stamp, ShutdownCompleted(FAILED));
      DropFrames(s, Emit(s, ShutdownCompleted(FAILED)), t);
    case _ =>
  }

  lemma AdvanceFrames(cfg: Config, s: State, t: nat, c: Choice)
    requires t in s.workers && s.work.Some?
    ensures Frame(s, Advance(cfg, s, t, c), t)
  {
    EntryFrames(cfg, s, t, s.workers[t], c);
    PhaseFrames(cfg, s, t, s.workers[t], c);
    ProbeFrames(cfg, s, t, s.workers[t], c);
    ExitFrames(s, t, s.workers[t], c);
  }

  /** A lease holder that moves on with the tables in order, and its new place justified, is fine. */
  lemma MoveKeeps(s: State, t: nat, w: Worker, pc: Pc)
    requires TablesOk(s) && t < s.nextId && s.work.Some? && IsHolding(pc)
    requires LeaseOk(s.work.value, t, w.(pc := pc))
    requires AtPc(s.run, Existing(s.probes), s.calls, w.(pc := pc, since := s.now))
    ensures ActorOk(Put(s, t, w, pc), t)
  {
  }

  /** The same, for a worker that records an event on its way. */
  lemma EmitKeeps(s: State, t: nat, w: Worker, e: Event, pc: Pc)
    requires TablesOk(s) && t < s.nextId && s.work.Some? && IsHolding(pc)
    requires LeaseOk(s.work.value, t, w.(pc := pc))
    requires AtPc(s.run, Existing(s.probes), s.calls, w.(pc := pc, since := s.now))
    ensures ActorOk(Put(Emit(s, e), t, w, pc), t)
  {
    MoveKeeps(Emit(s, e), t, w, pc);
  }

  // Entry.

  lemma ReadKeeps(cfg: Config, s: State, t: nat, c: Choice)
    requires Ready(s, t, c) && s.workers[t].pc.Load?
    ensures ActorOk(AdvanceEntry(cfg, s, t, s.workers[t], c), t)
  {
    var w := s.workers[t];
    MoveKeeps(s, t, Read(s, w), if w.recovering then ResumeEvent else DeadlineCheck);
  }

  lemma ResumeEventKeeps(cfg: Config, s: State, t: nat, c: Choice)
    requires Ready(s, t, c) && s.workers[t].pc.ResumeEvent?
    ensures ActorOk(AdvanceEntry(cfg, s, t, s.workers[t], c), t)
  {
    var w := s.workers[t];
    EmitKeeps(s, t, w, RecoveryResumed(w.view.state), DeadlineCheck);
  }

  lemma DeadlineCheckKeeps(cfg: Config, s: State, t: nat, c: Choice)
    requires Ready(s, t, c) && s.workers[t].pc.DeadlineCheck?
    ensures ActorOk(AdvanceEntry(cfg, s, t, s.workers[t], c), t)
  {
    var w := s.workers[t];
    EntryPointAtPc(s.run, Existing(s.probes), s.calls, w, s.now);
    MoveKeeps(s, t, w, if Expired(w.view, s.now) then ExpireCommit else EntryPoint(w.view.state));
  }

  lemma EntryPointAtPc(run: RunRow, rows: map<ProbeKind, ProbeResult>, calls: seq<CallRecord>, w: Worker, now: int)
    requires AtPc(run, rows, calls, w) && w.pc.DeadlineCheck? && CallsOk(run.state, calls)
    ensures var pc := if Expired(w.view, now) then ExpireCommit else EntryPoint(w.view.state);
            IsHolding(pc) && AtPc(run, rows, calls, w.(pc := pc, since := now))
  {
  }

  lemma EntryKeeps(cfg: Config, s: State, t: nat, c: Choice)
    requires Ready(s, t, c) && Acts(s.workers[t].pc) && IsEntry(s.workers[t].pc)
    ensures ActorOk(AdvanceEntry(cfg, s, t, s.workers[t], c), t)
  {
    if s.workers[t].pc.DeadlineCheck? {
      DeadlineCheckKeeps(cfg, s, t, c);
    } else if s.workers[t].pc.Load? {
      ReadKeeps(cfg, s, t, c);
    } else {
      ResumeEventKeeps(cfg, s, t, c);
    }
  }

  // Renewals and calls, of phases and of probes.

  lemma RenewKeeps(cfg: Config, s: State, t: nat, c: Choice, pc: Pc)
    requires Ready(s, t, c) && IsHolding(s.workers[t].pc) && IsHolding(pc) && !Tracks(pc)
    requires AtPc(s.run, Existing(s.probes), s.calls, s.workers[t].(pc := pc, since := s.now))
    ensures ActorOk(RenewLease(cfg, s, t, s.workers[t], c, pc), t)
  {
    var w, until := s.workers[t], c.stamp + cfg.lease;
    var s1 := s.(work := Some(s.work.value.(expires := Some(until))));
    LeaseIrrelevant(s.run, Existing(s.probes), s.calls, w.(pc := pc, since := s.now), until);
    RenewKeepsTables(s, t, until);
    assert RenewLease(cfg, s, t, w, c, pc) == Put(s1, t, w.(leaseUntil := until), pc);
    MoveKeeps(s1, t, w.(leaseUntil := until), pc);
  }

  lemma RenewKeepsTables(s: State, t: nat, until: int)
    requires TablesOk(s) && s.work.Some? && s.work.value.owner == Some(t)
    ensures TablesOk(s.(work := Some(s.work.value.(expires := Some(until)))))
  {
  }

  /** Whether the worker's place depends on when it was reached. */
  predicate Tracks(pc: Pc) { pc.Claim? || pc.ExpireCommit? }

  lemma LeaseIrrelevant(run: RunRow, rows: map<ProbeKind, ProbeResult>, calls: seq<CallRecord>, w: Worker, until: int)
    requires AtPc(run, rows, calls, w)
    ensures AtPc(run, rows, calls, w.(leaseUntil := until))
  {
  }

  lemma RecordKeepsTables(s: State, r: CallRecord)
    requires TablesOk(s) && (r.Called? ==> CallableAfter(s.calls, r.op))
    ensures TablesOk(Record(s, r))
  {
    CallsGrow(s.calls, r);
  }

  lemma RecordKeeps(s: State, t: nat, w: Worker, r: CallRecord, pc: Pc)
    requires TablesOk(s) && t < s.nextId && s.work.Some? && IsHolding(pc) && LeaseOk(s.work.value, t, w.(pc := pc))
    requires r.Called? ==> CallableAfter(s.calls, r.op)
    requires AtPc(s.run, Existing(s.probes), s.calls + [r], w.(pc := pc, since := s.now))
    ensures ActorOk(Put(Record(s, r), t, w, pc), t)
  {
    RecordKeepsTables(s, r);
    MoveKeeps(Record(s, r), t, w, pc);
  }

  /** A failed call or save leads to the exception handler. */
  lemma RaiseKeeps(s: State, t: nat, c: Choice, r: CallRecord)
    requires Ready(s, t, c) && IsHolding(s.workers[t].pc) && Open(s.run) && IsFailure(r)
    ensures ActorOk(Put(Record(s, r), t, s.workers[t], FailWork), t)
  {
    CallsGrow(s.calls, r);
    RecordKeeps(s, t, s.workers[t], r, FailWork);
  }

  // Phases.

  lemma InvokeKeeps(s: State, t: nat, c: Choice)
    requires Ready(s, t, c) && s.workers[t].pc.Invoke?
    ensures var w := s.workers[t]; ActorOk(Put(Record(s, Called(PhaseOp(w.pc.p))), t, w, Await(w.pc.p)), t)
  {
    var w := s.workers[t];
    RecordKeeps(s, t, w, Called(PhaseOp(w.pc.p)), Await(w.pc.p));
  }

  lemma ReturnedAtPc(run: RunRow, rows: map<ProbeKind, ProbeResult>, calls: seq<CallRecord>, w: Worker, now: int,
                     r: Reply)
    requires AtPc(run, rows, calls, w) && w.pc.Await? && r.Ok? && CallsOk(run.state, calls)
    ensures AtPc(run, rows, calls + [Returned(PhaseOp(w.pc.p))], w.(pc := AfterCall(w.pc.p, r), since := now))
  {
    CallsGrow(calls, Returned(PhaseOp(w.pc.p)));
    assert (calls + [Returned(PhaseOp(w.pc.p))])[|calls|] == Returned(PhaseOp(w.pc.p));
  }

  lemma AwaitKeeps(s: State, t: nat, c: Choice)
    requires Ready(s, t, c) && s.workers[t].pc.Await? && c.reply.Ok?
    ensures var w := s.workers[t];
            ActorOk(Put(Record(s, Returned(PhaseOp(w.pc.p))), t, w, AfterCall(w.pc.p, c.reply)), t)
  {
    var w := s.workers[t];
    ReturnedAtPc(s.run, Existing(s.probes), s.calls, w, s.now, c.reply);
    RecordKeeps(s, t, w, Returned(PhaseOp(w.pc.p)), AfterCall(w.pc.p, c.reply));
  }

  lemma SaveJobsKeeps(s: State, t: nat, c: Choice)
    requires Ready(s, t, c) && s.workers[t].pc.SaveJobs? && I.Savable(s.workers[t].pc.children)
    ensures ActorOk(Put(s.(jobs := I.Saved(s.jobs, s.workers[t].pc.children)), t, s.workers[t], Commit(2)), t)
  {
    MoveKeeps(s.(jobs := I.Saved(s.jobs, s.workers[t].pc.children)), t, s.workers[t], Commit(2));
  }

  lemma PhaseKeepsTables(s: State, p: nat)
    requires TablesOk(s) && p <= 3 && s.run.state == Phase(p) && ReturnedBefore(s.calls, p + 1)
    ensures TablesOk(SetState(s, Phase(p + 1)))
  {
  }

  lemma CommitKeeps(s: State, t: nat, c: Choice)
    requires Ready(s, t, c) && s.workers[t].pc.Commit?
    ensures var w := s.workers[t]; ActorOk(Put(SetState(s, Phase(w.pc.p + 1)), t, w, PhaseEvent(w.pc.p)), t)
  {
    var w := s.workers[t];
    PhaseKeepsTables(s, w.pc.p);
    MoveKeeps(SetState(s, Phase(w.pc.p + 1)), t, w, PhaseEvent(w.pc.p));
  }

  lemma PhaseEventAtPc(run: RunRow, rows: map<ProbeKind, ProbeResult>, calls: seq<CallRecord>, w: Worker, now: int)
    requires AtPc(run, rows, calls, w) && w.pc.PhaseEvent?
    ensures AtPc(run, rows, calls, w.(pc := Reload(w.pc.p + 1), since := now))
  {
  }

  lemma PhaseEventKeeps(s: State, t: nat, c: Choice)
    requires Ready(s, t, c) && s.workers[t].pc.PhaseEvent?
    ensures var w := s.workers[t]; ActorOk(Put(Emit(s, PhaseReached(Phase(w.pc.p + 1))), t, w, Reload(w.pc.p + 1)), t)
  {
    var w := s.workers[t];
    PhaseEventAtPc(s.run, Existing(s.probes), s.calls, w, s.now);
    EmitKeeps(s, t, w, PhaseReached(Phase(w.pc.p + 1)), Reload(w.pc.p + 1));
  }

  lemma ReloadKeeps(s: State, t: nat, c: Choice)
    requires Ready(s, t, c) && s.workers[t].pc.Reload?
    ensures var w := s.workers[t]; ActorOk(Put(s, t, Read(s, w), PhaseEntry(w.pc.p)), t)
  {
    var w := s.workers[t];
    ReloadAtPc(s.run, Existing(s.probes), s.calls, w, s.now);
    MoveKeeps(s, t, Read(s, w), PhaseEntry(w.pc.p));
  }

  lemma ReloadAtPc(run: RunRow, rows: map<ProbeKind, ProbeResult>, calls: seq<CallRecord>, w: Worker, now: int)
    requires AtPc(run, rows, calls, w) && w.pc.Reload? && CallsOk(run.state, calls)
    ensures IsHolding(PhaseEntry(w.pc.p))
    ensures AtPc(run, rows, calls, w.(view := run, existing := rows, pc := PhaseEntry(w.pc.p), since := now))
  {
  }

  lemma PhaseCallKeeps(cfg: Config, s: State, t: nat, c: Choice)
    requires Ready(s, t, c) && IsPhaseCall(s.workers[t].pc)
    ensures ActorOk(AdvancePhase(cfg, s, t, s.workers[t], c), t)
  {
    match s.workers[t].pc
    case Renew(p) => RenewKeeps(cfg, s, t, c, Invoke(p));
    case Invoke(_) => InvokeKeeps(s, t, c);
    case Await(p) =>
      if c.reply.Raise? {
        RaiseKeeps(s, t, c, Raised(PhaseOp(p)));
      } else {
        AwaitKeeps(s, t, c);
      }
  }

  predicate IsPhaseCall(pc: Pc) { pc.Renew? || pc.Invoke? || pc.Await? }

  lemma PhaseCommitKeeps(cfg: Config, s: State, t: nat, c: Choice)
    requires Ready(s, t, c) && IsPhase(s.workers[t].pc) && !IsPhaseCall(s.workers[t].pc) && !s.workers[t].pc.SaveJobs?
    ensures ActorOk(AdvancePhase(cfg, s, t, s.workers[t], c), t)
  {
    match s.workers[t].pc
    case Commit(_) => CommitKeeps(s, t, c);
    case PhaseEvent(_) => PhaseEventKeeps(s, t, c);
    case Reload(_) => ReloadKeeps(s, t, c);
  }

  lemma SaveKeeps(cfg: Config, s: State, t: nat, c: Choice)
    requires Ready(s, t, c) && s.workers[t].pc.SaveJobs?
    ensures ActorOk(AdvancePhase(cfg, s, t, s.workers[t], c), t)
  {
    var w := s.workers[t];
    if I.Savable(w.pc.children) {
      SaveJobsKeeps(s, t, c);
    } else {
      RaiseKeeps(s, t, c, SaveRaised(w.pc.world, w.pc.children));
    }
  }

  lemma PhaseKeeps(cfg: Config, s: State, t: nat, c: Choice)
    requires Ready(s, t, c) && IsPhase(s.workers[t].pc)
    ensures ActorOk(AdvancePhase(cfg, s, t, s.workers[t], c), t)
  {
    if IsPhaseCall(s.workers[t].pc) {
      PhaseCallKeeps(cfg, s, t, c);
    } else if s.workers[t].pc.SaveJobs? {
      SaveKeeps(cfg, s, t, c);
    } else {
      PhaseCommitKeeps(cfg, s, t, c);
    }
  }

  // Probes.

  lemma NextAtPc(run: RunRow, rows: map<ProbeKind, ProbeResult>, calls: seq<CallRecord>, w: Worker, now: int)
    requires AtPc(run, rows, calls, w) && w.pc.ProbeNext? && run.requestedAt.Some?
    ensures AtPc(run, rows, calls, w.(pc := NextProbe(w, now), since := now))
  {
  }

  function NextProbe(w: Worker, now: int): (pc: Pc)
    requires w.pc.ProbeNext?
    ensures IsHolding(pc)
  {
    if w.pc.i >= |PROBE_KINDS| then Decide
    else if PROBE_KINDS[w.pc.i] in w.existing then ProbeNext(w.pc.i + 1)
    else if Expired(w.view, now) then ExpireCommit
    else ProbeRenew(w.pc.i)
  }

  lemma ProbeNextKeeps(s: State, t: nat, c: Choice)
    requires Ready(s, t, c) && s.workers[t].pc.ProbeNext?
    ensures ActorOk(Put(s, t, s.workers[t], NextProbe(s.workers[t], s.now)), t)
  {
    NextAtPc(s.run, Existing(s.probes), s.calls, s.workers[t], s.now);
    MoveKeeps(s, t, s.workers[t], NextProbe(s.workers[t], s.now));
  }

  lemma ProbeInvokeKeeps(s: State, t: nat, c: Choice)
    requires Ready(s, t, c) && s.workers[t].pc.ProbeInvoke?
    ensures var w := s.workers[t];
            w.pc.i < |PROBE_KINDS|
                && ActorOk(Put(Record(s, Called(Probe(PROBE_KINDS[w.pc.i]))), t, w, ProbeAwait(w.pc.i)), t)
  {
    var w := s.workers[t];
    RecordKeeps(s, t, w, Called(Probe(PROBE_KINDS[w.pc.i])), ProbeAwait(w.pc.i));
  }

  lemma AnsweredAtPc(run: RunRow, rows: map<ProbeKind, ProbeResult>, calls: seq<CallRecord>, w: Worker, now: int,
                     row: ProbeRow)
    requires AtPc(run, rows, calls, w) && w.pc.ProbeAwait? && row.kind == PROBE_KINDS[w.pc.i]
    ensures var w' := w.(existing := w.existing[row.kind := row.result], pc := ProbeSave(w.pc.i, row), since := now);
            AtPc(run, rows, calls + [Returned(Probe(row.kind))], w')
  {
  }

  lemma ProbeAwaitKeeps(s: State, t: nat, c: Choice, row: ProbeRow)
    requires Ready(s, t, c) && s.workers[t].pc.ProbeAwait? && row.kind == PROBE_KINDS[s.workers[t].pc.i]
    ensures var w := s.workers[t];
            var w' := w.(existing := w.existing[row.kind := row.result]);
            ActorOk(Put(Record(s, Returned(Probe(row.kind))), t, w', ProbeSave(w.pc.i, row)), t)
  {
    var w := s.workers[t];
    AnsweredAtPc(s.run, Existing(s.probes), s.calls, w, s.now, row);
    RecordKeeps(s, t, w.(existing := w.existing[row.kind := row.result]), Returned(Probe(row.kind)),
                ProbeSave(w.pc.i, row));
  }

  lemma NewRowKeepsTables(s: State, row: ProbeRow)
    requires TablesOk(s) && s.run.state == PROBING && row.kind != Restart && row.kind !in Existing(s.probes)
    ensures TablesOk(s.(probes := s.probes + [row]))
  {
    ExistingHolds(s.probes, row.kind);
  }

  lemma SavedAtPc(run: RunRow, rows: map<ProbeKind, ProbeResult>, calls: seq<CallRecord>, w: Worker, now: int)
    requires AtPc(run, rows, calls, w) && w.pc.ProbeSave?
    ensures AtPc(run, rows[w.pc.row.kind := w.pc.row.result], calls,
                 w.(pc := ProbeEvent(w.pc.i, w.pc.row), since := now))
  {
  }

  lemma ProbeSaveKeeps(s: State, t: nat, c: Choice)
    requires Ready(s, t, c) && s.workers[t].pc.ProbeSave?
    ensures var w := s.workers[t];
            ActorOk(Put(s.(probes := s.probes + [w.pc.row]), t, w, ProbeEvent(w.pc.i, w.pc.row)), t)
  {
    var w := s.workers[t];
    var row := w.pc.row;
    NewRowKeepsTables(s, row);
    ExistingGrows(s.probes, row);
    SavedAtPc(s.run, Existing(s.probes), s.calls, w, s.now);
    MoveKeeps(s.(probes := s.probes + [row]), t, w, ProbeEvent(w.pc.i, row));
  }

  lemma ProbeEventAtPc(run: RunRow, rows: map<ProbeKind, ProbeResult>, calls: seq<CallRecord>, w: Worker, now: int)
    requires AtPc(run, rows, calls, w) && w.pc.ProbeEvent?
    ensures AtPc(run, rows, calls, w.(pc := ProbeNext(w.pc.i + 1), since := now))
  {
  }

  lemma ProbeEventKeeps(s: State, t: nat, c: Choice)
    requires Ready(s, t, c) && s.workers[t].pc.ProbeEvent?
    ensures var w := s.workers[t];
            ActorOk(Put(Emit(s, ProbeResultSaved(w.pc.row.kind, w.pc.row.result)), t, w, ProbeNext(w.pc.i + 1)), t)
  {
    var w := s.workers[t];
    ProbeEventAtPc(s.run, Existing(s.probes), s.calls, w, s.now);
    EmitKeeps(s, t, w, ProbeResultSaved(w.pc.row.kind, w.pc.row.result), ProbeNext(w.pc.i + 1));
  }

  lemma ProbeAskKeeps(cfg: Config, s: State, t: nat, c: Choice)
    requires Ready(s, t, c) && (s.workers[t].pc.ProbeRenew? || s.workers[t].pc.ProbeInvoke?)
    ensures ActorOk(AdvanceProbe(cfg, s, t, s.workers[t], c), t)
  {
    if s.workers[t].pc.ProbeRenew? {
      RenewKeeps(cfg, s, t, c, ProbeInvoke(s.workers[t].pc.i));
    } else {
      ProbeInvokeKeeps(s, t, c);
    }
  }

  lemma ProbeAnswerKeeps(cfg: Config, s: State, t: nat, c: Choice)
    requires Ready(s, t, c) && s.workers[t].pc.ProbeAwait?
    ensures ActorOk(AdvanceProbe(cfg, s, t, s.workers[t], c), t)
  {
    var kind := PROBE_KINDS[s.workers[t].pc.i];
    if c.reply.Raise? {
      RaiseKeeps(s, t, c, Raised(Probe(kind)));
    } else {
      ProbeAwaitKeeps(s, t, c, ProbeRow(kind, c.reply.result, c.reply.world));
    }
  }

  lemma ProbeHeadKeeps(cfg: Config, s: State, t: nat, c: Choice)
    requires Ready(s, t, c) && s.workers[t].pc.ProbeNext?
    ensures ActorOk(AdvanceProbe(cfg, s, t, s.workers[t], c), t)
  {
    ProbeNextKeeps(s, t, c);
  }

  lemma ProbeRowKeeps(cfg: Config, s: State, t: nat, c: Choice)
    requires Ready(s, t, c) && s.workers[t].pc.ProbeSave?
    ensures ActorOk(AdvanceProbe(cfg, s, t, s.workers[t], c), t)
  {
    ProbeSaveKeeps(s, t, c);
  }

  lemma ProbeRecordKeeps(cfg: Config, s: State, t: nat, c: Choice)
    requires Ready(s, t, c) && s.workers[t].pc.ProbeEvent?
    ensures ActorOk(AdvanceProbe(cfg, s, t, s.workers[t], c), t)
  {
    ProbeEventKeeps(s, t, c);
  }

  lemma ProbeKeeps(cfg: Config, s: State, t: nat, c: Choice)
    requires Ready(s, t, c) && IsProbe(s.workers[t].pc)
    ensures ActorOk(AdvanceProbe(cfg, s, t, s.workers[t], c), t)
  {
    var pc := s.workers[t].pc;
    if pc.ProbeNext? {
      ProbeHeadKeeps(cfg, s, t, c);
    } else if pc.ProbeAwait? {
      ProbeAnswerKeeps(cfg, s, t, c);
    } else if pc.ProbeSave? {
      ProbeRowKeeps(cfg, s, t, c);
    } else if pc.ProbeEvent? {
      ProbeRecordKeeps(cfg, s, t, c);
    } else {
      ProbeAskKeeps(cfg, s, t, c);
    }
  }

  // Verdicts and the way out.

  lemma DecideAtPc(run: RunRow, rows: map<ProbeKind, ProbeResult>, calls: seq<CallRecord>, w: Worker, now: int)
    requires AtPc(run, rows, calls, w) && w.pc.Decide?
    ensures AtPc(run, rows, calls, w.(view := run, pc := TerminalCommit(Aggregate(Results(w.existing))), since := now))
  {
  }

  lemma DecideKeeps(s: State, t: nat, c: Choice)
    requires Ready(s, t, c) && s.workers[t].pc.Decide?
    ensures var w := s.workers[t];
            ActorOk(Put(s, t, w.(view := s.run), TerminalCommit(Aggregate(Results(w.existing)))), t)
  {
    var w := s.workers[t];
    DecideAtPc(s.run, Existing(s.probes), s.calls, w, s.now);
    MoveKeeps(s, t, w.(view := s.run), TerminalCommit(Aggregate(Results(w.existing))));
  }

  /** A verdict with a cause leaves the tables in order. */
  lemma StopKeepsTables(s: State, verdict: ShutdownState, stamp: int)
    requires TablesOk(s) && Open(s.run) && IsTerminal(verdict)
    requires || (AllProbed(Existing(s.probes)) && verdict == Aggregate(Results(Existing(s.probes))))
             || (verdict == UNKNOWN && Expired(s.run, stamp))
             || (verdict == FAILED && HasRaised(s.calls))
    ensures TablesOk(Stop(s, verdict, stamp))
  {
  }

  lemma VerdictKeeps(s: State, t: nat, c: Choice)
    requires Ready(s, t, c) && s.workers[t].pc.TerminalCommit?
    ensures var w := s.workers[t]; ActorOk(Put(Stop(s, w.pc.verdict, c.stamp), t, w, TerminalEvent(w.pc.verdict)), t)
  {
    var w := s.workers[t];
    VerifiedIsEarned(Results(Existing(s.probes)));
    StopKeepsTables(s, w.pc.verdict, c.stamp);
    MoveKeeps(Stop(s, w.pc.verdict, c.stamp), t, w, TerminalEvent(w.pc.verdict));
  }

  lemma ExpiryIsDue(run: RunRow, rows: map<ProbeKind, ProbeResult>, calls: seq<CallRecord>, w: Worker, stamp: int)
    requires AtPc(run, rows, calls, w) && w.pc.ExpireCommit? && w.since <= stamp
    ensures Open(run) && Expired(run, stamp)
  {
  }

  lemma ExpiryKeeps(s: State, t: nat, c: Choice)
    requires Ready(s, t, c) && s.workers[t].pc.ExpireCommit?
    ensures ActorOk(Put(Stop(s, UNKNOWN, c.stamp), t, s.workers[t], ExpireEvent), t)
  {
    ExpiryIsDue(s.run, Existing(s.probes), s.calls, s.workers[t], c.stamp);
    StopKeepsTables(s, UNKNOWN, c.stamp);
    MoveKeeps(Stop(s, UNKNOWN, c.stamp), t, s.workers[t], ExpireEvent);
  }

  lemma FinishedKeeps(s: State, t: nat, w: Worker, e: Event)
    requires TablesOk(s) && t < s.nextId && s.work.Some? && IsHolding(w.pc) && LeaseOk(s.work.value, t, w)
    requires IsTerminal(s.run.state)
    ensures ActorOk(Put(Emit(s, e), t, w, Finish), t)
  {
    EmitKeeps(s, t, w, e, Finish);
  }

  /** Releasing the work keeps the tables in order. */
  lemma ReleaseKeepsTables(s: State, t: nat)
    requires TablesOk(s)
    ensures TablesOk(CompleteWork(s, t))
  {
  }

  lemma FinishKeeps(s: State, t: nat, c: Choice)
    requires Ready(s, t, c) && s.workers[t].pc.Finish?
    ensures ActorOk(Drop(CompleteWork(s, t), t), t)
  {
    ReleaseKeepsTables(s, t);
  }

  /** A worker in its handler, with the work released. */
  lemma HandlerKeeps(s: State, t: nat, w: Worker)
    requires TablesOk(s) && t < s.nextId && s.run.requestedAt.Some? && s.run.deadlineAt.Some?
    requires s.work.Some? && s.work.value.status == COMPLETE && Open(s.run) && HasRaised(s.calls)
    ensures ActorOk(Put(s, t, w, FailCommit), t)
  {
  }

  lemma FailWorkKeeps(s: State, t: nat, c: Choice)
    requires Ready(s, t, c) && s.workers[t].pc.FailWork?
    ensures ActorOk(Put(CompleteWork(s, t), t, s.workers[t], FailCommit), t)
  {
    ReleaseKeepsTables(s, t);
    HandlerKeeps(CompleteWork(s, t), t, s.workers[t]);
  }

  lemma FailCommitKeeps(s: State, t: nat, c: Choice)
    requires Ready(s, t, c) && s.workers[t].pc.FailCommit?
    ensures ActorOk(Put(Stop(s, FAILED, c.stamp), t, s.workers[t], FailEvent), t)
  {
    StopKeepsTables(s, FAILED, c.stamp);
  }

  lemma FailEventKeeps(s: State, t: nat, c: Choice)
    requires Ready(s, t, c) && s.workers[t].pc.FailEvent?
    ensures ActorOk(Drop(Emit(s, ShutdownCompleted(FAILED)), t), t)
  {
  }

  predicate IsExit(pc: Pc) { !IsEntry(pc) && !IsPhase(pc) && !IsProbe(pc) }

  lemma ExitKeeps(s: State, t: nat, c: Choice)
    requires Ready(s, t, c) && IsExit(s.workers[t].pc)
    ensures ActorOk(AdvanceExit(s, t, s.workers[t], c), t)
  {
    match s.workers[t].pc
    case Decide => DecideKeeps(s, t, c);
    case TerminalCommit(_) => VerdictKeeps(s, t, c);
    case TerminalEvent(v) => FinishedKeeps(s, t, s.workers[t], ShutdownCompleted(v));
    case ExpireCommit => ExpiryKeeps(s, t, c);
    case ExpireEvent => FinishedKeeps(s, t, s.workers[t], DeadlineExceeded);
    case Finish => FinishKeeps(s, t, c);
    case FailWork => FailWorkKeeps(s, t, c);
    case FailCommit => FailCommitKeeps(s, t, c);
    case FailEvent => FailEventKeeps(s, t, c);
  }

  /** A claim succeeds only on a run without a verdict that nobody else acts on. */
  lemma ClaimFindsRunFree(cfg: Config, s: State, t: nat, seen: int)
    requires Inv(s) && InTime(s) && t in s.workers && s.workers[t].pc.Claim? && seen <= s.now
    requires Claimable(Inserted(s.work), seen)
    ensures Open(s.run)
    ensures forall u :: u in s.workers ==> !Acts(s.workers[u].pc)
  {
    assert WorkerOk(s, t, s.workers[t]);
    forall u | u in s.workers ensures !Acts(s.workers[u].pc) {
      assert WorkerOk(s, u, s.workers[u]);
    }
  }

  /** A step of a pending worker other than a successful claim touches no table the others read. */
  lemma PendingStep(s: State, s': State, t: nat)
    requires Inv(s) && t in s.workers && IsPending(s.workers[t].pc) && Frame(s, s', t)
    requires s'.run == s.run && s'.work == s.work && s'.probes == s.probes && s'.calls == s.calls
    requires forall u :: u in s.workers && u != t ==> u in s'.workers
    requires t in s'.workers ==> IsPending(s'.workers[t].pc) && s'.workers[t].since <= s.now
                                 && AtPc(s.run, Existing(s.probes), s.calls, s'.workers[t])
    ensures Inv(s')
  {
    if SomeoneHolds(s.workers) {
      var h :| h in s.workers && IsHolding(s.workers[h].pc);
      assert h in s'.workers && IsHolding(s'.workers[h].pc);
    }
    forall u | u in s'.workers ensures WorkerOk(s', u, s'.workers[u]) {
      assert u in s.workers && WorkerOk(s, u, s.workers[u]);
      SameTablesWorker(s, s', u);
    }
  }

  /** A worker that did not move, or is still pending, is as well off with the same tables. */
  lemma SameTablesWorker(s: State, s': State, u: nat)
    requires u in s.workers && WorkerOk(s, u, s.workers[u]) && u in s'.workers && s'.now == s.now
             && s'.nextId == s.nextId
    requires s'.run == s.run && s'.work == s.work && s'.probes == s.probes && s'.calls == s.calls
    requires SomeoneHolds(s.workers) ==> SomeoneHolds(s'.workers)
    requires || s'.workers[u] == s.workers[u]
             || (IsPending(s.workers[u].pc) && IsPending(s'.workers[u].pc) && s'.workers[u].since <= s.now
                 && AtPc(s.run, Existing(s.probes), s.calls, s'.workers[u]))
    ensures WorkerOk(s', u, s'.workers[u])
  {
  }

  lemma ClaimKeeps(cfg: Config, s: State, t: nat, c: Choice)
    requires Inv(s) && Enabled(s, Work(t, c)) && InTime(s)
    requires s.workers[t].pc.Claim? && Claimable(Inserted(s.work), c.seen)
    ensures Inv(ClaimWork(cfg, s, t, s.workers[t], s.workers[t].pc.mode, c))
  {
    var s' := ClaimWork(cfg, s, t, s.workers[t], s.workers[t].pc.mode, c);
    assert WorkerOk(s, t, s.workers[t]);
    ClaimFindsRunFree(cfg, s, t, c.seen);
    ClaimKeepsOwn(cfg, s, t, c);
    forall u | u in s'.workers ensures WorkerOk(s', u, s'.workers[u]) {
      if u != t {
        assert u in s.workers && WorkerOk(s, u, s.workers[u]);
        ClaimKeepsPeer(cfg, s, t, c, u);
      }
    }
  }

  /** The claim leaves the tables in order and the new owner at a justified place. */
  lemma ClaimKeepsOwn(cfg: Config, s: State, t: nat, c: Choice)
    requires TablesOk(s) && t in s.workers && WorkerOk(s, t, s.workers[t]) && Open(s.run)
    requires s.workers[t].since <= c.seen <= c.stamp <= s.now
    requires s.workers[t].pc.Claim? && Claimable(Inserted(s.work), c.seen)
    ensures var s' := ClaimWork(cfg, s, t, s.workers[t], s.workers[t].pc.mode, c);
            TablesOk(s') && t in s'.workers && WorkerOk(s', t, s'.workers[t])
  {
  }

  lemma ClaimKeepsPeer(cfg: Config, s: State, t: nat, c: Choice, u: nat)
    requires t in s.workers && s.workers[t].pc.Claim? && Claimable(Inserted(s.work), c.seen) && Open(s.run) && u != t
    requires u in s.workers && WorkerOk(s, u, s.workers[u]) && IsPending(s.workers[u].pc)
    ensures var s' := ClaimWork(cfg, s, t, s.workers[t], s.workers[t].pc.mode, c);
            u in s'.workers && WorkerOk(s', u, s'.workers[u])
  {
  }

  lemma PendingKeeps(cfg: Config, s: State, t: nat, c: Choice)
    requires Inv(s) && Enabled(s, Work(t, c)) && InTime(s) && IsPending(s.workers[t].pc)
    ensures Inv(Advance(cfg, s, t, c))
  {
    assert WorkerOk(s, t, s.workers[t]);
    if s.workers[t].pc.Claim? && Claimable(Inserted(s.work), c.seen) {
      ClaimKeeps(cfg, s, t, c);
      assert Advance(cfg, s, t, c) == ClaimWork(cfg, s, t, s.workers[t], s.workers[t].pc.mode, c);
    } else {
      AdvanceFrames(cfg, s, t, c);
      PendingStep(s, Advance(cfg, s, t, c), t);
    }
  }

  lemma ActingKeeps(cfg: Config, s: State, t: nat, c: Choice)
    requires Ready(s, t, c) && Acts(s.workers[t].pc)
    ensures ActorOk(Advance(cfg, s, t, c), t)
  {
    var pc := s.workers[t].pc;
    if IsEntry(pc) {
      EntryKeeps(cfg, s, t, c);
    } else if IsPhase(pc) {
      PhaseKeeps(cfg, s, t, c);
    } else if IsProbe(pc) {
      ProbeKeeps(cfg, s, t, c);
    } else {
      ExitKeeps(s, t, c);
    }
  }

  lemma WorkKeeps(cfg: Config, s: State, t: nat, c: Choice)
    requires Inv(s) && Enabled(s, Work(t, c)) && InTime(s)
    ensures Inv(Advance(cfg, s, t, c))
  {
    if IsPending(s.workers[t].pc) {
      PendingKeeps(cfg, s, t, c);
    } else {
      assert WorkerOk(s, t, s.workers[t]);
      AdvanceFrames(cfg, s, t, c);
      ActingKeeps(cfg, s, t, c);
      ActorStep(s, Advance(cfg, s, t, c), t);
    }
  }

  // ---- The other steps ----

  lemma SpawnKeeps(s: State, s': State, w: Worker)
    requires Inv(s) && s.work.Some? && s.run.requestedAt.Some? && !Terminal(s)
    requires IsPending(w.pc) && w.since == s.now && (w.pc.Check? ==> w.view == s.run)
    requires w.pc.Claim? ==> w.pc.mode != ExpireNow
    requires s' == s.(nextId := s.nextId + 1, workers := s.workers[s.nextId := w])
    ensures Inv(s')
  {
    forall u | u in s'.workers ensures WorkerOk(s', u, s'.workers[u]) {
      if u in s.workers {
        assert WorkerOk(s, u, s.workers[u]);
      }
    }
  }

  /** Before the accepted request there is no worker, so it starts the only one. */
  lemma RequestKeeps(cfg: Config, s: State, key: string, viaDrill: bool, asked: int)
    requires Inv(s) && AnswerRequest(cfg, s, key, asked).Accepted?
    ensures Inv(ApplyRequest(cfg, s, key, viaDrill, asked))
  {
    var s' := ApplyRequest(cfg, s, key, viaDrill, asked);
    if u :| u in s.workers {
      assert false;
    }
  }

  lemma RestartKeeps(s: State, row: ProbeRow)
    requires Inv(s) && Terminal(s) && row.kind == Restart
    ensures Inv(s.(probes := s.probes + [row]))
  {
    var s' := s.(probes := s.probes + [row]);
    ExistingGrows(s.probes, row);
    assert Results(Existing(s'.probes)) == Results(Existing(s.probes));
    forall u | u in s'.workers ensures WorkerOk(s', u, s'.workers[u]) {
      assert WorkerOk(s, u, s.workers[u]);
      FinishedAtPc(s.run, Existing(s.probes), s.calls, s.workers[u], Existing(s'.probes));
    }
  }

  /** Once the run is finished no worker's place depends on the probe rows. */
  lemma FinishedAtPc(run: RunRow, rows: map<ProbeKind, ProbeResult>, calls: seq<CallRecord>, w: Worker,
                     rows': map<ProbeKind, ProbeResult>)
    requires AtPc(run, rows, calls, w) && IsTerminal(run.state)
    ensures AtPc(run, rows', calls, w)
  {
  }

  lemma StepKeepsInv(cfg: Config, s: State, step: Step)
    requires Inv(s) && InTime(s) && Enabled(s, step)
    ensures Inv(Apply(cfg, s, step))
  {
    var s' := Apply(cfg, s, step);
    match step
    case Request(key, viaDrill, asked) =>
      if AnswerRequest(cfg, s, key, asked).Accepted? {
        RequestKeeps(cfg, s, key, viaDrill, asked);
      }
    case Recover =>
      if s.run.requestedAt.Some? && !Terminal(s) {
        SpawnKeeps(s, s', s'.workers[s.nextId]);
      }
    case Work(t, c) => WorkKeeps(cfg, s, t, c);
    case RestartProbe(row) => RestartKeeps(s, row);
    case Tick(to) =>
      forall u | u in s'.workers ensures WorkerOk(s', u, s'.workers[u]) {
        assert WorkerOk(s, u, s.workers[u]);
        assert SomeoneHolds(s.workers) ==> SomeoneHolds(s'.workers);
      }
    case Crash =>
  }
}
