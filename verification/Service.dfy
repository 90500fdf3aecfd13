/** `ControlPlane._orchestrate` and its helpers as an object that updates its rows in place,
    proved to be a path of the orchestrator machine that ends with a verdict. */
module Service {
  import opened Domain
  import I = Integrations
  import opened Orchestrator

  /** Consecutive states of the machine. */
  ghost predicate IsPath(cfg: Config, states: seq<State>, steps: seq<Step>) {
    && |states| == |steps| + 1
    && forall i :: 0 <= i < |steps| ==>
                     Enabled(states[i], steps[i]) && states[i + 1] == Apply(cfg, states[i], steps[i])
  }

  /** Some schedule of the machine leads from `a` to `b`. */
  ghost predicate Reaches(cfg: Config, a: State, b: State) {
    exists states, steps :: IsPath(cfg, states, steps) && states[0] == a && states[|steps|] == b
  }

  lemma ReachesItself(cfg: Config, a: State)
    ensures Reaches(cfg, a, a)
  {
    assert IsPath(cfg, [a], []);
  }

  lemma ReachesMore(cfg: Config, a: State, b: State, step: Step)
    requires Reaches(cfg, a, b) && Enabled(b, step)
    ensures Reaches(cfg, a, Apply(cfg, b, step))
  {
    var states, steps :| IsPath(cfg, states, steps) && states[0] == a && states[|steps|] == b;
    assert IsPath(cfg, states + [Apply(cfg, b, step)], steps + [step]);
  }

  /** Every adapter can answer every call, if only by raising. */
  lemma SomeReply(a: Adapter, op: Op) returns (r: Reply)
    ensures CanReply(a, op, r)
  {
    var w := I.World(I.Unavailable, I.Unavailable, I.Unavailable, I.Unavailable,
                     I.Down, I.Down, I.Down, I.Down, I.Down, I.Down);
    match a
    case SafeUnknown => r := Ok(Unknown, w, []);
    case Synthetic(o) => r := Ok(if op.Probe? then Outcome(o, op.kind) else Unknown, w, []);
    case Kubernetes(c) =>
      if c.namespaceAllowed && op.Probe? {
        r := Ok(I.KubernetesProbe(c, w, op.kind), w, []);
      } else {
        r := Raise;
      }
    case Custom => r := Raise;
  }

  /** The state in which one link of the chain of phases leaves the run, and the whole chain. */
  function LinkEnd(p: nat, state: ShutdownState): ShutdownState { if state == Phase(p) then Phase(p + 1) else state }

  function ChainEnd(state: ShutdownState): (end: ShutdownState)
    ensures end == if state == RUNNING || IsTerminal(state) then state else PROBING
  {
    LinkEnd(3, LinkEnd(2, LinkEnd(1, LinkEnd(0, state))))
  }

  /** A run with a verdict passes every link untouched. */
  lemma VerdictSkipsLinks(state: ShutdownState)
    requires IsTerminal(state)
    ensures forall p: nat :: p <= 3 ==> state != Phase(p) && LinkEnd(p, state) == state
  {
  }

  /** A step that makes no adapter call and reads the clock at `now`. */
  function Quietly(t: nat, now: int): Step { Work(t, Choice(now, now, Raise)) }

  /** What a renewal changes: the expiry in the row if the lease is still the worker's, and where
      the worker is. */
  lemma RenewalIs(cfg: Config, s: State, t: nat, stamp: int)
    requires Enabled(s, Quietly(t, stamp)) && (s.workers[t].pc.Renew? || s.workers[t].pc.ProbeRenew?)
    ensures var w, s' := s.workers[t], Apply(cfg, s, Quietly(t, stamp));
            && s' == s.(work := s'.work, workers := s'.workers)
            && s'.work == (if Owns(s, t) then Some(s.work.value.(expires := Some(stamp + cfg.lease))) else s.work)
            && t in s'.workers
            && s'.workers[t] == w.(pc := if w.pc.Renew? then Invoke(w.pc.p) else ProbeInvoke(w.pc.i),
                                   since := s.now, leaseUntil := s'.workers[t].leaseUntil)
  {
  }

  /** The event that a worker has to emit next ... */
  function EventOf(w: Worker): Option<Event> {
    match w.pc
    case ResumeEvent => Some(RecoveryResumed(w.view.state))
    case PhaseEvent(p) => Some(PhaseReached(Phase(p + 1)))
    case ProbeEvent(_, row) => Some(ProbeResultSaved(row.kind, row.result))
    case TerminalEvent(v) => Some(ShutdownCompleted(v))
    case ExpireEvent => Some(DeadlineExceeded)
    case FailEvent => Some(ShutdownCompleted(FAILED))
    case _ => None
  }

  /** ... and where it goes from there. */
  function AfterEvent(pc: Pc): Pc {
    match pc
    case ResumeEvent => DeadlineCheck
    case PhaseEvent(p) => Reload(p + 1)
    case ProbeEvent(i, _) => ProbeNext(i + 1)
    case _ => Finish
  }

  class ControlPlane {
    const cfg: Config
    const tenant: string
    var now: int
    var run: RunRow
    var work: Option<WorkRow>
    var probes: seq<ProbeRow>
    var jobs: I.JobTable
    var events: seq<Event>
    var nextId: nat

    /** The machine's state now, and when the object was made. */
    ghost var m: State
    ghost const start: State

    ghost predicate Synced()
      reads this
    {
      m.now == now && m.run == run && m.work == work && m.probes == probes && m.jobs == jobs
      && m.events == events && m.nextId == nextId
    }

    ghost predicate Valid()
      reads this
    {
      Synced() && Reaches(cfg, start, m)
    }

    /** Worker `t` is at `pc`, with what it read last and its adapter. */
    ghost predicate At(t: nat, w: Worker)
      reads this
    {
      Valid() && t in m.workers && m.workers[t] == w && w.since <= now
    }

    constructor (cfg: Config, tenant: string, s: State)
      ensures this.cfg == cfg && this.tenant == tenant && Valid() && m == s && start == s
    {
      this.cfg, this.tenant := cfg, tenant;
      now, run, work, probes, jobs, events, nextId := s.now, s.run, s.work, s.probes, s.jobs, s.events, s.nextId;
      m, start := s, s;
      new;
      ReachesItself(cfg, s);
    }

    ghost method Log(step: Step)
      requires Reaches(cfg, start, m) && Enabled(m, step)
      modifies this`m
      ensures m == Apply(cfg, old(m), step) && Reaches(cfg, start, m)
    {
      ReachesMore(cfg, start, m, step);
      m := Apply(cfg, m, step);
    }

    /** `datetime.now`: some time has passed. */
    method ReadClock() returns (at: int)
      requires Valid()
      modifies this`now, this`m
      ensures Valid() && at == now && old(now) <= now && m == old(m).(now := now)
    {
      var passed: int := *;
      if passed > 0 {
        now := now + passed;
      }
      Log(Tick(now));
      at := now;
    }

    /** `_claim_shutdown_work`. */
    method ClaimShutdownWork(t: nat, ghost w: Worker) returns (claimed: bool)
      requires At(t, w) && w.pc.Claim?
      modifies this
      ensures Valid() && run == old(run) && probes == old(probes)
      ensures claimed ==> t in m.workers && m.workers[t].since <= now
                          && m.workers[t] == w.(pc := if w.pc.mode == ExpireNow then ExpireCommit else Load,
                                                since := m.workers[t].since, leaseUntil := m.workers[t].leaseUntil)
      ensures !claimed ==> t !in m.workers
    {
      var seen := ReadClock();
      var stamp := ReadClock();
      claimed := TryClaim(t, seen, stamp, w);
    }

    /** Its compare-and-set: `seen` decides whether the old lease is over, `stamp` dates the new one. */
    method TryClaim(t: nat, seen: int, stamp: int, ghost w: Worker) returns (claimed: bool)
      requires At(t, w) && w.pc.Claim? && w.since <= seen <= stamp == now
      modifies this`work, this`m
      ensures Valid()
      ensures claimed ==> t in m.workers && m.workers[t].since <= now
                          && m.workers[t] == w.(pc := if w.pc.mode == ExpireNow then ExpireCommit else Load,
                                                since := m.workers[t].since, leaseUntil := m.workers[t].leaseUntil)
      ensures !claimed ==> t !in m.workers
    {
      var row := if work.Some? then work.value else WorkRow(PENDING, 0, None, None);
      if row.status != COMPLETE && (row.owner.None? || (row.expires.Some? && row.expires.value <= seen)) {
        work := Some(WorkRow(EXECUTING, row.attempts + 1, Some(t), Some(stamp + cfg.lease)));
        claimed := true;
      } else {
        work := Some(row);
        claimed := false;
      }
      Log(Work(t, Choice(seen, stamp, Raise)));
    }

    /** `_renew_shutdown_lease`. */
    method RenewShutdownLease(t: nat, ghost w: Worker)
      requires At(t, w) && (w.pc.Renew? || w.pc.ProbeRenew?)
      modifies this
      ensures Valid() && run == old(run) && probes == old(probes) && t in m.workers && m.workers[t].since <= now
      ensures m.workers[t] == w.(pc := if w.pc.Renew? then Invoke(w.pc.p) else ProbeInvoke(w.pc.i),
                                 since := m.workers[t].since, leaseUntil := m.workers[t].leaseUntil)
    {
      var stamp := ReadClock();
      RenewUntil(t, stamp, w);
    }

    /** The guarded update of the expiry. */
    method RenewUntil(t: nat, stamp: int, ghost w: Worker)
      requires At(t, w) && (w.pc.Renew? || w.pc.ProbeRenew?) && stamp == now
      modifies this`work, this`m
      ensures Valid() && t in m.workers && m.workers[t].since <= now
      ensures m.workers[t] == w.(pc := if w.pc.Renew? then Invoke(w.pc.p) else ProbeInvoke(w.pc.i),
                                 since := m.workers[t].since, leaseUntil := m.workers[t].leaseUntil)
    {
      RenewalIs(cfg, m, t, stamp);
      if work.Some? && work.value.owner == Some(t) {
        work := Some(work.value.(expires := Some(stamp + cfg.lease)));
      }
      Log(Quietly(t, stamp));
    }

    /** `_finish_shutdown_work` and `_fail_shutdown_work`. */
    method CompleteShutdownWork(t: nat, ghost w: Worker)
      requires At(t, w) && (w.pc.Finish? || w.pc.FailWork?)
      modifies this
      ensures Valid() && run == old(run) && probes == old(probes)
      ensures if w.pc.Finish? then t !in m.workers else At(t, w.(pc := FailCommit, since := now))
      ensures old(work).Some? && old(work).value.owner == Some(t) ==> work.Some? && work.value.status == COMPLETE
    {
      if work.Some? && work.value.owner == Some(t) {
        work := Some(work.value.(status := COMPLETE, owner := None, expires := None));
      }
      Log(Quietly(t, now));
    }

    /** `_adapter_run`: read the run row and the probe results. */
    method AdapterRun(t: nat, ghost w: Worker) returns (view: RunRow, existing: map<ProbeKind, ProbeResult>)
      requires At(t, w) && (w.pc.Load? || w.pc.Reload?)
      modifies this`m
      ensures Valid() && view == run && existing == Existing(probes)
      ensures At(t, w.(pc := if w.pc.Reload? then PhaseEntry(w.pc.p) else if w.recovering then ResumeEvent
                       else DeadlineCheck,
                       since := now, view := view, existing := existing))
    {
      view, existing := run, Existing(probes);
      Log(Quietly(t, now));
    }

    // ---- _transition, _save_probe: the row first, then the event ----

    method CommitPhase(t: nat, p: nat, ghost w: Worker)
      requires At(t, w) && w.pc == Commit(p)
      modifies this
      ensures At(t, w.(pc := PhaseEvent(p), since := now)) && run == old(run).(state := Phase(p + 1))
      ensures probes == old(probes)
    {
      run := run.(state := Phase(p + 1));
      Log(Quietly(t, now));
    }

    method CommitVerdict(t: nat, verdict: ShutdownState, ghost w: Worker)
      requires At(t, w)
      requires w.pc == TerminalCommit(verdict) || (w.pc == ExpireCommit && verdict == UNKNOWN)
               || (w.pc == FailCommit && verdict == FAILED)
      modifies this
      ensures Valid() && t in m.workers && m.workers[t].since <= now && run.state == verdict && probes == old(probes)
      ensures m.workers[t] == w.(pc := if w.pc.TerminalCommit? then TerminalEvent(verdict)
                                       else if w.pc.ExpireCommit? then ExpireEvent else FailEvent,
                                 since := m.workers[t].since)
    {
      var stamp := ReadClock();
      run := run.(state := verdict, stoppedAt := Some(stamp));
      Log(Quietly(t, stamp));
    }

    method CommitProbe(t: nat, i: nat, row: ProbeRow, ghost w: Worker)
      requires At(t, w) && w.pc == ProbeSave(i, row)
      modifies this
      ensures At(t, w.(pc := ProbeEvent(i, row), since := now)) && run == old(run) && probes == old(probes) + [row]
    {
      probes := probes + [row];
      Log(Quietly(t, now));
    }

    /** `_append_event`, at each of the places that emit one. */
    method AppendEvent(t: nat, e: Event, ghost w: Worker)
      requires At(t, w) && EventOf(w) == Some(e)
      modifies this`events, this`m
      ensures Valid() && events == old(events) + [e]
      ensures if w.pc.FailEvent? then t !in m.workers else At(t, w.(pc := AfterEvent(w.pc), since := now))
    {
      events := events + [e];
      Log(Quietly(t, now));
    }

    /** The same after some time, as seen by `Doing`. */
    method AnnounceCommit(t: nat, e: Event, ghost w: Worker)
      requires At(t, w) && EventOf(w) == Some(e) && !w.pc.FailEvent?
      modifies this`now, this`events, this`m
      ensures Doing(t, AfterEvent(w.pc), w.view, w.existing, w.adapter)
    {
      var _ := ReadClock();
      AppendEvent(t, e, w);
    }

    /** `_deadline_expired` on the run as it was read, before the phases and before each probe. */
    method DeadlineExpired(t: nat, view: RunRow, ghost w: Worker) returns (expired: bool)
      requires At(t, w) && w.view == view
      requires w.pc.DeadlineCheck? || (w.pc.ProbeNext? && w.pc.i < |PROBE_KINDS| && PROBE_KINDS[w.pc.i] !in w.existing)
      modifies this`now, this`m
      ensures Valid() && t in m.workers && m.workers[t].since <= now && expired == Expired(view, now)
      ensures m.workers[t] == w.(pc := if expired then ExpireCommit
                                       else if w.pc.DeadlineCheck? then EntryPoint(view.state) else ProbeRenew(w.pc.i),
                                 since := m.workers[t].since)
    {
      var at := ReadClock();
      expired := view.deadlineAt.Some? && view.deadlineAt.value <= at;
      Log(Quietly(t, at));
    }

    /** The loop head when there is nothing to probe: a durable kind is skipped, the end decides. */
    ghost method SkipProbe(t: nat, w: Worker)
      requires At(t, w) && w.pc.ProbeNext? && (w.pc.i >= |PROBE_KINDS| || PROBE_KINDS[w.pc.i] in w.existing)
      modifies this`m
      ensures At(t, w.(pc := if w.pc.i >= |PROBE_KINDS| then Decide else ProbeNext(w.pc.i + 1), since := now))
    {
      Log(Quietly(t, now));
    }

    /** `get_run` before the verdict. */
    method ReadForVerdict(t: nat, existing: map<ProbeKind, ProbeResult>, ghost w: Worker)
      returns (verdict: ShutdownState)
      requires At(t, w) && w.pc == Decide && w.existing == existing
      modifies this`m
      ensures verdict == Aggregate(Results(existing))
      ensures At(t, w.(pc := TerminalCommit(verdict), since := now, view := run))
    {
      verdict := Aggregate(Results(existing));
      Log(Quietly(t, now));
    }

    /** An adapter call begins ... */
    ghost method Begin(t: nat, w: Worker)
      requires At(t, w) && (w.pc.Invoke? || (w.pc.ProbeInvoke? && w.pc.i < |PROBE_KINDS|))
      modifies this`m
      ensures At(t, w.(pc := if w.pc.Invoke? then Await(w.pc.p) else ProbeAwait(w.pc.i), since := now))
    {
      Log(Quietly(t, now));
    }

    /** ... and, some time later, answers or raises. */
    method Answer(t: nat, op: Op, adapter: Adapter, ghost w: Worker) returns (reply: Reply)
      requires At(t, w) && w.adapter == adapter && Awaited(w.pc) == Some(op)
      modifies this`m
      ensures At(t, if reply.Raise? then w.(pc := FailWork, since := now)
                    else if w.pc.Await? then w.(pc := AfterCall(w.pc.p, reply), since := now)
                    else w.(pc := ProbeSave(w.pc.i, ProbeRow(op.kind, reply.result, reply.world)), since := now,
                            existing := w.existing[op.kind := reply.result]))
    {
      ghost var some := SomeReply(adapter, op);
      reply :| CanReply(adapter, op, reply);
      Log(Work(t, Choice(now, now, reply)));
    }

    method Call(t: nat, op: Op, adapter: Adapter, ghost w: Worker) returns (reply: Reply)
      requires At(t, w) && w.adapter == adapter
      requires (w.pc.Invoke? && op == PhaseOp(w.pc.p))
               || (w.pc.ProbeInvoke? && w.pc.i < |PROBE_KINDS| && op == Probe(PROBE_KINDS[w.pc.i]))
      modifies this`now, this`m
      ensures Valid() && t in m.workers && m.workers[t].since <= now
      ensures reply.Raise? ==> m.workers[t] == w.(pc := FailWork, since := m.workers[t].since)
      ensures reply.Ok? && w.pc.Invoke? ==>
                m.workers[t] == w.(pc := AfterCall(w.pc.p, reply), since := m.workers[t].since)
      ensures reply.Ok? && w.pc.ProbeInvoke? ==>
                m.workers[t] == w.(pc := ProbeSave(w.pc.i, ProbeRow(op.kind, reply.result, reply.world)),
                                   since := m.workers[t].since, existing := w.existing[op.kind := reply.result])
    {
      Begin(t, w);
      var _ := ReadClock();
      reply := Answer(t, op, adapter, m.workers[t]);
    }

    // ---- _orchestrate ----

    /** `_expire_shutdown`. */
    method ExpireShutdown(t: nat)
      requires Valid() && t in m.workers && At(t, m.workers[t]) && m.workers[t].pc == ExpireCommit
      modifies this
      ensures Valid() && t !in m.workers && run.state == UNKNOWN
    {
      CommitVerdict(t, UNKNOWN, m.workers[t]);
      var _ := ReadClock();
      AppendEvent(t, DeadlineExceeded, m.workers[t]);
      CompleteShutdownWork(t, m.workers[t]);
    }

    /** The exception handler. */
    method Fail(t: nat)
      requires Valid() && t in m.workers && At(t, m.workers[t]) && m.workers[t].pc == FailWork
      modifies this
      ensures Valid() && t !in m.workers && run.state == FAILED
    {
      CompleteShutdownWork(t, m.workers[t]);
      RecordFailure(t);
    }

    /** The handler's transition to FAILED. */
    method RecordFailure(t: nat)
      requires Valid() && t in m.workers && At(t, m.workers[t]) && m.workers[t].pc == FailCommit
      modifies this
      ensures Valid() && t !in m.workers && run.state == FAILED
    {
      CommitVerdict(t, FAILED, m.workers[t]);
      var _ := ReadClock();
      AppendEvent(t, ShutdownCompleted(FAILED), m.workers[t]);
    }

    /** Worker `t` is at `pc`, knowing `view` and `existing`. */
    ghost predicate Doing(t: nat, pc: Pc, view: RunRow, existing: map<ProbeKind, ProbeResult>, adapter: Adapter)
      reads this
    {
      && Valid() && t in m.workers && m.workers[t].since <= now && m.workers[t].pc == pc
      && m.workers[t].view == view && m.workers[t].existing == existing && m.workers[t].adapter == adapter
    }

    /** The transition to the next phase, and the read that follows it. */
    method EnterPhase(t: nat, p: nat, ghost view0: RunRow, ghost existing0: map<ProbeKind, ProbeResult>,
                      ghost adapter: Adapter)
      returns (view: RunRow, existing: map<ProbeKind, ProbeResult>)
      requires Doing(t, Commit(p), view0, existing0, adapter)
      modifies this
      ensures Doing(t, PhaseEntry(p + 1), view, existing, adapter)
    {
      Transition(t, p, view0, existing0, adapter);
      view, existing := AdapterRun(t, m.workers[t]);
    }

    /** `_transition`: the row first, then the event. */
    method Transition(t: nat, p: nat, ghost view: RunRow, ghost existing: map<ProbeKind, ProbeResult>,
                      ghost adapter: Adapter)
      requires Doing(t, Commit(p), view, existing, adapter)
      modifies this
      ensures Doing(t, Reload(p + 1), view, existing, adapter)
    {
      CommitPhase(t, p, m.workers[t]);
      AnnounceCommit(t, PhaseReached(Phase(p + 1)), m.workers[t]);
    }

    /** `_save_delegated_jobs`: one transaction, rolled back when a child's status is not an object. */
    method SaveDelegatedJobs(t: nat, children: seq<I.Child>, ghost w: Worker) returns (raised: bool)
      requires At(t, w) && w.pc.SaveJobs? && w.pc.children == children
      modifies this`jobs, this`m
      ensures raised <==> exists i :: 0 <= i < |children| && !children[i].status.JObj?
      ensures if raised then jobs == old(jobs) else I.Savable(children) && jobs == I.Saved(old(jobs), children)
      ensures At(t, w.(pc := if raised then FailWork else Commit(2), since := now))
    {
      var saved := I.SaveChildren(jobs, children);
      raised := saved.None?;
      if !raised {
        jobs := saved.value;
      }
      Log(Quietly(t, now));
    }

    /** Renew, call the adapter, save what it discovered, commit the next phase, read the run again. */
    method DoPhase(t: nat, p: nat, adapter: Adapter, view0: RunRow, existing0: map<ProbeKind, ProbeResult>)
      returns (raised: bool, view: RunRow, existing: map<ProbeKind, ProbeResult>)
      requires p <= 2 && Doing(t, Renew(p), view0, existing0, adapter)
      modifies this
      ensures Doing(t, if raised then FailWork else PhaseEntry(p + 1), view, existing, adapter)
    {
      view, existing := view0, existing0;
      RenewShutdownLease(t, m.workers[t]);
      var reply := Call(t, PhaseOp(p), adapter, m.workers[t]);
      raised := reply.Raise?;
      if !raised && p == 2 {
        raised := SaveDelegatedJobs(t, reply.children, m.workers[t]);
      }
      if !raised {
        view, existing := EnterPhase(t, p, view, existing, adapter);
      }
    }

    /** A link of the chain with an adapter call: it acts only if the run stands at its phase. */
    method PhaseLink(t: nat, p: nat, adapter: Adapter, state0: ShutdownState, view0: RunRow,
                     existing0: map<ProbeKind, ProbeResult>)
      returns (raised: bool, state: ShutdownState, view: RunRow, existing: map<ProbeKind, ProbeResult>)
      requires p <= 2 && Doing(t, EntryPoint(state0), view0, existing0, adapter)
      modifies this
      ensures state == LinkEnd(p, state0)
      ensures Doing(t, if raised then FailWork else EntryPoint(state), view, existing, adapter)
      ensures state0 != Phase(p) ==> run == old(run) && !raised
    {
      raised, state, view, existing := false, state0, view0, existing0;
      if state == Phase(p) {
        raised, view, existing := DoPhase(t, p, adapter, view, existing);
        state := Phase(p + 1);
      }
    }

    /** The last link makes no call. */
    method ProbingLink(t: nat, adapter: Adapter, state0: ShutdownState, view0: RunRow,
                       existing0: map<ProbeKind, ProbeResult>)
      returns (state: ShutdownState, view: RunRow, existing: map<ProbeKind, ProbeResult>)
      requires Doing(t, EntryPoint(state0), view0, existing0, adapter)
      modifies this
      ensures state == LinkEnd(3, state0) && Doing(t, EntryPoint(state), view, existing, adapter)
      ensures state0 != CHILD_DISCOVERY ==> run == old(run)
    {
      state, view, existing := state0, view0, existing0;
      if state == CHILD_DISCOVERY {
        view, existing := EnterPhase(t, 3, view, existing, adapter);
        state := PROBING;
      }
    }

    /** The first two links of the chain: fence, stop. */
    method FenceAndStop(t: nat, adapter: Adapter, state0: ShutdownState, view0: RunRow,
                        existing0: map<ProbeKind, ProbeResult>)
      returns (raised: bool, state: ShutdownState, view: RunRow, existing: map<ProbeKind, ProbeResult>)
      requires Doing(t, EntryPoint(state0), view0, existing0, adapter)
      modifies this
      ensures Doing(t, if raised then FailWork else EntryPoint(state), view, existing, adapter)
      ensures !raised ==> state == LinkEnd(1, LinkEnd(0, state0))
      ensures IsTerminal(state0) ==> run == old(run) && !raised
    {
      if IsTerminal(state0) {
        VerdictSkipsLinks(state0);
      }
      raised, state, view, existing := PhaseLink(t, 0, adapter, state0, view0, existing0);
      if !raised {
        raised, state, view, existing := PhaseLink(t, 1, adapter, state, view, existing);
      }
    }

    /** The last two: discover, start probing. */
    method DiscoverAndProbe(t: nat, adapter: Adapter, state0: ShutdownState, view0: RunRow,
                            existing0: map<ProbeKind, ProbeResult>)
      returns (raised: bool, state: ShutdownState, view: RunRow, existing: map<ProbeKind, ProbeResult>)
      requires Doing(t, EntryPoint(state0), view0, existing0, adapter)
      modifies this
      ensures Doing(t, if raised then FailWork else EntryPoint(state), view, existing, adapter)
      ensures !raised ==> state == LinkEnd(3, LinkEnd(2, state0))
      ensures IsTerminal(state0) ==> run == old(run) && !raised
    {
      if IsTerminal(state0) {
        VerdictSkipsLinks(state0);
      }
      raised, state, view, existing := PhaseLink(t, 2, adapter, state0, view0, existing0);
      if !raised {
        state, view, existing := ProbingLink(t, adapter, state, view, existing);
      }
    }

    /** The chain of phases, entered where the run row stands. */
    method RunPhases(t: nat, adapter: Adapter, view0: RunRow, existing0: map<ProbeKind, ProbeResult>)
      returns (raised: bool, state: ShutdownState, view: RunRow, existing: map<ProbeKind, ProbeResult>)
      requires Doing(t, EntryPoint(view0.state), view0, existing0, adapter)
      modifies this
      ensures raised ==> Doing(t, FailWork, view, existing, adapter)
      ensures !raised ==> Doing(t, EntryPoint(state), view, existing, adapter) && state == ChainEnd(view0.state)
      ensures IsTerminal(view0.state) ==> run == old(run) && !raised
    {
      if IsTerminal(view0.state) {
        VerdictSkipsLinks(view0.state);
      }
      raised, state, view, existing := FenceAndStop(t, adapter, view0.state, view0, existing0);
      if !raised {
        raised, state, view, existing := DiscoverAndProbe(t, adapter, state, view, existing);
      }
    }

    /** Probe one boundary that has no durable result. */
    method ProbeBoundary(t: nat, i: nat, adapter: Adapter, view: RunRow, existing0: map<ProbeKind, ProbeResult>)
      returns (expired: bool, raised: bool, existing: map<ProbeKind, ProbeResult>)
      requires i < |PROBE_KINDS| && PROBE_KINDS[i] !in existing0 && Doing(t, ProbeNext(i), view, existing0, adapter)
      modifies this
      ensures Doing(t, if expired then ExpireCommit else if raised then FailWork
                    else ProbeNext(i + 1), view, existing, adapter)
    {
      existing, raised := existing0, false;
      expired := DeadlineExpired(t, view, m.workers[t]);
      if !expired {
        RenewShutdownLease(t, m.workers[t]);
        var reply := Call(t, Probe(PROBE_KINDS[i]), adapter, m.workers[t]);
        raised := reply.Raise?;
        if !raised {
          var row := ProbeRow(PROBE_KINDS[i], reply.result, reply.world);
          existing := existing[row.kind := row.result];
          SaveProbe(t, i, row, view, existing, adapter);
        }
      }
    }

    /** `_save_probe`. */
    method SaveProbe(t: nat, i: nat, row: ProbeRow, ghost view: RunRow, ghost existing: map<ProbeKind, ProbeResult>,
                     ghost adapter: Adapter)
      requires Doing(t, ProbeSave(i, row), view, existing, adapter)
      modifies this
      ensures Doing(t, ProbeNext(i + 1), view, existing, adapter)
    {
      CommitProbe(t, i, row, m.workers[t]);
      AnnounceCommit(t, ProbeResultSaved(row.kind, row.result), m.workers[t]);
    }

    /** One round of the probe loop: a kind with a durable result is skipped. */
    method ProbeRound(t: nat, i: nat, adapter: Adapter, view: RunRow, existing0: map<ProbeKind, ProbeResult>)
      returns (expired: bool, raised: bool, existing: map<ProbeKind, ProbeResult>)
      requires i < |PROBE_KINDS| && Doing(t, ProbeNext(i), view, existing0, adapter)
      modifies this
      ensures Doing(t, if expired then ExpireCommit else if raised then FailWork
                    else ProbeNext(i + 1), view, existing, adapter)
    {
      if PROBE_KINDS[i] in existing0 {
        SkipProbe(t, m.workers[t]);
        return false, false, existing0;
      }
      expired, raised, existing := ProbeBoundary(t, i, adapter, view, existing0);
    }

    method RunProbes(t: nat, adapter: Adapter, view: RunRow, existing0: map<ProbeKind, ProbeResult>)
      returns (expired: bool, raised: bool, existing: map<ProbeKind, ProbeResult>)
      requires Doing(t, ProbeNext(0), view, existing0, adapter)
      modifies this
      ensures Doing(t, if expired then ExpireCommit else if raised then FailWork else Decide, view, existing, adapter)
    {
      existing, expired, raised := existing0, false, false;
      var i := 0;
      while i < |PROBE_KINDS| && !expired && !raised
        invariant 0 <= i <= |PROBE_KINDS|
        invariant Doing(t, if expired then ExpireCommit else if raised then FailWork
                        else ProbeNext(i), view, existing, adapter)
      {
        expired, raised, existing := ProbeRound(t, i, adapter, view, existing);
        i := i + 1;
      }
      if !expired && !raised {
        SkipProbe(t, m.workers[t]);
      }
    }

    /** The aggregate of the collected results, committed as the verdict. */
    method RecordVerdict(t: nat, existing: map<ProbeKind, ProbeResult>, ghost view: RunRow, ghost adapter: Adapter)
      requires Doing(t, Decide, view, existing, adapter)
      modifies this
      ensures Valid() && t !in m.workers && run.state == Aggregate(Results(existing))
    {
      var verdict := ReadForVerdict(t, existing, m.workers[t]);
      CommitVerdict(t, verdict, m.workers[t]);
      AnnounceVerdict(t, verdict, m.workers[t]);
    }

    /** The completion event, and the end of the work. */
    method AnnounceVerdict(t: nat, verdict: ShutdownState, ghost w: Worker)
      requires At(t, w) && w.pc == TerminalEvent(verdict)
      modifies this
      ensures Valid() && t !in m.workers && run == old(run)
    {
      var _ := ReadClock();
      AppendEvent(t, ShutdownCompleted(verdict), m.workers[t]);
      CompleteShutdownWork(t, m.workers[t]);
    }

    /** The body of `_orchestrate` once the work is claimed: whatever phase the run was left in,
        uninterrupted it ends with a verdict, and every commit on the way is a machine step. */
    method RunClaimed(t: nat, adapter: Adapter, recovering: bool)
      requires Valid() && t in m.workers && At(t, m.workers[t]) && m.workers[t].adapter == adapter
      requires m.workers[t].pc == Load && m.workers[t].recovering == recovering
      modifies this
      ensures Valid() && t !in m.workers && IsTerminal(run.state)
    {
      var view, existing := AdapterRun(t, m.workers[t]);
      if recovering {
        AppendEvent(t, RecoveryResumed(view.state), m.workers[t]);
      }
      var expired := DeadlineExpired(t, view, m.workers[t]);
      if expired {
        ExpireShutdown(t);
      } else {
        Continue(t, adapter, view, existing);
      }
    }

    method Continue(t: nat, adapter: Adapter, view0: RunRow, existing0: map<ProbeKind, ProbeResult>)
      requires Doing(t, EntryPoint(view0.state), view0, existing0, adapter) && run.state == view0.state
      modifies this
      ensures Valid() && t !in m.workers && IsTerminal(run.state)
    {
      var raised, state, view, existing := RunPhases(t, adapter, view0, existing0);
      if raised || state == RUNNING {
        Fail(t);
      } else if IsTerminal(state) {
        CompleteShutdownWork(t, m.workers[t]);
      } else {
        FinishProbing(t, adapter, view, existing);
      }
    }

    method FinishProbing(t: nat, adapter: Adapter, view: RunRow, existing0: map<ProbeKind, ProbeResult>)
      requires Doing(t, ProbeNext(0), view, existing0, adapter)
      modifies this
      ensures Valid() && t !in m.workers && IsTerminal(run.state)
    {
      var expired, raised, existing := RunProbes(t, adapter, view, existing0);
      if expired {
        ExpireShutdown(t);
      } else if raised {
        Fail(t);
      } else {
        VerifiedIsEarned(Results(existing));
        RecordVerdict(t, existing, view, adapter);
      }
    }

    /** `_orchestrate`: claim the work or leave; if claimed, carry the run to a verdict. */
    method Orchestrate(t: nat, adapter: Adapter, recovering: bool) returns (claimed: bool)
      requires Valid() && t in m.workers && At(t, m.workers[t]) && m.workers[t].adapter == adapter
      requires m.workers[t].pc.Claim? && m.workers[t].pc.mode != ExpireNow && m.workers[t].recovering == recovering
      modifies this
      ensures Valid() && t !in m.workers
      ensures claimed ==> IsTerminal(run.state)
      ensures !claimed ==> run == old(run) && probes == old(probes)
    {
      claimed := ClaimShutdownWork(t, m.workers[t]);
      if claimed {
        RunClaimed(t, adapter, recovering);
      }
    }

    // ---- request_shutdown and recovery ----

    /** `request_shutdown`, asynchronous: the first request with a key is accepted, recorded and
        handed to a worker; any other changes nothing. */
    method RequestShutdown(tenant: string, actor: string, key: string, viaDrill: bool)
      returns (answer: Answer, t: nat, ghost asked: int)
      requires Valid()
      modifies this
      ensures Valid() && probes == old(probes) && jobs == old(jobs)
      ensures answer.Invalid? <==> actor == "" || key == ""
      ensures answer.NotFound? <==> !answer.Invalid? && tenant != this.tenant
      ensures !answer.Invalid? && !answer.NotFound? ==>
                old(now) <= asked <= now && answer == AnswerRequest(cfg, old(m).(now := now), key, asked)
      ensures !answer.Accepted? ==> run == old(run) && work == old(work) && events == old(events)
      ensures answer.Accepted? ==>
                && run == Requested(cfg, old(run), asked, now, key) && answer.receipt == ReceiptOf(run)
                && events == old(events) + [ShutdownRequested]
                && t in m.workers && m.workers[t].pc == Claim(Fresh) && m.workers[t].since <= now
    {
      t, asked := nextId, now;
      if actor == "" || key == "" {
        return Invalid, t, asked;
      }
      if tenant != this.tenant {
        return NotFound, t, asked;
      }
      if run.requestedAt.Some? {
        if run.key != Some(key) {
          return Conflict, t, asked;
        }
        return Replayed(ReceiptOf(run)), t, asked;
      }
      answer, asked := AcceptShutdown(key, viaDrill);
    }

    /** The commit and the event of the one accepted request. */
    method AcceptShutdown(key: string, viaDrill: bool) returns (answer: Answer, ghost asked: int)
      requires Valid() && key != "" && run.requestedAt.None?
      modifies this
      ensures Valid() && probes == old(probes) && jobs == old(jobs)
      ensures old(now) <= asked <= now && answer == AnswerRequest(cfg, old(m).(now := now), key, asked)
              && answer.Accepted?
      ensures run == Requested(cfg, old(run), asked, now, key) && answer.receipt == ReceiptOf(run)
      ensures events == old(events) + [ShutdownRequested] && old(nextId) in m.workers
      ensures m.workers[old(nextId)].pc == Claim(Fresh) && m.workers[old(nextId)].since <= now
    {
      var t := nextId;
      var requestedAt := ReadClock();
      var _ := ReadClock();
      asked := requestedAt;
      answer := CommitRequest(key, viaDrill, requestedAt);
      AppendRequested(t, m.workers[t]);
    }

    /** The one commit that writes run and work; the deadline counts from the second reading. */
    method CommitRequest(key: string, viaDrill: bool, requestedAt: int) returns (answer: Answer)
      requires Valid() && key != "" && run.requestedAt.None? && requestedAt <= now
      modifies this
      ensures Valid() && probes == old(probes) && jobs == old(jobs) && now == old(now) && events == old(events)
      ensures answer == AnswerRequest(cfg, old(m), key, requestedAt) && answer.Accepted?
      ensures run == Requested(cfg, old(run), requestedAt, now, key) && answer.receipt == ReceiptOf(run)
      ensures old(nextId) in m.workers && m.workers[old(nextId)].pc == Announce && m.workers[old(nextId)].since == now
    {
      run := run.(state := REQUESTED, requestedAt := Some(requestedAt), deadlineAt := Some(now + cfg.deadline),
                  key := Some(key));
      work := Some(if work.Some? then work.value.(status := PENDING) else WorkRow(PENDING, 0, None, None));
      nextId := nextId + 1;
      Log(Request(key, viaDrill, requestedAt));
      answer := Accepted(ReceiptOf(run));
    }

    method AppendRequested(t: nat, ghost w: Worker)
      requires At(t, w) && w.pc == Announce
      modifies this`events, this`m
      ensures At(t, w.(pc := Claim(Fresh), since := now)) && events == old(events) + [ShutdownRequested]
    {
      events := events + [ShutdownRequested];
      Log(Quietly(t, now));
    }

    /** One row of `recover_incomplete_shutdowns`: a run past its deadline is expired, any other
        is resumed where it stands, and a run whose lease is held is left alone. */
    method RecoverIncompleteShutdown() returns (resumed: bool, expired: bool, busy: bool)
      requires Valid()
      modifies this
      ensures Valid()
      ensures (resumed || expired || busy) <==> old(run).requestedAt.Some? && !IsTerminal(old(run).state)
      ensures resumed || expired ==> IsTerminal(run.state)
      ensures expired ==> run.state == UNKNOWN
      ensures !resumed && !expired ==> run == old(run) && probes == old(probes)
    {
      resumed, expired, busy := false, false, false;
      if run.requestedAt.Some? && !IsTerminal(run.state) {
        var t, view := nextId, run;
        nextId := nextId + 1;
        Log(Recover);
        var late := CheckSelected(t, view, m.workers[t]);
        var claimed := ClaimShutdownWork(t, m.workers[t]);
        if !claimed {
          busy := true;
        } else if late {
          ExpireShutdown(t);
          expired := true;
        } else {
          RunClaimed(t, RecoveryAdapter(cfg), true);
          resumed := true;
        }
      }
    }

    /** The deadline check on the selected row. */
    method CheckSelected(t: nat, view: RunRow, ghost w: Worker) returns (late: bool)
      requires At(t, w) && w.pc == Check && w.view == view
      modifies this`now, this`m
      ensures Valid() && t in m.workers && m.workers[t].since <= now
      ensures m.workers[t] == w.(pc := Claim(if late then ExpireNow else Resume), since := m.workers[t].since)
    {
      var at := ReadClock();
      late := view.deadlineAt.Some? && view.deadlineAt.value <= at;
      Log(Quietly(t, at));
    }
  }
}
