/** Where the promises end: schedules that break them, for every lease and deadline, and the
    exact conditions under which they hold. */
module OrchestratorLimits {
  import opened Domain
  import I = Integrations
  import opened Orchestrator
  import opened OrchestratorInvariant
  import opened OrchestratorTheorems
  import opened OrchestratorOutcomes
  import opened OrchestratorSources
  import opened OrchestratorSchedules
  import R = OrchestratorRecovery

  // ---- The exception handler ----

  /** The first worker is alone in its exception handler and has released the work. */
  ghost predicate Handling(s: State, pc: Pc) {
    && s.now == 0 && 0 in s.workers && s.workers == map[0 := s.workers[0]] && s.workers[0].pc == pc
    && s.workers[0].since == 0 && s.work == Some(WorkRow(COMPLETE, 1, None, None)) && !s.dispatched
  }

  lemma RaiseStep(cfg: Config, s: State)
    requires Positive(cfg) && Lone(cfg, s, First(cfg), Await(0), REQUESTED, map[])
             && CanReply(cfg.adapter, Fence, Raise)
    ensures var x := First(cfg);
            var s' := Next(cfg, s, x, Raise);
            Leads(cfg, s, Go(x, Raise), s') && Lone(cfg, s', x, FailWork, REQUESTED, map[])
  {
  }

  lemma ReleaseStep(cfg: Config, s: State, state: ShutdownState)
    requires Positive(cfg) && Lone(cfg, s, First(cfg), FailWork, state, map[])
    ensures var s' := Next(cfg, s, First(cfg), Raise);
            && Leads(cfg, s, Go(First(cfg), Raise), s') && Handling(s', FailCommit) && s'.run == Row(cfg, state)
            && s'.probes == s.probes && s'.calls == s.calls
  {
  }

  lemma FailStep(cfg: Config, s: State)
    requires Handling(s, FailCommit)
    ensures var s' := Next(cfg, s, First(cfg), Raise);
            && Leads(cfg, s, Go(First(cfg), Raise), s') && Handling(s', FailEvent)
            && s'.run == s.run.(state := FAILED, stoppedAt := Some(0)) && s'.probes == s.probes && s'.calls == s.calls
  {
  }

  /** A fence call raises, and the handler has made the first of its two commits. */
  lemma ReachHandler(cfg: Config) returns (states: seq<State>, steps: seq<Step>)
    requires Positive(cfg) && CanReply(cfg.adapter, Fence, Raise)
    ensures IsTimelyRun(cfg, states, steps) && Handling(states[|steps|], FailCommit)
    ensures states[|steps|].run == Row(cfg, REQUESTED) && NoCrash(steps)
  {
    var x := First(cfg);
    states, steps := ReachInFence(cfg);
    RaiseStep(cfg, states[|steps|]);
    states, steps := StepFrom(cfg, states, steps, x, Raise, Next(cfg, states[|steps|], x, Raise));
    ReleaseStep(cfg, states[|steps|], REQUESTED);
    states, steps := StepFrom(cfg, states, steps, x, Raise, Next(cfg, states[|steps|], x, Raise));
  }

  /** The handler's two commits are not atomic: whatever the lease and the deadline, a crash
      between them strands the run. */
  lemma CrashInHandlerStrands(cfg: Config) returns (states: seq<State>, steps: seq<Step>)
    requires Positive(cfg) && CanReply(cfg.adapter, Fence, Raise)
    ensures IsTimelyRun(cfg, states, steps) && R.Stranded(states[|steps|])
  {
    states, steps := ReachHandler(cfg);
    var crashed := states[|steps|].(workers := map[]);
    Extend(cfg, states, steps, Crash, crashed);
    states, steps := states + [crashed], steps + [Crash];
  }

  lemma ReachFailure(cfg: Config) returns (states: seq<State>, steps: seq<Step>)
    requires Positive(cfg) && CanReply(cfg.adapter, Fence, Raise)
    ensures IsTimelyRun(cfg, states, steps) && !states[|steps|].dispatched
    ensures states[|steps|].run == Row(cfg, FAILED).(stoppedAt := Some(0)) && NoCrash(steps)
  {
    states, steps := ReachHandler(cfg);
    FailStep(cfg, states[|steps|]);
    states, steps := StepFrom(cfg, states, steps, First(cfg), Raise, Next(cfg, states[|steps|], First(cfg), Raise));
  }

  /** A child that the cluster lists with a status that is not an object ends the run FAILED
      before its deadline, although no adapter call raised and nothing was probed. */
  lemma IllegibleChildFailsRun(cfg: Config, w: I.World) returns (states: seq<State>, steps: seq<Step>)
    requires Positive(cfg) && cfg.adapter.Kubernetes? && cfg.adapter.config.namespaceAllowed
    requires I.Discovered(w.jobs, w.cronjobs).Some? && (I.ListsIllegible(w.jobs) || I.ListsIllegible(w.cronjobs))
    ensures IsTimelyRun(cfg, states, steps)
    ensures var s := states[|steps|];
            s.run.state == FAILED && !CallRaised(s.calls) && s.probes == [] && !Expired(s.run, s.now)
  {
    var x, r := First(cfg), Ok(Unknown, w, I.Discovered(w.jobs, w.cronjobs).value);
    I.SaveRaisesExactly(w.jobs, w.cronjobs);
    states, steps := ReachFirst(cfg);
    states, steps := SaveFrom(cfg, states, steps, x, r, r, r);
    var s := states[|steps|];
    SaveStep(cfg, s, x, r, w, r.children, PROCESS_STOP_SENT);
    states, steps := StepFrom(cfg, states, steps, x, r, Next(cfg, s, x, r));
    states, steps := FailFrom(cfg, states, steps, PROCESS_STOP_SENT);
    OnlySaveRaised(s.calls, SaveRaised(w, r.children));
  }

  lemma OnlySaveRaised(calls: seq<CallRecord>, r: CallRecord)
    requires Quiet(calls) && !r.Raised?
    ensures !CallRaised(calls + [r])
  {
    forall i | 0 <= i < |calls + [r]| ensures !(calls + [r])[i].Raised? {
      assert i < |calls| ==> (calls + [r])[i] == calls[i];
    }
  }

  lemma FailFrom(cfg: Config, states: seq<State>, steps: seq<Step>, state: ShutdownState)
    returns (ss: seq<State>, how: seq<Step>)
    requires Positive(cfg) && IsTimelyRun(cfg, states, steps)
    requires Lone(cfg, states[|steps|], First(cfg), FailWork, state, map[])
    ensures IsTimelyRun(cfg, ss, how)
    ensures var s, s' := states[|steps|], ss[|how|];
            && s'.run == Row(cfg, FAILED).(stoppedAt := Some(0)) && s'.now == 0
            && s'.probes == s.probes && s'.calls == s.calls
  {
    var x := First(cfg);
    ReleaseStep(cfg, states[|steps|], state);
    ss, how := StepFrom(cfg, states, steps, x, Raise, Next(cfg, states[|steps|], x, Raise));
    FailStep(cfg, ss[|how|]);
    ss, how := StepFrom(cfg, ss, how, x, Raise, Next(cfg, ss[|how|], x, Raise));
  }

  // ---- What adapters answer ----

  /** Nothing answers. */
  const SILENCE: I.World :=
    I.World(I.Unavailable, I.Unavailable, I.Unavailable, I.Unavailable, I.Down, I.Down, I.Down, I.Down, I.Down, I.Down)

  /** Nothing runs and everything is denied. */
  const CLOSED: I.World :=
    I.World(I.Items([]), I.Items([]), I.Items([]), I.Items([]), I.Reply(403, I.JNull), I.Reply(403, I.JNull),
            I.Reply(403, I.JNull), I.Reply(404, I.JObj(map[])), I.Reply(403, I.JNull), I.Reply(403, I.JNull))

  /** An answer of `a` to `op` in which `w` is what it saw. */
  function Typical(a: Adapter, w: I.World, op: Op): Reply {
    var result := match a
      case SafeUnknown => Unknown
      case Synthetic(o) => if op.Probe? then Outcome(o, op.kind) else Unknown
      case Kubernetes(c) => if op.Probe? then I.KubernetesProbe(c, w, op.kind) else Unknown
      case Custom => Pass;
    Ok(result, w, [])
  }

  lemma TypicalAnswers(a: Adapter, w: I.World)
    requires a.Kubernetes? ==> a.config.namespaceAllowed && I.Discovered(w.jobs, w.cronjobs) == Some([])
    ensures Answers(a, op => Typical(a, w, op))
  {
  }

  lemma ClosedListsNothing()
    ensures I.Discovered(CLOSED.jobs, CLOSED.cronjobs) == Some([])
  {
    assert CLOSED.jobs.items == [] && CLOSED.cronjobs.items == [];
    assert I.ChildrenOf(I.Jobs, []) == Some([]) && I.ChildrenOf(I.CronJobs, []) == Some([]);
    var none: seq<I.Child> := [];
    assert none + none == none;
  }

  // ---- Crash transparency, exactly ----

  /** All timely runs of a drill's run are transparent, given whose request is accepted. */
  ghost predicate AllTransparent(cfg: Config, b: bool)
    requires cfg.outcomes.Some?
  {
    forall states, steps, i ::
      IsTimelyRun(cfg, states, steps) && AcceptedVia(cfg, states, steps, b) && 0 <= i < |states| ==>
        Transparent(cfg.outcomes.value, states[i])
  }

  /** Whether the configured adapter cannot be told from the simulated one: it always answers the
      same, or it never gets as far as a probe and fails the run as the outcomes would. */
  ghost predicate Mimics(a: Adapter, o: map<ProbeKind, ProbeResult>) {
    match a
    case SafeUnknown => Agree(map[], o)
    case Synthetic(p) => Agree(p, o)
    case Kubernetes(c) => !c.namespaceAllowed && Aggregate(Results(o)) == FAILED
    case Custom => false
  }

  predicate Agree(p: map<ProbeKind, ProbeResult>, o: map<ProbeKind, ProbeResult>) {
    forall i :: 0 <= i < |PROBE_KINDS| ==> Outcome(p, PROBE_KINDS[i]) == Outcome(o, PROBE_KINDS[i])
  }

  /** An uninterrupted run under an adapter that answers a boundary differently. */
  lemma DifferentAnswerShows(cfg: Config, i: nat) returns (states: seq<State>, steps: seq<Step>)
    requires Positive(cfg) && NeverRaises(cfg.adapter) && cfg.outcomes.Some? && i < |PROBE_KINDS|
    requires Typical(cfg.adapter, SILENCE, Probe(PROBE_KINDS[i])).result != Outcome(cfg.outcomes.value, PROBE_KINDS[i])
    ensures IsTimelyRun(cfg, states, steps) && !states[|steps|].dispatched && NoCrash(steps)
    ensures states[|steps|].run.key == Some(KEY) && states[|steps|].run.requestedAt.Some?
    ensures !Transparent(cfg.outcomes.value, states[|steps|])
  {
    var f := op => Typical(cfg.adapter, SILENCE, op);
    TypicalAnswers(cfg.adapter, SILENCE);
    states, steps := FirstFinishes(cfg, f);
    AnswerIsDurable(f, i);
    RowDisagrees(cfg.outcomes.value, states[|steps|], i);
  }

  lemma {:induction false} AnswerIsDurable(f: Op -> Reply, i: nat)
    requires i < |PROBE_KINDS| && forall k :: 0 <= k < |PROBE_KINDS| ==> f(Probe(PROBE_KINDS[k])).Ok?
    ensures var rows := Extended([], f, |PROBE_KINDS|); i < |rows| && rows[i] == RowOfAnswer(f, PROBE_KINDS[i])
  {
    ExtendedRows([], f, |PROBE_KINDS|);
  }

  lemma RowDisagrees(o: map<ProbeKind, ProbeResult>, s: State, i: nat)
    requires i < |s.probes| && s.probes[i].kind != Restart && s.probes[i].result != Outcome(o, s.probes[i].kind)
    ensures !Transparent(o, s)
  {
  }

  /** Under the Kubernetes adapter, a run that fails although the outcomes do not, or the other way
      round. */
  lemma ClusterShows(cfg: Config) returns (states: seq<State>, steps: seq<Step>)
    requires Positive(cfg) && cfg.adapter.Kubernetes? && cfg.outcomes.Some? && !Mimics(cfg.adapter, cfg.outcomes.value)
    ensures IsTimelyRun(cfg, states, steps) && !states[|steps|].dispatched && NoCrash(steps)
    ensures states[|steps|].run.key == Some(KEY) && states[|steps|].run.requestedAt.Some?
    ensures !Transparent(cfg.outcomes.value, states[|steps|])
  {
    if Aggregate(Results(cfg.outcomes.value)) != FAILED {
      states, steps := ReachFailure(cfg);
    } else {
      var f := op => Typical(cfg.adapter, CLOSED, op);
      ClosedListsNothing();
      TypicalAnswers(cfg.adapter, CLOSED);
      states, steps := FirstFinishes(cfg, f);
      ExtendedRows([], f, |PROBE_KINDS|);
      NothingFails(cfg.adapter.config, Extended([], f, |PROBE_KINDS|));
    }
  }

  lemma {:induction false} NothingFails(c: I.Config, rows: seq<ProbeRow>)
    requires InOrder(rows) && |rows| == |PROBE_KINDS|
    requires forall j :: 0 <= j < |rows| ==> rows[j].result == I.KubernetesProbe(c, CLOSED, rows[j].kind)
    ensures Aggregate(Results(Existing(rows))) != FAILED
  {
    forall i | 0 <= i < |PROBE_KINDS| ensures Outcome(Existing(rows), PROBE_KINDS[i]) != Fail {
      InOrderKnows(rows, i);
      I.FailMeansBreached(c, CLOSED, PROBE_KINDS[i]);
    }
    forall i | 0 <= i < |Results(Existing(rows))| ensures Results(Existing(rows))[i] != Fail {
      assert Results(Existing(rows))[i] == Outcome(Existing(rows), PROBE_KINDS[i]);
    }
  }

  /** If a public caller's request comes first, the configured adapter acts instead of the
      simulated one: unless it mimics that one, a timely schedule without crashes breaks the
      drill's promise before the deadline. */
  lemma CompetingRequestBreaksTransparency(cfg: Config) returns (states: seq<State>, steps: seq<Step>)
    requires Positive(cfg) && cfg.outcomes.Some? && !Mimics(cfg.adapter, cfg.outcomes.value)
    ensures IsTimelyRun(cfg, states, steps) && AcceptedVia(cfg, states, steps, false) && NoCrash(steps)
    ensures states[|steps|].run.key == Some(KEY)
    ensures !Transparent(cfg.outcomes.value, states[|steps|])
  {
    match cfg.adapter {
      case Kubernetes(_) => states, steps := ClusterShows(cfg);
      case Custom =>
        if Aggregate(Results(cfg.outcomes.value)) == FAILED {
          states, steps := ReachVerified(cfg);
        } else {
          states, steps := ReachFailure(cfg);
        }
      case SafeUnknown =>
        var i :| 0 <= i < |PROBE_KINDS|
            && Outcome(map[], PROBE_KINDS[i]) != Outcome(cfg.outcomes.value, PROBE_KINDS[i]);
        states, steps := DifferentAnswerShows(cfg, i);
      case Synthetic(p) =>
        var i :| 0 <= i < |PROBE_KINDS| && Outcome(p, PROBE_KINDS[i]) != Outcome(cfg.outcomes.value, PROBE_KINDS[i]);
        states, steps := DifferentAnswerShows(cfg, i);
    }
    FlagDecidesOrigin(cfg, states, steps);
  }

  lemma ReachVerified(cfg: Config) returns (states: seq<State>, steps: seq<Step>)
    requires Positive(cfg) && cfg.adapter.Custom?
    ensures IsTimelyRun(cfg, states, steps) && !states[|steps|].dispatched
    ensures states[|steps|].run == Row(cfg, VERIFIED).(stoppedAt := Some(0)) && NoCrash(steps)
  {
    var f := op => Typical(cfg.adapter, SILENCE, op);
    TypicalAnswers(cfg.adapter, SILENCE);
    states, steps := FirstFinishes(cfg, f);
    ExtendedRows([], f, |PROBE_KINDS|);
    AllPassed(Extended([], f, |PROBE_KINDS|));
  }

  lemma {:induction false} AllPassed(rows: seq<ProbeRow>)
    requires InOrder(rows) && |rows| == |PROBE_KINDS| && forall j :: 0 <= j < |rows| ==> rows[j].result == Pass
    ensures Aggregate(Results(Existing(rows))) == VERIFIED
  {
    forall i | 0 <= i < |PROBE_KINDS| ensures Outcome(Existing(rows), PROBE_KINDS[i]) == Pass {
      InOrderKnows(rows, i);
    }
    forall i | 0 <= i < |Results(Existing(rows))| ensures Results(Existing(rows))[i] == Pass {
      assert Results(Existing(rows))[i] == Outcome(Existing(rows), PROBE_KINDS[i]);
    }
    VerifiedIsEarned(Results(Existing(rows)));
  }

  /** Rows of a mimicking adapter are rows of the simulated one. */
  lemma MimickedRows(cfg: Config, s: State)
    requires SourceOk(cfg, s) && !s.dispatched && cfg.outcomes.Some? && Mimics(cfg.adapter, cfg.outcomes.value)
    ensures RowsFrom(Synthetic(cfg.outcomes.value), s.probes)
  {
    var n: nat :| Split(cfg.adapter, RecoveryAdapter(cfg), s.probes, n);
    forall j | 0 <= j < |s.probes| ensures RowFrom(Synthetic(cfg.outcomes.value), s.probes[j]) {
      assert RowFrom(if j < n then cfg.adapter else RecoveryAdapter(cfg), s.probes[j]);
    }
  }

  /** So whoever stopped the run, it is transparent. */
  lemma MimicIsTransparent(cfg: Config, states: seq<State>, steps: seq<Step>, i: nat)
    requires IsTimelyRun(cfg, states, steps) && i < |states| && cfg.outcomes.Some?
    requires Mimics(cfg.adapter, cfg.outcomes.value)
    ensures Transparent(cfg.outcomes.value, states[i])
  {
    var s := states[i];
    InvHolds(cfg, states, steps, i);
    if s.dispatched {
      CrashTransparency(cfg, states, steps, i);
    } else {
      SourceHolds(cfg, states, steps, i);
      MimickedRows(cfg, s);
      RowsDecideVerdict(cfg.outcomes.value, s);
    }
  }

  /** Crash transparency holds of all schedules of a simulated drill's run if and only if the
      request that is accepted is the dispatcher's, or the configured adapter mimics the outcomes. */
  lemma TransparentExactly(cfg: Config, b: bool)
    requires Positive(cfg) && cfg.outcomes.Some?
    ensures AllTransparent(cfg, b) <==> b || Mimics(cfg.adapter, cfg.outcomes.value)
  {
    if b || Mimics(cfg.adapter, cfg.outcomes.value) {
      forall states, steps, i | IsTimelyRun(cfg, states, steps) && AcceptedVia(cfg, states, steps, b)
          && 0 <= i < |states|
        ensures Transparent(cfg.outcomes.value, states[i])
      {
        if b {
          DispatchedIsTransparent(cfg, states, steps, i);
        } else {
          MimicIsTransparent(cfg, states, steps, i);
        }
      }
    } else {
      var states, steps := CompetingRequestBreaksTransparency(cfg);
    }
  }

  // ---- Outside the timing hypothesis ----

  /** When both the first lease and the deadline are over. */
  function Late(cfg: Config): int { if cfg.lease > cfg.deadline then cfg.lease else cfg.deadline }

  /** Late, a recovery worker is at `pc` beside worker 0, which is where it was in `s`. */
  function Beside(cfg: Config, s: State, pc: Pc, work: WorkRow, run: RunRow, until: int): State {
    var rescuer := Worker(pc, Late(cfg), RecoveryAdapter(cfg), true, until, s.run, map[]);
    s.(now := Late(cfg), nextId := 2, run := run, work := Some(work), workers := s.workers[1 := rescuer])
  }

  predicate Moves(cfg: Config, s: State, step: Step, s': State) { Enabled(s, step) && s' == Apply(cfg, s, step) }

  function Rescue(cfg: Config): Step { Work(1, Choice(Late(cfg), Late(cfg), Raise)) }

  function Taken(cfg: Config): WorkRow { WorkRow(EXECUTING, 2, Some(1), Some(Late(cfg) + cfg.lease)) }

  lemma RescueStarts(cfg: Config, s: State, state: ShutdownState)
    requires Positive(cfg) && Holds(cfg, s, First(cfg), state) && !IsTerminal(state)
    ensures var late, held := s.(now := Late(cfg)), Held(cfg, First(cfg));
            && Moves(cfg, s, Tick(Late(cfg)), late)
            && Moves(cfg, late, Recover, Beside(cfg, s, Check, held, s.run, Late(cfg)))
  {
  }

  lemma RescueChecks(cfg: Config, s: State, state: ShutdownState)
    requires Positive(cfg) && Holds(cfg, s, First(cfg), state)
    ensures var held := Held(cfg, First(cfg));
            Moves(cfg, Beside(cfg, s, Check, held, s.run, Late(cfg)), Rescue(cfg),
                  Beside(cfg, s, Claim(ExpireNow), held, s.run, Late(cfg)))
  {
  }

  lemma RescueClaims(cfg: Config, s: State, state: ShutdownState)
    requires Positive(cfg) && Holds(cfg, s, First(cfg), state)
    ensures Moves(cfg, Beside(cfg, s, Claim(ExpireNow), Held(cfg, First(cfg)), s.run, Late(cfg)), Rescue(cfg),
                  Beside(cfg, s, ExpireCommit, Taken(cfg), s.run, Late(cfg) + cfg.lease))
  {
  }

  lemma RescueExpires(cfg: Config, s: State, state: ShutdownState)
    requires Positive(cfg) && Holds(cfg, s, First(cfg), state)
    ensures Moves(cfg, Beside(cfg, s, ExpireCommit, Taken(cfg), s.run, Late(cfg) + cfg.lease), Rescue(cfg),
                  Beside(cfg, s, ExpireEvent, Taken(cfg), s.run.(state := UNKNOWN, stoppedAt := Some(Late(cfg))),
                         Late(cfg) + cfg.lease))
  {
  }

  lemma Moved(cfg: Config, states: seq<State>, steps: seq<Step>, step: Step, s': State)
    returns (ss: seq<State>, how: seq<Step>)
    requires IsRun(cfg, states, steps) && Moves(cfg, states[|steps|], step, s')
    ensures IsRun(cfg, ss, how) && ss[|how|] == s' && ss == states + [s'] && how == steps + [step]
  {
    Extend(cfg, states, steps, step, s');
    ss, how := states + [s'], steps + [step];
  }

  /** Wherever the worker stalls, recovery finds its lease lapsed and the deadline passed, and
      records UNKNOWN beside it. */
  lemma Overtake(cfg: Config, states: seq<State>, steps: seq<Step>, state: ShutdownState)
    returns (ss: seq<State>, how: seq<Step>)
    requires Positive(cfg) && IsRun(cfg, states, steps) && Holds(cfg, states[|steps|], First(cfg), state)
    requires !IsTerminal(state)
    ensures IsRun(cfg, ss, how) && ss[|how|].run.state == UNKNOWN && ss[|how|].now == Late(cfg)
    ensures 0 in ss[|how|].workers && ss[|how|].workers[0] == states[|steps|].workers[0]
  {
    var s, held, until := states[|steps|], Held(cfg, First(cfg)), Late(cfg) + cfg.lease;
    RescueStarts(cfg, s, state);
    RescueChecks(cfg, s, state);
    RescueClaims(cfg, s, state);
    RescueExpires(cfg, s, state);
    ss, how := Moved(cfg, states, steps, Tick(Late(cfg)), s.(now := Late(cfg)));
    ss, how := Moved(cfg, ss, how, Recover, Beside(cfg, s, Check, held, s.run, Late(cfg)));
    ss, how := Moved(cfg, ss, how, Rescue(cfg), Beside(cfg, s, Claim(ExpireNow), held, s.run, Late(cfg)));
    ss, how := Moved(cfg, ss, how, Rescue(cfg), Beside(cfg, s, ExpireCommit, Taken(cfg), s.run, until));
    ss, how := Moved(cfg, ss, how, Rescue(cfg),
                     Beside(cfg, s, ExpireEvent, Taken(cfg), s.run.(state := UNKNOWN, stoppedAt := Some(Late(cfg))),
                            until));
  }

  lemma LateCommit(cfg: Config, s: State, r: Reply)
    requires Positive(cfg) && s.now == Late(cfg) && 0 in s.workers && s.workers[0].since == 0
    requires s.workers[0].pc == Await(0) && r.Ok? && CanReply(s.workers[0].adapter, Fence, r)
    ensures var wake := Work(0, Choice(Late(cfg), Late(cfg), r));
            && Enabled(s, wake) && Enabled(Apply(cfg, s, wake), wake)
            && Apply(cfg, Apply(cfg, s, wake), wake).run.state == FENCING
  {
    var wake := Work(0, Choice(Late(cfg), Late(cfg), r));
    assert Apply(cfg, s, wake).workers[0].pc == Commit(0);
  }

  /** Without the timing hypothesis a verdict can be undone: the fence call outlasts the lease
      and the deadline, recovery records UNKNOWN, and the late worker commits FENCING over it. */
  lemma LapsedLeaseUndoesVerdict(cfg: Config, r: Reply) returns (states: seq<State>, steps: seq<Step>, i: nat)
    requires Positive(cfg) && r.Ok? && CanReply(cfg.adapter, Fence, r)
    ensures IsRun(cfg, states, steps) && i < |states|
    ensures states[i].run.state == UNKNOWN && states[|steps|].run.state == FENCING
  {
    states, steps := ReachInFence(cfg);
    states, steps := Overtake(cfg, states, steps, REQUESTED);
    i := |steps|;
    var wake := Work(0, Choice(Late(cfg), Late(cfg), r));
    LateCommit(cfg, states[i], r);
    var s1 := Apply(cfg, states[i], wake);
    states, steps := Moved(cfg, states, steps, wake, s1);
    states, steps := Moved(cfg, states, steps, wake, Apply(cfg, s1, wake));
  }

  /** The first worker is about to commit VERIFIED. */
  lemma ReachVerdict(cfg: Config, f: Op -> Reply) returns (states: seq<State>, steps: seq<Step>)
    requires Positive(cfg) && Answers(cfg.adapter, f)
    requires forall k :: 0 <= k < |PROBE_KINDS| ==> f(Probe(PROBE_KINDS[k])).result == Pass
    ensures IsTimelyRun(cfg, states, steps) && Holds(cfg, states[|steps|], First(cfg), PROBING)
    ensures states[|steps|].workers[0].pc == TerminalCommit(VERIFIED)
  {
    var rows := Extended([], f, |PROBE_KINDS|);
    ExtendedRows([], f, |PROBE_KINDS|);
    AllPassed(rows);
    states, steps := FirstProbes(cfg, f, |PROBE_KINDS|);
    states, steps := DecideFrom(cfg, states, steps, First(cfg), rows);
  }

  lemma LateVerdict(cfg: Config, s: State)
    requires Positive(cfg) && s.now == Late(cfg) && 0 in s.workers && s.workers[0].since == 0
    requires s.workers[0].pc == TerminalCommit(VERIFIED)
    ensures var wake := Work(0, Choice(Late(cfg), Late(cfg), Raise));
            Enabled(s, wake) && Apply(cfg, s, wake).run.state == VERIFIED
  {
  }

  /** Nor is UNKNOWN safe without it: under any adapter that can answer PASS to all five probes, a
      worker that stalls before its last commit records VERIFIED over the UNKNOWN that recovery
      wrote at the deadline. */
  lemma LateWorkerPromotesUnknown(cfg: Config, f: Op -> Reply) returns (states: seq<State>, steps: seq<Step>, i: nat)
    requires Positive(cfg) && Answers(cfg.adapter, f)
    requires forall k :: 0 <= k < |PROBE_KINDS| ==> f(Probe(PROBE_KINDS[k])).result == Pass
    ensures IsRun(cfg, states, steps) && i < |states|
    ensures states[i].run.state == UNKNOWN && states[|steps|].run.state == VERIFIED
  {
    states, steps := ReachVerdict(cfg, f);
    states, steps := Overtake(cfg, states, steps, PROBING);
    i := |steps|;
    var wake := Work(0, Choice(Late(cfg), Late(cfg), Raise));
    LateVerdict(cfg, states[i]);
    states, steps := Moved(cfg, states, steps, wake, Apply(cfg, states[i], wake));
  }

  /** Such as a fully configured Kubernetes adapter. */
  lemma ClusterCanPass(c: I.Config)
    requires c.namespaceAllowed && c.kafka && c.credential && c.egress
    ensures Answers(Kubernetes(c), op => Typical(Kubernetes(c), CLOSED, op))
    ensures forall k :: 0 <= k < |PROBE_KINDS| ==> Typical(Kubernetes(c), CLOSED, Probe(PROBE_KINDS[k])).result == Pass
  {
    ClosedListsNothing();
    TypicalAnswers(Kubernetes(c), CLOSED);
    forall k | 0 <= k < |PROBE_KINDS| ensures I.KubernetesProbe(c, CLOSED, PROBE_KINDS[k]) == Pass {
      I.PassMeansClosed(c, CLOSED, PROBE_KINDS[k]);
    }
  }

  // ---- What a commit would have to check ----

  /** In every state whatsoever, a phase commit is a legal move exactly when the run row still is
      where the worker left it, or one phase on. */
  lemma PhaseCommitIsLegalExactly(cfg: Config, s: State, t: nat, c: Choice)
    requires t in s.workers && s.workers[t].pc.Commit? && s.workers[t].pc.p <= 3
    ensures LegalMove(s, Advance(cfg, s, t, c)) <==>
              || s.run.state == Phase(s.workers[t].pc.p + 1)
              || (s.run.state == Phase(s.workers[t].pc.p) && s.run.requestedAt.Some?)
  {
  }

  /** The verdict a worker is about to commit, if it is. */
  function Verdict(pc: Pc): Option<ShutdownState> {
    match pc
    case TerminalCommit(v) => Some(v)
    case ExpireCommit => Some(UNKNOWN)
    case FailCommit => Some(FAILED)
    case _ => None
  }

  /** The run row and the probe rows justify this verdict now. */
  ghost predicate Justified(s: State, verdict: ShutdownState) {
    || (s.run.state == PROBING && AllProbed(Existing(s.probes)) && verdict == Aggregate(Results(Existing(s.probes))))
    || (Open(s.run) && verdict == UNKNOWN && Expired(s.run, s.now))
    || (Open(s.run) && verdict == FAILED && HasRaised(s.calls))
  }

  /** In every state whatsoever, a verdict commit is a legal move exactly when the run row already
      holds that verdict, or the verdict is justified. */
  lemma VerdictCommitIsLegalExactly(cfg: Config, s: State, t: nat, c: Choice)
    requires t in s.workers && Verdict(s.workers[t].pc).Some? && IsTerminal(Verdict(s.workers[t].pc).value)
    ensures LegalMove(s, Advance(cfg, s, t, c)) <==>
              var verdict := Verdict(s.workers[t].pc).value; s.run.state == verdict || Justified(s, verdict)
  {
  }

  /** A probe row is saved legally exactly while the run is probing a kind that has no row. */
  lemma ProbeSaveIsLegalExactly(cfg: Config, s: State, t: nat, c: Choice)
    requires t in s.workers && s.workers[t].pc.ProbeSave?
    ensures var row := s.workers[t].pc.row;
            LegalMove(s, Advance(cfg, s, t, c)) <==>
              || (s.run.state == PROBING && row.kind in PROBE_KINDS && row.kind !in Existing(s.probes))
              || (Terminal(s) && row.kind == Restart)
  {
    var s', row := Advance(cfg, s, t, c), s.workers[t].pc.row;
    assert s'.probes == s.probes + [row] && s'.probes[|s.probes|] == row;
    if s.run.state == PROBING && row.kind in PROBE_KINDS && row.kind !in Existing(s.probes) {
      assert SavesProbe(s, s', row);
    }
  }

  /** With a verdict in the row, a worker's step changes it exactly at a phase commit or at the
      commit of another verdict. */
  lemma VerdictChangesExactly(cfg: Config, s: State, t: nat, c: Choice)
    requires Terminal(s) && t in s.workers
    ensures Advance(cfg, s, t, c).run.state != s.run.state <==>
              || s.workers[t].pc.Commit?
              || (Verdict(s.workers[t].pc).Some? && Verdict(s.workers[t].pc).value != s.run.state)
  {
    if !Writes(s.workers[t].pc) {
      ReadersWriteNothing(cfg, s, t, c);
    }
  }
}
