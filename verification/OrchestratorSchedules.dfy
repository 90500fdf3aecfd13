/** Concrete schedules of the orchestrator, for every lease and deadline: one worker driven from
    the request to a chosen place, and what may overtake it there. */
module OrchestratorSchedules {
  import opened Domain
  import I = Integrations
  import opened Orchestrator
  import opened OrchestratorInvariant
  import opened OrchestratorTheorems
  import opened OrchestratorSources

  // ---- Paths ----

  /** A timely step leads from `s` to `s'`. */
  ghost predicate Leads(cfg: Config, s: State, step: Step, s': State) {
    Enabled(s, step) && s' == Apply(cfg, s, step) && InTime(s')
  }

  /** So do `n` repetitions of one step. */
  ghost predicate Repeats(cfg: Config, s: State, step: Step, n: nat, s': State)
    decreases n
  {
    if n == 0 then s' == s else exists mid :: Repeats(cfg, s, step, n - 1, mid) && Leads(cfg, mid, step, s')
  }

  lemma {:induction false} OneMore(cfg: Config, s: State, step: Step, n: nat, mid: State, s': State)
    requires Repeats(cfg, s, step, n, mid) && Leads(cfg, mid, step, s')
    ensures Repeats(cfg, s, step, n + 1, s')
  {
    assert Repeats(cfg, s, step, n + 1 - 1, mid);
  }

  lemma Extend(cfg: Config, states: seq<State>, steps: seq<Step>, step: Step, s': State)
    requires IsRun(cfg, states, steps) && Enabled(states[|steps|], step) && s' == Apply(cfg, states[|steps|], step)
    ensures IsRun(cfg, states + [s'], steps + [step])
    ensures IsTimelyRun(cfg, states, steps) && InTime(s') ==> IsTimelyRun(cfg, states + [s'], steps + [step])
  {
  }

  ghost predicate NoCrash(steps: seq<Step>) { forall i :: 0 <= i < |steps| ==> !steps[i].Crash? }

  lemma {:induction false} ExtendBy(cfg: Config, states: seq<State>, steps: seq<Step>, step: Step, n: nat, s': State)
    returns (ss: seq<State>, how: seq<Step>)
    requires IsTimelyRun(cfg, states, steps) && Repeats(cfg, states[|steps|], step, n, s')
    ensures IsTimelyRun(cfg, ss, how) && ss[|how|] == s' && |how| == |steps| + n
    ensures NoCrash(steps) && !step.Crash? ==> NoCrash(how)
    decreases n
  {
    if n == 0 {
      ss, how := states, steps;
    } else {
      var mid :| Repeats(cfg, states[|steps|], step, n - 1, mid) && Leads(cfg, mid, step, s');
      ss, how := ExtendBy(cfg, states, steps, step, n - 1, mid);
      Extend(cfg, ss, how, step, s');
      ss, how := ss + [s'], how + [step];
    }
  }

  // ---- One worker ----

  /** The public caller's key; it happens to be the text that the dispatcher of drill 0 uses. */
  const KEY: string := "drill:0"

  function Row(cfg: Config, state: ShutdownState): RunRow {
    RunRow(state, Some(0), Some(cfg.deadline), Some(KEY), None)
  }

  /** The one worker there is: its token, the time at which it makes all its steps, its adapter,
      whether it is recovering the run, and the attempt it makes. */
  datatype Actor = Actor(id: nat, now: int, adapter: Adapter, recovering: bool, attempt: nat)

  /** The worker of the public request. */
  function First(cfg: Config): Actor { Actor(0, 0, cfg.adapter, false, 1) }

  predicate Positive(cfg: Config) { cfg.lease > 0 && cfg.deadline > 0 }

  /** It acts before the deadline. */
  predicate Fit(cfg: Config, x: Actor) { Positive(cfg) && 0 <= x.now < cfg.deadline }

  function Held(cfg: Config, x: Actor): WorkRow { WorkRow(EXECUTING, x.attempt, Some(x.id), Some(x.now + cfg.lease)) }

  /** `x` is alone, holds the lease, and the run stands at `state`. */
  ghost predicate Holds(cfg: Config, s: State, x: Actor, state: ShutdownState) {
    && s.now == x.now && s.nextId == x.id + 1 && s.run == Row(cfg, state) && !s.dispatched
    && s.work == Some(Held(cfg, x))
    && x.id in s.workers && s.workers == map[x.id := s.workers[x.id]]
    && s.workers[x.id].since == x.now && s.workers[x.id].adapter == x.adapter
    && s.workers[x.id].recovering == x.recovering && s.workers[x.id].leaseUntil == x.now + cfg.lease
  }

  /** Moreover it is at `pc`, has read the run, and knows the results `e`. */
  ghost predicate Lone(cfg: Config, s: State, x: Actor, pc: Pc, state: ShutdownState, e: map<ProbeKind, ProbeResult>) {
    && Holds(cfg, s, x, state) && s.workers[x.id].pc == pc && s.workers[x.id].existing == e
    && s.workers[x.id].view.deadlineAt == Some(cfg.deadline) && s.workers[x.id].view.state == state
  }

  /** No adapter call and no save raised so far. */
  ghost predicate Quiet(calls: seq<CallRecord>) {
    forall i :: 0 <= i < |calls| ==> !calls[i].Raised? && !calls[i].SaveRaised?
  }

  ghost predicate Kept(s: State, s': State) { s'.probes == s.probes && (Quiet(s.calls) ==> Quiet(s'.calls)) }

  /** The worker's step in which a call, if it awaits one, is answered by `r`. */
  function Go(x: Actor, r: Reply): Step { Work(x.id, Choice(x.now, x.now, r)) }

  function Next(cfg: Config, s: State, x: Actor, r: Reply): State
    requires x.id in s.workers
  {
    Advance(cfg, s, x.id, Choice(x.now, x.now, r))
  }

  // ---- How it comes to hold the lease ----

  const IDLE: RunRow := RunRow(RUNNING, None, None, None, None)

  const BIRTH: State := State(0, 0, IDLE, None, [], map[], [], [], map[], false)

  const FREE: WorkRow := WorkRow(PENDING, 0, None, None)

  /** The public caller's worker before it has read the run. */
  function Starting(cfg: Config, pc: Pc, work: WorkRow, until: int, events: seq<Event>): State {
    State(0, 1, Row(cfg, REQUESTED), Some(work), [], map[], events, [],
          map[0 := Worker(pc, 0, cfg.adapter, false, until, IDLE, map[])], false)
  }

  lemma StartSteps(cfg: Config)
    requires Positive(cfg)
    ensures var s1 := Starting(cfg, Announce, FREE, 0, []);
            var s2 := Starting(cfg, Claim(Fresh), FREE, 0, [ShutdownRequested]);
            var s3 := Starting(cfg, Load, Held(cfg, First(cfg)), cfg.lease, [ShutdownRequested]);
            && Leads(cfg, BIRTH, Request(KEY, false, 0), s1)
            && Leads(cfg, s1, Go(First(cfg), Raise), s2) && Leads(cfg, s2, Go(First(cfg), Raise), s3)
  {
  }

  lemma LoadStep(cfg: Config)
    requires Positive(cfg)
    ensures var s := Starting(cfg, Load, Held(cfg, First(cfg)), cfg.lease, [ShutdownRequested]);
            var s' := Next(cfg, s, First(cfg), Raise);
            && Leads(cfg, s, Go(First(cfg), Raise), s') && Lone(cfg, s', First(cfg), DeadlineCheck, REQUESTED, map[])
            && s'.probes == [] && s'.calls == []
  {
  }

  /** A run of the machine after which `x` is alone at `pc`, nothing was probed and nothing raised. */
  ghost predicate Stands(cfg: Config, states: seq<State>, steps: seq<Step>, x: Actor, pc: Pc, p: nat) {
    && IsTimelyRun(cfg, states, steps) && Lone(cfg, states[|steps|], x, pc, Phase(p), map[])
    && states[|steps|].probes == [] && Quiet(states[|steps|].calls)
  }

  /** The public request, its worker's claim and its first reading of the run. */
  lemma ReachFirst(cfg: Config) returns (states: seq<State>, steps: seq<Step>)
    requires Positive(cfg)
    ensures Stands(cfg, states, steps, First(cfg), DeadlineCheck, 0) && NoCrash(steps)
  {
    var x := First(cfg);
    var s1, s2 := Starting(cfg, Announce, FREE, 0, []), Starting(cfg, Claim(Fresh), FREE, 0, [ShutdownRequested]);
    var s3 := Starting(cfg, Load, Held(cfg, x), cfg.lease, [ShutdownRequested]);
    StartSteps(cfg);
    LoadStep(cfg);
    states := [BIRTH, s1, s2, s3, Next(cfg, s3, x, Raise)];
    steps := [Request(KEY, false, 0), Go(x, Raise), Go(x, Raise), Go(x, Raise)];
  }

  /** Nobody is there, and `x` could recover the run. */
  ghost predicate Vacant(cfg: Config, s: State, x: Actor, state: ShutdownState) {
    && s.now == x.now && s.nextId == x.id && s.run == Row(cfg, state) && !IsTerminal(state) && !s.dispatched
    && s.workers == map[] && x.adapter == RecoveryAdapter(cfg) && x.recovering && x.attempt >= 1
    && s.work.Some? && s.work.value.attempts + 1 == x.attempt && Claimable(s.work.value, x.now)
  }

  /** The recovery worker between its selection and its claim. */
  ghost predicate Arriving(cfg: Config, s: State, x: Actor, pc: Pc, state: ShutdownState, probes: seq<ProbeRow>) {
    && s.now == x.now && s.nextId == x.id + 1 && s.run == Row(cfg, state) && !s.dispatched && s.probes == probes
    && x.id in s.workers && s.workers == map[x.id := s.workers[x.id]]
    && s.workers[x.id] == Worker(pc, x.now, x.adapter, x.recovering, s.workers[x.id].leaseUntil, Row(cfg, state), map[])
    && s.work.Some? && s.work.value.attempts + 1 == x.attempt && Claimable(s.work.value, x.now)
  }

  lemma ArriveSteps(cfg: Config, s: State, x: Actor, state: ShutdownState)
    requires Fit(cfg, x) && Vacant(cfg, s, x, state)
    ensures var s1 := Apply(cfg, s, Recover);
            && Leads(cfg, s, Recover, s1) && Arriving(cfg, s1, x, Check, state, s.probes) && s1.calls == s.calls
  {
  }

  lemma SelectStep(cfg: Config, s: State, x: Actor, state: ShutdownState, probes: seq<ProbeRow>)
    requires Fit(cfg, x) && Arriving(cfg, s, x, Check, state, probes)
    ensures var s' := Next(cfg, s, x, Raise);
            Leads(cfg, s, Go(x, Raise), s') && Arriving(cfg, s', x, Claim(Resume), state, probes) && s'.calls == s.calls
  {
  }

  lemma ClaimStep(cfg: Config, s: State, x: Actor, state: ShutdownState, probes: seq<ProbeRow>)
    requires Fit(cfg, x) && Arriving(cfg, s, x, Claim(Resume), state, probes)
    ensures var s' := Next(cfg, s, x, Raise);
            && Leads(cfg, s, Go(x, Raise), s') && Holds(cfg, s', x, state) && s'.workers[x.id].pc == Load
            && s'.probes == probes && s'.calls == s.calls
  {
  }

  lemma ReadStep(cfg: Config, s: State, x: Actor, state: ShutdownState)
    requires Fit(cfg, x) && Holds(cfg, s, x, state) && s.workers[x.id].pc == Load && x.recovering
    ensures var s' := Next(cfg, s, x, Raise);
            Leads(cfg, s, Go(x, Raise), s') && Lone(cfg, s', x, ResumeEvent, state, Existing(s.probes)) && Kept(s, s')
  {
  }

  lemma ResumeStep(cfg: Config, s: State, x: Actor, state: ShutdownState, e: map<ProbeKind, ProbeResult>)
    requires Fit(cfg, x) && Lone(cfg, s, x, ResumeEvent, state, e)
    ensures var s' := Next(cfg, s, x, Raise);
            Leads(cfg, s, Go(x, Raise), s') && Lone(cfg, s', x, DeadlineCheck, state, e) && Kept(s, s')
  {
  }

  /** Recovery takes over: select, claim, read, announce. */
  lemma TakeOver(cfg: Config, states: seq<State>, steps: seq<Step>, x: Actor, state: ShutdownState)
    returns (ss: seq<State>, how: seq<Step>)
    requires Fit(cfg, x) && IsTimelyRun(cfg, states, steps) && Vacant(cfg, states[|steps|], x, state)
    ensures IsTimelyRun(cfg, ss, how) && Kept(states[|steps|], ss[|how|])
    ensures Lone(cfg, ss[|how|], x, DeadlineCheck, state, Existing(states[|steps|].probes))
  {
    var s := states[|steps|];
    ArriveSteps(cfg, s, x, state);
    var s1 := Apply(cfg, s, Recover);
    Extend(cfg, states, steps, Recover, s1);
    ss, how := states + [s1], steps + [Recover];
    var s3 := ArriveAndClaim(cfg, s1, x, state, s.probes);
    ss, how := ExtendBy(cfg, ss, how, Go(x, Raise), 2, s3);
    ReadStep(cfg, s3, x, state);
    var s4 := Next(cfg, s3, x, Raise);
    ResumeStep(cfg, s4, x, state, Existing(s.probes));
    var s5 := Next(cfg, s4, x, Raise);
    TwoRepeats(cfg, s3, Go(x, Raise), s4, s5);
    ss, how := ExtendBy(cfg, ss, how, Go(x, Raise), 2, s5);
  }

  lemma ArriveAndClaim(cfg: Config, s: State, x: Actor, state: ShutdownState, probes: seq<ProbeRow>) returns (s': State)
    requires Fit(cfg, x) && Arriving(cfg, s, x, Check, state, probes)
    ensures Repeats(cfg, s, Go(x, Raise), 2, s') && Holds(cfg, s', x, state) && s'.workers[x.id].pc == Load
    ensures s'.probes == probes && s'.calls == s.calls
  {
    SelectStep(cfg, s, x, state, probes);
    var mid := Next(cfg, s, x, Raise);
    ClaimStep(cfg, mid, x, state, probes);
    s' := Next(cfg, mid, x, Raise);
    TwoRepeats(cfg, s, Go(x, Raise), mid, s');
  }

  lemma TwoRepeats(cfg: Config, s: State, step: Step, mid: State, s': State)
    requires Leads(cfg, s, step, mid) && Leads(cfg, mid, step, s')
    ensures Repeats(cfg, s, step, 2, s')
  {
    assert Repeats(cfg, s, step, 0, s);
    OneMore(cfg, s, step, 0, s, mid);
    OneMore(cfg, s, step, 1, mid, s');
  }

  /** The worker that recovers a run whose first worker died before it claimed the work. */
  function Heir(cfg: Config): Actor { Actor(1, 0, RecoveryAdapter(cfg), true, 1) }

  /** The public caller's worker dies before its claim, and recovery takes over at once. */
  lemma ReachHeir(cfg: Config) returns (states: seq<State>, steps: seq<Step>)
    requires Positive(cfg)
    ensures Stands(cfg, states, steps, Heir(cfg), DeadlineCheck, 0)
  {
    states, steps := ReachDeath(cfg);
    states, steps := TakeOver(cfg, states, steps, Heir(cfg), REQUESTED);
  }

  lemma ReachDeath(cfg: Config) returns (states: seq<State>, steps: seq<Step>)
    requires Positive(cfg)
    ensures IsTimelyRun(cfg, states, steps) && Vacant(cfg, states[|steps|], Heir(cfg), REQUESTED)
    ensures states[|steps|].probes == [] && states[|steps|].calls == []
  {
    StartSteps(cfg);
    var s1 := Starting(cfg, Announce, FREE, 0, []);
    var dead := s1.(workers := map[]);
    assert Leads(cfg, s1, Crash, dead);
    states, steps := [BIRTH, s1, dead], [Request(KEY, false, 0), Crash];
  }

  // ---- Its single steps ----

  lemma CheckStep(cfg: Config, s: State, x: Actor, r: Reply, state: ShutdownState, e: map<ProbeKind, ProbeResult>)
    requires Fit(cfg, x) && Lone(cfg, s, x, DeadlineCheck, state, e)
    ensures var s' := Next(cfg, s, x, r);
            Leads(cfg, s, Go(x, r), s') && Lone(cfg, s', x, EntryPoint(state), state, e) && Kept(s, s')
  {
  }

  lemma RenewStep(cfg: Config, s: State, x: Actor, r: Reply, p: nat, state: ShutdownState)
    requires Fit(cfg, x) && Lone(cfg, s, x, Renew(p), state, map[])
    ensures var s' := Next(cfg, s, x, r);
            Leads(cfg, s, Go(x, r), s') && Lone(cfg, s', x, Invoke(p), state, map[]) && Kept(s, s')
  {
  }

  lemma InvokeStep(cfg: Config, s: State, x: Actor, r: Reply, p: nat, state: ShutdownState)
    requires Fit(cfg, x) && Lone(cfg, s, x, Invoke(p), state, map[])
    ensures var s' := Next(cfg, s, x, r);
            Leads(cfg, s, Go(x, r), s') && Lone(cfg, s', x, Await(p), state, map[]) && Kept(s, s')
  {
  }

  lemma AwaitStep(cfg: Config, s: State, x: Actor, r: Reply, p: nat, state: ShutdownState)
    requires Fit(cfg, x) && Lone(cfg, s, x, Await(p), state, map[]) && r.Ok? && CanReply(x.adapter, PhaseOp(p), r)
    ensures var s' := Next(cfg, s, x, r);
            Leads(cfg, s, Go(x, r), s') && Lone(cfg, s', x, AfterCall(p, r), state, map[]) && Kept(s, s')
  {
  }

  lemma SaveStep(cfg: Config, s: State, x: Actor, r: Reply, world: I.World, children: seq<I.Child>,
                 state: ShutdownState)
    requires Fit(cfg, x) && Lone(cfg, s, x, SaveJobs(world, children), state, map[])
    ensures var s' := Next(cfg, s, x, r);
            && Leads(cfg, s, Go(x, r), s') && s'.probes == s.probes
            && s'.calls == (if I.Savable(children) then s.calls else s.calls + [SaveRaised(world, children)])
            && Lone(cfg, s', x, if I.Savable(children) then Commit(2) else FailWork, state, map[])
  {
  }

  lemma CommitStep(cfg: Config, s: State, x: Actor, r: Reply, p: nat)
    requires Fit(cfg, x) && p <= 3 && Lone(cfg, s, x, Commit(p), Phase(p), map[])
    ensures var s' := Next(cfg, s, x, r);
            && Leads(cfg, s, Go(x, r), s') && Kept(s, s')
            && Holds(cfg, s', x, Phase(p + 1)) && s'.workers[x.id].pc == PhaseEvent(p)
  {
  }

  lemma EventStep(cfg: Config, s: State, x: Actor, r: Reply, p: nat)
    requires Fit(cfg, x) && Holds(cfg, s, x, Phase(p + 1)) && s.workers[x.id].pc == PhaseEvent(p)
    ensures var s' := Next(cfg, s, x, r);
            && Leads(cfg, s, Go(x, r), s') && Kept(s, s')
            && Holds(cfg, s', x, Phase(p + 1)) && s'.workers[x.id].pc == Reload(p + 1)
  {
  }

  lemma ReloadStep(cfg: Config, s: State, x: Actor, r: Reply, p: nat)
    requires Fit(cfg, x) && Holds(cfg, s, x, Phase(p)) && s.workers[x.id].pc == Reload(p) && s.probes == []
    ensures var s' := Next(cfg, s, x, r);
            Leads(cfg, s, Go(x, r), s') && Kept(s, s') && Lone(cfg, s', x, PhaseEntry(p), Phase(p), map[])
  {
  }

  lemma HeadStep(cfg: Config, s: State, x: Actor, r: Reply, i: nat, e: map<ProbeKind, ProbeResult>)
    requires Fit(cfg, x) && Lone(cfg, s, x, ProbeNext(i), PROBING, e)
    ensures var s' := Next(cfg, s, x, r);
            && Leads(cfg, s, Go(x, r), s') && Kept(s, s')
            && Lone(cfg, s', x, if i >= |PROBE_KINDS| then Decide
                                else if PROBE_KINDS[i] in e then ProbeNext(i + 1) else ProbeRenew(i), PROBING, e)
  {
    var w := s.workers[x.id];
    var pc := if i >= |PROBE_KINDS| then Decide else if PROBE_KINDS[i] in e then ProbeNext(i + 1) else ProbeRenew(i);
    HeadIs(cfg, s, x, r, i);
    PutLone(cfg, s, x, ProbeNext(i), pc, PROBING, e);
    assert Enabled(s, Go(x, r)) && Put(s, x.id, w, pc) == Apply(cfg, s, Go(x, r));
  }

  lemma HeadIs(cfg: Config, s: State, x: Actor, r: Reply, i: nat)
    requires x.id in s.workers && s.workers[x.id].pc == ProbeNext(i) && !Expired(s.workers[x.id].view, s.now)
    ensures var w := s.workers[x.id];
            var pc := if i >= |PROBE_KINDS| then Decide
                      else if PROBE_KINDS[i] in w.existing then ProbeNext(i + 1) else ProbeRenew(i);
            Next(cfg, s, x, r) == Put(s, x.id, w, pc)
  {
    assert Next(cfg, s, x, r) == AdvanceProbe(cfg, s, x.id, s.workers[x.id], Choice(x.now, x.now, r));
  }

  /** A step that only moves the worker on. */
  lemma PutLone(cfg: Config, s: State, x: Actor, pc: Pc, pc': Pc, state: ShutdownState, e: map<ProbeKind, ProbeResult>)
    requires Fit(cfg, x) && Lone(cfg, s, x, pc, state, e)
    ensures var s' := Put(s, x.id, s.workers[x.id], pc');
            InTime(s') && Kept(s, s') && Lone(cfg, s', x, pc', state, e)
  {
  }

  lemma ProbeRenewStep(cfg: Config, s: State, x: Actor, r: Reply, i: nat, e: map<ProbeKind, ProbeResult>)
    requires Fit(cfg, x) && Lone(cfg, s, x, ProbeRenew(i), PROBING, e)
    ensures var s' := Next(cfg, s, x, r);
            Leads(cfg, s, Go(x, r), s') && Lone(cfg, s', x, ProbeInvoke(i), PROBING, e) && Kept(s, s')
  {
    assert Next(cfg, s, x, r) == AdvanceProbe(cfg, s, x.id, s.workers[x.id], Choice(x.now, x.now, r));
  }

  lemma ProbeInvokeStep(cfg: Config, s: State, x: Actor, r: Reply, i: nat, e: map<ProbeKind, ProbeResult>)
    requires Fit(cfg, x) && Lone(cfg, s, x, ProbeInvoke(i), PROBING, e) && i < |PROBE_KINDS|
    ensures var s' := Next(cfg, s, x, r);
            Leads(cfg, s, Go(x, r), s') && Lone(cfg, s', x, ProbeAwait(i), PROBING, e) && Kept(s, s')
  {
    assert Next(cfg, s, x, r) == AdvanceProbe(cfg, s, x.id, s.workers[x.id], Choice(x.now, x.now, r));
  }

  lemma ProbeAwaitStep(cfg: Config, s: State, x: Actor, r: Reply, i: nat, e: map<ProbeKind, ProbeResult>)
    requires Fit(cfg, x) && Lone(cfg, s, x, ProbeAwait(i), PROBING, e) && i < |PROBE_KINDS| && r.Ok?
    requires CanReply(x.adapter, Probe(PROBE_KINDS[i]), r)
    ensures var s', row := Next(cfg, s, x, r), ProbeRow(PROBE_KINDS[i], r.result, r.world);
            && Leads(cfg, s, Go(x, r), s') && Kept(s, s')
            && Lone(cfg, s', x, ProbeSave(i, row), PROBING, e[row.kind := row.result])
  {
    assert Next(cfg, s, x, r) == AdvanceProbe(cfg, s, x.id, s.workers[x.id], Choice(x.now, x.now, r));
  }

  lemma ProbeSaveStep(cfg: Config, s: State, x: Actor, r: Reply, i: nat, row: ProbeRow, e: map<ProbeKind, ProbeResult>)
    requires Fit(cfg, x) && Lone(cfg, s, x, ProbeSave(i, row), PROBING, e)
    ensures var s' := Next(cfg, s, x, r);
            && Leads(cfg, s, Go(x, r), s') && Lone(cfg, s', x, ProbeEvent(i, row), PROBING, e)
            && s'.probes == s.probes + [row] && s'.calls == s.calls
  {
    assert Next(cfg, s, x, r) == AdvanceProbe(cfg, s, x.id, s.workers[x.id], Choice(x.now, x.now, r));
  }

  lemma ProbeEventStep(cfg: Config, s: State, x: Actor, r: Reply, i: nat, row: ProbeRow, e: map<ProbeKind, ProbeResult>)
    requires Fit(cfg, x) && Lone(cfg, s, x, ProbeEvent(i, row), PROBING, e)
    ensures var s' := Next(cfg, s, x, r);
            Leads(cfg, s, Go(x, r), s') && Lone(cfg, s', x, ProbeNext(i + 1), PROBING, e) && Kept(s, s')
  {
    assert Next(cfg, s, x, r) == AdvanceProbe(cfg, s, x.id, s.workers[x.id], Choice(x.now, x.now, r));
  }

  lemma DecideStep(cfg: Config, s: State, x: Actor, r: Reply, e: map<ProbeKind, ProbeResult>)
    requires Fit(cfg, x) && Lone(cfg, s, x, Decide, PROBING, e)
    ensures var s' := Next(cfg, s, x, r);
            && Leads(cfg, s, Go(x, r), s') && Kept(s, s')
            && Lone(cfg, s', x, TerminalCommit(Aggregate(Results(e))), PROBING, e)
  {
  }

  // ---- Its rounds ----

  /** Renew, call, return: three steps. */
  lemma CallRound(cfg: Config, s: State, x: Actor, r: Reply, p: nat, state: ShutdownState) returns (s': State)
    requires Fit(cfg, x) && Lone(cfg, s, x, Renew(p), state, map[]) && r.Ok? && CanReply(x.adapter, PhaseOp(p), r)
    ensures Repeats(cfg, s, Go(x, r), 3, s') && Lone(cfg, s', x, AfterCall(p, r), state, map[]) && Kept(s, s')
  {
    RenewStep(cfg, s, x, r, p, state);
    var s1 := Next(cfg, s, x, r);
    InvokeStep(cfg, s1, x, r, p, state);
    var s2 := Next(cfg, s1, x, r);
    AwaitStep(cfg, s2, x, r, p, state);
    s' := Next(cfg, s2, x, r);
    TwoRepeats(cfg, s, Go(x, r), s1, s2);
    OneMore(cfg, s, Go(x, r), 2, s2, s');
  }

  /** Commit the next phase, record it, read the run: three steps. */
  lemma CommitRound(cfg: Config, s: State, x: Actor, r: Reply, p: nat) returns (s': State)
    requires Fit(cfg, x) && p <= 3 && Lone(cfg, s, x, Commit(p), Phase(p), map[]) && s.probes == []
    ensures Repeats(cfg, s, Go(x, r), 3, s') && Lone(cfg, s', x, PhaseEntry(p + 1), Phase(p + 1), map[]) && Kept(s, s')
  {
    CommitStep(cfg, s, x, r, p);
    var s1 := Next(cfg, s, x, r);
    EventStep(cfg, s1, x, r, p);
    var s2 := Next(cfg, s1, x, r);
    ReloadStep(cfg, s2, x, r, p + 1);
    s' := Next(cfg, s2, x, r);
    TwoRepeats(cfg, s, Go(x, r), s1, s2);
    OneMore(cfg, s, Go(x, r), 2, s2, s');
  }

  /** From the head of the probe loop to an answered call: four steps. */
  lemma AskRound(cfg: Config, s: State, x: Actor, r: Reply, i: nat, e: map<ProbeKind, ProbeResult>) returns (s': State)
    requires Fit(cfg, x) && Lone(cfg, s, x, ProbeNext(i), PROBING, e) && i < |PROBE_KINDS| && PROBE_KINDS[i] !in e
    requires r.Ok? && CanReply(x.adapter, Probe(PROBE_KINDS[i]), r)
    ensures Repeats(cfg, s, Go(x, r), 4, s') && Kept(s, s')
    ensures var row := ProbeRow(PROBE_KINDS[i], r.result, r.world);
            Lone(cfg, s', x, ProbeSave(i, row), PROBING, e[row.kind := row.result])
  {
    HeadStep(cfg, s, x, r, i, e);
    var s1 := Next(cfg, s, x, r);
    ProbeRenewStep(cfg, s1, x, r, i, e);
    var s2 := Next(cfg, s1, x, r);
    ProbeInvokeStep(cfg, s2, x, r, i, e);
    var s3 := Next(cfg, s2, x, r);
    ProbeAwaitStep(cfg, s3, x, r, i, e);
    s' := Next(cfg, s3, x, r);
    TwoRepeats(cfg, s, Go(x, r), s1, s2);
    OneMore(cfg, s, Go(x, r), 2, s2, s3);
    OneMore(cfg, s, Go(x, r), 3, s3, s');
  }

  /** One whole probe: six steps. */
  lemma ProbeRound(cfg: Config, s: State, x: Actor, r: Reply, i: nat, e: map<ProbeKind, ProbeResult>)
    returns (s': State)
    requires Fit(cfg, x) && Lone(cfg, s, x, ProbeNext(i), PROBING, e) && i < |PROBE_KINDS| && PROBE_KINDS[i] !in e
    requires r.Ok? && CanReply(x.adapter, Probe(PROBE_KINDS[i]), r)
    ensures Repeats(cfg, s, Go(x, r), 6, s') && (Quiet(s.calls) ==> Quiet(s'.calls))
    ensures var row := ProbeRow(PROBE_KINDS[i], r.result, r.world);
            Lone(cfg, s', x, ProbeNext(i + 1), PROBING, e[row.kind := row.result]) && s'.probes == s.probes + [row]
  {
    var row, e' := ProbeRow(PROBE_KINDS[i], r.result, r.world), e[PROBE_KINDS[i] := r.result];
    var s1 := AskRound(cfg, s, x, r, i, e);
    ProbeSaveStep(cfg, s1, x, r, i, row, e');
    var s2 := Next(cfg, s1, x, r);
    ProbeEventStep(cfg, s2, x, r, i, row, e');
    s' := Next(cfg, s2, x, r);
    OneMore(cfg, s, Go(x, r), 4, s1, s2);
    OneMore(cfg, s, Go(x, r), 5, s2, s');
  }

  // ---- Places it can reach ----

  /** The answers `f` are such as `a` can give, and none of them stops the worker. */
  ghost predicate Answers(a: Adapter, f: Op -> Reply) {
    && (forall op :: op in {Fence, StopProcess, Discover} ==> f(op).Ok? && CanReply(a, op, f(op)))
    && I.Savable(f(Discover).children)
    && forall i :: 0 <= i < |PROBE_KINDS| ==> AnswersProbe(a, f, PROBE_KINDS[i])
  }

  predicate AnswersProbe(a: Adapter, f: Op -> Reply, kind: ProbeKind) {
    f(Probe(kind)).Ok? && CanReply(a, Probe(kind), f(Probe(kind)))
  }

  /** One step more. */
  lemma StepFrom(cfg: Config, states: seq<State>, steps: seq<Step>, x: Actor, r: Reply, s': State)
    returns (ss: seq<State>, how: seq<Step>)
    requires IsTimelyRun(cfg, states, steps) && Leads(cfg, states[|steps|], Go(x, r), s')
    ensures IsTimelyRun(cfg, ss, how) && ss[|how|] == s' && (NoCrash(steps) ==> NoCrash(how))
  {
    Extend(cfg, states, steps, Go(x, r), s');
    ss, how := states + [s'], steps + [Go(x, r)];
  }

  /** The deadline is not over: into the phases. */
  lemma EnterFrom(cfg: Config, states: seq<State>, steps: seq<Step>, x: Actor) returns (ss: seq<State>, how: seq<Step>)
    requires Fit(cfg, x) && Stands(cfg, states, steps, x, DeadlineCheck, 0)
    ensures Stands(cfg, ss, how, x, Renew(0), 0) && (NoCrash(steps) ==> NoCrash(how))
  {
    CheckStep(cfg, states[|steps|], x, Raise, REQUESTED, map[]);
    ss, how := StepFrom(cfg, states, steps, x, Raise, Next(cfg, states[|steps|], x, Raise));
  }

  /** Waiting for the fence call. */
  lemma ReachInFence(cfg: Config) returns (states: seq<State>, steps: seq<Step>)
    requires Positive(cfg)
    ensures Stands(cfg, states, steps, First(cfg), Await(0), 0) && NoCrash(steps)
  {
    var x := First(cfg);
    states, steps := ReachFirst(cfg);
    states, steps := EnterFrom(cfg, states, steps, x);
    var s := states[|steps|];
    RenewStep(cfg, s, x, Raise, 0, REQUESTED);
    var s1 := Next(cfg, s, x, Raise);
    InvokeStep(cfg, s1, x, Raise, 0, REQUESTED);
    var s2 := Next(cfg, s1, x, Raise);
    TwoRepeats(cfg, s, Go(x, Raise), s1, s2);
    states, steps := ExtendBy(cfg, states, steps, Go(x, Raise), 2, s2);
  }

  lemma CallFrom(cfg: Config, states: seq<State>, steps: seq<Step>, x: Actor, r: Reply, p: nat)
    returns (ss: seq<State>, how: seq<Step>)
    requires Fit(cfg, x) && Stands(cfg, states, steps, x, Renew(p), p) && r.Ok? && CanReply(x.adapter, PhaseOp(p), r)
    ensures Stands(cfg, ss, how, x, AfterCall(p, r), p) && (NoCrash(steps) ==> NoCrash(how))
  {
    var s' := CallRound(cfg, states[|steps|], x, r, p, Phase(p));
    ss, how := ExtendBy(cfg, states, steps, Go(x, r), 3, s');
  }

  lemma CommitFrom(cfg: Config, states: seq<State>, steps: seq<Step>, x: Actor, p: nat)
    returns (ss: seq<State>, how: seq<Step>)
    requires Fit(cfg, x) && p <= 3 && Stands(cfg, states, steps, x, Commit(p), p)
    ensures Stands(cfg, ss, how, x, PhaseEntry(p + 1), p + 1) && (NoCrash(steps) ==> NoCrash(how))
  {
    var s' := CommitRound(cfg, states[|steps|], x, Raise, p);
    ss, how := ExtendBy(cfg, states, steps, Go(x, Raise), 3, s');
  }

  /** Fenced, stopped, discovered: about to save what the discovery reported. */
  lemma SaveFrom(cfg: Config, states: seq<State>, steps: seq<Step>, x: Actor, fence: Reply, stop: Reply, found: Reply)
    returns (ss: seq<State>, how: seq<Step>)
    requires Fit(cfg, x) && Stands(cfg, states, steps, x, DeadlineCheck, 0) && fence.Ok? && stop.Ok? && found.Ok?
    requires CanReply(x.adapter, Fence, fence) && CanReply(x.adapter, StopProcess, stop)
             && CanReply(x.adapter, Discover, found)
    ensures Stands(cfg, ss, how, x, SaveJobs(found.world, found.children), 2) && (NoCrash(steps) ==> NoCrash(how))
  {
    ss, how := EnterFrom(cfg, states, steps, x);
    ss, how := CallFrom(cfg, ss, how, x, fence, 0);
    ss, how := CommitFrom(cfg, ss, how, x, 0);
    ss, how := CallFrom(cfg, ss, how, x, stop, 1);
    ss, how := CommitFrom(cfg, ss, how, x, 1);
    ss, how := CallFrom(cfg, ss, how, x, found, 2);
  }

  /** About to run the first probe. */
  lemma ProbingFrom(cfg: Config, states: seq<State>, steps: seq<Step>, x: Actor, f: Op -> Reply)
    returns (ss: seq<State>, how: seq<Step>)
    requires Fit(cfg, x) && Stands(cfg, states, steps, x, DeadlineCheck, 0) && Answers(x.adapter, f)
    ensures Stands(cfg, ss, how, x, ProbeNext(0), 4) && (NoCrash(steps) ==> NoCrash(how))
  {
    ss, how := SaveFrom(cfg, states, steps, x, f(Fence), f(StopProcess), f(Discover));
    SaveStep(cfg, ss[|how|], x, Raise, f(Discover).world, f(Discover).children, PROCESS_STOP_SENT);
    ss, how := StepFrom(cfg, ss, how, x, Raise, Next(cfg, ss[|how|], x, Raise));
    ss, how := CommitFrom(cfg, ss, how, x, 2);
    ss, how := CommitFrom(cfg, ss, how, x, 3);
  }

  // ---- Probes ----

  function RowOfAnswer(f: Op -> Reply, kind: ProbeKind): ProbeRow
    requires f(Probe(kind)).Ok?
  {
    ProbeRow(kind, f(Probe(kind)).result, f(Probe(kind)).world)
  }

  /** A run after which `x` is at the head of the probe loop at `i`, with exactly `rows` durable. */
  ghost predicate Probes(cfg: Config, states: seq<State>, steps: seq<Step>, x: Actor, i: nat, rows: seq<ProbeRow>) {
    && IsTimelyRun(cfg, states, steps) && Lone(cfg, states[|steps|], x, ProbeNext(i), PROBING, Existing(rows))
    && states[|steps|].probes == rows && InOrder(rows) && Quiet(states[|steps|].calls)
  }

  /** Durable kinds are skipped. */
  lemma {:induction false} SkipTo(cfg: Config, states: seq<State>, steps: seq<Step>, x: Actor, rows: seq<ProbeRow>,
                                  i: nat)
    returns (ss: seq<State>, how: seq<Step>)
    requires Fit(cfg, x) && Probes(cfg, states, steps, x, i, rows) && i <= |rows|
    ensures Probes(cfg, ss, how, x, |rows|, rows) && (NoCrash(steps) ==> NoCrash(how))
    decreases |rows| - i
  {
    ss, how := states, steps;
    if i < |rows| {
      InOrderKnows(rows, i);
      HeadStep(cfg, states[|steps|], x, Raise, i, Existing(rows));
      ss, how := StepFrom(cfg, states, steps, x, Raise, Next(cfg, states[|steps|], x, Raise));
      ss, how := SkipTo(cfg, ss, how, x, rows, i + 1);
    }
  }

  /** One boundary more. */
  lemma ProbeOne(cfg: Config, states: seq<State>, steps: seq<Step>, x: Actor, f: Op -> Reply, i: nat,
                 rows: seq<ProbeRow>, more: seq<ProbeRow>)
    returns (ss: seq<State>, how: seq<Step>)
    requires Fit(cfg, x) && Probes(cfg, states, steps, x, i, rows) && i == |rows| < |PROBE_KINDS|
    requires AnswersProbe(x.adapter, f, PROBE_KINDS[i]) && more == rows + [RowOfAnswer(f, PROBE_KINDS[i])]
    ensures Probes(cfg, ss, how, x, i + 1, more) && (NoCrash(steps) ==> NoCrash(how))
  {
    var r := f(Probe(PROBE_KINDS[i]));
    OneRowMore(rows, RowOfAnswer(f, PROBE_KINDS[i]));
    var s' := ProbeRound(cfg, states[|steps|], x, r, i, Existing(rows));
    ss, how := ExtendBy(cfg, states, steps, Go(x, r), 6, s');
  }

  lemma {:induction false} OneRowMore(rows: seq<ProbeRow>, row: ProbeRow)
    requires InOrder(rows) && |rows| < |PROBE_KINDS| && row.kind == PROBE_KINDS[|rows|]
    ensures row.kind !in Existing(rows) && InOrder(rows + [row])
    ensures Existing(rows + [row]) == Existing(rows)[row.kind := row.result]
  {
    InOrderKnows(rows, |rows|);
    ExistingGrows(rows, row);
  }

  /** `rows`, and the answers of `f` for the boundaries up to `n`. */
  function Extended(rows: seq<ProbeRow>, f: Op -> Reply, n: nat): seq<ProbeRow>
    requires n <= |PROBE_KINDS| && forall i :: 0 <= i < |PROBE_KINDS| ==> f(Probe(PROBE_KINDS[i])).Ok?
  {
    if n <= |rows| then rows else Extended(rows, f, n - 1) + [RowOfAnswer(f, PROBE_KINDS[n - 1])]
  }

  lemma {:induction false} ExtendedRows(rows: seq<ProbeRow>, f: Op -> Reply, n: nat)
    requires InOrder(rows) && n <= |PROBE_KINDS| && forall i :: 0 <= i < |PROBE_KINDS| ==> f(Probe(PROBE_KINDS[i])).Ok?
    ensures |Extended(rows, f, n)| == (if n <= |rows| then |rows| else n) && InOrder(Extended(rows, f, n))
    ensures forall j :: 0 <= j < |Extended(rows, f, n)| ==>
                          Extended(rows, f, n)[j] == if j < |rows| then rows[j] else RowOfAnswer(f, PROBE_KINDS[j])
  {
    if n > |rows| {
      ExtendedRows(rows, f, n - 1);
    }
  }

  /** The worker probes on, up to boundary `n`. */
  lemma {:induction false} ProbeTo(cfg: Config, states: seq<State>, steps: seq<Step>, x: Actor, f: Op -> Reply,
                                   rows: seq<ProbeRow>, n: nat)
    returns (ss: seq<State>, how: seq<Step>)
    requires Fit(cfg, x) && Probes(cfg, states, steps, x, |rows|, rows) && |rows| <= n <= |PROBE_KINDS|
    requires Answers(x.adapter, f)
    ensures Probes(cfg, ss, how, x, n, Extended(rows, f, n)) && (NoCrash(steps) ==> NoCrash(how))
    decreases n
  {
    ss, how := states, steps;
    if n > |rows| {
      ss, how := ProbeTo(cfg, states, steps, x, f, rows, n - 1);
      ExtendedNext(rows, f, n);
      assert AnswersProbe(x.adapter, f, PROBE_KINDS[n - 1]);
      ss, how := ProbeOne(cfg, ss, how, x, f, n - 1, Extended(rows, f, n - 1), Extended(rows, f, n));
    }
  }

  lemma {:induction false} ExtendedNext(rows: seq<ProbeRow>, f: Op -> Reply, n: nat)
    requires InOrder(rows) && |rows| < n <= |PROBE_KINDS|
    requires forall i :: 0 <= i < |PROBE_KINDS| ==> f(Probe(PROBE_KINDS[i])).Ok?
    ensures |Extended(rows, f, n - 1)| == n - 1
    ensures Extended(rows, f, n) == Extended(rows, f, n - 1) + [RowOfAnswer(f, PROBE_KINDS[n - 1])]
  {
    ExtendedRows(rows, f, n - 1);
  }

  /** All probes done: about to commit the verdict. */
  lemma DecideFrom(cfg: Config, states: seq<State>, steps: seq<Step>, x: Actor, rows: seq<ProbeRow>)
    returns (ss: seq<State>, how: seq<Step>)
    requires Fit(cfg, x) && Probes(cfg, states, steps, x, |PROBE_KINDS|, rows)
    ensures IsTimelyRun(cfg, ss, how) && ss[|how|].probes == rows && Quiet(ss[|how|].calls)
    ensures Lone(cfg, ss[|how|], x, TerminalCommit(Aggregate(Results(Existing(rows)))), PROBING, Existing(rows))
    ensures NoCrash(steps) ==> NoCrash(how)
  {
    var s := states[|steps|];
    HeadStep(cfg, s, x, Raise, |PROBE_KINDS|, Existing(rows));
    var s1 := Next(cfg, s, x, Raise);
    DecideStep(cfg, s1, x, Raise, Existing(rows));
    TwoRepeats(cfg, s, Go(x, Raise), s1, Next(cfg, s1, x, Raise));
    ss, how := ExtendBy(cfg, states, steps, Go(x, Raise), 2, Next(cfg, s1, x, Raise));
  }

  lemma VerdictStep(cfg: Config, s: State, x: Actor, v: ShutdownState, e: map<ProbeKind, ProbeResult>)
    requires Fit(cfg, x) && Lone(cfg, s, x, TerminalCommit(v), PROBING, e)
    ensures var s' := Next(cfg, s, x, Raise);
            && Leads(cfg, s, Go(x, Raise), s') && s'.run == Row(cfg, v).(stoppedAt := Some(x.now)) && !s'.dispatched
            && s'.probes == s.probes && s'.calls == s.calls && s'.now == x.now
  {
  }

  /** A finished run: its verdict is the aggregate of `rows`, reached before the deadline, and no
      call raised. */
  ghost predicate Finished(cfg: Config, states: seq<State>, steps: seq<Step>, x: Actor, rows: seq<ProbeRow>) {
    && IsTimelyRun(cfg, states, steps) && Concluded(cfg, states[|steps|], x, rows)
  }

  ghost predicate Concluded(cfg: Config, s: State, x: Actor, rows: seq<ProbeRow>) {
    && s.run == Row(cfg, Aggregate(Results(Existing(rows)))).(stoppedAt := Some(x.now))
    && s.probes == rows && Quiet(s.calls) && !s.dispatched && s.now == x.now
  }

  lemma FinishFrom(cfg: Config, states: seq<State>, steps: seq<Step>, x: Actor, rows: seq<ProbeRow>)
    returns (ss: seq<State>, how: seq<Step>)
    requires Fit(cfg, x) && Probes(cfg, states, steps, x, |PROBE_KINDS|, rows)
    ensures Finished(cfg, ss, how, x, rows) && (NoCrash(steps) ==> NoCrash(how))
  {
    ss, how := DecideFrom(cfg, states, steps, x, rows);
    var s, v := ss[|how|], Aggregate(Results(Existing(rows)));
    VerdictStep(cfg, s, x, v, Existing(rows));
    ss, how := StepFrom(cfg, ss, how, x, Raise, Next(cfg, s, x, Raise));
  }

  /** The public caller's worker carries the run to the head of the loop at boundary `n`. */
  lemma FirstProbes(cfg: Config, f: Op -> Reply, n: nat) returns (states: seq<State>, steps: seq<Step>)
    requires Positive(cfg) && Answers(cfg.adapter, f) && n <= |PROBE_KINDS|
    ensures Probes(cfg, states, steps, First(cfg), n, Extended([], f, n)) && NoCrash(steps)
  {
    states, steps := ReachFirst(cfg);
    states, steps := ProbingFrom(cfg, states, steps, First(cfg), f);
    states, steps := ProbeTo(cfg, states, steps, First(cfg), f, [], n);
  }

  /** Undisturbed, it finishes the run. */
  lemma FirstFinishes(cfg: Config, f: Op -> Reply) returns (states: seq<State>, steps: seq<Step>)
    requires Positive(cfg) && Answers(cfg.adapter, f)
    ensures Finished(cfg, states, steps, First(cfg), Extended([], f, |PROBE_KINDS|)) && NoCrash(steps)
  {
    states, steps := FirstProbes(cfg, f, 0);
    states, steps := CompleteFrom(cfg, states, steps, First(cfg), f, []);
  }

  /** If it dies before its claim, its heir finishes the run. */
  lemma HeirFinishes(cfg: Config, f: Op -> Reply) returns (states: seq<State>, steps: seq<Step>)
    requires Positive(cfg) && Answers(RecoveryAdapter(cfg), f)
    ensures Finished(cfg, states, steps, Heir(cfg), Extended([], f, |PROBE_KINDS|))
  {
    states, steps := ReachHeir(cfg);
    states, steps := ProbingFrom(cfg, states, steps, Heir(cfg), f);
    states, steps := CompleteFrom(cfg, states, steps, Heir(cfg), f, []);
  }

  /** The worker that recovers a run whose first worker died while it held the lease. */
  function Successor(cfg: Config): Actor { Actor(1, cfg.lease, RecoveryAdapter(cfg), true, 2) }

  lemma DeathStep(cfg: Config, s: State, i: nat, rows: seq<ProbeRow>)
    requires cfg.lease < cfg.deadline && Positive(cfg)
    requires Lone(cfg, s, First(cfg), ProbeNext(i), PROBING, Existing(rows))
    ensures var dead := s.(workers := map[]);
            && Leads(cfg, s, Crash, dead) && Leads(cfg, dead, Tick(cfg.lease), dead.(now := cfg.lease))
            && Vacant(cfg, dead.(now := cfg.lease), Successor(cfg), PROBING)
  {
  }

  /** If it dies in the probe loop and the lease is shorter than the deadline, a successor goes
      on where it stopped. */
  lemma Succeed(cfg: Config, states: seq<State>, steps: seq<Step>, rows: seq<ProbeRow>)
    returns (ss: seq<State>, how: seq<Step>)
    requires cfg.lease < cfg.deadline && Positive(cfg) && Probes(cfg, states, steps, First(cfg), |rows|, rows)
    ensures Probes(cfg, ss, how, Successor(cfg), |rows|, rows)
  {
    var s, x := states[|steps|], Successor(cfg);
    DeathStep(cfg, s, |rows|, rows);
    var dead := s.(workers := map[]);
    Extend(cfg, states, steps, Crash, dead);
    ss, how := states + [dead], steps + [Crash];
    Extend(cfg, ss, how, Tick(cfg.lease), dead.(now := cfg.lease));
    ss, how := ss + [dead.(now := cfg.lease)], how + [Tick(cfg.lease)];
    ss, how := TakeOver(cfg, ss, how, x, PROBING);
    ss, how := RejoinLoop(cfg, ss, how, x, rows);
  }

  lemma RejoinLoop(cfg: Config, states: seq<State>, steps: seq<Step>, x: Actor, rows: seq<ProbeRow>)
    returns (ss: seq<State>, how: seq<Step>)
    requires Fit(cfg, x) && IsTimelyRun(cfg, states, steps)
    requires Lone(cfg, states[|steps|], x, DeadlineCheck, PROBING, Existing(rows))
    requires states[|steps|].probes == rows && InOrder(rows) && Quiet(states[|steps|].calls)
    ensures Probes(cfg, ss, how, x, |rows|, rows)
  {
    CheckStep(cfg, states[|steps|], x, Raise, PROBING, Existing(rows));
    ss, how := StepFrom(cfg, states, steps, x, Raise, Next(cfg, states[|steps|], x, Raise));
    ss, how := SkipTo(cfg, ss, how, x, rows, 0);
  }

  /** The first `n` boundaries probed by the public caller's worker, the others by its successor. */
  lemma SuccessorFinishes(cfg: Config, f: Op -> Reply, g: Op -> Reply, n: nat)
    returns (states: seq<State>, steps: seq<Step>)
    requires Positive(cfg) && cfg.lease < cfg.deadline && n <= |PROBE_KINDS|
    requires Answers(cfg.adapter, f) && Answers(RecoveryAdapter(cfg), g)
    ensures Finished(cfg, states, steps, Successor(cfg), Extended(Extended([], f, n), g, |PROBE_KINDS|))
  {
    ExtendedRows([], f, n);
    states, steps := FirstProbes(cfg, f, n);
    states, steps := Succeed(cfg, states, steps, Extended([], f, n));
    states, steps := CompleteFrom(cfg, states, steps, Successor(cfg), g, Extended([], f, n));
  }

  /** From the first boundary without a row to the verdict. */
  lemma CompleteFrom(cfg: Config, states: seq<State>, steps: seq<Step>, x: Actor, f: Op -> Reply, rows: seq<ProbeRow>)
    returns (ss: seq<State>, how: seq<Step>)
    requires Fit(cfg, x) && Probes(cfg, states, steps, x, |rows|, rows) && Answers(x.adapter, f)
    ensures Finished(cfg, ss, how, x, Extended(rows, f, |PROBE_KINDS|)) && (NoCrash(steps) ==> NoCrash(how))
  {
    ExtendedRows(rows, f, |PROBE_KINDS|);
    ss, how := ProbeTo(cfg, states, steps, x, f, rows, |PROBE_KINDS|);
    ss, how := FinishFrom(cfg, ss, how, x, Extended(rows, f, |PROBE_KINDS|));
  }
}
