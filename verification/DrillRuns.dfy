/** One drill and its run together: the approval protocol, the orchestrator of the reserved run,
    and the process whose crash stops both. */
module DrillRuns {
  import opened Domain
  import D = Drills
  import L = Ledger
  import opened Orchestrator
  import opened OrchestratorInvariant
  import opened OrchestratorTheorems
  import opened OrchestratorOutcomes
  import opened OrchestratorSchedules
  import X = OrchestratorLimits

  datatype Joint = Joint(desk: D.State, orch: Option<State>)

  /** A commit of the protocol, with the initial state of the run should it create it and the
      clock reading of the request should it make one; or a step of the run's orchestrator. */
  datatype Move = Protocol(step: D.Step, birth: State, asked: int) | Machine(work: Step)

  /** The reserved run of drill `d`, once it exists. */
  function RunOf(s: D.State, d: nat): Option<D.RunRow> {
    if d in s.drills && s.drills[d].runId in s.runs then Some(s.runs[s.drills[d].runId]) else None
  }

  /** The first shutdown request of the run is accepted. */
  predicate Stops(before: Option<D.RunRow>, after: Option<D.RunRow>) {
    before.Some? && after.Some? && before.value.stop.None? && after.value.stop.Some?
  }

  /** What a commit of the protocol means for the run's orchestrator. */
  function Orchestrated(cfg: Config, orch: Option<State>, before: Option<D.RunRow>, after: Option<D.RunRow>,
                        step: D.Step,
                        birth: State, asked: int): Option<State> {
    if orch.None? then if after.Some? then Some(birth) else None
    else if step.Crash? then Some(orch.value.(workers := map[]))
    else if Stops(before, after) then Some(ApplyRequest(cfg, orch.value, after.value.stop.value, step.Dispatch?, asked))
    else orch
  }

  predicate CanMove(s: Joint, move: Move) {
    match move
    case Protocol(step, birth, asked) => D.Enabled(s.desk, step) && Init(birth)
        && (s.orch.Some? ==> asked <= s.orch.value.now)
    case Machine(work) => s.orch.Some? && Enabled(s.orch.value, work) && !work.Request? && !work.Crash?
  }

  function Moved(cfg: Config, d: nat, s: Joint, move: Move): Joint
    requires CanMove(s, move)
  {
    match move
    case Protocol(step, birth, asked) =>
      var desk := D.Apply(s.desk, step);
      Joint(desk, Orchestrated(cfg, s.orch, RunOf(s.desk, d), RunOf(desk, d), step, birth, asked))
    case Machine(work) => s.(orch := Some(Apply(cfg, s.orch.value, work)))
  }

  ghost predicate IsJointRun(cfg: Config, d: nat, states: seq<Joint>, moves: seq<Move>) {
    && |states| == |moves| + 1 && states[0] == Joint(D.State(map[], map[], 0, D.Nobody), None)
    && (forall i :: 0 <= i < |moves| ==>
                      CanMove(states[i], moves[i]) && states[i + 1] == Moved(cfg, d, states[i], moves[i]))
    && forall i :: 0 <= i < |states| && states[i].orch.Some? ==> InTime(states[i].orch.value)
  }

  /** Whether the move gets the run's first shutdown request accepted. */
  predicate StopsRun(d: nat, s: Joint, move: Move)
    requires CanMove(s, move)
  {
    move.Protocol? && Stops(RunOf(s.desk, d), RunOf(D.Apply(s.desk, move.step), d))
  }

  /** Whoever stops the drill's run is the dispatcher (`b`), or is not (`!b`). */
  ghost predicate StoppedVia(d: nat, states: seq<Joint>, moves: seq<Move>, b: bool)
    requires |states| == |moves| + 1
  {
    forall i :: 0 <= i < |moves| && CanMove(states[i], moves[i]) && StopsRun(d, states[i], moves[i]) ==>
                  moves[i].step.Dispatch? == b
  }

  // ---- The two halves agree ----

  lemma RunAppears(s: D.State, step: D.Step, d: nat)
    requires D.Inv(s) && D.Enabled(s, step) && RunOf(s, d).None? && RunOf(D.Apply(s, step), d).Some?
    ensures RunOf(D.Apply(s, step), d).value.stop.None?
  {
  }

  lemma RunStays(s: D.State, step: D.Step, d: nat)
    requires D.Inv(s) && D.Enabled(s, step) && RunOf(s, d).Some?
    ensures var after := RunOf(D.Apply(s, step), d);
            after.Some? && (RunOf(s, d).value.stop.Some? ==> after.value.stop == RunOf(s, d).value.stop)
  {
    D.StepFollows(s, step);
    assert D.RowFollows(s.drills[d], D.Apply(s, step).drills[d]);
  }

  lemma StopHasKey(s: D.State, step: D.Step, d: nat)
    requires D.Inv(s) && D.Enabled(s, step) && Stops(RunOf(s, d), RunOf(D.Apply(s, step), d))
    ensures RunOf(D.Apply(s, step), d).value.stop.value != "" && (step.Dispatch? || step.RequestShutdown?)
  {
    D.StepFollows(s, step);
    assert D.RowFollows(s.drills[d], D.Apply(s, step).drills[d]);
  }

  /** The key in the run row is the key the protocol knows. */
  predicate KeyAgrees(orch: Option<State>, run: Option<D.RunRow>) {
    && (orch.Some? <==> run.Some?)
    && (orch.Some? ==> orch.value.run.key == run.value.stop
                       && (orch.value.run.requestedAt.Some? <==> orch.value.run.key.Some?))
  }

  ghost predicate Agrees(d: nat, s: Joint) { D.Inv(s.desk) && KeyAgrees(s.orch, RunOf(s.desk, d)) }

  lemma ProtocolKeepsAgreement(cfg: Config, d: nat, s: Joint, move: Move)
    requires Agrees(d, s) && CanMove(s, move) && move.Protocol?
    ensures Agrees(d, Moved(cfg, d, s, move))
  {
    D.StepKeepsInv(s.desk, move.step);
    var before, after := RunOf(s.desk, d), RunOf(D.Apply(s.desk, move.step), d);
    if before.None? {
      if after.Some? {
        RunAppears(s.desk, move.step, d);
      }
    } else {
      RunStays(s.desk, move.step, d);
      if Stops(before, after) {
        StopHasKey(s.desk, move.step, d);
      }
    }
  }

  lemma MachineKeepsAgreement(cfg: Config, d: nat, s: Joint, move: Move)
    requires Agrees(d, s) && CanMove(s, move) && move.Machine?
    ensures Agrees(d, Moved(cfg, d, s, move))
  {
    if move.work.Work? {
      EntryKeepsRequest(cfg, s.orch.value, move.work.t, move.work.c);
    }
  }

  lemma {:induction false} AgreementHolds(cfg: Config, d: nat, states: seq<Joint>, moves: seq<Move>, n: nat)
    requires IsJointRun(cfg, d, states, moves) && n < |states|
    ensures Agrees(d, states[n])
  {
    if n > 0 {
      AgreementHolds(cfg, d, states, moves, n - 1);
      assert CanMove(states[n - 1], moves[n - 1]) && states[n - 1 + 1] == Moved(cfg, d, states[n - 1], moves[n - 1]);
      if moves[n - 1].Protocol? {
        ProtocolKeepsAgreement(cfg, d, states[n - 1], moves[n - 1]);
      } else {
        MachineKeepsAgreement(cfg, d, states[n - 1], moves[n - 1]);
      }
    }
  }

  // ---- The orchestrator's half is a run of its own ----

  /** `run` is a timely run of the orchestrator that ends in `s`, with its requests from one side. */
  ghost predicate Ends(cfg: Config, states: seq<State>, steps: seq<Step>, s: State, b: bool) {
    IsTimelyRun(cfg, states, steps) && states[|steps|] == s && AcceptedVia(cfg, states, steps, b)
  }

  lemma EndsExtend(cfg: Config, states: seq<State>, steps: seq<Step>, s: State, step: Step, b: bool)
    requires Ends(cfg, states, steps, s, b) && Enabled(s, step) && InTime(Apply(cfg, s, step))
    requires Accepts(cfg, s, step) ==> step.viaDrill == b
    ensures Ends(cfg, states + [Apply(cfg, s, step)], steps + [step], Apply(cfg, s, step), b)
  {
    Extend(cfg, states, steps, step, Apply(cfg, s, step));
    var ss, how := states + [Apply(cfg, s, step)], steps + [step];
    forall i | 0 <= i < |how| && Accepts(cfg, ss[i], how[i]) ensures how[i].viaDrill == b {
      assert i < |steps| ==> ss[i] == states[i] && how[i] == steps[i];
    }
  }

  /** The orchestrator's step that a move of an existing run amounts to, if it is one. */
  function StepOf(d: nat, s: Joint, move: Move): Option<Step>
    requires CanMove(s, move)
  {
    match move
    case Machine(work) => Some(work)
    case Protocol(step, _, asked) =>
      if step.Crash? then Some(Crash)
      else if StopsRun(d, s, move)
          then Some(Request(RunOf(D.Apply(s.desk, step), d).value.stop.value, step.Dispatch?, asked))
      else None
  }

  lemma MoveIsStep(cfg: Config, d: nat, s: Joint, move: Move)
    requires Agrees(d, s) && CanMove(s, move) && s.orch.Some?
    ensures var s', step := Moved(cfg, d, s, move), StepOf(d, s, move);
            && s'.orch.Some?
            && (if step.None? then s'.orch == s.orch
                else Enabled(s.orch.value, step.value) && s'.orch.value == Apply(cfg, s.orch.value, step.value))
  {
  }

  lemma {:induction false} Project(cfg: Config, d: nat, js: seq<Joint>, moves: seq<Move>, n: nat, b: bool)
    returns (states: seq<State>, steps: seq<Step>)
    requires IsJointRun(cfg, d, js, moves) && StoppedVia(d, js, moves, b) && n < |js| && js[n].orch.Some?
    ensures Ends(cfg, states, steps, js[n].orch.value, b)
  {
    AgreementHolds(cfg, d, js, moves, n - 1);
    var s, move := js[n - 1], moves[n - 1];
    assert CanMove(s, move) && js[n - 1 + 1] == Moved(cfg, d, s, move);
    if s.orch.None? {
      states, steps := [js[n].orch.value], [];
    } else {
      states, steps := Project(cfg, d, js, moves, n - 1, b);
      MoveIsStep(cfg, d, s, move);
      var step := StepOf(d, s, move);
      if step.Some? {
        EndsExtend(cfg, states, steps, s.orch.value, step.value, b);
        states, steps := states + [js[n].orch.value], steps + [step.value];
      }
    }
  }

  /** Crash transparency of drills. Under every schedule of approvals, recoveries, crashes and
      public requests in which the dispatcher's request is the one that stops the drill's run,
      durable results are the requested ones and so is the verdict, unless a check saw the
      deadline pass. */
  lemma DrillsAreTransparent(cfg: Config, d: nat, js: seq<Joint>, moves: seq<Move>, n: nat)
    requires IsJointRun(cfg, d, js, moves) && StoppedVia(d, js, moves, true) && n < |js| && js[n].orch.Some?
    requires cfg.outcomes.Some?
    ensures Transparent(cfg.outcomes.value, js[n].orch.value)
  {
    var states, steps := Project(cfg, d, js, moves, n, true);
    DispatchedIsTransparent(cfg, states, steps, |steps|);
  }

  // ---- And not otherwise ----

  lemma JointExtend(cfg: Config, d: nat, js: seq<Joint>, moves: seq<Move>, move: Move)
    requires IsJointRun(cfg, d, js, moves) && CanMove(js[|moves|], move)
    requires var s' := Moved(cfg, d, js[|moves|], move); s'.orch.Some? ==> InTime(s'.orch.value)
    ensures IsJointRun(cfg, d, js + [Moved(cfg, d, js[|moves|], move)], moves + [move])
  {
  }

  lemma ViaExtend(cfg: Config, d: nat, js: seq<Joint>, moves: seq<Move>, move: Move, b: bool)
    requires IsJointRun(cfg, d, js, moves) && CanMove(js[|moves|], move) && StoppedVia(d, js, moves, b)
    requires StopsRun(d, js[|moves|], move) ==> move.step.Dispatch? == b
    ensures StoppedVia(d, js + [Moved(cfg, d, js[|moves|], move)], moves + [move], b)
  {
    var js', moves' := js + [Moved(cfg, d, js[|moves|], move)], moves + [move];
    forall i | 0 <= i < |moves'| && CanMove(js'[i], moves'[i]) && StopsRun(d, js'[i], moves'[i])
      ensures moves'[i].step.Dispatch? == b
    {
      assert i < |moves| ==> js'[i] == js[i] && moves'[i] == moves[i];
    }
  }

  /** Drill 0 is approved and its run created, but not yet stopped by the dispatcher. */
  function Waiting(stop: Option<string>, pc: D.Pc): D.State {
    D.State(map[0 := D.DrillRow("t", "author", Some("approver"), 0, None, D.APPROVED, 1)],
            map[1 := D.RunRow("t", stop)], 2, D.Approving(0, pc))
  }

  ghost predicate Staged(cfg: Config, js: seq<Joint>, moves: seq<Move>, s: State, stop: Option<string>) {
    && IsJointRun(cfg, 0, js, moves) && StoppedVia(0, js, moves, false)
    && js[|moves|] == Joint(Waiting(stop, D.RequestStop), Some(s))
  }

  lemma Stage(cfg: Config, birth: State) returns (js: seq<Joint>, moves: seq<Move>)
    requires Init(birth) && InTime(birth)
    ensures Staged(cfg, js, moves, birth, None)
  {
    var s0 := Joint(D.State(map[], map[], 0, D.Nobody), None);
    var ask, yes, go := Protocol(D.RequestDrill("t", "author"), birth, 0),
        Protocol(D.Approve(0, "approver", 0), birth, 0),
                        Protocol(D.Dispatch, birth, 0);
    var s1 := Moved(cfg, 0, s0, ask);
    assert s1.orch.None? && RunOf(s1.desk, 0).None?;
    var s2 := Moved(cfg, 0, s1, yes);
    assert s2.orch.None? && RunOf(s2.desk, 0).None?;
    var s3 := Moved(cfg, 0, s2, go);
    assert s3 == Joint(Waiting(None, D.RequestStop), Some(birth));
    js, moves := [s0, s1, s2, s3], [ask, yes, go];
  }

  /** The move that makes the public caller's version of an orchestrator step. */
  function Lifted(step: Step): Move {
    match step
    case Request(key, _, asked) => Protocol(D.RequestShutdown(1, key),
                                            BIRTH, asked)
    case _ => Machine(step)
  }

  lemma LiftStep(cfg: Config, s: State, stop: Option<string>, step: Step)
    requires Enabled(s, step) && !step.Crash? && KeyAgrees(Some(s), Some(D.RunRow("t", stop)))
    requires Accepts(cfg, s, step) ==> !step.viaDrill
    ensures var j, move := Joint(Waiting(stop, D.RequestStop), Some(s)), Lifted(step);
            && CanMove(j, move) && (StopsRun(0, j, move) ==> !move.step.Dispatch?)
            && Moved(cfg, 0, j, move) == Joint(Waiting(Apply(cfg, s, step).run.key, D.RequestStop),
                                               Some(Apply(cfg, s, step)))
  {
    if step.Work? {
      EntryKeepsRequest(cfg, s, step.t, step.c);
    } else if step.Request? {
      var desk := D.Apply(Waiting(stop, D.RequestStop), D.RequestShutdown(1, step.key));
      assert desk == Waiting(Apply(cfg, s, step).run.key, D.RequestStop);
    }
  }

  /** Every timely run of the orchestrator without crashes and with public requests only happens
      to the run of an approved drill. */
  lemma {:induction false} Lift(cfg: Config, states: seq<State>, steps: seq<Step>, n: nat)
    returns (js: seq<Joint>, moves: seq<Move>)
    requires IsTimelyRun(cfg, states, steps) && AcceptedVia(cfg, states, steps, false) && n < |states|
    requires NoCrash(steps)
    ensures Staged(cfg, js, moves, states[n], states[n].run.key)
  {
    if n == 0 {
      js, moves := Stage(cfg, states[0]);
    } else {
      js, moves := Lift(cfg, states, steps, n - 1);
      var s, step := states[n - 1], steps[n - 1];
      assert Enabled(s, step) && states[n - 1 + 1] == Apply(cfg, s, step) && InTime(states[n]);
      AgreementHolds(cfg, 0, js, moves, |moves|);
      assert RunOf(js[|moves|].desk, 0) == Some(D.RunRow("t", s.run.key));
      LiftStep(cfg, s, s.run.key, step);
      JointExtend(cfg, 0, js, moves, Lifted(step));
      ViaExtend(cfg, 0, js, moves, Lifted(step), false);
      js, moves := js + [Moved(cfg, 0, js[|moves|], Lifted(step))], moves + [Lifted(step)];
    }
  }

  /** A public caller that stops the run of drill 0 with the drill's own key goes unnoticed: the
      dispatcher's request is taken for a repetition and the drill ends STARTED under its own key,
      and yet its promise is broken, unless the configured adapter mimics the outcomes. Neither
      status nor key tells. */
  lemma SameKeyHidesCompetitor(cfg: Config) returns (js: seq<Joint>, moves: seq<Move>)
    requires Positive(cfg) && cfg.outcomes.Some? && !X.Mimics(cfg.adapter, cfg.outcomes.value)
    ensures IsJointRun(cfg, 0, js, moves) && StoppedVia(0, js, moves, false)
    ensures var s := js[|moves|];
            && 0 in s.desk.drills && s.desk.drills[0].status == D.STARTED && s.orch.Some?
            && s.orch.value.run.key == Some(D.ForDrill(0)) && !Transparent(cfg.outcomes.value, s.orch.value)
  {
    KeyIsDrills();
    var states, steps := X.CompetingRequestBreaksTransparency(cfg);
    js, moves := Lift(cfg, states, steps, |steps|);
    js, moves := DispatchOn(cfg, js, moves, states[|steps|]);
  }

  lemma KeyIsDrills()
    ensures KEY == D.ForDrill(0)
  {
    assert L.Decimal(0) == "0";
  }

  lemma DispatchOn(cfg: Config, js: seq<Joint>, moves: seq<Move>, s: State) returns (ss: seq<Joint>, how: seq<Move>)
    requires Staged(cfg, js, moves, s, Some(D.ForDrill(0))) && InTime(s)
    ensures IsJointRun(cfg, 0, ss, how) && StoppedVia(0, ss, how, false)
    ensures ss[|how|].orch == Some(s) && 0 in ss[|how|].desk.drills && ss[|how|].desk.drills[0].status == D.STARTED
  {
    var go := Protocol(D.Dispatch, BIRTH, s.now);
    var asked := Moved(cfg, 0, js[|moves|], go);
    assert asked == Joint(Waiting(Some(D.ForDrill(0)), D.MarkStarted), Some(s));
    JointExtend(cfg, 0, js, moves, go);
    ViaExtend(cfg, 0, js, moves, go, false);
    ss, how := js + [asked], moves + [go];
    JointExtend(cfg, 0, ss, how, go);
    ViaExtend(cfg, 0, ss, how, go, false);
    ss, how := ss + [Moved(cfg, 0, asked, go)], how + [go];
  }

  ghost predicate AllDrillsTransparent(cfg: Config, b: bool)
    requires cfg.outcomes.Some?
  {
    forall d: nat, js: seq<Joint>, moves: seq<Move> ::
      IsJointRun(cfg, d, js, moves) && StoppedVia(d, js, moves, b) && js[|moves|].orch.Some? ==>
        Transparent(cfg.outcomes.value, js[|moves|].orch.value)
  }

  /** Every approved simulated drill keeps its promise under every schedule if and only if its run
      is stopped by the dispatcher, or the configured adapter mimics the outcomes. */
  lemma DrillsAreTransparentExactly(cfg: Config, b: bool)
    requires Positive(cfg) && cfg.outcomes.Some?
    ensures AllDrillsTransparent(cfg, b) <==> b || X.Mimics(cfg.adapter, cfg.outcomes.value)
  {
    if b || X.Mimics(cfg.adapter, cfg.outcomes.value) {
      forall d: nat, js: seq<Joint>, moves: seq<Move> | IsJointRun(cfg, d, js, moves) && StoppedVia(d, js, moves, b)
          && js[|moves|].orch.Some?
        ensures Transparent(cfg.outcomes.value, js[|moves|].orch.value)
      {
        var states, steps := Project(cfg, d, js, moves, |moves|, b);
        if b {
          DispatchedIsTransparent(cfg, states, steps, |steps|);
        } else {
          X.MimicIsTransparent(cfg, states, steps, |steps|);
        }
      }
    } else {
      var js, moves := SameKeyHidesCompetitor(cfg);
    }
  }
}
