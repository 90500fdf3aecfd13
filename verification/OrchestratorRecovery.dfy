/** Which runs recovery can still bring to a verdict. */
module OrchestratorRecovery {
  import opened Domain
  import opened Orchestrator
  import opened OrchestratorInvariant
  import opened OrchestratorTheorems
  import opened OrchestratorSchedules

  /** Any timely continuation of a run from `s`. */
  ghost predicate IsContinuation(cfg: Config, s: State, states: seq<State>, steps: seq<Step>) {
    && |states| == |steps| + 1 && states[0] == s
    && (forall i :: 0 <= i < |steps| ==>
                      Enabled(states[i], steps[i]) && states[i + 1] == Apply(cfg, states[i], steps[i]))
    && forall i :: 0 <= i < |states| ==> InTime(states[i])
  }

  /** The work row says COMPLETE although the run has no verdict, and the worker that would
      have written FAILED is gone. */
  ghost predicate Stranded(s: State) {
    && Open(s.run) && s.work.Some? && s.work.value.status == COMPLETE
    && forall t :: t in s.workers ==> !s.workers[t].pc.FailCommit?
  }

  // ---- A run that is not stranded can always be finished ----

  /** A lapsed lease can be claimed: the row's shape leaves no third possibility. */
  lemma LapsedWorkIsClaimable(s: State, seen: int)
    requires Inv(s) && Open(s.run) && s.work.value.status != COMPLETE
    requires s.work.value.expires.Some? ==> s.work.value.expires.value <= seen
    ensures Claimable(Inserted(s.work), seen)
  {
  }

  function At(now: int): Choice {
    Choice(now, now, Raise)
  }

  lemma Prepend(cfg: Config, s: State, step: Step, states: seq<State>, steps: seq<Step>)
    requires InTime(s) && states != [] && IsContinuation(cfg, states[0], states, steps)
             && Leads(cfg, s, step, states[0])
    ensures IsContinuation(cfg, s, [s] + states, [step] + steps)
  {
    var ss, how := [s] + states, [step] + steps;
    forall i | 0 <= i < |how| ensures Enabled(ss[i], how[i]) && ss[i + 1] == Apply(cfg, ss[i], how[i]) {
      if i >= 1 {
        assert Enabled(states[i - 1], steps[i - 1]) && states[i - 1 + 1] == Apply(cfg, states[i - 1], steps[i - 1]);
      }
    }
  }

  /** A fresh recovery worker at `pc`, alone in the process. */
  function Alone(cfg: Config, s: State, pc: Pc, work: Option<WorkRow>, until: int): State {
    var w := Worker(pc, s.now, RecoveryAdapter(cfg), true, until, s.run, map[]);
    s.(nextId := s.nextId + 1, work := work, workers := map[s.nextId := w])
  }

  function Taken(cfg: Config, s: State): WorkRow {
    WorkRow(EXECUTING, Inserted(s.work).attempts + 1, Some(s.nextId), Some(s.now + cfg.lease))
  }

  lemma RescueStarts(cfg: Config, s: State)
    requires Open(s.run) && s.workers == map[] && Expired(s.run, s.now)
    ensures Leads(cfg, s, Recover, Alone(cfg, s, Check, s.work, s.now))
    ensures Leads(cfg, Alone(cfg, s, Check, s.work, s.now), Work(s.nextId, At(s.now)),
                  Alone(cfg, s, Claim(ExpireNow), s.work, s.now))
  {
  }

  lemma RescueClaims(cfg: Config, s: State)
    requires cfg.lease > 0 && Claimable(Inserted(s.work), s.now)
    ensures Leads(cfg, Alone(cfg, s, Claim(ExpireNow), s.work, s.now), Work(s.nextId, At(s.now)),
                  Alone(cfg, s, ExpireCommit, Some(Taken(cfg, s)), s.now + cfg.lease))
  {
  }

  lemma RescueEnds(cfg: Config, s: State)
    requires cfg.lease > 0
    ensures var s3, step := Alone(cfg, s, ExpireCommit, Some(Taken(cfg, s)), s.now + cfg.lease),
            Work(s.nextId, At(s.now));
            && InTime(s3) && Leads(cfg, s3, step, Apply(cfg, s3, step)) && Apply(cfg, s3, step).run.state == UNKNOWN
            && IsContinuation(cfg, s3, [s3, Apply(cfg, s3, step)], [step])
  {
  }

  /** A fresh recovery worker in an otherwise idle process, past the deadline and the lease,
      ends the run. */
  lemma RecoveryExpiresRun(cfg: Config, s: State) returns (states: seq<State>, steps: seq<Step>)
    requires cfg.lease > 0 && Open(s.run) && s.work.Some? && s.workers == map[]
    requires Claimable(Inserted(s.work), s.now) && Expired(s.run, s.now)
    ensures IsContinuation(cfg, s, states, steps) && states[|steps|].run.state == UNKNOWN
  {
    var step := Work(s.nextId, At(s.now));
    RescueStarts(cfg, s);
    RescueClaims(cfg, s);
    var s1, s2 := Alone(cfg, s, Check, s.work, s.now), Alone(cfg, s, Claim(ExpireNow), s.work, s.now);
    var s3 := Alone(cfg, s, ExpireCommit, Some(Taken(cfg, s)), s.now + cfg.lease);
    RescueEnds(cfg, s);
    states, steps := [s3, Apply(cfg, s3, step)], [step];
    Prepend(cfg, s2, step, states, steps);
    states, steps := [s2] + states, [step] + steps;
    Prepend(cfg, s1, step, states, steps);
    states, steps := [s1] + states, [step] + steps;
    Prepend(cfg, s, Recover, states, steps);
    states, steps := [s] + states, [Recover] + steps;
  }

  lemma HandlerFinishes(cfg: Config, s: State, t: nat) returns (states: seq<State>, steps: seq<Step>)
    requires Inv(s) && InTime(s) && t in s.workers && s.workers[t].pc.FailCommit?
    ensures IsContinuation(cfg, s, states, steps) && Terminal(states[|steps|])
  {
    assert WorkerOk(s, t, s.workers[t]);
    FailCommitEnds(cfg, s, t);
    states, steps := [s, Apply(cfg, s, Work(t, At(s.now)))], [Work(t, At(s.now))];
  }

  lemma FailCommitEnds(cfg: Config, s: State, t: nat)
    requires InTime(s) && t in s.workers && s.workers[t].pc.FailCommit? && s.workers[t].since <= s.now
    ensures var s' := Apply(cfg, s, Work(t, At(s.now))); Leads(cfg, s, Work(t, At(s.now)), s') && Terminal(s')
  {
  }

  /** A time by which the deadline and the lease are over. */
  function Later(s: State): int {
    var a := if s.run.deadlineAt.Some? && s.run.deadlineAt.value > s.now then s.run.deadlineAt.value else s.now;
    if s.work.Some? && s.work.value.expires.Some? && s.work.value.expires.value > a then s.work.value.expires.value
        else a
  }

  lemma CanReachVerdict(cfg: Config, s: State) returns (states: seq<State>, steps: seq<Step>)
    requires cfg.lease > 0 && Inv(s) && InTime(s) && Open(s.run) && !Stranded(s)
    ensures IsContinuation(cfg, s, states, steps) && Terminal(states[|steps|])
  {
    if s.work.value.status == COMPLETE {
      var t :| t in s.workers && s.workers[t].pc.FailCommit?;
      states, steps := HandlerFinishes(cfg, s, t);
    } else {
      var crashed := s.(workers := map[]);
      var ready := crashed.(now := Later(s));
      LapsedWorkIsClaimable(s, Later(s));
      states, steps := RecoveryExpiresRun(cfg, ready);
      Prepend(cfg, crashed, Tick(Later(s)), states, steps);
      states, steps := [crashed] + states, [Tick(Later(s))] + steps;
      Prepend(cfg, s, Crash, states, steps);
      states, steps := [s] + states, [Crash] + steps;
    }
  }

  // ---- A stranded run stays as it is ----

  lemma StrandedStep(cfg: Config, s: State, step: Step)
    requires Inv(s) && Stranded(s) && Enabled(s, step)
    ensures Stranded(Apply(cfg, s, step)) && SameVerdictRows(s, Apply(cfg, s, step))
  {
    if step.Work? {
      StrandedWorkerIsPending(s, step.t);
      StrandedWork(cfg, s, step.t, step.c);
    }
  }

  lemma StrandedWorkerIsPending(s: State, t: nat)
    requires Inv(s) && Stranded(s) && t in s.workers
    ensures IsPending(s.workers[t].pc)
  {
    assert WorkerOk(s, t, s.workers[t]);
  }

  lemma StrandedWork(cfg: Config, s: State, t: nat, c: Choice)
    requires Stranded(s) && t in s.workers && IsPending(s.workers[t].pc)
    ensures Stranded(Advance(cfg, s, t, c)) && SameVerdictRows(s, Advance(cfg, s, t, c))
  {
    var w := s.workers[t];
    assert Advance(cfg, s, t, c) == AdvanceEntry(cfg, s, t, w, c);
  }

  lemma {:induction false} StrandedForever(cfg: Config, s: State, states: seq<State>, steps: seq<Step>, n: nat)
    requires Inv(s) && Stranded(s) && IsContinuation(cfg, s, states, steps) && n < |states|
    ensures Inv(states[n]) && Stranded(states[n]) && SameVerdictRows(s, states[n])
  {
    if n > 0 {
      StrandedForever(cfg, s, states, steps, n - 1);
      assert states[n - 1 + 1] == Apply(cfg, states[n - 1], steps[n - 1]);
      StepKeepsInv(cfg, states[n - 1], steps[n - 1]);
      StrandedStep(cfg, states[n - 1], steps[n - 1]);
    }
  }

  /** Recovery can bring an unfinished run to a verdict if and only if it is not stranded. */
  lemma RecoverableExactly(cfg: Config, states: seq<State>, steps: seq<Step>, i: nat)
    requires cfg.lease > 0 && IsTimelyRun(cfg, states, steps) && i < |states| && Open(states[i].run)
    ensures (exists ss, how :: IsContinuation(cfg, states[i], ss, how) && Terminal(ss[|how|]))
            <==> !Stranded(states[i])
  {
    var s := states[i];
    InvHolds(cfg, states, steps, i);
    if Stranded(s) {
      forall ss, how | IsContinuation(cfg, s, ss, how) ensures !Terminal(ss[|how|]) {
        StrandedForever(cfg, s, ss, how, |how|);
      }
    } else {
      var ss, how := CanReachVerdict(cfg, s);
    }
  }

  /** A COMPLETE work row means a verdict, or a worker about to write FAILED, or a stranded run. */
  lemma CompleteMeansVerdict(cfg: Config, states: seq<State>, steps: seq<Step>, i: nat)
    requires IsTimelyRun(cfg, states, steps) && i < |states|
    requires states[i].work.Some? && states[i].work.value.status == COMPLETE
    ensures Terminal(states[i]) || Stranded(states[i])
            || exists t :: t in states[i].workers && states[i].workers[t].pc.FailCommit?
  {
    InvHolds(cfg, states, steps, i);
  }
}
