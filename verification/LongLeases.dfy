/** When the lease is at least as long as the deadline, nobody takes over a run in time: its rows
    come from one adapter. */
module LongLeases {
  import opened Domain
  import opened Orchestrator
  import opened OrchestratorInvariant
  import opened OrchestratorTheorems
  import opened OrchestratorSources

  /** Between the deadline check and the verdict. */
  predicate Early(pc: Pc) { IsPhase(pc) || IsProbe(pc) || pc.Decide? || pc.TerminalCommit? }

  /** Between the claim and the deadline check. */
  predicate Checking(pc: Pc) { pc.Load? || pc.ResumeEvent? || pc.DeadlineCheck? }

  /** The work row of a requested run: unclaimed exactly before the first attempt; a lease never
      ends before the deadline, so a second attempt starts after it. */
  ghost predicate RowTimed(cfg: Config, s: State, d: int, row: WorkRow) {
    && d - cfg.deadline <= s.now
    && (row.attempts == 0 <==> row.status == PENDING)
    && (row.status == PENDING ==> s.run.state == REQUESTED && s.probes == [])
    && (row.expires.Some? ==> d <= row.expires.value)
    && (row.attempts >= 2 ==> d <= s.now)
  }

  /** A worker of a second attempt is late and never gets past the check; one of the first attempt
      finds no rows, and makes all there are. */
  ghost predicate WorkerTimed(cfg: Config, s: State, d: int, attempts: nat, w: Worker) {
    && d - cfg.deadline <= w.since
    && (IsHolding(w.pc) && attempts >= 2 ==> !Early(w.pc) && d <= w.since)
    && (Checking(w.pc) && attempts <= 1 ==> s.probes == [])
    && (Early(w.pc) ==> RowsFrom(w.adapter, s.probes))
  }

  ghost predicate WorkersTimed(cfg: Config, s: State, d: int, attempts: nat) {
    forall t :: t in s.workers ==> WorkerTimed(cfg, s, d, attempts, s.workers[t])
  }

  /** All rows come from one of the two adapters. */
  ghost predicate Pure(cfg: Config, s: State) {
    RowsFrom(FirstAdapter(cfg, s.dispatched), s.probes) || RowsFrom(RecoveryAdapter(cfg), s.probes)
  }

  ghost predicate Timed(cfg: Config, s: State) {
    && Pure(cfg, s)
    && (s.run.deadlineAt.Some? && s.work.Some? ==>
          && RowTimed(cfg, s, s.run.deadlineAt.value, s.work.value)
          && WorkersTimed(cfg, s, s.run.deadlineAt.value, s.work.value.attempts))
  }

  // ---- A step of an acting worker ----

  /** Who acts has claimed the work. */
  lemma ActorHasClaimed(cfg: Config, s: State, t: nat)
    requires Inv(s) && Timed(cfg, s) && t in s.workers && Acts(s.workers[t].pc)
    ensures s.work.Some? && s.run.deadlineAt.Some? && s.work.value.attempts >= 1
  {
    assert WorkerOk(s, t, s.workers[t]);
  }

  /** What such a step does to the work row. */
  lemma ActorKeepsAttempts(cfg: Config, s: State, t: nat, c: Choice)
    requires Enabled(s, Work(t, c)) && Acts(s.workers[t].pc) && s.work.Some?
    ensures var s', row := Advance(cfg, s, t, c), s.work.value;
            && s'.work.Some? && s'.work.value.attempts == row.attempts
            && (s'.work.value.status == PENDING ==> row.status == PENDING)
            && (s'.work.value.expires.Some? && s'.work.value.expires != row.expires ==>
                  s'.work.value.expires.value >= s.workers[t].since + cfg.lease)
  {
    var w := s.workers[t];
    if IsEntry(w.pc) {
      assert Advance(cfg, s, t, c).work == s.work;
    } else if IsPhase(w.pc) {
      PhaseKeepsAttempts(cfg, s, t, w, c);
    } else if IsProbe(w.pc) {
      ProbeKeepsAttempts(cfg, s, t, w, c);
    } else {
      ExitKeepsAttempts(s, t, w, c);
    }
  }

  lemma PhaseKeepsAttempts(cfg: Config, s: State, t: nat, w: Worker, c: Choice)
    requires s.work.Some? && w.since <= c.stamp
    ensures RowRenewed(cfg, s.work.value, AdvancePhase(cfg, s, t, w, c).work, w)
  {
  }

  lemma ProbeKeepsAttempts(cfg: Config, s: State, t: nat, w: Worker, c: Choice)
    requires s.work.Some? && w.since <= c.stamp
    ensures RowRenewed(cfg, s.work.value, AdvanceProbe(cfg, s, t, w, c).work, w)
  {
  }

  predicate RowRenewed(cfg: Config, row: WorkRow, work: Option<WorkRow>, w: Worker) {
    && work.Some? && work.value.attempts == row.attempts && work.value.status == row.status
    && (work == Some(row) || (work.value.expires.Some? && work.value.expires.value >= w.since + cfg.lease))
  }

  lemma ExitKeepsAttempts(s: State, t: nat, w: Worker, c: Choice)
    requires s.work.Some?
    ensures var work := AdvanceExit(s, t, w, c).work;
            && work.Some? && work.value.attempts == s.work.value.attempts
            && (work == s.work || (work.value.status == COMPLETE && work.value.expires.None?))
  {
  }

  /** How worker `w` goes on as `w'`: it reaches its new place now; it is early only if it was or
      has just passed the check, and checks only if it was checking. */
  predicate Onward(w: Worker, w': Worker, now: int) {
    && (w'.since == now || w' == w)
    && (Early(w'.pc) ==> Early(w.pc) || (w.pc.DeadlineCheck? && !Expired(w.view, now)))
    && (Checking(w'.pc) ==> Checking(w.pc))
  }

  lemma EntryOnward(cfg: Config, s: State, t: nat, w: Worker, c: Choice)
    requires t in s.workers && w == s.workers[t] && Checking(w.pc)
    ensures var s' := AdvanceEntry(cfg, s, t, w, c); t in s'.workers ==> Onward(w, s'.workers[t], s.now)
  {
  }

  lemma CallOnward(cfg: Config, s: State, t: nat, w: Worker, c: Choice)
    requires t in s.workers && w == s.workers[t] && IsPhaseCall(w.pc)
    ensures var s' := AdvancePhase(cfg, s, t, w, c); t in s'.workers ==> Onward(w, s'.workers[t], s.now)
  {
  }

  lemma CommitOnward(cfg: Config, s: State, t: nat, w: Worker, c: Choice)
    requires t in s.workers && w == s.workers[t] && IsPhase(w.pc) && !IsPhaseCall(w.pc)
    ensures var s' := AdvancePhase(cfg, s, t, w, c); t in s'.workers ==> Onward(w, s'.workers[t], s.now)
  {
  }

  lemma ProbeCallOnward(cfg: Config, s: State, t: nat, w: Worker, c: Choice)
    requires t in s.workers && w == s.workers[t] && (w.pc.ProbeRenew? || w.pc.ProbeInvoke? || w.pc.ProbeAwait?)
    ensures var s' := AdvanceProbe(cfg, s, t, w, c); t in s'.workers ==> Onward(w, s'.workers[t], s.now)
  {
  }

  lemma ProbeRowOnward(cfg: Config, s: State, t: nat, w: Worker, c: Choice)
    requires t in s.workers && w == s.workers[t] && (w.pc.ProbeNext? || w.pc.ProbeSave? || w.pc.ProbeEvent?)
    ensures var s' := AdvanceProbe(cfg, s, t, w, c); t in s'.workers ==> Onward(w, s'.workers[t], s.now)
  {
  }

  lemma VerdictOnward(s: State, t: nat, w: Worker, c: Choice)
    requires t in s.workers && w == s.workers[t] && (w.pc.Decide? || w.pc.TerminalCommit? || w.pc.TerminalEvent?)
    ensures var s' := AdvanceExit(s, t, w, c); t in s'.workers ==> Onward(w, s'.workers[t], s.now)
  {
  }

  lemma ExpiryOnward(s: State, t: nat, w: Worker, c: Choice)
    requires t in s.workers && w == s.workers[t] && (w.pc.ExpireCommit? || w.pc.ExpireEvent? || w.pc.Finish?)
    ensures var s' := AdvanceExit(s, t, w, c); t in s'.workers ==> Onward(w, s'.workers[t], s.now)
  {
  }

  lemma HandlerOnward(s: State, t: nat, w: Worker, c: Choice)
    requires t in s.workers && w == s.workers[t] && (w.pc.FailWork? || w.pc.FailCommit? || w.pc.FailEvent?)
    ensures var s' := AdvanceExit(s, t, w, c); t in s'.workers ==> Onward(w, s'.workers[t], s.now)
  {
  }

  lemma ExitOnward(s: State, t: nat, w: Worker, c: Choice)
    requires t in s.workers && w == s.workers[t] && IsExit(w.pc)
    ensures var s' := AdvanceExit(s, t, w, c); t in s'.workers ==> Onward(w, s'.workers[t], s.now)
  {
    if w.pc.Decide? || w.pc.TerminalCommit? || w.pc.TerminalEvent? {
      VerdictOnward(s, t, w, c);
    } else if w.pc.ExpireCommit? || w.pc.ExpireEvent? || w.pc.Finish? {
      ExpiryOnward(s, t, w, c);
    } else {
      HandlerOnward(s, t, w, c);
    }
  }

  lemma AdvanceOnward(cfg: Config, s: State, t: nat, c: Choice)
    requires t in s.workers && Acts(s.workers[t].pc)
    ensures var s' := Advance(cfg, s, t, c); t in s'.workers ==> Onward(s.workers[t], s'.workers[t], s.now)
  {
    var w := s.workers[t];
    if IsEntry(w.pc) {
      EntryOnward(cfg, s, t, w, c);
    } else if IsPhaseCall(w.pc) {
      CallOnward(cfg, s, t, w, c);
    } else if IsPhase(w.pc) {
      CommitOnward(cfg, s, t, w, c);
    } else if w.pc.ProbeRenew? || w.pc.ProbeInvoke? || w.pc.ProbeAwait? {
      ProbeCallOnward(cfg, s, t, w, c);
    } else if IsProbe(w.pc) {
      ProbeRowOnward(cfg, s, t, w, c);
    } else {
      ExitOnward(s, t, w, c);
    }
  }

  /** The rows after a step of an early worker are its own. */
  lemma EarlyOwnsRows(cfg: Config, s: State, t: nat, c: Choice)
    requires SourceOk(cfg, s) && t in s.workers && RowsFrom(s.workers[t].adapter, s.probes)
    ensures RowsFrom(s.workers[t].adapter, Advance(cfg, s, t, c).probes)
  {
    var w := s.workers[t];
    if w.pc.ProbeSave? {
      assert WorkerFrom(AdapterOf(cfg, s.dispatched, w.recovering), w);
      assert Advance(cfg, s, t, c).probes == s.probes + [w.pc.row];
    } else {
      OtherPcsKeepRows(cfg, s, t, c);
    }
  }

  lemma ActorStaysTimed(cfg: Config, s: State, t: nat, c: Choice)
    requires cfg.deadline <= cfg.lease && Inv(s) && SourceOk(cfg, s) && Timed(cfg, s)
    requires Enabled(s, Work(t, c)) && Acts(s.workers[t].pc) && t in Advance(cfg, s, t, c).workers
    ensures s.work.Some? && s.run.deadlineAt.Some?
    ensures var s' := Advance(cfg, s, t, c);
            WorkerTimed(cfg, s', s.run.deadlineAt.value, s.work.value.attempts, s'.workers[t])
  {
    var s', w := Advance(cfg, s, t, c), s.workers[t];
    ActorHasClaimed(cfg, s, t);
    var d, attempts := s.run.deadlineAt.value, s.work.value.attempts;
    assert WorkerOk(s, t, w) && WorkerTimed(cfg, s, d, attempts, w);
    AdvanceOnward(cfg, s, t, c);
    AdvanceOrigin(cfg, s, t, c);
    if Early(s'.workers[t].pc) {
      EarlyOwnsRows(cfg, s, t, c);
    }
    if Checking(s'.workers[t].pc) {
      OtherPcsKeepRows(cfg, s, t, c);
    }
    if IsFailing(w.pc) {
      HandlerKeepsNoLease(cfg, s, t, c);
    }
  }

  lemma HandlerKeepsNoLease(cfg: Config, s: State, t: nat, c: Choice)
    requires t in s.workers && IsFailing(s.workers[t].pc) && t in Advance(cfg, s, t, c).workers
    ensures !IsHolding(Advance(cfg, s, t, c).workers[t].pc)
  {
    assert Advance(cfg, s, t, c) == AdvanceExit(s, t, s.workers[t], c);
  }

  lemma ActorKeepsPure(cfg: Config, s: State, t: nat, c: Choice)
    requires Inv(s) && SourceOk(cfg, s) && Timed(cfg, s) && t in s.workers && Acts(s.workers[t].pc)
    ensures Pure(cfg, Advance(cfg, s, t, c))
  {
    AdvanceOrigin(cfg, s, t, c);
    if s.workers[t].pc.ProbeSave? {
      ActorHasClaimed(cfg, s, t);
      assert WorkerTimed(cfg, s, s.run.deadlineAt.value, s.work.value.attempts, s.workers[t]);
      assert WorkerFrom(AdapterOf(cfg, s.dispatched, s.workers[t].recovering), s.workers[t]);
      EarlyOwnsRows(cfg, s, t, c);
    } else {
      OtherPcsKeepRows(cfg, s, t, c);
    }
  }

  /** After a step of `t` only its own facts and the row's need checking. */
  lemma Assemble(cfg: Config, s: State, s': State, t: nat, d: int, attempts: nat)
    requires Frame(s, s', t) && s'.run.deadlineAt == Some(d) && s'.work.Some? && s'.work.value.attempts == attempts
    requires Pure(cfg, s') && RowTimed(cfg, s', d, s'.work.value) && WorkersTimed(cfg, s, d, attempts)
    requires t in s'.workers ==> WorkerTimed(cfg, s', d, attempts, s'.workers[t])
    requires s'.probes == s.probes || forall u :: u in s.workers && u != t ==> IsPending(s.workers[u].pc)
    ensures Timed(cfg, s')
  {
    forall u | u in s'.workers ensures WorkerTimed(cfg, s', d, attempts, s'.workers[u]) {
      assert u != t ==> WorkerTimed(cfg, s, d, attempts, s.workers[u]);
    }
  }

  lemma ActingKeepsTimed(cfg: Config, s: State, t: nat, c: Choice)
    requires cfg.deadline <= cfg.lease && Inv(s) && SourceOk(cfg, s) && Timed(cfg, s)
    requires Enabled(s, Work(t, c)) && Acts(s.workers[t].pc)
    ensures Timed(cfg, Advance(cfg, s, t, c))
  {
    var s' := Advance(cfg, s, t, c);
    ActorHasClaimed(cfg, s, t);
    AdvanceFrames(cfg, s, t, c);
    ActorKeepsAttempts(cfg, s, t, c);
    ActorKeepsPure(cfg, s, t, c);
    ActorKeepsRow(cfg, s, t, c);
    forall u | u in s.workers && u != t ensures IsPending(s.workers[u].pc) {
      PendingPeer(s, t, u);
    }
    if t in s'.workers {
      ActorStaysTimed(cfg, s, t, c);
    }
    Assemble(cfg, s, s', t, s.run.deadlineAt.value, s.work.value.attempts);
  }

  lemma ActorKeepsRow(cfg: Config, s: State, t: nat, c: Choice)
    requires cfg.deadline <= cfg.lease && Inv(s) && Timed(cfg, s) && Enabled(s, Work(t, c)) && Acts(s.workers[t].pc)
    ensures var s' := Advance(cfg, s, t, c);
            s.run.deadlineAt.Some? && s'.work.Some? && RowTimed(cfg, s', s.run.deadlineAt.value, s'.work.value)
  {
    ActorHasClaimed(cfg, s, t);
    assert WorkerTimed(cfg, s, s.run.deadlineAt.value, s.work.value.attempts, s.workers[t]);
    AdvanceFrames(cfg, s, t, c);
    ActorKeepsAttempts(cfg, s, t, c);
  }

  // ---- A step of a pending worker ----

  lemma ClaimKeepsTimed(cfg: Config, s: State, t: nat, c: Choice)
    requires cfg.deadline <= cfg.lease && Inv(s) && InTime(s) && Timed(cfg, s) && Enabled(s, Work(t, c))
    requires s.workers[t].pc.Claim? && Claimable(Inserted(s.work), c.seen)
    ensures Timed(cfg, ClaimWork(cfg, s, t, s.workers[t], s.workers[t].pc.mode, c))
  {
    var s' := ClaimWork(cfg, s, t, s.workers[t], s.workers[t].pc.mode, c);
    assert WorkerOk(s, t, s.workers[t]);
    var d, attempts := s.run.deadlineAt.value, s.work.value.attempts;
    assert WorkerTimed(cfg, s, d, attempts, s.workers[t]);
    ClaimFindsRunFree(cfg, s, t, c.seen);
    forall u | u in s'.workers ensures WorkerTimed(cfg, s', d, attempts + 1, s'.workers[u]) {
      if u != t {
        assert u in s.workers && WorkerTimed(cfg, s, d, attempts, s.workers[u]);
      }
    }
  }

  /** Before its claim a worker changes nothing but its own place, or leaves. */
  ghost predicate Waits(s: State, s': State, t: nat) {
    && Frame(s, s', t) && s'.run == s.run && s'.work == s.work && s'.probes == s.probes && s'.dispatched == s.dispatched
    && (t in s'.workers ==> IsPending(s'.workers[t].pc) && s'.workers[t].since == s.now)
  }

  lemma WaitingStep(cfg: Config, s: State, t: nat, c: Choice)
    requires t in s.workers && IsPending(s.workers[t].pc) && s.work.Some?
    requires !(s.workers[t].pc.Claim? && Claimable(Inserted(s.work), c.seen))
    ensures Waits(s, AdvanceEntry(cfg, s, t, s.workers[t], c), t)
  {
    EntryFrames(cfg, s, t, s.workers[t], c);
  }

  lemma WaitingKeepsTimed(cfg: Config, s: State, s': State, t: nat)
    requires s.run.deadlineAt.Some? && s.work.Some? && Timed(cfg, s) && t in s.workers && Waits(s, s', t)
    ensures Timed(cfg, s')
  {
    Assemble(cfg, s, s', t, s.run.deadlineAt.value, s.work.value.attempts);
  }

  lemma WorkKeepsTimed(cfg: Config, s: State, t: nat, c: Choice)
    requires cfg.deadline <= cfg.lease && Inv(s) && InTime(s) && SourceOk(cfg, s) && Timed(cfg, s)
             && Enabled(s, Work(t, c))
    ensures Timed(cfg, Advance(cfg, s, t, c))
  {
    var w := s.workers[t];
    if Acts(w.pc) {
      ActingKeepsTimed(cfg, s, t, c);
    } else if w.pc.Claim? && Claimable(Inserted(s.work), c.seen) {
      ClaimKeepsTimed(cfg, s, t, c);
      assert Advance(cfg, s, t, c) == ClaimWork(cfg, s, t, w, w.pc.mode, c);
    } else {
      assert WorkerOk(s, t, w);
      WaitingStep(cfg, s, t, c);
      WaitingKeepsTimed(cfg, s, AdvanceEntry(cfg, s, t, w, c), t);
      assert Advance(cfg, s, t, c) == AdvanceEntry(cfg, s, t, w, c);
    }
  }

  // ---- The other steps ----

  lemma RestartKeepsTimed(cfg: Config, s: State, row: ProbeRow)
    requires Inv(s) && Timed(cfg, s) && Terminal(s) && row.kind == Restart
    ensures Timed(cfg, s.(probes := s.probes + [row]))
  {
    var s' := s.(probes := s.probes + [row]);
    if s.run.deadlineAt.Some? && s.work.Some? {
      var d, attempts := s.run.deadlineAt.value, s.work.value.attempts;
      forall t | t in s'.workers ensures WorkerTimed(cfg, s', d, attempts, s'.workers[t]) {
        assert WorkerTimed(cfg, s, d, attempts, s.workers[t]) && WorkerOk(s, t, s.workers[t]);
      }
    }
  }

  lemma RequestKeepsTimed(cfg: Config, s: State, key: string, viaDrill: bool, asked: int)
    requires Inv(s) && SourceOk(cfg, s) && AnswerRequest(cfg, s, key, asked).Accepted?
    ensures Timed(cfg, ApplyRequest(cfg, s, key, viaDrill, asked))
  {
    WorkersFollowRequest(s);
  }

  lemma QuietKeepsTimed(cfg: Config, s: State, step: Step)
    requires Inv(s) && Timed(cfg, s) && Enabled(s, step) && (step.Recover? || step.Tick? || step.Crash?)
    ensures Timed(cfg, Apply(cfg, s, step))
  {
    var s' := Apply(cfg, s, step);
    if s.run.deadlineAt.Some? && s.work.Some? {
      var d, attempts := s.run.deadlineAt.value, s.work.value.attempts;
      forall t | t in s'.workers ensures WorkerTimed(cfg, s', d, attempts, s'.workers[t]) {
        if t in s.workers {
          assert WorkerTimed(cfg, s, d, attempts, s.workers[t]) && WorkerOk(s, t, s.workers[t]);
        }
      }
    }
  }

  lemma StepKeepsTimed(cfg: Config, s: State, step: Step)
    requires cfg.deadline <= cfg.lease && Inv(s) && InTime(s) && SourceOk(cfg, s) && Timed(cfg, s) && Enabled(s, step)
    ensures Timed(cfg, Apply(cfg, s, step))
  {
    match step
    case Work(t, c) => WorkKeepsTimed(cfg, s, t, c);
    case RestartProbe(row) => RestartKeepsTimed(cfg, s, row);
    case Request(key, viaDrill, asked) =>
      if AnswerRequest(cfg, s, key, asked).Accepted? {
        RequestKeepsTimed(cfg, s, key, viaDrill, asked);
      }
    case Recover => QuietKeepsTimed(cfg, s, step);
    case Tick(_) => QuietKeepsTimed(cfg, s, step);
    case Crash => QuietKeepsTimed(cfg, s, step);
  }

  /** With a lease at least as long as the deadline, the rows of a run never come from both
      adapters. */
  lemma {:induction false} RowsArePure(cfg: Config, states: seq<State>, steps: seq<Step>, i: nat)
    requires cfg.deadline <= cfg.lease && IsTimelyRun(cfg, states, steps) && i < |states|
    ensures Timed(cfg, states[i])
  {
    if i > 0 {
      RowsArePure(cfg, states, steps, i - 1);
      InvHolds(cfg, states, steps, i - 1);
      SourceHolds(cfg, states, steps, i - 1);
      assert states[i - 1 + 1] == Apply(cfg, states[i - 1], steps[i - 1]);
      StepKeepsTimed(cfg, states[i - 1], steps[i - 1]);
    }
  }
}
