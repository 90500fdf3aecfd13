/** Whole-run theorems about the orchestrator: every schedule of requests, recoveries, worker
    steps, ticks and crashes in which no live lease holder lets its lease lapse. */
module OrchestratorTheorems {
  import opened Domain
  import I = Integrations
  import opened Orchestrator
  import opened OrchestratorInvariant

  // ---- What one step may change ----

  predicate SameVerdictRows(s: State, s': State) {
    s'.run.state == s.run.state && s'.probes == s.probes
  }

  /** All the ways in which a step may touch the run's state or its probe rows. */
  ghost predicate LegalMove(s: State, s': State) {
    || SameVerdictRows(s, s')
    || (s.run.state == RUNNING && s'.run.state == REQUESTED && s'.probes == s.probes)
    || (PhaseIndex(s'.run.state) == PhaseIndex(s.run.state) + 1 && Open(s.run) && s'.probes == s.probes)
    || (s.run.state == PROBING == s'.run.state && exists row :: SavesProbe(s, s', row))
    || (s.run.state == PROBING && AllProbed(Existing(s.probes)) && s'.probes == s.probes
        && s'.run.state == Aggregate(Results(Existing(s.probes))))
    || (Open(s.run) && s'.run.state == UNKNOWN && Expired(s.run, s.now) && s'.probes == s.probes)
    || (Open(s.run) && s'.run.state == FAILED && HasRaised(s.calls) && s'.probes == s.probes)
    || (Terminal(s) && s'.run.state == s.run.state
        && exists row: ProbeRow :: row.kind == Restart && s'.probes == s.probes + [row])
  }

  ghost predicate SavesProbe(s: State, s': State, row: ProbeRow) {
    row.kind in PROBE_KINDS && row.kind !in Existing(s.probes) && s'.probes == s.probes + [row]
  }

  /** The program counters at which a worker writes the run row or a probe row. */
  predicate Writes(pc: Pc) {
    pc.Commit? || pc.ProbeSave? || pc.TerminalCommit? || pc.ExpireCommit? || pc.FailCommit?
  }

  lemma ReadersWriteNothing(cfg: Config, s: State, t: nat, c: Choice)
    requires t in s.workers && !Writes(s.workers[t].pc)
    ensures Advance(cfg, s, t, c).run == s.run && Advance(cfg, s, t, c).probes == s.probes
  {
  }

  lemma PhaseCommitMoves(cfg: Config, s: State, t: nat, c: Choice)
    requires Enabled(s, Work(t, c)) && WorkerOk(s, t, s.workers[t])
    requires s.workers[t].pc.Commit? || s.workers[t].pc.ProbeSave?
    ensures LegalMove(s, Advance(cfg, s, t, c))
  {
    if s.workers[t].pc.ProbeSave? {
      assert SavesProbe(s, Advance(cfg, s, t, c), s.workers[t].pc.row);
    }
  }

  lemma VerdictCommitMoves(cfg: Config, s: State, t: nat, c: Choice)
    requires Enabled(s, Work(t, c)) && WorkerOk(s, t, s.workers[t])
    requires s.workers[t].pc.TerminalCommit? || s.workers[t].pc.ExpireCommit? || s.workers[t].pc.FailCommit?
    ensures LegalMove(s, Advance(cfg, s, t, c))
  {
  }

  lemma WorkMoves(cfg: Config, s: State, t: nat, c: Choice)
    requires Inv(s) && Enabled(s, Work(t, c))
    ensures LegalMove(s, Advance(cfg, s, t, c))
  {
    var pc := s.workers[t].pc;
    assert WorkerOk(s, t, s.workers[t]);
    if !Writes(pc) {
      ReadersWriteNothing(cfg, s, t, c);
    } else if pc.Commit? || pc.ProbeSave? {
      PhaseCommitMoves(cfg, s, t, c);
    } else {
      VerdictCommitMoves(cfg, s, t, c);
    }
  }

  lemma StepMoves(cfg: Config, s: State, step: Step)
    requires Inv(s) && Enabled(s, step)
    ensures LegalMove(s, Apply(cfg, s, step))
  {
    match step
    case Work(t, c) => WorkMoves(cfg, s, t, c);
    case RestartProbe(row) => assert row.kind == Restart;
    case _ =>
  }

  lemma {:induction false} InvHolds(cfg: Config, states: seq<State>, steps: seq<Step>, i: nat)
    requires IsTimelyRun(cfg, states, steps) && i < |states|
    ensures Inv(states[i])
  {
    if i > 0 {
      InvHolds(cfg, states, steps, i - 1);
      assert states[i - 1 + 1] == Apply(cfg, states[i - 1], steps[i - 1]);
      StepKeepsInv(cfg, states[i - 1], steps[i - 1]);
    }
  }

  // ---- Lease exclusion ----

  /** Every write to the run's state or probes after the request is made by the worker whose
      token is in the work row, before its lease ends, or by the worker that released the work
      as COMPLETE in its exception handler; and no other worker is past its claim. */
  lemma LeaseExclusion(cfg: Config, states: seq<State>, steps: seq<Step>, i: nat)
    requires IsTimelyRun(cfg, states, steps) && i < |steps|
    requires !SameVerdictRows(states[i], states[i + 1]) && !steps[i].Request? && !steps[i].RestartProbe?
    ensures steps[i].Work? && steps[i].t in states[i].workers && states[i].work.Some?
    ensures var s, t := states[i], steps[i].t;
            || (s.work.value.owner == Some(t) && s.work.value.expires.Some? && s.now < s.work.value.expires.value)
            || (s.work.value.status == COMPLETE && s.workers[t].pc == FailCommit)
    ensures forall u :: u in states[i].workers && Acts(states[i].workers[u].pc) ==> u == steps[i].t
  {
    var s := states[i];
    InvHolds(cfg, states, steps, i);
    assert states[i + 1] == Apply(cfg, s, steps[i]);
    assert Enabled(s, steps[i]) && InTime(s);
    var t := steps[i].t;
    if !Writes(s.workers[t].pc) {
      ReadersWriteNothing(cfg, s, t, steps[i].c);
    }
    assert WorkerOk(s, t, s.workers[t]);
    forall u | u in s.workers && Acts(s.workers[u].pc) ensures u == t {
      OneActor(s, t, u);
    }
  }

  /** Token `t` was issued, and whoever holds it, if anybody, is past its claim. */
  predicate Spent(s: State, t: nat) { t < s.nextId && (t in s.workers ==> !IsPending(s.workers[t].pc)) }

  predicate TokenOk(s: State, t: nat) { (t in s.workers ==> t < s.nextId) && (Owns(s, t) ==> Spent(s, t)) }

  predicate Retired(s: State, t: nat) { Spent(s, t) && !Owns(s, t) }

  /** What a step keeps of one token: it is spent once it is in the row, and retired for good
      once it is gone from it. */
  predicate TokenKept(s: State, s': State, t: nat) {
    && (TokenOk(s, t) ==> TokenOk(s', t))
    && (Spent(s, t) ==> Spent(s', t))
    && (Retired(s, t) ==> Retired(s', t))
  }

  /** The step issues no token, puts none into the row, and sends nobody back to its claim. */
  predicate NoClaim(s: State, s': State, t: nat) {
    && s'.nextId == s.nextId && (Owns(s', t) ==> Owns(s, t))
    && (t in s'.workers ==> t in s.workers && (IsPending(s'.workers[t].pc) ==> IsPending(s.workers[t].pc)))
  }

  lemma NoClaimKeepsToken(s: State, s': State, t: nat)
    requires NoClaim(s, s', t)
    ensures TokenKept(s, s', t)
  {
  }

  lemma EntryKeepsToken(cfg: Config, s: State, u: nat, c: Choice, t: nat)
    requires u in s.workers && IsEntry(s.workers[u].pc)
    ensures TokenKept(s, AdvanceEntry(cfg, s, u, s.workers[u], c), t)
  {
    var w := s.workers[u];
    if w.pc.Claim? {
      ClaimKeepsToken(cfg, s, u, w, c, t);
    } else {
      assert NoClaim(s, AdvanceEntry(cfg, s, u, w, c), t);
    }
  }

  lemma ClaimKeepsToken(cfg: Config, s: State, u: nat, w: Worker, c: Choice, t: nat)
    requires u in s.workers && w == s.workers[u] && w.pc.Claim?
    ensures TokenKept(s, ClaimWork(cfg, s, u, w, w.pc.mode, c), t)
  {
  }

  lemma PhaseKeepsToken(cfg: Config, s: State, u: nat, c: Choice, t: nat)
    requires u in s.workers && IsPhase(s.workers[u].pc)
    ensures NoClaim(s, AdvancePhase(cfg, s, u, s.workers[u], c), t)
  {
  }

  lemma ProbeKeepsToken(cfg: Config, s: State, u: nat, c: Choice, t: nat)
    requires u in s.workers && IsProbe(s.workers[u].pc)
    ensures NoClaim(s, AdvanceProbe(cfg, s, u, s.workers[u], c), t)
  {
  }

  lemma ReleaseKeepsToken(s: State, u: nat, c: Choice, t: nat)
    requires u in s.workers && (s.workers[u].pc.Finish? || s.workers[u].pc.FailWork?)
    ensures NoClaim(s, AdvanceExit(s, u, s.workers[u], c), t)
  {
    var released := CompleteWork(s, u);
    assert released.nextId == s.nextId && released.workers == s.workers && (Owns(released, t) ==> Owns(s, t));
  }

  lemma CommitKeepsToken(s: State, u: nat, c: Choice, t: nat)
    requires u in s.workers
    requires var pc := s.workers[u].pc; pc.Decide? || pc.TerminalCommit? || pc.ExpireCommit? || pc.FailCommit?
    ensures NoClaim(s, AdvanceExit(s, u, s.workers[u], c), t)
  {
  }

  lemma ExitKeepsToken(s: State, u: nat, c: Choice, t: nat)
    requires u in s.workers && IsExit(s.workers[u].pc)
    ensures NoClaim(s, AdvanceExit(s, u, s.workers[u], c), t)
  {
    var pc := s.workers[u].pc;
    if pc.Finish? || pc.FailWork? {
      ReleaseKeepsToken(s, u, c, t);
    } else if pc.Decide? || pc.TerminalCommit? || pc.ExpireCommit? || pc.FailCommit? {
      CommitKeepsToken(s, u, c, t);
    }
  }

  lemma StepKeepsToken(cfg: Config, s: State, step: Step, t: nat)
    requires Enabled(s, step)
    ensures TokenKept(s, Apply(cfg, s, step), t)
  {
    if step.Work? {
      var pc := s.workers[step.t].pc;
      if IsEntry(pc) {
        EntryKeepsToken(cfg, s, step.t, step.c, t);
      } else if IsPhase(pc) {
        PhaseKeepsToken(cfg, s, step.t, step.c, t);
        NoClaimKeepsToken(s, Apply(cfg, s, step), t);
      } else if IsProbe(pc) {
        ProbeKeepsToken(cfg, s, step.t, step.c, t);
        NoClaimKeepsToken(s, Apply(cfg, s, step), t);
      } else {
        ExitKeepsToken(s, step.t, step.c, t);
        NoClaimKeepsToken(s, Apply(cfg, s, step), t);
      }
    }
  }

  predicate TokenKeptAt(states: seq<State>, n: nat, t: nat)
    requires n + 1 < |states|
  {
    TokenKept(states[n], states[n + 1], t)
  }

  lemma TokenSteps(cfg: Config, states: seq<State>, steps: seq<Step>, t: nat)
    requires IsRun(cfg, states, steps)
    ensures forall n :: 0 <= n < |steps| ==> TokenKeptAt(states, n, t)
  {
    forall n | 0 <= n < |steps| ensures TokenKeptAt(states, n, t) {
      assert Enabled(states[n], steps[n]) && states[n + 1] == Apply(cfg, states[n], steps[n]);
      StepKeepsToken(cfg, states[n], steps[n], t);
    }
  }

  lemma {:induction false} TokensHold(states: seq<State>, n: nat, t: nat)
    requires n < |states| && TokenOk(states[0], t) && forall k :: 0 <= k < |states| - 1 ==> TokenKeptAt(states, k, t)
    ensures TokenOk(states[n], t)
  {
    if n > 0 {
      TokensHold(states, n - 1, t);
      assert TokenKeptAt(states, n - 1, t);
    }
  }

  lemma {:induction false} SpentStaysSpent(states: seq<State>, t: nat, i: nat, j: nat)
    requires i <= j < |states| && Spent(states[i], t)
    requires forall k :: 0 <= k < |states| - 1 ==> TokenKeptAt(states, k, t)
    ensures Spent(states[j], t) && (Retired(states[i], t) ==> Retired(states[j], t))
    decreases j
  {
    if i < j {
      SpentStaysSpent(states, t, i, j - 1);
      assert TokenKeptAt(states, j - 1, t);
    }
  }

  /** Over any schedule, timely or not, a token that has lost the lease never owns it again. */
  lemma LostLeasesStayLost(cfg: Config, states: seq<State>, steps: seq<Step>, t: nat, i: nat, j: nat, k: nat)
    requires IsRun(cfg, states, steps) && i <= j <= k < |states|
    requires Owns(states[i], t) && !Owns(states[j], t)
    ensures !Owns(states[k], t)
  {
    TokenSteps(cfg, states, steps, t);
    TokensHold(states, i, t);
    SpentStaysSpent(states, t, i, j);
    SpentStaysSpent(states, t, j, k);
  }

  // ---- Phases ----

  function Rank(state: ShutdownState): nat {
    match state
    case RUNNING => 0
    case REQUESTED => 1
    case FENCING => 2
    case PROCESS_STOP_SENT => 3
    case CHILD_DISCOVERY => 4
    case PROBING => 5
    case _ => 6
  }

  lemma MovesGoForward(s: State, s': State)
    requires LegalMove(s, s')
    ensures Rank(s.run.state) <= Rank(s'.run.state)
    ensures Terminal(s) ==> s'.run.state == s.run.state
    ensures Rank(s'.run.state) > Rank(s.run.state) + 1 ==>
              || (s'.run.state == UNKNOWN && Expired(s.run, s.now))
              || (s'.run.state == FAILED && HasRaised(s.calls))
  {
    VerifiedIsEarned(Results(Existing(s.probes)));
  }

  /** No phase is skipped except by a jump to UNKNOWN, after the deadline, or to FAILED, after
      an adapter call or the saving of children raised. */
  lemma NoPhaseIsSkipped(cfg: Config, states: seq<State>, steps: seq<Step>, i: nat)
    requires IsTimelyRun(cfg, states, steps) && i < |steps|
    ensures LegalMove(states[i], states[i + 1])
    ensures Rank(states[i].run.state) <= Rank(states[i + 1].run.state)
    ensures Terminal(states[i]) ==> states[i + 1].run.state == states[i].run.state
    ensures Rank(states[i + 1].run.state) > Rank(states[i].run.state) + 1 ==>
              || (states[i + 1].run.state == UNKNOWN && Expired(states[i].run, states[i].now))
              || (states[i + 1].run.state == FAILED && HasRaised(states[i].calls))
  {
    InvHolds(cfg, states, steps, i);
    assert states[i + 1] == Apply(cfg, states[i], steps[i]);
    StepMoves(cfg, states[i], steps[i]);
    MovesGoForward(states[i], states[i + 1]);
  }

  predicate Forward(a: ShutdownState, b: ShutdownState) { Rank(a) <= Rank(b) && (IsTerminal(a) ==> b == a) }

  lemma StepGoesForward(cfg: Config, states: seq<State>, steps: seq<Step>, i: nat)
    requires IsTimelyRun(cfg, states, steps) && i < |steps|
    ensures Forward(states[i].run.state, states[i + 1].run.state)
  {
    NoPhaseIsSkipped(cfg, states, steps, i);
  }

  /** Phases only move forward across all recoveries, and a verdict never changes. */
  lemma {:induction false} PhasesOnlyMoveForward(cfg: Config, states: seq<State>, steps: seq<Step>, i: nat, j: nat)
    requires IsTimelyRun(cfg, states, steps) && i <= j < |states|
    ensures Forward(states[i].run.state, states[j].run.state)
    decreases j
  {
    if i < j {
      PhasesOnlyMoveForward(cfg, states, steps, i, j - 1);
      StepGoesForward(cfg, states, steps, j - 1);
    }
  }

  /** In the history of adapter calls, a stop follows a returned fence, a discovery follows a
      returned stop, and a probe follows both, whatever was repeated after crashes. */
  lemma CallsFollowPhases(cfg: Config, states: seq<State>, steps: seq<Step>, i: nat, k: nat)
    requires IsTimelyRun(cfg, states, steps) && i < |states| && k < |states[i].calls| && states[i].calls[k].Called?
    ensures CallableAfter(states[i].calls[..k], states[i].calls[k].op)
  {
    InvHolds(cfg, states, steps, i);
  }

  // ---- VERIFIED is earned ----

  ghost predicate OnlyRow(rows: seq<ProbeRow>, kind: ProbeKind, j: int) {
    && 0 <= j < |rows| && rows[j].kind == kind
    && forall k :: 0 <= k < |rows| && rows[k].kind == kind ==> k == j
  }

  lemma RowOf(rows: seq<ProbeRow>, kind: ProbeKind) returns (j: nat)
    requires Distinct(rows) && kind != Restart && kind in Existing(rows)
    ensures OnlyRow(rows, kind, j) && rows[j].result == Existing(rows)[kind]
  {
    ExistingHolds(rows, kind);
    j :| 0 <= j < |rows| && rows[j].kind == kind;
    ExistingAt(rows, j);
  }

  /** A VERIFIED run has exactly one durable row for each of the five boundaries, and each is
      a PASS. */
  lemma VerifiedNeedsFivePasses(cfg: Config, states: seq<State>, steps: seq<Step>, i: nat, kind: ProbeKind)
    returns (j: nat)
    requires IsTimelyRun(cfg, states, steps) && i < |states|
    requires states[i].run.state == VERIFIED && kind in PROBE_KINDS
    ensures OnlyRow(states[i].probes, kind, j) && states[i].probes[j].result == Pass
  {
    var s := states[i];
    InvHolds(cfg, states, steps, i);
    var results := Results(Existing(s.probes));
    VerifiedIsEarned(results);
    assert results[0] == Pass && results[1] == Pass && results[2] == Pass && results[3] == Pass && results[4] == Pass;
    j := RowOf(s.probes, kind);
  }

  ghost predicate CallRaised(calls: seq<CallRecord>) { exists i :: 0 <= i < |calls| && calls[i].Raised? }

  /** Saving discovered children raised, because a status among them is not an object. */
  ghost predicate SaveFailed(calls: seq<CallRecord>) {
    exists i :: 0 <= i < |calls| && calls[i].SaveRaised? && !I.Savable(calls[i].children)
  }

  /** Every verdict has its cause: the aggregate of five durable results, a deadline that had
      passed when the run was stopped, an adapter call that raised, or discovered children that
      could not be saved. */
  lemma VerdictHasCause(cfg: Config, states: seq<State>, steps: seq<Step>, i: nat)
    requires IsTimelyRun(cfg, states, steps) && i < |states| && Terminal(states[i])
    ensures var run, results := states[i].run, Existing(states[i].probes);
            || (AllProbed(results) && run.state == Aggregate(Results(results)))
            || (run.state == UNKNOWN && run.stoppedAt.Some? && Expired(run, run.stoppedAt.value))
            || (run.state == FAILED && CallRaised(states[i].calls))
            || (run.state == FAILED && SaveFailed(states[i].calls))
  {
    InvHolds(cfg, states, steps, i);
  }

  // ---- Progress ----

  function Missing(existing: map<ProbeKind, ProbeResult>): nat {
    (if Process in existing then 0 else 1) + (if Delegation in existing then 0 else 1)
    + (if Kafka in existing then 0 else 1) + (if Credential in existing then 0 else 1)
    + (if Network in existing then 0 else 1)
  }

  /** Phase and probe commits a requested run has left. */
  function Left(s: State): nat {
    if Terminal(s) then 0 else 1 + (4 - PhaseIndex(s.run.state)) + Missing(Existing(s.probes))
  }

  /** The step committed a phase, a boundary probe or the verdict of a requested run. */
  predicate Commits(s: State, s': State) {
    s.run.state != RUNNING && (s'.run.state != s.run.state || (!Terminal(s) && s'.probes != s.probes))
  }

  function CommitCount(states: seq<State>, n: nat): nat
    requires n < |states|
  {
    if n == 0 then 0
    else CommitCount(states, n - 1) + if Commits(states[n - 1], states[n]) then 1 else 0
  }

  lemma CommitsLowerLeft(s: State, s': State)
    requires LegalMove(s, s') && s.run.state != RUNNING && (s.probes != [] ==> s.run.state == PROBING || Terminal(s))
    ensures Left(s') <= Left(s) && (Commits(s, s') ==> Left(s') < Left(s))
  {
    VerifiedIsEarned(Results(Existing(s.probes)));
    if s.run.state == PROBING == s'.run.state && s'.probes != s.probes {
      var row :| SavesProbe(s, s', row);
      ExistingGrows(s.probes, row);
      NewKindLowersMissing(Existing(s.probes), row);
    }
  }

  lemma NewKindLowersMissing(existing: map<ProbeKind, ProbeResult>, row: ProbeRow)
    requires row.kind in PROBE_KINDS && row.kind !in existing
    ensures Missing(existing[row.kind := row.result]) == Missing(existing) - 1
  {
  }

  /** Over all crashes and recoveries a run makes at most ten commits after its request: four
      phases, five probes and one verdict, each lowering what is left. */
  lemma {:induction false} AtMostTenCommits(cfg: Config, states: seq<State>, steps: seq<Step>, n: nat)
    requires IsTimelyRun(cfg, states, steps) && n < |states|
    ensures if states[n].run.state == RUNNING then CommitCount(states, n) == 0
            else CommitCount(states, n) + Left(states[n]) <= 10
  {
    if n > 0 {
      AtMostTenCommits(cfg, states, steps, n - 1);
      InvHolds(cfg, states, steps, n - 1);
      InvHolds(cfg, states, steps, n);
      assert states[n - 1 + 1] == Apply(cfg, states[n - 1], steps[n - 1]);
      StepMoves(cfg, states[n - 1], steps[n - 1]);
      if states[n - 1].run.state != RUNNING {
        CommitsLowerLeft(states[n - 1], states[n]);
      } else if states[n].run.state != RUNNING {
        assert states[n].probes == [];
      }
    }
  }
}
