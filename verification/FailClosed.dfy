/** Fail closed, exactly. A run that belongs to a simulated drill is recovered with the drill's
    outcomes, whoever stopped it, so what a verdict says about the world depends on them. */
module FailClosed {
  import opened Domain
  import I = Integrations
  import opened Orchestrator
  import opened OrchestratorInvariant
  import opened OrchestratorTheorems
  import opened OrchestratorSources
  import opened OrchestratorOutcomes
  import opened OrchestratorSchedules
  import opened OrchestratorLimits
  import LongLeases

  // ---- The heir follows the outcomes ----

  lemma {:induction false} ResultsOfRows(rows: seq<ProbeRow>, o: map<ProbeKind, ProbeResult>)
    requires InOrder(rows) && |rows| == |PROBE_KINDS|
    requires forall j :: 0 <= j < |rows| ==> rows[j].result == Outcome(o, rows[j].kind)
    ensures Results(Existing(rows)) == Results(o)
  {
    forall i | 0 <= i < |PROBE_KINDS| ensures Outcome(Existing(rows), PROBE_KINDS[i]) == Outcome(o, PROBE_KINDS[i]) {
      InOrderKnows(rows, i);
    }
    forall i | 0 <= i < |Results(o)| ensures Results(Existing(rows))[i] == Results(o)[i] {
      assert Results(Existing(rows))[i] == Outcome(Existing(rows), PROBE_KINDS[i]);
      assert Results(o)[i] == Outcome(o, PROBE_KINDS[i]);
    }
  }

  /** A public caller stops the run, its worker dies before the claim, and recovery finishes the
      run at once with the drill's outcomes: nothing raised and nothing was observed. */
  lemma HeirFollowsOutcomes(cfg: Config) returns (states: seq<State>, steps: seq<Step>)
    requires Positive(cfg) && cfg.outcomes.Some?
    ensures IsTimelyRun(cfg, states, steps) && AcceptedVia(cfg, states, steps, false)
    ensures var s := states[|steps|];
            && s.run.state == Aggregate(Results(cfg.outcomes.value)) && Quiet(s.calls) && InOrder(s.probes)
            && |s.probes| == |PROBE_KINDS| && forall j :: 0 <= j < |s.probes| ==> s.probes[j].world == SILENCE
  {
    var o := cfg.outcomes.value;
    var f := op => Typical(Synthetic(o), SILENCE, op);
    TypicalAnswers(Synthetic(o), SILENCE);
    states, steps := HeirFinishes(cfg, f);
    ExtendedRows([], f, |PROBE_KINDS|);
    ResultsOfRows(Extended([], f, |PROBE_KINDS|), o);
    FlagDecidesOrigin(cfg, states, steps);
  }

  lemma {:induction false} OnlyRowInOrder(rows: seq<ProbeRow>, i: nat, j: int)
    requires InOrder(rows) && i < |rows| && OnlyRow(rows, PROBE_KINDS[i], j)
    ensures j == i
  {
    assert rows[i].kind == PROBE_KINDS[i];
  }

  lemma SilenceIsNotClosed(c: I.Config, kind: ProbeKind)
    ensures !I.Closed(c, SILENCE, kind) && !I.Breached(c, SILENCE, kind)
  {
  }

  /** While a public request is the one accepted, the flag stays down. */
  lemma PublicIsNotDispatched(cfg: Config, states: seq<State>, steps: seq<Step>, i: nat)
    requires IsTimelyRun(cfg, states, steps) && i < |states| && AcceptedVia(cfg, states, steps, false)
    requires states[i].run.requestedAt.Some?
    ensures !states[i].dispatched
  {
    var k := RequestedMeansAccepted(cfg, states, steps, i);
    AcceptedFixesFlag(cfg, states, steps, k, i);
  }

  // ---- The default adapter ----

  ghost predicate AllUnknown(cfg: Config) {
    forall states: seq<State>, steps: seq<Step>, i: int ::
      IsTimelyRun(cfg, states, steps) && 0 <= i < |states| && Terminal(states[i]) ==> states[i].run.state == UNKNOWN
  }

  lemma UnknownOrOutcome(e: map<ProbeKind, ProbeResult>, o: map<ProbeKind, ProbeResult>)
    requires Aggregate(Results(o)) == UNKNOWN
    requires forall i :: 0 <= i < |PROBE_KINDS| ==>
                           Outcome(e, PROBE_KINDS[i]) in {Unknown, Outcome(o, PROBE_KINDS[i])}
    ensures Aggregate(Results(e)) == UNKNOWN
  {
    var a, b := Results(e), Results(o);
    forall i | 0 <= i < |a| ensures a[i] == Unknown || a[i] == b[i] {
      assert a[i] == Outcome(e, PROBE_KINDS[i]) && b[i] == Outcome(o, PROBE_KINDS[i]);
    }
    assert Unknown in b;
    var i :| 0 <= i < |b| && b[i] == Unknown;
    assert a[i] == Unknown;
  }

  /** The durable result of a boundary, by its row. */
  lemma DurableResult(cfg: Config, s: State, k: nat) returns (n: nat)
    requires Distinct(s.probes) && Ordered(s.probes) && RowsOfTwo(cfg, s) && AllProbed(Existing(s.probes))
    requires k < |PROBE_KINDS|
    ensures Split(FirstAdapter(cfg, s.dispatched), RecoveryAdapter(cfg), s.probes, n)
    ensures OnlyRow(s.probes, PROBE_KINDS[k], k) && s.probes[k].result == Existing(s.probes)[PROBE_KINDS[k]]
    ensures RowFrom(if k < n then FirstAdapter(cfg, s.dispatched) else RecoveryAdapter(cfg), s.probes[k])
  {
    var j := RowOf(s.probes, PROBE_KINDS[k]);
    n :| Split(FirstAdapter(cfg, s.dispatched), RecoveryAdapter(cfg), s.probes, n);
    assert RowFrom(if j < n then FirstAdapter(cfg, s.dispatched) else RecoveryAdapter(cfg), s.probes[j]);
  }

  lemma UnknownStays(cfg: Config, states: seq<State>, steps: seq<Step>, i: nat)
    requires IsTimelyRun(cfg, states, steps) && i < |states| && Terminal(states[i]) && cfg.adapter.SafeUnknown?
    requires cfg.outcomes.Some? && Aggregate(Results(cfg.outcomes.value)) == UNKNOWN
    ensures states[i].run.state == UNKNOWN
  {
    var s, o := states[i], cfg.outcomes.value;
    InvHolds(cfg, states, steps, i);
    SourceHolds(cfg, states, steps, i);
    VerdictHasCause(cfg, states, steps, i);
    if AllProbed(Existing(s.probes)) {
      forall k | 0 <= k < |PROBE_KINDS|
        ensures Outcome(Existing(s.probes), PROBE_KINDS[k]) in {Unknown, Outcome(o, PROBE_KINDS[k])}
      {
        var n := DurableResult(cfg, s, k);
      }
      UnknownOrOutcome(Existing(s.probes), o);
    }
  }

  /** Under the default adapter every finished run is UNKNOWN if and only if it belongs to no
      simulated drill, or to one whose outcomes aggregate to UNKNOWN. */
  lemma SafeUnknownExactly(cfg: Config)
    requires Positive(cfg) && cfg.adapter.SafeUnknown?
    ensures AllUnknown(cfg) <==> cfg.outcomes.None? || Aggregate(Results(cfg.outcomes.value)) == UNKNOWN
  {
    if cfg.outcomes.None? || Aggregate(Results(cfg.outcomes.value)) == UNKNOWN {
      forall states: seq<State>, steps: seq<Step>, i: int | IsTimelyRun(cfg, states, steps) && 0 <= i < |states|
          && Terminal(states[i])
        ensures states[i].run.state == UNKNOWN
      {
        if cfg.outcomes.None? {
          SafeUnknownNeverVerifies(cfg, states, steps, i);
        } else {
          UnknownStays(cfg, states, steps, i);
        }
      }
    } else {
      var states, steps := HeirFollowsOutcomes(cfg);
      VerifiedIsEarned(Results(cfg.outcomes.value));
    }
  }

  // ---- The Kubernetes adapter: VERIFIED ----

  ghost predicate RowClosed(c: I.Config, rows: seq<ProbeRow>, kind: ProbeKind) {
    exists j :: OnlyRow(rows, kind, j) && I.Closed(c, rows[j].world, kind)
  }

  /** Whenever a public request was accepted, VERIFIED means that every boundary was seen closed. */
  ghost predicate VerifiedIsClosed(cfg: Config)
    requires cfg.adapter.Kubernetes?
  {
    forall states: seq<State>, steps: seq<Step>, i: int, k: int ::
      IsTimelyRun(cfg, states, steps) && AcceptedVia(cfg, states, steps, false) && 0 <= i < |states|
      && states[i].run.state == VERIFIED && 0 <= k < |PROBE_KINDS| ==>
        RowClosed(cfg.adapter.config, states[i].probes, PROBE_KINDS[k])
  }

  /** The boundary can be seen closed at all. */
  predicate CanPass(c: I.Config, kind: ProbeKind) {
    && c.namespaceAllowed && (kind == Kafka ==> c.kafka) && (kind == Credential ==> c.credential)
    && (kind == Network ==> c.egress)
  }

  /** A takeover at boundary `n` can end VERIFIED: the outcomes pass from there on, everything
      before can pass, and the takeover comes before the claim or before the deadline. */
  predicate Leaks(cfg: Config, n: nat)
    requires cfg.adapter.Kubernetes? && cfg.outcomes.Some?
  {
    && n < |PROBE_KINDS| && (n == 0 || cfg.lease < cfg.deadline)
    && (forall k :: n <= k < |PROBE_KINDS| ==> Outcome(cfg.outcomes.value, PROBE_KINDS[k]) == Pass)
    && (forall k :: 0 <= k < n ==> CanPass(cfg.adapter.config, PROBE_KINDS[k]))
  }

  /** The schedule of a leak: a timely run that is VERIFIED although nothing was observed at
      boundary `n`. */
  lemma LeakShows(cfg: Config, n: nat) returns (states: seq<State>, steps: seq<Step>)
    requires Positive(cfg) && cfg.adapter.Kubernetes? && cfg.outcomes.Some? && Leaks(cfg, n)
    ensures IsTimelyRun(cfg, states, steps) && AcceptedVia(cfg, states, steps, false)
    ensures states[|steps|].run.state == VERIFIED
    ensures !RowClosed(cfg.adapter.config, states[|steps|].probes, PROBE_KINDS[n])
  {
    var o, c := cfg.outcomes.value, cfg.adapter.config;
    if n == 0 {
      states, steps := HeirFollowsOutcomes(cfg);
      PassingOutcomes(o);
    } else {
      states, steps := TakenOverAt(cfg, n);
    }
    SilentRowIsOpen(c, states[|steps|].probes, n);
  }

  lemma {:induction false} SilentRowIsOpen(c: I.Config, rows: seq<ProbeRow>, n: nat)
    requires InOrder(rows) && n < |rows| && rows[n].world == SILENCE
    ensures !RowClosed(c, rows, PROBE_KINDS[n])
  {
    SilenceIsNotClosed(c, PROBE_KINDS[n]);
    forall j | OnlyRow(rows, PROBE_KINDS[n], j) ensures rows[j].world == SILENCE {
      OnlyRowInOrder(rows, n, j);
    }
  }

  lemma PassingOutcomes(o: map<ProbeKind, ProbeResult>)
    requires forall k :: 0 <= k < |PROBE_KINDS| ==> Outcome(o, PROBE_KINDS[k]) == Pass
    ensures Aggregate(Results(o)) == VERIFIED
  {
    forall i | 0 <= i < |Results(o)| ensures Results(o)[i] == Pass {
      assert Results(o)[i] == Outcome(o, PROBE_KINDS[i]);
    }
    VerifiedIsEarned(Results(o));
  }

  /** The first worker sees the boundaries before `n` closed and dies; after the lease recovery
      supplies the others from the outcomes. */
  lemma TakenOverAt(cfg: Config, n: nat) returns (states: seq<State>, steps: seq<Step>)
    requires Positive(cfg) && cfg.adapter.Kubernetes? && cfg.outcomes.Some? && Leaks(cfg, n) && n > 0
    ensures IsTimelyRun(cfg, states, steps) && AcceptedVia(cfg, states, steps, false)
    ensures states[|steps|].run.state == VERIFIED && InOrder(states[|steps|].probes)
    ensures n < |states[|steps|].probes| && states[|steps|].probes[n].world == SILENCE
  {
    var f, g := Seen(cfg), Told(cfg);
    assert CanPass(cfg.adapter.config, PROBE_KINDS[0]);
    ClosedListsNothing();
    TypicalAnswers(cfg.adapter, CLOSED);
    TypicalAnswers(RecoveryAdapter(cfg), SILENCE);
    MixedRows(cfg, n);
    states, steps := SuccessorFinishes(cfg, f, g, n);
    FlagDecidesOrigin(cfg, states, steps);
  }

  /** What the Kubernetes adapter answers when everything is closed, and what the outcomes say. */
  function Seen(cfg: Config): Op -> Reply { op => Typical(cfg.adapter, CLOSED, op) }

  function Told(cfg: Config): Op -> Reply { op => Typical(RecoveryAdapter(cfg), SILENCE, op) }

  lemma MixedRows(cfg: Config, n: nat)
    requires cfg.adapter.Kubernetes? && cfg.outcomes.Some? && Leaks(cfg, n)
    ensures var rows := Extended(Extended([], Seen(cfg), n), Told(cfg), |PROBE_KINDS|);
            && InOrder(rows) && n < |rows| && rows[n].world == SILENCE
            && Aggregate(Results(Existing(rows))) == VERIFIED
  {
    ExtendedRows([], Seen(cfg), n);
    ExtendedRows(Extended([], Seen(cfg), n), Told(cfg), |PROBE_KINDS|);
    var rows := Extended(Extended([], Seen(cfg), n), Told(cfg), |PROBE_KINDS|);
    forall j | 0 <= j < |rows| ensures rows[j].result == Pass {
      assert rows[j] == RowOfAnswer(if j < n then Seen(cfg) else Told(cfg), PROBE_KINDS[j]);
      MixedPasses(cfg, n, j);
    }
    AllPassed(rows);
  }

  lemma MixedPasses(cfg: Config, n: nat, j: nat)
    requires cfg.adapter.Kubernetes? && cfg.outcomes.Some? && Leaks(cfg, n) && j < |PROBE_KINDS|
    ensures RowOfAnswer(if j < n then Seen(cfg) else Told(cfg), PROBE_KINDS[j]).result == Pass
  {
    if j < n {
      ClosedPasses(cfg.adapter.config, PROBE_KINDS[j]);
    }
  }

  lemma ClosedPasses(c: I.Config, kind: ProbeKind)
    requires kind != Restart && CanPass(c, kind)
    ensures I.KubernetesProbe(c, CLOSED, kind) == Pass
  {
    I.PassMeansClosed(c, CLOSED, kind);
  }

  /** A row that the Kubernetes adapter passed was seen closed. */
  lemma PassedRowIsClosed(c: I.Config, row: ProbeRow)
    requires RowFrom(Kubernetes(c), row) && row.kind != Restart && row.result == Pass
    ensures I.Closed(c, row.world, row.kind) && CanPass(c, row.kind)
  {
    I.PassMeansClosed(c, row.world, row.kind);
  }

  /** In a VERIFIED run some takeover point `n` divides what was seen closed from what the outcomes
      said; and if the lease is too long for a takeover in time, it lies at an end. */
  lemma VerifiedDivides(cfg: Config, states: seq<State>, steps: seq<Step>, i: nat) returns (n: nat)
    requires IsTimelyRun(cfg, states, steps) && i < |states| && AcceptedVia(cfg, states, steps, false)
    requires cfg.adapter.Kubernetes? && cfg.outcomes.Some? && states[i].run.state == VERIFIED
    ensures n <= |PROBE_KINDS| && (cfg.lease < cfg.deadline || n == 0 || n == |PROBE_KINDS|)
    ensures forall k :: 0 <= k < n ==> CanPass(cfg.adapter.config, PROBE_KINDS[k])
    ensures forall k :: 0 <= k < n ==> RowClosed(cfg.adapter.config, states[i].probes, PROBE_KINDS[k])
    ensures forall k :: n <= k < |PROBE_KINDS| ==> Outcome(cfg.outcomes.value, PROBE_KINDS[k]) == Pass
  {
    var s := states[i];
    VerifiedRows(cfg, states, steps, i);
    n := TakeoverPoint(cfg, states, steps, i);
    forall k | 0 <= k < |PROBE_KINDS|
      ensures k < n ==> CanPass(cfg.adapter.config, PROBE_KINDS[k])
      ensures k < n ==> RowClosed(cfg.adapter.config, s.probes, PROBE_KINDS[k])
      ensures k >= n ==> Outcome(cfg.outcomes.value, PROBE_KINDS[k]) == Pass
    {
      assert OnlyRow(s.probes, PROBE_KINDS[k], k) && s.probes[k].result == Pass;
      assert RowFrom(if k < n then cfg.adapter else RecoveryAdapter(cfg), s.probes[k]);
      if k < n {
        PassedRowIsClosed(cfg.adapter.config, s.probes[k]);
      }
    }
  }

  /** A VERIFIED run's rows are those of the boundaries in their order, all passed. */
  lemma VerifiedRows(cfg: Config, states: seq<State>, steps: seq<Step>, i: nat)
    requires IsTimelyRun(cfg, states, steps) && i < |states| && states[i].run.state == VERIFIED
    ensures var rows := states[i].probes;
            forall k :: 0 <= k < |PROBE_KINDS| ==> OnlyRow(rows, PROBE_KINDS[k], k) && rows[k].result == Pass
  {
    SourceHolds(cfg, states, steps, i);
    assert Ordered(states[i].probes);
    forall k | 0 <= k < |PROBE_KINDS|
      ensures OnlyRow(states[i].probes, PROBE_KINDS[k], k) && states[i].probes[k].result == Pass
    {
      var j := VerifiedNeedsFivePasses(cfg, states, steps, i, PROBE_KINDS[k]);
      assert j == k;
    }
  }

  /** Where recovery took over from the configured adapter. */
  lemma TakeoverPoint(cfg: Config, states: seq<State>, steps: seq<Step>, i: nat) returns (n: nat)
    requires IsTimelyRun(cfg, states, steps) && i < |states| && AcceptedVia(cfg, states, steps, false)
    requires states[i].run.state == VERIFIED
    ensures n <= |PROBE_KINDS| && (cfg.lease < cfg.deadline || n == 0 || n == |PROBE_KINDS|)
    ensures forall k :: 0 <= k < |states[i].probes| && k < |PROBE_KINDS| ==>
                          RowFrom(if k < n then cfg.adapter else RecoveryAdapter(cfg), states[i].probes[k])
  {
    var s := states[i];
    InvHolds(cfg, states, steps, i);
    SourceHolds(cfg, states, steps, i);
    PublicIsNotDispatched(cfg, states, steps, i);
    var m: nat :| Split(cfg.adapter, RecoveryAdapter(cfg), s.probes, m);
    n := if m < |PROBE_KINDS| then m else |PROBE_KINDS|;
    if cfg.lease >= cfg.deadline {
      LongLeases.RowsArePure(cfg, states, steps, i);
      n := if RowsFrom(cfg.adapter, s.probes) then |PROBE_KINDS| else 0;
    }
  }

  /** Under the Kubernetes adapter, whenever a public request was accepted, VERIFIED means that every
      boundary was seen closed if and only if no takeover can leak. */
  lemma VerifiedIsClosedExactly(cfg: Config)
    requires Positive(cfg) && cfg.adapter.Kubernetes?
    ensures VerifiedIsClosed(cfg) <==> cfg.outcomes.None? || forall n: nat :: !Leaks(cfg, n)
  {
    if cfg.outcomes.None? || forall n: nat :: !Leaks(cfg, n) {
      forall states: seq<State>, steps: seq<Step>, i: int, k: int |
        IsTimelyRun(cfg, states, steps) && AcceptedVia(cfg, states, steps, false) && 0 <= i < |states|
        && states[i].run.state == VERIFIED && 0 <= k < |PROBE_KINDS|
        ensures RowClosed(cfg.adapter.config, states[i].probes, PROBE_KINDS[k])
      {
        if cfg.outcomes.None? {
          var j := VerifiedMeansClosed(cfg, states, steps, i, PROBE_KINDS[k]);
        } else {
          var n := VerifiedDivides(cfg, states, steps, i);
          var leak := Leaks(cfg, n);
          assert leak || n == |PROBE_KINDS|;
        }
      }
    } else {
      var n: nat :| Leaks(cfg, n);
      var states, steps := LeakShows(cfg, n);
    }
  }

  // ---- The Kubernetes adapter: FAILED ----

  ghost predicate RowBreached(c: I.Config, rows: seq<ProbeRow>, kind: ProbeKind) {
    exists j :: OnlyRow(rows, kind, j) && I.Breached(c, rows[j].world, kind)
  }

  /** A call raised, a child could not be saved, or a boundary was seen open. */
  ghost predicate Explained(c: I.Config, s: State) {
    || CallRaised(s.calls)
    || IllegibleChild(s.calls)
    || exists k :: 0 <= k < |PROBE_KINDS| && RowBreached(c, s.probes, PROBE_KINDS[k])
  }

  /** Whenever a public request was accepted, FAILED has such an explanation. */
  ghost predicate FailedIsExplained(cfg: Config)
    requires cfg.adapter.Kubernetes?
  {
    forall states: seq<State>, steps: seq<Step>, i: int ::
      IsTimelyRun(cfg, states, steps) && AcceptedVia(cfg, states, steps, false) && 0 <= i < |states|
      && states[i].run.state == FAILED ==>
        Explained(cfg.adapter.config, states[i])
  }

  lemma ExplainFailure(cfg: Config, states: seq<State>, steps: seq<Step>, i: nat)
    requires IsTimelyRun(cfg, states, steps) && i < |states| && AcceptedVia(cfg, states, steps, false)
    requires cfg.adapter.Kubernetes? && cfg.outcomes.Some? && Fail !in Results(cfg.outcomes.value)
    requires states[i].run.state == FAILED
    ensures Explained(cfg.adapter.config, states[i])
  {
    var s := states[i];
    InvHolds(cfg, states, steps, i);
    SourceHolds(cfg, states, steps, i);
    PublicIsNotDispatched(cfg, states, steps, i);
    VerdictHasCause(cfg, states, steps, i);
    if SaveFailed(s.calls) {
      FailedSaveMeansIllegible(cfg.adapter, RecoveryAdapter(cfg), s.calls);
    } else if !CallRaised(s.calls) {
      FailedRowIsBreached(cfg, s);
    }
  }

  lemma FailedRowIsBreached(cfg: Config, s: State)
    requires Distinct(s.probes) && Ordered(s.probes) && RowsOfTwo(cfg, s)
    requires AllProbed(Existing(s.probes)) && Aggregate(Results(Existing(s.probes))) == FAILED
    requires cfg.adapter.Kubernetes? && cfg.outcomes.Some? && Fail !in Results(cfg.outcomes.value) && !s.dispatched
    ensures Explained(cfg.adapter.config, s)
  {
    var k :| 0 <= k < |PROBE_KINDS| && Results(Existing(s.probes))[k] == Fail;
    assert PROBE_KINDS[k] in Existing(s.probes);
    var n := DurableResult(cfg, s, k);
    assert Results(cfg.outcomes.value)[k] == Outcome(cfg.outcomes.value, PROBE_KINDS[k]);
    I.FailMeansBreached(cfg.adapter.config, s.probes[k].world, PROBE_KINDS[k]);
    assert RowBreached(cfg.adapter.config, s.probes, PROBE_KINDS[k]);
  }

  /** Under the Kubernetes adapter, whenever a public request was accepted, every FAILED is explained
      if and only if the run belongs to no simulated drill, or to one without a FAIL. */
  lemma FailedIsExplainedExactly(cfg: Config)
    requires Positive(cfg) && cfg.adapter.Kubernetes?
    ensures FailedIsExplained(cfg) <==> cfg.outcomes.None? || Fail !in Results(cfg.outcomes.value)
  {
    if cfg.outcomes.None? || Fail !in Results(cfg.outcomes.value) {
      forall states: seq<State>, steps: seq<Step>, i: int |
        IsTimelyRun(cfg, states, steps) && AcceptedVia(cfg, states, steps, false) && 0 <= i < |states|
        && states[i].run.state == FAILED
        ensures Explained(cfg.adapter.config, states[i])
      {
        if cfg.outcomes.None? {
          var kind, j := FailedMeansBreached(cfg, states, steps, i);
          if !CallRaised(states[i].calls) && !IllegibleChild(states[i].calls) {
            var k :| 0 <= k < |PROBE_KINDS| && PROBE_KINDS[k] == kind;
            assert RowBreached(cfg.adapter.config, states[i].probes, PROBE_KINDS[k]);
          }
        } else {
          ExplainFailure(cfg, states, steps, i);
        }
      }
    } else {
      var states, steps := HeirFollowsOutcomes(cfg);
      UnexplainedFailure(cfg.adapter.config, states[|steps|]);
    }
  }

  lemma UnexplainedFailure(c: I.Config, s: State)
    requires Quiet(s.calls) && InOrder(s.probes) && |s.probes| == |PROBE_KINDS|
    requires forall j :: 0 <= j < |s.probes| ==> s.probes[j].world == SILENCE
    ensures !Explained(c, s)
  {
    forall k | 0 <= k < |PROBE_KINDS| ensures !RowBreached(c, s.probes, PROBE_KINDS[k]) {
      SilenceIsNotClosed(c, PROBE_KINDS[k]);
    }
  }
}
