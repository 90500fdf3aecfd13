/** What a verdict says about the world: crash transparency of simulated drills, fail-closed
    adapters, and the idempotence of shutdown requests. */
module OrchestratorOutcomes {
  import opened Domain
  import I = Integrations
  import opened Orchestrator
  import opened OrchestratorInvariant
  import opened OrchestratorTheorems
  import opened OrchestratorSources

  // ---- Theorems ----

  lemma AgreeingRows(rows: seq<ProbeRow>, outcomes: map<ProbeKind, ProbeResult>, kind: ProbeKind)
    requires Distinct(rows) && kind != Restart && kind in Existing(rows) && RowsFrom(Synthetic(outcomes), rows)
    ensures Outcome(Existing(rows), kind) == Outcome(outcomes, kind)
  {
    var j := RowOf(rows, kind);
    assert RowFrom(Synthetic(outcomes), rows[j]);
  }

  /** Crash transparency. However often the process crashed and recovered, the durable probe
      rows of a dispatched simulated drill carry the requested outcomes, and its verdict is the
      aggregate of those outcomes, unless a check saw the deadline pass: then it is UNKNOWN and
      the run stopped no earlier than its deadline. */
  lemma CrashTransparency(cfg: Config, states: seq<State>, steps: seq<Step>, i: nat)
    requires IsTimelyRun(cfg, states, steps) && i < |states|
    requires cfg.outcomes.Some? && states[i].dispatched
    ensures Transparent(cfg.outcomes.value, states[i])
  {
    var s, o := states[i], cfg.outcomes.value;
    InvHolds(cfg, states, steps, i);
    SourceHolds(cfg, states, steps, i);
    OneSource(cfg, s);
    RowsDecideVerdict(o, s);
  }

  /** Rows with the requested outcomes leave no other verdict, unless a call raised. */
  lemma RowsDecideVerdict(o: map<ProbeKind, ProbeResult>, s: State)
    requires Inv(s) && RowsFrom(Synthetic(o), s.probes)
    requires Terminal(s) && s.run.state == FAILED && HasRaised(s.calls) ==> Aggregate(Results(o)) == FAILED
    ensures Transparent(o, s)
  {
    forall j | 0 <= j < |s.probes| && s.probes[j].kind != Restart
      ensures s.probes[j].result == Outcome(o, s.probes[j].kind)
    {
      assert RowFrom(Synthetic(o), s.probes[j]);
    }
    if Terminal(s) && AllProbed(Existing(s.probes)) {
      var e := Existing(s.probes);
      assert PROBE_KINDS[0] in e && PROBE_KINDS[1] in e && PROBE_KINDS[2] in e && PROBE_KINDS[3] in e
             && PROBE_KINDS[4] in e;
      AgreeingRows(s.probes, o, Process);
      AgreeingRows(s.probes, o, Delegation);
      AgreeingRows(s.probes, o, Kafka);
      AgreeingRows(s.probes, o, Credential);
      AgreeingRows(s.probes, o, Network);
    }
  }

  // ---- Whose request was accepted ----

  predicate Accepts(cfg: Config, s: State, step: Step) {
    step.Request? && AnswerRequest(cfg, s, step.key, step.asked).Accepted?
  }

  lemma StepKeepsFlag(cfg: Config, s: State, step: Step)
    requires Enabled(s, step)
    ensures Apply(cfg, s, step).dispatched == if Accepts(cfg, s, step) then step.viaDrill else s.dispatched
  {
    if step.Work? {
      AdvanceOrigin(cfg, s, step.t, step.c);
      AdvanceKeepsFlag(cfg, s, step.t, step.c);
    }
  }

  lemma AdvanceKeepsFlag(cfg: Config, s: State, t: nat, c: Choice)
    requires t in s.workers
    ensures Advance(cfg, s, t, c).dispatched == s.dispatched
  {
    AdvanceOrigin(cfg, s, t, c);
  }

  lemma AcceptedSetsFlag(cfg: Config, states: seq<State>, steps: seq<Step>, i: nat)
    requires IsRun(cfg, states, steps) && i < |steps| && Accepts(cfg, states[i], steps[i])
    ensures states[i + 1].run.requestedAt.Some? && states[i + 1].dispatched == steps[i].viaDrill
  {
    assert states[i + 1] == Apply(cfg, states[i], steps[i]);
  }

  /** The flag is the origin of the one accepted request. */
  lemma {:induction false} AcceptedFixesFlag(cfg: Config, states: seq<State>, steps: seq<Step>, i: nat, n: nat)
    requires IsRun(cfg, states, steps) && i < n < |states| && Accepts(cfg, states[i], steps[i])
    ensures states[n].dispatched == steps[i].viaDrill
    decreases n
  {
    AcceptedSetsFlag(cfg, states, steps, i);
    if n > i + 1 {
      AcceptedFixesFlag(cfg, states, steps, i, n - 1);
      RequestIsWrittenOnce(cfg, states, steps, i + 1, n - 1);
      FlagIsKept(cfg, states, steps, n - 1);
    }
  }

  lemma FlagIsKept(cfg: Config, states: seq<State>, steps: seq<Step>, n: nat)
    requires IsRun(cfg, states, steps) && n < |steps| && states[n].run.requestedAt.Some?
    ensures states[n + 1].dispatched == states[n].dispatched
  {
    assert Enabled(states[n], steps[n]) && states[n + 1] == Apply(cfg, states[n], steps[n]);
    StepKeepsFlag(cfg, states[n], steps[n]);
  }

  lemma {:induction false} RequestedMeansAccepted(cfg: Config, states: seq<State>, steps: seq<Step>, n: nat)
    returns (i: nat)
    requires IsRun(cfg, states, steps) && n < |states| && states[n].run.requestedAt.Some?
    ensures i < n && Accepts(cfg, states[i], steps[i])
  {
    assert states[n - 1 + 1] == Apply(cfg, states[n - 1], steps[n - 1]);
    if Accepts(cfg, states[n - 1], steps[n - 1]) {
      i := n - 1;
    } else {
      if steps[n - 1].Work? {
        EntryKeepsRequest(cfg, states[n - 1], steps[n - 1].t, steps[n - 1].c);
      }
      i := RequestedMeansAccepted(cfg, states, steps, n - 1);
    }
  }

  /** The drill's promise: durable results are the requested ones, and so is the verdict, unless
      a check saw the deadline pass. */
  ghost predicate Transparent(o: map<ProbeKind, ProbeResult>, s: State) {
    && (forall j :: 0 <= j < |s.probes| && s.probes[j].kind != Restart ==>
                      s.probes[j].result == Outcome(o, s.probes[j].kind))
    && (Terminal(s) ==>
          || s.run.state == Aggregate(Results(o))
          || (s.run.state == UNKNOWN && s.run.stoppedAt.Some? && Expired(s.run, s.run.stoppedAt.value)))
  }

  /** Every request that is accepted in the schedule comes from the dispatcher (`b`) or from a
      public caller (`!b`). */
  ghost predicate AcceptedVia(cfg: Config, states: seq<State>, steps: seq<Step>, b: bool)
    requires |states| == |steps| + 1
  {
    forall i :: 0 <= i < |steps| && Accepts(cfg, states[i], steps[i]) ==> steps[i].viaDrill == b
  }

  lemma FlagDecidesOrigin(cfg: Config, states: seq<State>, steps: seq<Step>)
    requires IsRun(cfg, states, steps) && states[|steps|].run.requestedAt.Some?
    ensures AcceptedVia(cfg, states, steps, states[|steps|].dispatched)
  {
    forall i | 0 <= i < |steps| && Accepts(cfg, states[i], steps[i])
      ensures steps[i].viaDrill == states[|steps|].dispatched
    {
      AcceptedFixesFlag(cfg, states, steps, i, |steps|);
    }
  }

  lemma DispatchedIsTransparent(cfg: Config, states: seq<State>, steps: seq<Step>, i: nat)
    requires IsTimelyRun(cfg, states, steps) && i < |states| && cfg.outcomes.Some?
    requires AcceptedVia(cfg, states, steps, true)
    ensures Transparent(cfg.outcomes.value, states[i])
  {
    InvHolds(cfg, states, steps, i);
    if states[i].run.requestedAt.Some? {
      var k := RequestedMeansAccepted(cfg, states, steps, i);
      AcceptedFixesFlag(cfg, states, steps, k, i);
      CrashTransparency(cfg, states, steps, i);
    }
  }

  /** Under the default adapter every finished run is UNKNOWN. */
  lemma SafeUnknownNeverVerifies(cfg: Config, states: seq<State>, steps: seq<Step>, i: nat)
    requires IsTimelyRun(cfg, states, steps) && i < |states|
    requires cfg.outcomes.None? && cfg.adapter.SafeUnknown? && Terminal(states[i])
    ensures states[i].run.state == UNKNOWN
  {
    var s := states[i];
    InvHolds(cfg, states, steps, i);
    SourceHolds(cfg, states, steps, i);
    OneSource(cfg, s);
    if AllProbed(Existing(s.probes)) {
      forall kind | kind in PROBE_KINDS ensures Outcome(Existing(s.probes), kind) == Unknown {
        var j := RowOf(s.probes, kind);
        assert RowFrom(SafeUnknown, s.probes[j]);
      }
    }
  }

  /** Fail closed, end to end: whatever the transports did, a run that is VERIFIED under the
      Kubernetes adapter has, for every boundary, exactly one row, taken from a world in which
      that boundary was configured, observed and closed. */
  lemma VerifiedMeansClosed(cfg: Config, states: seq<State>, steps: seq<Step>, i: nat, kind: ProbeKind)
    returns (j: nat)
    requires IsTimelyRun(cfg, states, steps) && i < |states| && kind in PROBE_KINDS
    requires cfg.outcomes.None? && cfg.adapter.Kubernetes? && states[i].run.state == VERIFIED
    ensures cfg.adapter.config.namespaceAllowed
    ensures OnlyRow(states[i].probes, kind, j) && I.Closed(cfg.adapter.config, states[i].probes[j].world, kind)
  {
    InvHolds(cfg, states, steps, i);
    SourceHolds(cfg, states, steps, i);
    OneSource(cfg, states[i]);
    j := VerifiedNeedsFivePasses(cfg, states, steps, i, kind);
    var row := states[i].probes[j];
    assert RowFrom(cfg.adapter, row);
    I.PassMeansClosed(cfg.adapter.config, row.world, kind);
  }

  /** Some discovery of the cluster listed a child whose status is there and is not an object. */
  ghost predicate IllegibleChild(calls: seq<CallRecord>) {
    exists i :: 0 <= i < |calls| && calls[i].SaveRaised?
                && (I.ListsIllegible(calls[i].world.jobs) || I.ListsIllegible(calls[i].world.cronjobs))
  }

  /** The Kubernetes adapter, or one that discovers nothing. */
  predicate Honest(a: Adapter) { a.Kubernetes? || NeverRaises(a) }

  lemma FailedSaveMeansIllegible(a: Adapter, b: Adapter, calls: seq<CallRecord>)
    requires Honest(a) && Honest(b) && CallsFrom(a, b, calls) && SaveFailed(calls)
    ensures IllegibleChild(calls)
  {
    var i :| 0 <= i < |calls| && calls[i].SaveRaised? && !I.Savable(calls[i].children);
    assert ChildrenFrom(a, calls[i].world, calls[i].children) || ChildrenFrom(b, calls[i].world, calls[i].children);
    I.SaveRaisesExactly(calls[i].world.jobs, calls[i].world.cronjobs);
  }

  /** The other side: under the Kubernetes adapter a run is FAILED only if some call raised,
      some discovered child could not be saved because the cluster listed it with a status that
      is not an object, or some boundary was seen open. */
  lemma FailedMeansBreached(cfg: Config, states: seq<State>, steps: seq<Step>, i: nat) returns (kind: ProbeKind, j: nat)
    requires IsTimelyRun(cfg, states, steps) && i < |states|
    requires cfg.outcomes.None? && cfg.adapter.Kubernetes? && states[i].run.state == FAILED
    ensures || CallRaised(states[i].calls)
            || IllegibleChild(states[i].calls)
            || (kind in PROBE_KINDS && OnlyRow(states[i].probes, kind, j)
                && I.Breached(cfg.adapter.config, states[i].probes[j].world, kind))
  {
    var s := states[i];
    kind, j := Process, 0;
    InvHolds(cfg, states, steps, i);
    SourceHolds(cfg, states, steps, i);
    VerdictHasCause(cfg, states, steps, i);
    OneSource(cfg, s);
    if SaveFailed(s.calls) {
      FailedSaveMeansIllegible(cfg.adapter, cfg.adapter, s.calls);
    } else if !CallRaised(s.calls) {
      kind := FailingKind(Existing(s.probes));
      j := RowOf(s.probes, kind);
      assert RowFrom(cfg.adapter, s.probes[j]);
      I.FailMeansBreached(cfg.adapter.config, s.probes[j].world, kind);
    }
  }

  lemma FailingKind(e: map<ProbeKind, ProbeResult>) returns (kind: ProbeKind)
    requires AllProbed(e) && Aggregate(Results(e)) == FAILED
    ensures kind in PROBE_KINDS && kind in e && e[kind] == Fail
  {
    var k :| 0 <= k < |Results(e)| && Results(e)[k] == Fail;
    kind := PROBE_KINDS[k];
  }

  // ---- Requests, over any schedule, timely or not ----

  lemma EntryKeepsRequest(cfg: Config, s: State, t: nat, c: Choice)
    requires t in s.workers
    ensures Advance(cfg, s, t, c).run.requestedAt == s.run.requestedAt
    ensures Advance(cfg, s, t, c).run.deadlineAt == s.run.deadlineAt
    ensures Advance(cfg, s, t, c).run.key == s.run.key
  {
  }

  predicate SameRequest(a: RunRow, b: RunRow) {
    b.requestedAt == a.requestedAt && b.deadlineAt == a.deadlineAt && b.key == a.key
  }

  ghost predicate RequestKeptAt(states: seq<State>, n: nat)
    requires n + 1 < |states|
  {
    states[n].run.requestedAt.Some? ==> SameRequest(states[n].run, states[n + 1].run)
  }

  lemma StepsKeepRequest(cfg: Config, states: seq<State>, steps: seq<Step>)
    requires IsRun(cfg, states, steps)
    ensures forall n :: 0 <= n < |steps| ==> RequestKeptAt(states, n)
  {
    forall n | 0 <= n < |steps| ensures RequestKeptAt(states, n) {
      assert Enabled(states[n], steps[n]) && states[n + 1] == Apply(cfg, states[n], steps[n]);
      if steps[n].Work? {
        EntryKeepsRequest(cfg, states[n], steps[n].t, steps[n].c);
      }
    }
  }

  lemma {:induction false} RequestStays(states: seq<State>, i: nat, j: nat)
    requires i <= j < |states| && states[i].run.requestedAt.Some?
    requires forall n :: 0 <= n < |states| - 1 ==> RequestKeptAt(states, n)
    ensures SameRequest(states[i].run, states[j].run)
    decreases j
  {
    if i < j {
      RequestStays(states, i, j - 1);
      assert RequestKeptAt(states, j - 1);
    }
  }

  /** Request time, deadline and key are written together and never again. */
  lemma RequestIsWrittenOnce(cfg: Config, states: seq<State>, steps: seq<Step>, i: nat, j: nat)
    requires IsRun(cfg, states, steps) && i <= j < |states| && states[i].run.requestedAt.Some?
    ensures SameRequest(states[i].run, states[j].run)
  {
    StepsKeepRequest(cfg, states, steps);
    RequestStays(states, i, j);
  }

  function AcceptedCount(cfg: Config, states: seq<State>, steps: seq<Step>, n: nat): nat
    requires |states| == |steps| + 1 && n < |states|
  {
    if n == 0 then 0
    else AcceptedCount(cfg, states, steps, n - 1)
         + if steps[n - 1].Request?
             && AnswerRequest(cfg, states[n - 1], steps[n - 1].key, steps[n - 1].asked).Accepted? then 1 else 0
  }

  /** Of all the requests in a schedule exactly one is accepted, if any has a key at all. */
  lemma {:induction false} OneRequestIsAccepted(cfg: Config, states: seq<State>, steps: seq<Step>, n: nat)
    requires IsRun(cfg, states, steps) && n < |states|
    ensures AcceptedCount(cfg, states, steps, n) == if states[n].run.requestedAt.Some? then 1 else 0
  {
    if n > 0 {
      OneRequestIsAccepted(cfg, states, steps, n - 1);
      assert states[n - 1 + 1] == Apply(cfg, states[n - 1], steps[n - 1]);
      if steps[n - 1].Work? {
        EntryKeepsRequest(cfg, states[n - 1], steps[n - 1].t, steps[n - 1].c);
      }
    }
  }

  /** After request `i` was accepted, a later request `j` with the same key gets the same times
      back, any other key conflicts, and neither changes anything. */
  lemma LaterRequestsReplay(cfg: Config, states: seq<State>, steps: seq<Step>, i: nat, j: nat)
    requires IsRun(cfg, states, steps) && i < j < |steps| && steps[i].Request? && steps[j].Request?
    requires AnswerRequest(cfg, states[i], steps[i].key, steps[i].asked).Accepted? && steps[j].key != ""
    ensures var first, again := AnswerRequest(cfg, states[i], steps[i].key, steps[i].asked),
            AnswerRequest(cfg, states[j], steps[j].key, steps[j].asked);
            if steps[j].key == steps[i].key
            then again.Replayed? && again.receipt.requestedAt == first.receipt.requestedAt
                 && again.receipt.deadlineAt == first.receipt.deadlineAt
            else again.Conflict?
    ensures states[j + 1] == states[j]
  {
    assert states[i + 1] == Apply(cfg, states[i], steps[i]) && states[j + 1] == Apply(cfg, states[j], steps[j]);
    RequestIsWrittenOnce(cfg, states, steps, i + 1, j);
  }

  // ---- Evidence of requests and verdicts ----

  /** Which event a worker emits where. */
  predicate EventAt(pc: Pc, e: Event) {
    match e
    case ShutdownRequested => pc.Announce?
    case PhaseReached(state) => pc.PhaseEvent? && state == Phase(pc.p + 1)
    case ShutdownCompleted(v) => pc == TerminalEvent(v) || (v == FAILED && pc.FailEvent?)
    case DeadlineExceeded => pc.ExpireEvent?
    case _ => true
  }

  /** A step of `t` appends at most the event of its program counter, and never goes back to
      announcing. */
  ghost predicate Emits(s: State, s': State, t: nat)
    requires t in s.workers
  {
    && (s'.events == s.events
        || (|s'.events| == |s.events| + 1 && s'.events == s.events + [s'.events[|s.events|]]
            && EventAt(s.workers[t].pc, s'.events[|s.events|])))
    && (t in s'.workers ==> !s'.workers[t].pc.Announce?)
  }

  lemma EntryEmits(cfg: Config, s: State, t: nat, c: Choice)
    requires t in s.workers && IsEntry(s.workers[t].pc)
    ensures Emits(s, AdvanceEntry(cfg, s, t, s.workers[t], c), t)
  {
  }

  lemma PhaseEmits(cfg: Config, s: State, t: nat, c: Choice)
    requires t in s.workers && IsPhase(s.workers[t].pc)
    ensures Emits(s, AdvancePhase(cfg, s, t, s.workers[t], c), t)
  {
  }

  lemma ProbeEmits(cfg: Config, s: State, t: nat, c: Choice)
    requires t in s.workers && IsProbe(s.workers[t].pc)
    ensures Emits(s, AdvanceProbe(cfg, s, t, s.workers[t], c), t)
  {
  }

  lemma ExitEmits(s: State, t: nat, c: Choice)
    requires t in s.workers && !IsEntry(s.workers[t].pc) && !IsPhase(s.workers[t].pc) && !IsProbe(s.workers[t].pc)
    ensures Emits(s, AdvanceExit(s, t, s.workers[t], c), t)
  {
  }

  lemma AdvanceEmits(cfg: Config, s: State, t: nat, c: Choice)
    requires t in s.workers
    ensures Emits(s, Advance(cfg, s, t, c), t)
  {
    var pc := s.workers[t].pc;
    if IsEntry(pc) {
      EntryEmits(cfg, s, t, c);
    } else if IsPhase(pc) {
      PhaseEmits(cfg, s, t, c);
    } else if IsProbe(pc) {
      ProbeEmits(cfg, s, t, c);
    } else {
      ExitEmits(s, t, c);
    }
  }

  ghost predicate AnnouncedOnce(s: State) {
    && multiset(s.events)[ShutdownRequested] <= 1
    && (s.run.requestedAt.None? ==> s.events == [] && s.workers == map[])
    && (s.run.requestedAt.Some? ==> s.work.Some?)
    && (forall t :: t in s.workers && s.workers[t].pc.Announce? ==> ShutdownRequested !in s.events)
    && (forall t, u :: t in s.workers && u in s.workers && s.workers[t].pc.Announce? && s.workers[u].pc.Announce? ==>
                         t == u)
  }

  lemma StepKeepsAnnouncement(cfg: Config, s: State, step: Step)
    requires AnnouncedOnce(s) && Enabled(s, step)
    ensures AnnouncedOnce(Apply(cfg, s, step))
  {
    if step.Work? {
      AdvanceEmits(cfg, s, step.t, step.c);
      AdvanceFrames(cfg, s, step.t, step.c);
    }
  }

  /** Over any schedule at most one shutdown.requested event is recorded. */
  lemma {:induction false} RequestIsAnnouncedOnce(cfg: Config, states: seq<State>, steps: seq<Step>, n: nat)
    requires IsRun(cfg, states, steps) && n < |states|
    ensures AnnouncedOnce(states[n])
  {
    if n > 0 {
      RequestIsAnnouncedOnce(cfg, states, steps, n - 1);
      assert states[n - 1 + 1] == Apply(cfg, states[n - 1], steps[n - 1]);
      StepKeepsAnnouncement(cfg, states[n - 1], steps[n - 1]);
    }
  }

  /** The event agrees with the run row. */
  predicate Supported(e: Event, state: ShutdownState) {
    match e
    case PhaseReached(phase) => Rank(phase) <= Rank(state)
    case ShutdownCompleted(v) => IsTerminal(v) && state == v
    case DeadlineExceeded => state == UNKNOWN
    case _ => true
  }

  ghost predicate AllSupported(s: State) {
    forall k :: 0 <= k < |s.events| ==> Supported(s.events[k], s.run.state)
  }

  lemma EventAtIsSupported(s: State, w: Worker, e: Event)
    requires AtPc(s.run, Existing(s.probes), s.calls, w) && EventAt(w.pc, e)
    ensures Supported(e, s.run.state)
  {
  }

  lemma StepKeepsSupport(cfg: Config, s: State, step: Step)
    requires Inv(s) && AllSupported(s) && Enabled(s, step)
    ensures AllSupported(Apply(cfg, s, step))
  {
    var s' := Apply(cfg, s, step);
    StepMoves(cfg, s, step);
    MovesGoForward(s, s');
    if step.Work? {
      var t := step.t;
      assert WorkerOk(s, t, s.workers[t]);
      AdvanceEmits(cfg, s, t, step.c);
      if s'.events != s.events {
        EventAtIsSupported(s, s.workers[t], s'.events[|s.events|]);
      }
    }
    forall k | 0 <= k < |s'.events| ensures Supported(s'.events[k], s'.run.state) {
      assert Supported(s'.events[k], s.run.state) by {
        assert k < |s.events| ==> s'.events[k] == s.events[k];
      }
    }
  }

  /** In every state the recorded evidence agrees with the run: every recorded phase was
      reached, and a recorded completion or expiry names the run's verdict. */
  lemma {:induction false} EvidenceAgreesWithRun(cfg: Config, states: seq<State>, steps: seq<Step>, n: nat)
    requires IsTimelyRun(cfg, states, steps) && n < |states|
    ensures AllSupported(states[n])
  {
    if n > 0 {
      EvidenceAgreesWithRun(cfg, states, steps, n - 1);
      InvHolds(cfg, states, steps, n - 1);
      assert states[n - 1 + 1] == Apply(cfg, states[n - 1], steps[n - 1]);
      StepKeepsSupport(cfg, states[n - 1], steps[n - 1]);
    }
  }
}
