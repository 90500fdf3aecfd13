/** Where the rows of a run come from: the adapter of its first worker, and after a crash the one
    that recovery rebuilds. */
module OrchestratorSources {
  import opened Domain
  import I = Integrations
  import opened Orchestrator
  import opened OrchestratorInvariant
  import opened OrchestratorTheorems

  // ---- What an adapter can have said ----

  predicate NeverRaises(a: Adapter) { a.SafeUnknown? || a.Synthetic? }

  predicate RowFrom(a: Adapter, row: ProbeRow) {
    row.kind != Restart ==> CanReply(a, Probe(row.kind), Ok(row.result, row.world, []))
  }

  /** The children are what a discovery of `a` reports of `world`. */
  predicate ChildrenFrom(a: Adapter, world: I.World, children: seq<I.Child>) {
    CanReply(a, Discover, Ok(Unknown, world, children))
  }

  ghost predicate RowsFrom(a: Adapter, rows: seq<ProbeRow>) {
    forall j :: 0 <= j < |rows| ==> RowFrom(a, rows[j])
  }

  // ---- The two adapters of a run ----

  /** The adapter of the worker that the accepted request started. */
  function FirstAdapter(cfg: Config, dispatched: bool): Adapter {
    if dispatched then RecoveryAdapter(cfg) else cfg.adapter
  }

  function AdapterOf(cfg: Config, dispatched: bool, recovering: bool): Adapter {
    if recovering then RecoveryAdapter(cfg) else FirstAdapter(cfg, dispatched)
  }

  /** The worker uses `a`, and what it is about to save came from `a`. */
  predicate WorkerFrom(a: Adapter, w: Worker) {
    && w.adapter == a && (w.pc.ProbeSave? ==> RowFrom(a, w.pc.row))
    && (w.pc.SaveJobs? ==> ChildrenFrom(a, w.pc.world, w.pc.children))
  }

  ghost predicate WorkersFrom(cfg: Config, s: State) {
    forall t :: t in s.workers ==> WorkerFrom(AdapterOf(cfg, s.dispatched, s.workers[t].recovering), s.workers[t])
  }

  /** The first `n` rows come from `a`, the others from `b`. */
  ghost predicate Split(a: Adapter, b: Adapter, rows: seq<ProbeRow>, n: nat) {
    forall j :: 0 <= j < |rows| ==> RowFrom(if j < n then a else b, rows[j])
  }

  /** Rows of boundaries are saved in the order of the probe loop. */
  predicate Ordered(rows: seq<ProbeRow>) {
    forall j :: 0 <= j < |rows| && rows[j].kind != Restart ==> j < |PROBE_KINDS| && rows[j].kind == PROBE_KINDS[j]
  }

  /** While the first worker acts all rows are its own; while it has yet to claim the work there
      are none, or somebody else has it or finished it. */
  ghost predicate FirstOk(cfg: Config, s: State) {
    && (forall t :: t in s.workers && !s.workers[t].recovering && Acts(s.workers[t].pc) ==>
                      RowsFrom(FirstAdapter(cfg, s.dispatched), s.probes))
    && (forall t :: t in s.workers && !s.workers[t].recovering && IsPending(s.workers[t].pc) ==> Unclaimed(s))
  }

  ghost predicate Unclaimed(s: State) {
    s.probes == [] || SomeoneHolds(s.workers) || (s.work.Some? && s.work.value.status == COMPLETE)
  }

  /** Failed saves and raised calls come from one of the two adapters. */
  ghost predicate CallsFrom(a: Adapter, b: Adapter, calls: seq<CallRecord>) {
    && (forall j :: 0 <= j < |calls| && calls[j].SaveRaised? ==>
                      ChildrenFrom(a, calls[j].world, calls[j].children)
                          || ChildrenFrom(b, calls[j].world, calls[j].children))
    && (NeverRaises(a) && NeverRaises(b) ==> !HasRaised(calls))
  }

  ghost predicate RowsOfTwo(cfg: Config, s: State) {
    exists n: nat :: Split(FirstAdapter(cfg, s.dispatched), RecoveryAdapter(cfg), s.probes, n)
  }

  ghost predicate SourceOk(cfg: Config, s: State) {
    && (s.run.requestedAt.None? ==> s.calls == [] && s.probes == [])
    && WorkersFrom(cfg, s) && FirstOk(cfg, s) && Ordered(s.probes) && RowsOfTwo(cfg, s)
    && CallsFrom(FirstAdapter(cfg, s.dispatched), RecoveryAdapter(cfg), s.calls)
  }

  // ---- Rows in the order of the loop ----

  /** The rows of the first boundaries, in order. */
  predicate InOrder(rows: seq<ProbeRow>) {
    |rows| <= |PROBE_KINDS| && forall j :: 0 <= j < |rows| ==> rows[j].kind == PROBE_KINDS[j]
  }

  lemma {:induction false} InOrderKnows(rows: seq<ProbeRow>, i: nat)
    requires InOrder(rows) && i < |PROBE_KINDS|
    ensures PROBE_KINDS[i] in Existing(rows) <==> i < |rows|
    ensures i < |rows| ==> Existing(rows)[PROBE_KINDS[i]] == rows[i].result
  {
    if rows != [] {
      InOrderKnows(rows[..|rows| - 1], i);
    }
  }

  lemma OpenRowsInOrder(rows: seq<ProbeRow>)
    requires Ordered(rows) && NoRestart(rows)
    ensures InOrder(rows)
  {
    if rows != [] {
      assert rows[|rows| - 1].kind != Restart;
    }
  }

  /** The row that is saved next belongs to the next boundary. */
  lemma {:induction false} NextRowInOrder(rows: seq<ProbeRow>, i: nat)
    requires InOrder(rows) && i < |PROBE_KINDS| && PROBE_KINDS[i] !in Existing(rows)
    requires forall k :: 0 <= k < i ==> PROBE_KINDS[k] in Existing(rows)
    ensures i == |rows|
  {
    InOrderKnows(rows, i);
    if i > 0 {
      InOrderKnows(rows, i - 1);
    }
  }

  // ---- What a worker's step keeps ----

  /** A step keeps its worker's adapter, and only an answered call yields something to save. */
  ghost predicate SameOrigin(s: State, s': State, t: nat)
    requires t in s.workers
  {
    && s'.dispatched == s.dispatched
    && (t in s'.workers ==>
          && s'.workers[t].adapter == s.workers[t].adapter && s'.workers[t].recovering == s.workers[t].recovering
          && (s'.workers[t].pc.ProbeSave? ==> s.workers[t].pc.ProbeAwait?)
          && (s'.workers[t].pc.SaveJobs? ==> s.workers[t].pc == Await(2)))
  }

  lemma EntryOrigin(cfg: Config, s: State, t: nat, c: Choice)
    requires t in s.workers && IsEntry(s.workers[t].pc)
    ensures SameOrigin(s, AdvanceEntry(cfg, s, t, s.workers[t], c), t)
  {
  }

  lemma PhaseOrigin(cfg: Config, s: State, t: nat, c: Choice)
    requires t in s.workers && IsPhase(s.workers[t].pc)
    ensures SameOrigin(s, AdvancePhase(cfg, s, t, s.workers[t], c), t)
  {
  }

  lemma ProbeOrigin(cfg: Config, s: State, t: nat, c: Choice)
    requires t in s.workers && IsProbe(s.workers[t].pc)
    ensures SameOrigin(s, AdvanceProbe(cfg, s, t, s.workers[t], c), t)
  {
  }

  lemma ExitOrigin(s: State, t: nat, c: Choice)
    requires t in s.workers && !IsEntry(s.workers[t].pc) && !IsPhase(s.workers[t].pc) && !IsProbe(s.workers[t].pc)
    ensures SameOrigin(s, AdvanceExit(s, t, s.workers[t], c), t)
  {
  }

  lemma AdvanceOrigin(cfg: Config, s: State, t: nat, c: Choice)
    requires t in s.workers
    ensures SameOrigin(s, Advance(cfg, s, t, c), t)
  {
    var pc := s.workers[t].pc;
    if IsEntry(pc) {
      EntryOrigin(cfg, s, t, c);
    } else if IsPhase(pc) {
      PhaseOrigin(cfg, s, t, c);
    } else if IsProbe(pc) {
      ProbeOrigin(cfg, s, t, c);
    } else {
      ExitOrigin(s, t, c);
    }
  }

  /** The program counters at which a step adds a record to the history of calls. */
  predicate Recording(pc: Pc) { pc.Invoke? || pc.Await? || pc.SaveJobs? || pc.ProbeInvoke? || pc.ProbeAwait? }

  /** The step adds at most one record; a failure comes from the adapter, and a failed save from
      the children the worker was about to save. */
  ghost predicate Recorded(s: State, s': State, t: nat)
    requires t in s.workers
  {
    var w := s.workers[t];
    || s'.calls == s.calls
    || (exists r :: s'.calls == s.calls + [r] && (r.Raised? ==> !NeverRaises(w.adapter))
                    && (r.SaveRaised? ==> w.pc == SaveJobs(r.world, r.children) && !I.Savable(r.children)))
  }

  lemma PhaseRecords(cfg: Config, s: State, t: nat, c: Choice)
    requires Enabled(s, Work(t, c)) && IsPhase(s.workers[t].pc) && Recording(s.workers[t].pc)
    ensures Recorded(s, AdvancePhase(cfg, s, t, s.workers[t], c), t)
  {
    var s' := AdvancePhase(cfg, s, t, s.workers[t], c);
    if s'.calls != s.calls {
      assert s'.calls == s.calls + [s'.calls[|s.calls|]];
    }
  }

  lemma ProbeRecords(cfg: Config, s: State, t: nat, c: Choice)
    requires Enabled(s, Work(t, c)) && IsProbe(s.workers[t].pc) && Recording(s.workers[t].pc)
    ensures Recorded(s, AdvanceProbe(cfg, s, t, s.workers[t], c), t)
  {
    var s' := AdvanceProbe(cfg, s, t, s.workers[t], c);
    if s'.calls != s.calls {
      assert s'.calls == s.calls + [s'.calls[|s.calls|]];
    }
  }

  lemma AdvanceIsQuiet(cfg: Config, s: State, t: nat, c: Choice)
    requires t in s.workers && !Recording(s.workers[t].pc)
    ensures Advance(cfg, s, t, c).calls == s.calls
  {
  }

  lemma AdvanceRecords(cfg: Config, s: State, t: nat, c: Choice)
    requires Enabled(s, Work(t, c))
    ensures Recorded(s, Advance(cfg, s, t, c), t)
  {
    if !Recording(s.workers[t].pc) {
      AdvanceIsQuiet(cfg, s, t, c);
    } else if IsPhase(s.workers[t].pc) {
      PhaseRecords(cfg, s, t, c);
    } else {
      ProbeRecords(cfg, s, t, c);
    }
  }

  /** A worker that goes on to save something got it from its adapter. */
  lemma StepKeepsWorker(cfg: Config, a: Adapter, s: State, t: nat, c: Choice)
    requires Enabled(s, Work(t, c)) && WorkerFrom(a, s.workers[t]) && t in Advance(cfg, s, t, c).workers
    ensures WorkerFrom(a, Advance(cfg, s, t, c).workers[t])
  {
    AdvanceOrigin(cfg, s, t, c);
    var w := s.workers[t];
    if w.pc.ProbeAwait? {
      AnswerIsFromAdapter(cfg, a, s, t, c);
    } else if w.pc == Await(2) {
      ReportIsFromAdapter(cfg, a, s, t, c);
    }
  }

  lemma AnswerIsFromAdapter(cfg: Config, a: Adapter, s: State, t: nat, c: Choice)
    requires Enabled(s, Work(t, c)) && WorkerFrom(a, s.workers[t]) && s.workers[t].pc.ProbeAwait?
    ensures var s' := AdvanceProbe(cfg, s, t, s.workers[t], c); t in s'.workers ==> WorkerFrom(a, s'.workers[t])
  {
  }

  lemma ReportIsFromAdapter(cfg: Config, a: Adapter, s: State, t: nat, c: Choice)
    requires Enabled(s, Work(t, c)) && WorkerFrom(a, s.workers[t]) && s.workers[t].pc == Await(2)
    ensures var s' := AdvancePhase(cfg, s, t, s.workers[t], c); t in s'.workers ==> WorkerFrom(a, s'.workers[t])
  {
  }

  lemma WorkKeepsWorkers(cfg: Config, s: State, t: nat, c: Choice)
    requires Enabled(s, Work(t, c)) && s.work.Some? && WorkersFrom(cfg, s)
    ensures WorkersFrom(cfg, Advance(cfg, s, t, c))
  {
    var s' := Advance(cfg, s, t, c);
    AdvanceFrames(cfg, s, t, c);
    AdvanceOrigin(cfg, s, t, c);
    forall u | u in s'.workers
      ensures WorkerFrom(AdapterOf(cfg, s'.dispatched, s'.workers[u].recovering), s'.workers[u])
    {
      if u == t {
        StepKeepsWorker(cfg, AdapterOf(cfg, s.dispatched, s.workers[t].recovering), s, t, c);
      } else {
        assert u in s.workers && s'.workers[u] == s.workers[u];
      }
    }
  }

  lemma RecordKeepsCalls(a: Adapter, b: Adapter, s: State, s': State, t: nat)
    requires t in s.workers && (WorkerFrom(a, s.workers[t]) || WorkerFrom(b, s.workers[t]))
    requires Recorded(s, s', t) && CallsFrom(a, b, s.calls)
    ensures CallsFrom(a, b, s'.calls)
  {
    if s'.calls != s.calls {
      var r :| s'.calls == s.calls + [r] && (r.Raised? ==> !NeverRaises(s.workers[t].adapter))
               && (r.SaveRaised? ==> s.workers[t].pc == SaveJobs(r.world, r.children) && !I.Savable(r.children));
      assert forall i :: 0 <= i < |s'.calls| ==> (i < |s.calls| && s'.calls[i] == s.calls[i]) || s'.calls[i] == r;
      if NeverRaises(a) && NeverRaises(b) {
        forall i | 0 <= i < |s'.calls| ensures !IsFailure(s'.calls[i]) {
          assert i < |s.calls| ==> !IsFailure(s.calls[i]);
        }
      }
    }
  }

  // ---- Rows ----

  /** A saved probe: its worker is the only one that acts, so the split stays one. */
  lemma SaveKeepsRows(cfg: Config, s: State, t: nat, c: Choice)
    requires Inv(s) && SourceOk(cfg, s) && t in s.workers && s.workers[t].pc.ProbeSave?
    ensures var s' := Advance(cfg, s, t, c);
            && s'.probes == s.probes + [s.workers[t].pc.row] && Ordered(s'.probes) && RowsOfTwo(cfg, s')
            && (!s.workers[t].recovering ==> RowsFrom(FirstAdapter(cfg, s.dispatched), s'.probes))
  {
    var w := s.workers[t];
    assert WorkerOk(s, t, w) && WorkerFrom(AdapterOf(cfg, s.dispatched, w.recovering), w);
    SaveAppends(cfg, s, t, c);
    SavedIsNext(s, t);
    SplitGrows(FirstAdapter(cfg, s.dispatched), RecoveryAdapter(cfg), s.probes, w.pc.row, w.recovering);
  }

  lemma SaveAppends(cfg: Config, s: State, t: nat, c: Choice)
    requires t in s.workers && s.workers[t].pc.ProbeSave?
    ensures var s' := Advance(cfg, s, t, c);
            s'.probes == s.probes + [s.workers[t].pc.row] && s'.dispatched == s.dispatched
  {
  }

  lemma SavedIsNext(s: State, t: nat)
    requires Ordered(s.probes) && ProbesOk(s.run, s.probes)
    requires t in s.workers && s.workers[t].pc.ProbeSave? && WorkerOk(s, t, s.workers[t])
    ensures Ordered(s.probes + [s.workers[t].pc.row])
  {
    OpenRowsInOrder(s.probes);
    NextRowInOrder(s.probes, s.workers[t].pc.i);
  }

  /** The next row of a recovery worker comes from `b`; one of the first worker from `a`, as all
      the others. */
  lemma SplitGrows(a: Adapter, b: Adapter, rows: seq<ProbeRow>, row: ProbeRow, recovering: bool)
    requires exists n: nat :: Split(a, b, rows, n)
    requires RowFrom(if recovering then b else a, row) && (!recovering ==> RowsFrom(a, rows))
    ensures exists n: nat :: Split(a, b, rows + [row], n)
    ensures !recovering ==> RowsFrom(a, rows + [row])
  {
    if recovering {
      var n: nat :| Split(a, b, rows, n);
      assert Split(a, b, rows + [row], if n < |rows| then n else |rows|);
    } else {
      assert Split(a, b, rows + [row], |rows + [row]|);
    }
  }

  lemma WorkKeepsRows(cfg: Config, s: State, t: nat, c: Choice)
    requires Inv(s) && SourceOk(cfg, s) && t in s.workers
    ensures Ordered(Advance(cfg, s, t, c).probes) && RowsOfTwo(cfg, Advance(cfg, s, t, c))
  {
    AdvanceOrigin(cfg, s, t, c);
    if s.workers[t].pc.ProbeSave? {
      SaveKeepsRows(cfg, s, t, c);
    } else {
      OtherPcsKeepRows(cfg, s, t, c);
    }
  }

  lemma OtherPcsKeepRows(cfg: Config, s: State, t: nat, c: Choice)
    requires t in s.workers && !s.workers[t].pc.ProbeSave?
    ensures Advance(cfg, s, t, c).probes == s.probes
  {
    if !Writes(s.workers[t].pc) {
      ReadersWriteNothing(cfg, s, t, c);
    }
  }

  // ---- The first worker ----

  /** A worker that acts after its step acted before it, or has just claimed the work. */
  lemma ActingBefore(cfg: Config, s: State, t: nat, c: Choice)
    requires t in s.workers && t in Advance(cfg, s, t, c).workers && Acts(Advance(cfg, s, t, c).workers[t].pc)
    ensures Acts(s.workers[t].pc) || (s.workers[t].pc.Claim? && Claimable(Inserted(s.work), c.seen))
  {
    if IsPending(s.workers[t].pc) {
      assert Advance(cfg, s, t, c) == AdvanceEntry(cfg, s, t, s.workers[t], c);
    }
  }

  lemma FirstStillOwnsRows(cfg: Config, s: State, t: nat, c: Choice, u: nat)
    requires Inv(s) && InTime(s) && SourceOk(cfg, s) && Enabled(s, Work(t, c)) && u in Advance(cfg, s, t, c).workers
    requires var w := Advance(cfg, s, t, c).workers[u]; !w.recovering && Acts(w.pc)
    ensures RowsFrom(FirstAdapter(cfg, s.dispatched), Advance(cfg, s, t, c).probes)
  {
    var s' := Advance(cfg, s, t, c);
    assert WorkerOk(s, t, s.workers[t]);
    AdvanceFrames(cfg, s, t, c);
    AdvanceOrigin(cfg, s, t, c);
    if u == t {
      ActingBefore(cfg, s, t, c);
      if s.workers[t].pc.ProbeSave? {
        SaveKeepsRows(cfg, s, t, c);
      } else {
        OtherPcsKeepRows(cfg, s, t, c);
        if IsPending(s.workers[t].pc) {
          ClaimFindsRunFree(cfg, s, t, c.seen);
          assert Unclaimed(s) && !SomeoneHolds(s.workers);
        }
      }
    } else {
      assert s'.workers[u] == s.workers[u];
      if Acts(s.workers[t].pc) {
        OneActor(s, t, u);
      }
      OtherPcsKeepRows(cfg, s, t, c);
    }
  }

  /** A lease holder gives up the lease only by completing the work. */
  lemma HolderStaysOrCompletes(cfg: Config, s: State, t: nat, c: Choice)
    requires Inv(s) && InTime(s) && Enabled(s, Work(t, c)) && IsHolding(s.workers[t].pc)
    ensures var s' := Advance(cfg, s, t, c);
            || (t in s'.workers && IsHolding(s'.workers[t].pc))
            || (s'.work.Some? && s'.work.value.status == COMPLETE)
  {
    var s' := Advance(cfg, s, t, c);
    assert WorkerOk(s, t, s.workers[t]);
    WorkKeeps(cfg, s, t, c);
    if !s.workers[t].pc.Finish? {
      StaysUntilFinish(cfg, s, t, c);
      NoReturnToClaim(cfg, s, t, c);
      assert WorkerOk(s', t, s'.workers[t]);
    }
  }

  lemma PhaseStays(cfg: Config, s: State, t: nat, w: Worker, c: Choice)
    requires t in s.workers
    ensures t in AdvancePhase(cfg, s, t, w, c).workers
  {
  }

  lemma ProbeStays(cfg: Config, s: State, t: nat, w: Worker, c: Choice)
    requires t in s.workers
    ensures t in AdvanceProbe(cfg, s, t, w, c).workers
  {
  }

  /** A worker past its claim leaves only at its end. */
  lemma StaysUntilFinish(cfg: Config, s: State, t: nat, c: Choice)
    requires t in s.workers && Acts(s.workers[t].pc) && !s.workers[t].pc.Finish? && !s.workers[t].pc.FailEvent?
    ensures t in Advance(cfg, s, t, c).workers
  {
    var w := s.workers[t];
    if IsPhase(w.pc) {
      PhaseStays(cfg, s, t, w, c);
    } else if IsProbe(w.pc) {
      ProbeStays(cfg, s, t, w, c);
    }
  }

  /** A step of a worker that does not hold the lease changes neither a COMPLETE status nor a row. */
  lemma OthersKeepUnclaimed(cfg: Config, s: State, t: nat, c: Choice)
    requires Inv(s) && t in s.workers && !IsHolding(s.workers[t].pc)
    ensures var s' := Advance(cfg, s, t, c);
            && s'.probes == s.probes
            && (s.work.Some? && s.work.value.status == COMPLETE ==> s'.work.Some? && s'.work.value.status == COMPLETE)
            && (forall h :: h in s.workers && h != t ==> h in s'.workers && s'.workers[h] == s.workers[h])
  {
    var w := s.workers[t];
    assert WorkerOk(s, t, w);
    OtherPcsKeepRows(cfg, s, t, c);
    if IsPending(w.pc) {
      assert Advance(cfg, s, t, c) == AdvanceEntry(cfg, s, t, w, c);
    } else {
      assert Advance(cfg, s, t, c) == AdvanceExit(s, t, w, c);
    }
  }

  lemma UnclaimedStays(cfg: Config, s: State, t: nat, c: Choice)
    requires Inv(s) && InTime(s) && Enabled(s, Work(t, c)) && Unclaimed(s)
    ensures Unclaimed(Advance(cfg, s, t, c))
  {
    var s' := Advance(cfg, s, t, c);
    if IsHolding(s.workers[t].pc) {
      assert WorkerOk(s, t, s.workers[t]);
      HolderStaysOrCompletes(cfg, s, t, c);
    } else {
      OthersKeepUnclaimed(cfg, s, t, c);
      if SomeoneHolds(s.workers) {
        var h :| h in s.workers && IsHolding(s.workers[h].pc);
        assert h in s'.workers && IsHolding(s'.workers[h].pc);
      }
    }
  }

  lemma WorkKeepsFirst(cfg: Config, s: State, t: nat, c: Choice)
    requires Inv(s) && InTime(s) && SourceOk(cfg, s) && Enabled(s, Work(t, c))
    ensures FirstOk(cfg, Advance(cfg, s, t, c))
  {
    var s' := Advance(cfg, s, t, c);
    assert WorkerOk(s, t, s.workers[t]);
    AdvanceFrames(cfg, s, t, c);
    AdvanceOrigin(cfg, s, t, c);
    forall u | u in s'.workers && !s'.workers[u].recovering && Acts(s'.workers[u].pc)
      ensures RowsFrom(FirstAdapter(cfg, s'.dispatched), s'.probes)
    {
      FirstStillOwnsRows(cfg, s, t, c, u);
    }
    forall u | u in s'.workers && !s'.workers[u].recovering && IsPending(s'.workers[u].pc) ensures Unclaimed(s') {
      assert u in s.workers && IsPending(s.workers[u].pc) by {
        if u == t {
          PendingBefore(cfg, s, t, c);
        }
      }
      UnclaimedStays(cfg, s, t, c);
    }
  }

  lemma PendingBefore(cfg: Config, s: State, t: nat, c: Choice)
    requires t in s.workers && t in Advance(cfg, s, t, c).workers && IsPending(Advance(cfg, s, t, c).workers[t].pc)
    ensures IsPending(s.workers[t].pc)
  {
    if Acts(s.workers[t].pc) {
      NoReturnToClaim(cfg, s, t, c);
    }
  }

  lemma NoReturnToClaim(cfg: Config, s: State, t: nat, c: Choice)
    requires t in s.workers && Acts(s.workers[t].pc) && t in Advance(cfg, s, t, c).workers
    ensures !IsPending(Advance(cfg, s, t, c).workers[t].pc)
  {
    if IsEntry(s.workers[t].pc) {
      assert Advance(cfg, s, t, c) == AdvanceEntry(cfg, s, t, s.workers[t], c);
    } else if IsPhase(s.workers[t].pc) {
      PhaseKeepsToken(cfg, s, t, c, t);
    } else if IsProbe(s.workers[t].pc) {
      ProbeKeepsToken(cfg, s, t, c, t);
    } else {
      ExitKeepsToken(s, t, c, t);
    }
  }

  // ---- Every step ----

  lemma WorkersFollowRequest(s: State)
    requires Inv(s)
    ensures s.workers != map[] ==> s.run.requestedAt.Some?
  {
    if s.workers != map[] {
      var t :| t in s.workers;
      assert WorkerOk(s, t, s.workers[t]);
    }
  }

  lemma WorkKeepsSource(cfg: Config, s: State, t: nat, c: Choice)
    requires Inv(s) && InTime(s) && SourceOk(cfg, s) && Enabled(s, Work(t, c))
    ensures SourceOk(cfg, Advance(cfg, s, t, c))
  {
    assert WorkerOk(s, t, s.workers[t]);
    assert WorkerFrom(AdapterOf(cfg, s.dispatched, s.workers[t].recovering), s.workers[t]);
    AdvanceFrames(cfg, s, t, c);
    AdvanceOrigin(cfg, s, t, c);
    WorkKeepsRows(cfg, s, t, c);
    WorkKeepsWorkers(cfg, s, t, c);
    WorkKeepsFirst(cfg, s, t, c);
    AdvanceRecords(cfg, s, t, c);
    RecordKeepsCalls(FirstAdapter(cfg, s.dispatched), RecoveryAdapter(cfg), s, Advance(cfg, s, t, c), t);
  }

  lemma RestartKeepsSource(cfg: Config, s: State, row: ProbeRow)
    requires Inv(s) && SourceOk(cfg, s) && Terminal(s) && row.kind == Restart
    ensures SourceOk(cfg, s.(probes := s.probes + [row]))
  {
    var s' := s.(probes := s.probes + [row]);
    var a, b := FirstAdapter(cfg, s.dispatched), RecoveryAdapter(cfg);
    var n: nat :| Split(a, b, s.probes, n);
    assert Split(a, b, s'.probes, n);
    forall t | t in s'.workers && !s'.workers[t].recovering && IsPending(s'.workers[t].pc) ensures Unclaimed(s') {
      assert WorkerOk(s, t, s.workers[t]);
    }
  }

  lemma RequestKeepsSource(cfg: Config, s: State, key: string, viaDrill: bool, asked: int)
    requires Inv(s) && SourceOk(cfg, s) && AnswerRequest(cfg, s, key, asked).Accepted?
    ensures SourceOk(cfg, ApplyRequest(cfg, s, key, viaDrill, asked))
  {
    WorkersFollowRequest(s);
    var s' := ApplyRequest(cfg, s, key, viaDrill, asked);
    assert Split(FirstAdapter(cfg, s'.dispatched), RecoveryAdapter(cfg), s'.probes, 0);
  }

  lemma RecoverKeepsSource(cfg: Config, s: State)
    requires Inv(s) && SourceOk(cfg, s)
    ensures SourceOk(cfg, ApplyRecover(cfg, s))
  {
    var s' := ApplyRecover(cfg, s);
    if s' != s {
      forall t | t in s'.workers && !s'.workers[t].recovering && IsPending(s'.workers[t].pc) ensures Unclaimed(s') {
        assert t in s.workers && s'.workers[t] == s.workers[t];
        if SomeoneHolds(s.workers) {
          var h :| h in s.workers && IsHolding(s.workers[h].pc);
          assert WorkerOk(s, h, s.workers[h]);
          assert h in s'.workers && IsHolding(s'.workers[h].pc);
        }
      }
    }
  }

  lemma StepKeepsSource(cfg: Config, s: State, step: Step)
    requires Inv(s) && InTime(s) && SourceOk(cfg, s) && Enabled(s, step)
    ensures SourceOk(cfg, Apply(cfg, s, step))
  {
    match step
    case Work(t, c) => WorkKeepsSource(cfg, s, t, c);
    case RestartProbe(row) => RestartKeepsSource(cfg, s, row);
    case Request(key, viaDrill, asked) =>
      if AnswerRequest(cfg, s, key, asked).Accepted? {
        RequestKeepsSource(cfg, s, key, viaDrill, asked);
      }
    case Recover => RecoverKeepsSource(cfg, s);
    case Tick(_) =>
    case Crash =>
  }

  lemma SourceAt(cfg: Config, states: seq<State>, steps: seq<Step>, n: nat)
    requires IsTimelyRun(cfg, states, steps) && n < |steps| && SourceOk(cfg, states[n])
    ensures SourceOk(cfg, states[n + 1])
  {
    InvHolds(cfg, states, steps, n);
    assert Enabled(states[n], steps[n]) && states[n + 1] == Apply(cfg, states[n], steps[n]);
    StepKeepsSource(cfg, states[n], steps[n]);
  }

  lemma BirthHasSource(cfg: Config, s: State)
    requires Init(s)
    ensures SourceOk(cfg, s)
  {
    assert Split(FirstAdapter(cfg, s.dispatched), RecoveryAdapter(cfg), s.probes, 0);
  }

  /** In every state of a timely run the rows come, in the order of the probe loop, first from the
      adapter of the first worker and then from the one that recovery rebuilds. */
  lemma {:induction false} SourceHolds(cfg: Config, states: seq<State>, steps: seq<Step>, i: nat)
    requires IsTimelyRun(cfg, states, steps) && i < |states|
    ensures SourceOk(cfg, states[i])
  {
    if i == 0 {
      BirthHasSource(cfg, states[0]);
    } else {
      SourceHolds(cfg, states, steps, i - 1);
      SourceAt(cfg, states, steps, i - 1);
    }
  }

  /** If both adapters are the same there is only one. */
  lemma OneSource(cfg: Config, s: State)
    requires SourceOk(cfg, s) && FirstAdapter(cfg, s.dispatched) == RecoveryAdapter(cfg)
    ensures RowsFrom(RecoveryAdapter(cfg), s.probes)
    ensures CallsFrom(RecoveryAdapter(cfg), RecoveryAdapter(cfg), s.calls)
  {
    var n: nat :| Split(FirstAdapter(cfg, s.dispatched), RecoveryAdapter(cfg), s.probes, n);
  }
}
