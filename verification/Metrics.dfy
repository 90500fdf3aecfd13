/** The numbers `MetricsExporter` renders for one tenant, and how they follow from the tables. */
module Metrics {
  import opened Domain
  import opened Integrations
  import opened Ledger
  import opened Outbox
  import opened OutboxMirror
  import O = Orchestrator

  // ---- COUNT(*) GROUP BY and SUM ----

  /** `_group_count`, read at one tag: the rows `ids` that carry it. */
  function Group<K, L(==)>(ids: set<K>, tag: K -> L, l: L): set<K> { set id | id in ids && tag(id) == l }

  /** The samples of a family, added up over its labels. */
  function FamilyTotal<K, L(==)>(ids: set<K>, tag: K -> L, labels: seq<L>): nat {
    if labels == [] then 0
    else
      var n := |labels| - 1;
      FamilyTotal(ids, tag, labels[..n]) + |Group(ids, tag, labels[n])|
  }

  predicate Distinct<L(==)>(labels: seq<L>) { forall i, j :: 0 <= i < j < |labels| ==> labels[i] != labels[j] }

  function Labelled<K, L(==)>(ids: set<K>, tag: K -> L, labels: seq<L>): set<K> {
    set id | id in ids && tag(id) in labels
  }

  lemma {:induction false} FamilyTotalCounts<K, L>(ids: set<K>, tag: K -> L, labels: seq<L>)
    requires Distinct(labels)
    ensures FamilyTotal(ids, tag, labels) == |Labelled(ids, tag, labels)|
  {
    if labels == [] {
      assert Labelled(ids, tag, labels) == {};
    } else {
      var n := |labels| - 1;
      FamilyTotalCounts(ids, tag, labels[..n]);
      var front, last := Labelled(ids, tag, labels[..n]), Group(ids, tag, labels[n]);
      assert labels == labels[..n] + [labels[n]];
      assert front !! last && Labelled(ids, tag, labels) == front + last;
    }
  }

  lemma SmallerSet<K>(a: set<K>, b: set<K>)
    requires a <= b
    ensures |a| <= |b| && (|a| == |b| ==> a == b)
  {
    assert b == a + (b - a);
  }

  /** A family over a label set loses no row exactly when every row's label is in the set. */
  lemma LabelsLoseNoRow<K, L>(ids: set<K>, tag: K -> L, labels: seq<L>)
    requires Distinct(labels)
    ensures FamilyTotal(ids, tag, labels) == |ids| <==> forall id :: id in ids ==> tag(id) in labels
  {
    FamilyTotalCounts(ids, tag, labels);
    SmallerSet(Labelled(ids, tag, labels), ids);
    if forall id :: id in ids ==> tag(id) in labels {
      assert Labelled(ids, tag, labels) == ids;
    }
  }

  /** `_sum`. */
  ghost function Total<K(!new)>(ids: set<K>, value: K -> nat): nat {
    if ids == {} then 0
    else
      var x :| x in ids;
      value(x) + Total(ids - {x}, value)
  }

  lemma {:induction false} TotalWithout<K(!new)>(ids: set<K>, value: K -> nat, y: K)
    requires y in ids
    ensures Total(ids, value) == value(y) + Total(ids - {y}, value)
    decreases |ids|
  {
    var x :| x in ids && Total(ids, value) == value(x) + Total(ids - {x}, value);
    if x != y {
      TotalWithout(ids - {x}, value, y);
      TotalWithout(ids - {y}, value, x);
      assert ids - {x} - {y} == ids - {y} - {x};
    }
  }

  /** Sums grow when rows are added and no value shrinks. */
  lemma {:induction false} TotalGrows<K(!new)>(a: set<K>, f: K -> nat, b: set<K>, g: K -> nat)
    requires a <= b && forall id :: id in a ==> f(id) <= g(id)
    ensures Total(a, f) <= Total(b, g)
    decreases |a|
  {
    if a != {} {
      var x :| x in a;
      TotalWithout(a, f, x);
      TotalWithout(b, g, x);
      TotalGrows(a - {x}, f, b - {x}, g);
    }
  }

  // ---- The label sets ----

  const STATES: seq<ShutdownState> :=
    [RUNNING, REQUESTED, FENCING, PROCESS_STOP_SENT, CHILD_DISCOVERY, PROBING, VERIFIED, PARTIAL, UNKNOWN, FAILED]

  const DELIVERY: seq<DeliveryStatus> := [PENDING, DELIVERED, DEAD_LETTER]

  const WORK: seq<O.WorkStatus> := [O.PENDING, O.EXECUTING, O.COMPLETE]

  const RESULTS: seq<ProbeResult> := [Pass, Fail, Partial, Unknown]

  /** The nested loop over kinds and results. */
  function Pairs(kinds: seq<ProbeKind>, results: seq<ProbeResult>): seq<(ProbeKind, ProbeResult)> {
    if kinds == [] then []
    else
      var kind := kinds[|kinds| - 1];
      Pairs(kinds[..|kinds| - 1], results) + seq(|results|, i requires 0 <= i < |results| => (kind, results[i]))
  }

  lemma {:induction false} PairsCover(kinds: seq<ProbeKind>, results: seq<ProbeResult>)
    requires Distinct(kinds) && Distinct(results)
    ensures Distinct(Pairs(kinds, results))
    ensures forall kind, result :: (kind, result) in Pairs(kinds, results) <==> kind in kinds && result in results
  {
    if kinds != [] {
      var n := |kinds| - 1;
      PairsCover(kinds[..n], results);
      var front := Pairs(kinds[..n], results);
      var row := seq(|results|, i requires 0 <= i < |results| => (kinds[n], results[i]));
      assert kinds == kinds[..n] + [kinds[n]] && kinds[n] !in kinds[..n];
      forall kind, result ensures (kind, result) in row <==> kind == kinds[n] && result in results {
        if kind == kinds[n] && result in results {
          var i :| 0 <= i < |results| && results[i] == result;
          assert row[i] == (kind, result);
        }
      }
      assert forall i :: 0 <= i < |front| ==> front[i] == (front[i].0, front[i].1) && front[i] in front;
      assert forall i :: 0 <= i < |front| ==> front[i].0 in kinds[..n];
    }
  }

  // ---- Evidence and outbox ----

  /** WHERE tenant_id=? over the evidence. */
  function EvidenceOf(rows: seq<Evidence<string>>, tenant: string): seq<Evidence<string>> {
    if rows == [] then []
    else EvidenceOf(rows[..|rows| - 1], tenant) + if rows[|rows| - 1].tenant == tenant then [rows[|rows| - 1]] else []
  }

  /** `_event_counts` at one type. */
  function EventCount(rows: seq<Evidence<string>>, eventType: string): nat {
    if rows == [] then 0
    else EventCount(rows[..|rows| - 1], eventType) + if rows[|rows| - 1].eventType == eventType then 1 else 0
  }

  /** WHERE tenant_id=? over the outbox. */
  function OutboxOf(db: Tables, tenant: string): map<nat, OutboxRow> {
    map id | id in db.outbox && db.outbox[id].tenant == tenant :: db.outbox[id]
  }

  function StatusIn(rows: map<nat, OutboxRow>): nat -> DeliveryStatus {
    id => if id in rows then rows[id].status else PENDING
  }

  function AttemptsIn(rows: map<nat, OutboxRow>): nat -> nat {
    id => if id in rows then rows[id].attempts else 0
  }

  ghost function DeliveryAttempts(db: Tables, tenant: string): nat {
    Total(OutboxOf(db, tenant).Keys, AttemptsIn(OutboxOf(db, tenant)))
  }

  function Ids(rows: seq<Evidence<string>>, tenant: string): set<nat> {
    set i | 0 <= i < |rows| && rows[i].tenant == tenant :: rows[i].id
  }

  lemma {:induction false} IdsAreCounted(rows: seq<Evidence<string>>, tenant: string)
    requires IdsDistinct(rows)
    ensures |Ids(rows, tenant)| == |EvidenceOf(rows, tenant)|
  {
    if rows == [] {
      assert Ids(rows, tenant) == {};
    } else {
      var n := |rows| - 1;
      IdsAreCounted(rows[..n], tenant);
      OneMoreId(rows, tenant);
    }
  }

  lemma OneMoreId(rows: seq<Evidence<string>>, tenant: string)
    requires rows != [] && IdsDistinct(rows)
    ensures var front, last := Ids(rows[..|rows| - 1], tenant), rows[|rows| - 1];
            last.id !in front && Ids(rows, tenant) == if last.tenant == tenant then front + {last.id} else front
  {
    var n := |rows| - 1;
    var all, front := Ids(rows, tenant), Ids(rows[..n], tenant);
    forall id | id in front ensures id in all {
      var i :| 0 <= i < n && rows[..n][i].tenant == tenant && rows[..n][i].id == id;
      assert rows[i].id == id;
    }
    forall id | id in all ensures id in front || (rows[n].tenant == tenant && id == rows[n].id) {
      var i :| 0 <= i < |rows| && rows[i].tenant == tenant && rows[i].id == id;
      assert i < n ==> rows[..n][i] == rows[i];
    }
  }

  lemma OutboxIdsAreEvidenceIds(c: Codec, db: Tables, tenant: string)
    requires Mirrors(c, db)
    ensures OutboxOf(db, tenant).Keys == Ids(db.evidence, tenant)
  {
    forall id | id in OutboxOf(db, tenant) ensures id in Ids(db.evidence, tenant) {
      var i :| 0 <= i < |db.evidence| && db.evidence[i].id == id;
      assert RowMirrored(c, db, i);
    }
    forall id | id in Ids(db.evidence, tenant) ensures id in OutboxOf(db, tenant) {
      var i :| 0 <= i < |db.evidence| && db.evidence[i].tenant == tenant && db.evidence[i].id == id;
      assert RowMirrored(c, db, i);
    }
  }

  /** In every reachable state the outbox status gauges add up to the tenant's evidence count. */
  lemma OutboxGaugesSumToEvidence(c: Codec, p: Policy, states: seq<State>, steps: seq<Step>, n: nat, tenant: string)
    requires IsRun(c, p, states, steps) && n < |states|
    ensures var rows := OutboxOf(states[n].db, tenant);
            FamilyTotal(rows.Keys, StatusIn(rows), DELIVERY) == |EvidenceOf(states[n].db.evidence, tenant)|
  {
    OutboxMirrorsEvidence(c, p, states, steps, n);
    GaugesFollowMirror(c, states[n].db, tenant);
  }

  lemma DeliveryLosesNoRow<K>(ids: set<K>, tag: K -> DeliveryStatus)
    ensures FamilyTotal(ids, tag, DELIVERY) == |ids|
  {
    forall id | id in ids ensures tag(id) in DELIVERY {
      var status := tag(id);
      assert status.PENDING? || status.DELIVERED? || status.DEAD_LETTER?;
      assert DELIVERY[0] == PENDING && DELIVERY[1] == DELIVERED && DELIVERY[2] == DEAD_LETTER;
    }
    LabelsLoseNoRow(ids, tag, DELIVERY);
  }

  lemma GaugesFollowMirror(c: Codec, db: Tables, tenant: string)
    requires Mirrors(c, db)
    ensures FamilyTotal(OutboxOf(db, tenant).Keys, StatusIn(OutboxOf(db, tenant)), DELIVERY)
            == |EvidenceOf(db.evidence, tenant)|
  {
    var rows := OutboxOf(db, tenant);
    OutboxIdsAreEvidenceIds(c, db, tenant);
    IdsAreCounted(db.evidence, tenant);
    DeliveryLosesNoRow(rows.Keys, StatusIn(rows));
  }

  lemma {:induction false} PrefixCountsLess(rows: seq<Evidence<string>>, n: nat, tenant: string, eventType: string)
    requires n <= |rows|
    ensures EventCount(EvidenceOf(rows[..n], tenant), eventType) <= EventCount(EvidenceOf(rows, tenant), eventType)
  {
    if n == |rows| {
      assert rows[..n] == rows;
    } else {
      var front := rows[..|rows| - 1];
      assert front[..n] == rows[..n];
      PrefixCountsLess(front, n, tenant, eventType);
      var mine, last := EvidenceOf(front, tenant), rows[|rows| - 1];
      assert (mine + [last])[..|mine|] == mine;
      assert EventCount(mine, eventType) <= EventCount(mine + [last], eventType);
      assert mine + [] == mine;
    }
  }

  lemma {:induction false} EvidenceIsAppendOnly(c: Codec, p: Policy, states: seq<State>, steps: seq<Step>, i: nat,
                                                j: nat)
    requires IsRun(c, p, states, steps) && i <= j < |states|
    ensures states[i].db.evidence <= states[j].db.evidence
    decreases j
  {
    if i < j {
      EvidenceIsAppendOnly(c, p, states, steps, i, j - 1);
      var m, step := states[j - 1], steps[j - 1];
      assert Enabled(c, m, step) && states[j - 1 + 1] == Apply(c, p, m, step);
      if step.Settle? {
        SettleTouchesOne(p, m.db, m.batch[0], step.outcome, m.clock, step.stamp);
      }
      assert m.db.evidence <= states[j].db.evidence;
    }
  }

  /** Event counters and the delivery-attempt counter of every tenant only grow. */
  lemma DeliveryCountersOnlyGrow(c: Codec, p: Policy, states: seq<State>, steps: seq<Step>, i: nat, j: nat,
                                 tenant: string, eventType: string)
    requires IsRun(c, p, states, steps) && i <= j < |states|
    ensures EventCount(EvidenceOf(states[i].db.evidence, tenant), eventType)
            <= EventCount(EvidenceOf(states[j].db.evidence, tenant), eventType)
    ensures DeliveryAttempts(states[i].db, tenant) <= DeliveryAttempts(states[j].db, tenant)
  {
    var a, b := states[i].db, states[j].db;
    EvidenceIsAppendOnly(c, p, states, steps, i, j);
    assert b.evidence[..|a.evidence|] == a.evidence;
    PrefixCountsLess(b.evidence, |a.evidence|, tenant, eventType);
    EventsAreStable(c, p, states, steps, i, j);
    TotalGrows(OutboxOf(a, tenant).Keys, AttemptsIn(OutboxOf(a, tenant)), OutboxOf(b, tenant).Keys,
               AttemptsIn(OutboxOf(b, tenant)));
  }

  // ---- Tenants do not see each other ----

  /** The tenant on whose behalf a step is made, if it is made for one. */
  function ActsFor(m: State, step: Step): Option<string> {
    match step
    case CreateRun(_, info) => Some(info.tenant)
    case Append(e) => Some(e.tenant)
    case Settle(_, _) => if m.batch != [] && m.batch[0].id in m.db.outbox
        then Some(m.db.outbox[m.batch[0].id].tenant) else None
    case Requeue(tenant, _) => Some(tenant)
    case _ => None
  }

  /** The tenant's outbox rows are the same in both tables. */
  ghost predicate SameOutbox(db: Tables, db': Tables, tenant: string) { OutboxOf(db', tenant) == OutboxOf(db, tenant) }

  lemma OutboxSliceKept(db: Tables, db': Tables, tenant: string, x: nat)
    requires forall id :: id != x ==> Lookup(db'.outbox, id) == Lookup(db.outbox, id)
    requires x in db.outbox ==> db.outbox[x].tenant != tenant
    requires x in db'.outbox ==> db'.outbox[x].tenant != tenant
    ensures SameOutbox(db, db', tenant)
  {
    forall id ensures id in OutboxOf(db', tenant) <==> id in OutboxOf(db, tenant) {
      assert id != x ==> Lookup(db'.outbox, id) == Lookup(db.outbox, id);
    }
    forall id | id in OutboxOf(db, tenant) ensures OutboxOf(db', tenant)[id] == OutboxOf(db, tenant)[id] {
      assert Lookup(db'.outbox, id) == Lookup(db.outbox, id);
    }
  }

  lemma AppendIsIsolated(c: Codec, db: Tables, e: Entry, tenant: string)
    requires NextSequence(db, e) >= 0 && e.id !in db.outbox && e.tenant != tenant
    ensures SameOutbox(db, Appended(c, db, e), tenant)
    ensures EvidenceOf(Appended(c, db, e).evidence, tenant) == EvidenceOf(db.evidence, tenant)
  {
    var db' := Appended(c, db, e);
    if db' != db {
      assert db'.evidence[..|db.evidence|] == db.evidence;
      OutboxSliceKept(db, db', tenant, e.id);
    }
  }

  /** A step made for one tenant, or for none, changes no row that another's metrics read. */
  lemma TenantsAreIsolated(c: Codec, p: Policy, m: State, step: Step, tenant: string)
    requires Enabled(c, m, step) && ActsFor(m, step) != Some(tenant)
    ensures EvidenceOf(Apply(c, p, m, step).db.evidence, tenant) == EvidenceOf(m.db.evidence, tenant)
    ensures OutboxOf(Apply(c, p, m, step).db, tenant) == OutboxOf(m.db, tenant)
  {
    match step
    case Append(e) => AppendIsIsolated(c, m.db, e, tenant);
    case Settle(outcome, stamp) =>
      var row := m.batch[0];
      SettledAt(p, m.db, row, outcome, m.clock, stamp);
      SettleTouchesOne(p, m.db, row, outcome, m.clock, stamp);
      OutboxSliceKept(m.db, Settled(p, m.db, row, outcome, m.clock, stamp), tenant, row.id);
    case Requeue(_, id) => OutboxSliceKept(m.db, Requeued(m.db, id), tenant, id);
    case _ =>
  }

  // ---- Evidence-chain failures ----

  function RunsIn(rows: seq<Evidence<string>>): set<string> { set i | 0 <= i < |rows| :: rows[i].run }

  ghost function Broken(c: Codec, rows: seq<Evidence<string>>, tenant: string, runs: set<string>): set<string> {
    set run | run in runs && !ChainValid(c, ParsedAll(c, RowsOf(rows, tenant, run)))
  }

  lemma GroupGrows(c: Codec, rows: seq<Evidence<string>>, i: nat, tenant: string, run: string)
    requires i < |rows| && rows[i].tenant == tenant
    ensures RunsIn(rows[..i + 1]) == RunsIn(rows[..i]) + {rows[i].run}
    ensures ParsedAll(c, RowsOf(rows[..i + 1], tenant, run))
            == ParsedAll(c, RowsOf(rows[..i], tenant, run)) + if rows[i].run == run then [Parsed(c, rows[i])] else []
  {
    assert rows[..i + 1] == rows[..i] + [rows[i]];
    assert forall k :: 0 <= k < i ==> rows[..i + 1][k] == rows[..i][k];
    assert rows[..i + 1][i] == rows[i];
    RowsOfGrows(rows[..i], rows[i], tenant, run);
  }

  lemma {:induction false} UnknownRunHasNoRows(rows: seq<Evidence<string>>, tenant: string, run: string)
    requires run !in RunsIn(rows)
    ensures RowsOf(rows, tenant, run) == []
  {
    if rows != [] {
      var front := rows[..|rows| - 1];
      assert forall k :: 0 <= k < |front| ==> front[k] == rows[k];
      assert rows[|rows| - 1].run in RunsIn(rows) && RunsIn(front) <= RunsIn(rows);
      UnknownRunHasNoRows(front, tenant, run);
    }
  }

  /** The groups among `runs` whose chain does not verify. */
  ghost function Failing(c: Codec, byRun: map<string, seq<Evidence<Json>>>, runs: set<string>): set<string>
    requires runs <= byRun.Keys
  {
    set run | run in runs && !ChainValid(c, byRun[run])
  }

  lemma OneMoreRun(c: Codec, byRun: map<string, seq<Evidence<Json>>>, runs: set<string>, run: string)
    requires runs <= byRun.Keys && run in byRun && run !in runs
    ensures |Failing(c, byRun, runs + {run})| == |Failing(c, byRun, runs)| + if ChainValid(c, byRun[run]) then 0 else 1
  {
    var before, more := Failing(c, byRun, runs), Failing(c, byRun, runs + {run});
    if ChainValid(c, byRun[run]) {
      assert more == before;
    } else {
      assert more == before + {run};
    }
  }

  /** `_evidence_chain_failures` over the rows its query returned, in that order: the number of
      runs whose rows do not verify. */
  method EvidenceChainFailures(c: Codec, rows: seq<Evidence<string>>, tenant: string) returns (failures: nat)
    requires forall i :: 0 <= i < |rows| ==> rows[i].tenant == tenant
    ensures failures == |Broken(c, rows, tenant, RunsIn(rows))|
  {
    var byRun := GroupByRun(c, rows, tenant);
    failures := CountFailures(c, byRun);
    assert Failing(c, byRun, byRun.Keys) == Broken(c, rows, tenant, RunsIn(rows));
  }

  /** The sum over the groups. */
  method CountFailures(c: Codec, byRun: map<string, seq<Evidence<Json>>>) returns (failures: nat)
    ensures failures == |Failing(c, byRun, byRun.Keys)|
  {
    var rest := byRun.Keys;
    failures := 0;
    while rest != {}
      invariant rest <= byRun.Keys && failures == |Failing(c, byRun, byRun.Keys - rest)|
      decreases |rest|
    {
      var run :| run in rest;
      var broken := Fails(c, byRun[run]);
      OneMoreRun(c, byRun, byRun.Keys - rest, run);
      assert byRun.Keys - (rest - {run}) == (byRun.Keys - rest) + {run};
      if broken {
        failures := failures + 1;
      }
      rest := rest - {run};
    }
    assert byRun.Keys - rest == byRun.Keys;
  }

  method Fails(c: Codec, records: seq<Evidence<Json>>) returns (fails: bool)
    ensures fails <==> !ChainValid(c, records)
  {
    var error := VerifyChain(c, records);
    fails := error.Some?;
  }

  /** The grouping loop. */
  method GroupByRun(c: Codec, rows: seq<Evidence<string>>, tenant: string)
    returns (byRun: map<string, seq<Evidence<Json>>>)
    requires forall i :: 0 <= i < |rows| ==> rows[i].tenant == tenant
    ensures byRun.Keys == RunsIn(rows)
    ensures forall run :: run in byRun ==> byRun[run] == ParsedAll(c, RowsOf(rows, tenant, run))
  {
    byRun := map[];
    for i := 0 to |rows|
      invariant byRun.Keys == RunsIn(rows[..i])
      invariant forall run :: run in byRun ==> byRun[run] == ParsedAll(c, RowsOf(rows[..i], tenant, run))
    {
      var run := rows[i].run;
      forall other ensures ParsedAll(c, RowsOf(rows[..i + 1], tenant, other))
                           == ParsedAll(c, RowsOf(rows[..i], tenant, other))
                              + if run == other then [Parsed(c, rows[i])] else []
      {
        GroupGrows(c, rows, i, tenant, other);
      }
      GroupGrows(c, rows, i, tenant, run);
      if run !in byRun {
        UnknownRunHasNoRows(rows[..i], tenant, run);
      }
      byRun := byRun[run := (if run in byRun then byRun[run] else []) + [Parsed(c, rows[i])]];
    }
    assert rows[..|rows|] == rows;
  }

  /** In every reachable state no chain fails, in whatever order the query lists the runs. */
  lemma NoChainFails(c: Codec, p: Policy, states: seq<State>, steps: seq<Step>, n: nat,
                     tenant: string, rows: seq<Evidence<string>>)
    requires IsRun(c, p, states, steps) && n < |states|
    requires forall run :: RowsOf(rows, tenant, run) == RowsOf(states[n].db.evidence, tenant, run)
    ensures Broken(c, rows, tenant, RunsIn(rows)) == {}
  {
    OutboxMirrorsEvidence(c, p, states, steps, n);
    forall run ensures ChainValid(c, ParsedAll(c, RowsOf(rows, tenant, run))) {
      RecordsVerify(c, states[n].db, tenant, run);
    }
  }

  // ---- Runs, probes and work items ----

  /** All runs of the control plane, each with its own orchestrator machine. A run's clock and
      crashes are its own here, which allows more schedules than one process has. */
  datatype Member = Member(tenant: string, cfg: O.Config, s: O.State)

  type Fleet = map<string, Member>

  datatype FleetStep = Start(run: string, member: Member) | Advance(run: string, step: O.Step)

  predicate FleetEnabled(f: Fleet, step: FleetStep) {
    match step
    case Start(run, member) => run !in f && O.Init(member.s)
    case Advance(run, step) => run in f && O.Enabled(f[run].s, step)
  }

  function FleetApply(f: Fleet, step: FleetStep): Fleet
    requires FleetEnabled(f, step)
  {
    match step
    case Start(run, member) => f[run := member]
    case Advance(run, step) => f[run := f[run].(s := O.Apply(f[run].cfg, f[run].s, step))]
  }

  ghost predicate IsFleetRun(fleets: seq<Fleet>, steps: seq<FleetStep>) {
    && |fleets| == |steps| + 1 && fleets[0] == map[]
    && forall i :: 0 <= i < |steps| ==>
                      FleetEnabled(fleets[i], steps[i]) && fleets[i + 1] == FleetApply(fleets[i], steps[i])
  }

  /** WHERE tenant_id=? over the run table. */
  function MembersOf(f: Fleet, tenant: string): Fleet { map run | run in f && f[run].tenant == tenant :: f[run] }

  function StateIn(f: Fleet): string -> ShutdownState { run => if run in f then f[run].s.run.state else RUNNING }

  /** The runs that have a work item: the table is keyed by run. */
  function WorkItems(f: Fleet): set<string> { set run | run in f && f[run].s.work.Some? }

  function WorkStatusIn(f: Fleet): string -> O.WorkStatus {
    run => if run in f && f[run].s.work.Some? then f[run].s.work.value.status else O.PENDING
  }

  function Attempts(s: O.State): nat { if s.work.Some? then s.work.value.attempts else 0 }

  function WorkAttemptsIn(f: Fleet): string -> nat { run => if run in f then Attempts(f[run].s) else 0 }

  ghost function OrchestrationAttempts(f: Fleet): nat { Total(f.Keys, WorkAttemptsIn(f)) }

  /** The probe table: rows are named by run and position. */
  function ProbeRows(f: Fleet): set<(string, nat)> {
    set run, i: nat | run in f && 0 <= i < |f[run].s.probes| :: (run, i)
  }

  function PairIn(f: Fleet): ((string, nat)) -> (ProbeKind, ProbeResult) {
    (id: (string, nat)) =>
      if id.0 in f && id.1 < |f[id.0].s.probes|
      then (f[id.0].s.probes[id.1].kind, f[id.0].s.probes[id.1].result) else (Process, Unknown)
  }

  const JOB_STATES: seq<JobStatus> := [ACTIVE, INACTIVE, UNSEEN]

  /** The delegated-job table: rows are named by run, system and external id. */
  function JobRows(f: Fleet): set<(string, (ChildSystem, string))> {
    set run, key | run in f && key in f[run].s.jobs :: (run, key)
  }

  function JobStateIn(f: Fleet): ((string, (ChildSystem, string))) -> JobStatus {
    (id: (string, (ChildSystem, string))) => if id.0 in f && id.1 in f[id.0].s.jobs then f[id.0].s.jobs[id.1]
        else UNSEEN
  }

  /** Every run, probe row, delegated job and work item of a tenant is under exactly one label. */
  lemma FleetLabelsLoseNoRow(f: Fleet)
    ensures FamilyTotal(f.Keys, StateIn(f), STATES) == |f|
    ensures FamilyTotal(WorkItems(f), WorkStatusIn(f), WORK) == |WorkItems(f)|
    ensures FamilyTotal(ProbeRows(f), PairIn(f), Pairs(PROBE_KINDS + [Restart], RESULTS)) == |ProbeRows(f)|
    ensures FamilyTotal(JobRows(f), JobStateIn(f), JOB_STATES) == |JobRows(f)|
  {
    forall run | run in f ensures StateIn(f)(run) in STATES {
      StateIsListed(StateIn(f)(run));
    }
    LabelsLoseNoRow(f.Keys, StateIn(f), STATES);
    forall run | run in WorkItems(f) ensures WorkStatusIn(f)(run) in WORK {
      WorkStatusIsListed(WorkStatusIn(f)(run));
    }
    LabelsLoseNoRow(WorkItems(f), WorkStatusIn(f), WORK);
    PairsCover(PROBE_KINDS + [Restart], RESULTS);
    forall id | id in ProbeRows(f) ensures PairIn(f)(id) in Pairs(PROBE_KINDS + [Restart], RESULTS) {
      PairIsListed(PairIn(f)(id).0, PairIn(f)(id).1);
    }
    LabelsLoseNoRow(ProbeRows(f), PairIn(f), Pairs(PROBE_KINDS + [Restart], RESULTS));
    forall id | id in JobRows(f) ensures JobStateIn(f)(id) in JOB_STATES {
      JobStateIsListed(JobStateIn(f)(id));
    }
    LabelsLoseNoRow(JobRows(f), JobStateIn(f), JOB_STATES);
  }

  lemma JobStateIsListed(status: JobStatus)
    ensures status in JOB_STATES
  {
    assert JOB_STATES[0] == ACTIVE && JOB_STATES[1] == INACTIVE && JOB_STATES[2] == UNSEEN;
  }

  lemma StateIsListed(state: ShutdownState)
    ensures state in STATES
  {
    assert STATES[0] == RUNNING && STATES[1] == REQUESTED && STATES[2] == FENCING && STATES[3] == PROCESS_STOP_SENT;
    assert STATES[4] == CHILD_DISCOVERY && STATES[5] == PROBING && STATES[6] == VERIFIED && STATES[7] == PARTIAL;
    assert STATES[8] == UNKNOWN && STATES[9] == FAILED;
  }

  lemma WorkStatusIsListed(status: O.WorkStatus)
    ensures status in WORK
  {
    assert WORK[0] == O.PENDING && WORK[1] == O.EXECUTING && WORK[2] == O.COMPLETE;
  }

  lemma PairIsListed(kind: ProbeKind, result: ProbeResult)
    ensures kind in PROBE_KINDS + [Restart] && result in RESULTS
  {
    assert PROBE_KINDS[0] == Process && PROBE_KINDS[1] == Delegation && PROBE_KINDS[2] == Kafka;
    assert PROBE_KINDS[3] == Credential && PROBE_KINDS[4] == Network;
    assert RESULTS[0] == Pass && RESULTS[1] == Fail && RESULTS[2] == Partial && RESULTS[3] == Unknown;
  }

  predicate Grown(s: O.State, s': O.State) {
    s.probes <= s'.probes && s.events <= s'.events && Attempts(s) <= Attempts(s')
  }

  lemma EntryGrows(cfg: O.Config, s: O.State, t: nat, w: O.Worker, c: O.Choice)
    ensures Grown(s, O.AdvanceEntry(cfg, s, t, w, c))
  {
  }

  lemma PhaseGrows(cfg: O.Config, s: O.State, t: nat, w: O.Worker, c: O.Choice)
    ensures Grown(s, O.AdvancePhase(cfg, s, t, w, c))
  {
  }

  lemma ProbeGrows(cfg: O.Config, s: O.State, t: nat, w: O.Worker, c: O.Choice)
    ensures Grown(s, O.AdvanceProbe(cfg, s, t, w, c))
  {
  }

  lemma ExitGrows(s: O.State, t: nat, w: O.Worker, c: O.Choice)
    ensures Grown(s, O.AdvanceExit(s, t, w, c))
  {
  }

  /** No step of a run's machine removes a probe row, an event or an attempt. */
  lemma RunOnlyGrows(cfg: O.Config, s: O.State, step: O.Step)
    requires O.Enabled(s, step)
    ensures Grown(s, O.Apply(cfg, s, step))
  {
    if step.Work? {
      var w := s.workers[step.t];
      EntryGrows(cfg, s, step.t, w, step.c);
      PhaseGrows(cfg, s, step.t, w, step.c);
      ProbeGrows(cfg, s, step.t, w, step.c);
      ExitGrows(s, step.t, w, step.c);
    }
  }

  predicate StillThere(f: Fleet, f': Fleet, run: string)
    requires run in f
  {
    run in f' && f'[run].tenant == f[run].tenant && Grown(f[run].s, f'[run].s)
  }

  lemma FleetStepGrows(f: Fleet, step: FleetStep, run: string)
    requires FleetEnabled(f, step) && run in f
    ensures StillThere(f, FleetApply(f, step), run)
  {
    if step.Advance? && step.run == run {
      RunOnlyGrows(f[run].cfg, f[run].s, step.step);
    }
  }

  predicate StillThereAt(fleets: seq<Fleet>, n: nat, run: string)
    requires n + 1 < |fleets|
  {
    run in fleets[n] ==> StillThere(fleets[n], fleets[n + 1], run)
  }

  lemma {:induction false} MembersOnlyGrow(fleets: seq<Fleet>, i: nat, j: nat, run: string)
    requires i <= j < |fleets| && run in fleets[i] && forall n :: 0 <= n < |fleets| - 1 ==> StillThereAt(fleets, n, run)
    ensures StillThere(fleets[i], fleets[j], run)
    decreases j
  {
    if i < j {
      MembersOnlyGrow(fleets, i, j - 1, run);
      assert StillThereAt(fleets, j - 1, run);
    }
  }

  lemma FleetOnlyGrows(fleets: seq<Fleet>, steps: seq<FleetStep>, i: nat, j: nat, run: string)
    requires IsFleetRun(fleets, steps) && i <= j < |fleets| && run in fleets[i]
    ensures StillThere(fleets[i], fleets[j], run)
  {
    forall n | 0 <= n < |steps| ensures StillThereAt(fleets, n, run) {
      assert FleetEnabled(fleets[n], steps[n]) && fleets[n + 1] == FleetApply(fleets[n], steps[n]);
      if run in fleets[n] {
        FleetStepGrows(fleets[n], steps[n], run);
      }
    }
    MembersOnlyGrow(fleets, i, j, run);
  }

  /** The probe counters and the attempt counter of every tenant only grow. */
  lemma FleetCountersOnlyGrow(fleets: seq<Fleet>, steps: seq<FleetStep>, i: nat, j: nat, tenant: string,
                              pair: (ProbeKind, ProbeResult))
    requires IsFleetRun(fleets, steps) && i <= j < |fleets|
    ensures var a, b := MembersOf(fleets[i], tenant), MembersOf(fleets[j], tenant);
            && |Group(ProbeRows(a), PairIn(a), pair)| <= |Group(ProbeRows(b), PairIn(b), pair)|
            && OrchestrationAttempts(a) <= OrchestrationAttempts(b)
  {
    var a, b := MembersOf(fleets[i], tenant), MembersOf(fleets[j], tenant);
    forall run | run in a
      ensures run in b && Grown(a[run].s, b[run].s)
    {
      FleetOnlyGrows(fleets, steps, i, j, run);
    }
    SmallerSet(Group(ProbeRows(a), PairIn(a), pair), Group(ProbeRows(b), PairIn(b), pair));
    TotalGrows(a.Keys, WorkAttemptsIn(a), b.Keys, WorkAttemptsIn(b));
  }

  /** A step of one tenant's run leaves the runs of every other tenant as they were. */
  lemma FleetTenantsAreIsolated(f: Fleet, step: FleetStep, tenant: string)
    requires FleetEnabled(f, step)
    requires tenant != if step.Start? then step.member.tenant else f[step.run].tenant
    ensures MembersOf(FleetApply(f, step), tenant) == MembersOf(f, tenant)
  {
  }
}
