/** The transactional outbox: one publisher working through batches, interleaved at commit
    granularity with appends, requeues and crashes. */
module Outbox {
  import opened Domain
  import opened Ledger

  // ---- Configuration ----

  datatype Policy = Policy(maxAttempts: nat, base: nat, cap: nat)

  /** The constructor's checks. */
  predicate ValidPolicy(p: Policy) { p.maxAttempts >= 1 && p.base <= p.cap }

  function Pow2(n: nat): nat { if n == 0 then 1 else 2 * Pow2(n - 1) }

  function Min(a: nat, b: nat): nat { if a <= b then a else b }

  /** The wait after failure `k` of a cycle. */
  function Delay(p: Policy, k: nat): nat
    requires k >= 1
  {
    Min(p.cap, p.base * Pow2(k - 1))
  }

  // ---- Selection ----

  function Lookup<V>(m: map<nat, V>, id: nat): Option<V> { if id in m then Some(m[id]) else None }

  function Baseline(db: Tables, id: nat): nat { if id in db.baseline then db.baseline[id] else 0 }

  predicate Due(db: Tables, id: nat, now: int) {
    && id in db.outbox && db.outbox[id].status == PENDING
    && (id !in db.delivery || db.delivery[id].nextAttempt.None? || db.delivery[id].nextAttempt.value <= now)
  }

  /** ORDER BY created_at, event_id. */
  predicate Before(db: Tables, a: nat, b: nat) {
    a in db.outbox && b in db.outbox
    && (db.outbox[a].createdAt < db.outbox[b].createdAt || (db.outbox[a].createdAt == db.outbox[b].createdAt && a < b))
  }

  /** A row of the publisher's snapshot. */
  datatype Picked = Picked(id: nat, attempts: nat, baseline: nat)

  predicate Matches(db: Tables, row: Picked) {
    && row.id in db.outbox && db.outbox[row.id].status == PENDING
    && row.attempts == db.outbox[row.id].attempts && row.baseline == Baseline(db, row.id)
  }

  ghost predicate Selects(rows: seq<Picked>, id: nat) { exists i :: 0 <= i < |rows| && rows[i].id == id }

  /** The snapshot: the first `limit` due events in order (all of them if `limit` is negative). */
  ghost predicate IsBatch(db: Tables, now: int, limit: int, rows: seq<Picked>) {
    && (forall i :: 0 <= i < |rows| ==> Matches(db, rows[i]) && Due(db, rows[i].id, now))
    && (forall i, j :: 0 <= i < j < |rows| ==> Before(db, rows[i].id, rows[j].id))
    && (limit >= 0 ==> |rows| <= limit)
    && (forall id :: Due(db, id, now) && !Selects(rows, id) ==>
                       |rows| == limit && forall i :: 0 <= i < |rows| ==> Before(db, rows[i].id, id))
  }

  // ---- Commits ----

  function Truncated(error: string): string { if |error| <= 1000 then error else error[..1000] }

  /** The answer of the sender: delivered, or the error it raised. */
  datatype Outcome = Sent | Refused(error: string)

  /** The commit that follows one send; `now` is the batch clock, `stamp` a fresh reading. */
  function Settled(p: Policy, db: Tables, row: Picked, outcome: Outcome, now: int, stamp: int): Tables
    requires row.id in db.outbox
  {
    var event := db.outbox[row.id];
    match outcome
    case Sent =>
      db.(outbox := db.outbox[row.id := event.(status := DELIVERED, attempts := event.attempts + 1, lastError := None,
                                             deliveredAt := Some(stamp))],
          delivery := db.delivery - {row.id}, baseline := db.baseline - {row.id})
    case Refused(error) =>
      var attempts := row.attempts + 1;
      var cycle := attempts - row.baseline;
      if cycle >= p.maxAttempts then
        db.(outbox := db.outbox[row.id := event.(status := DEAD_LETTER, attempts := attempts,
                                                 lastError := Some(Truncated(error)))],
            delivery := db.delivery[row.id := DeliveryRow(None, Some(now))])
      else
        db.(outbox := db.outbox[row.id := event.(attempts := attempts, lastError := Some(Truncated(error)))],
            delivery := db.delivery[row.id := DeliveryRow(Some(now + DelayAt(p, cycle)), None)])
  }

  /** The delay formula, total for the sake of arithmetic that never occurs. */
  function DelayAt(p: Policy, cycle: int): nat { if cycle >= 1 then Delay(p, cycle) else 0 }

  predicate Requeueable(db: Tables, tenant: string, id: nat) {
    id in db.outbox && db.outbox[id].tenant == tenant && db.outbox[id].status == DEAD_LETTER
  }

  /** The commit of `requeue_dead_letter`: attempts are kept and become the new baseline. */
  function Requeued(db: Tables, id: nat): Tables
    requires id in db.outbox
  {
    db.(outbox := db.outbox[id := db.outbox[id].(status := PENDING, lastError := None, deliveredAt := None)],
        delivery := db.delivery - {id}, baseline := db.baseline[id := db.outbox[id].attempts])
  }

  // ---- The machine ----

  /** `batch` is what the publisher still has to send of its snapshot, `clock` that snapshot's
      clock. `requeues` and `failedAt` are history: how often an event was requeued, and the
      batch clock of its last failure. */
  datatype State = State(
    db: Tables, batch: seq<Picked>, clock: int, requeues: map<nat, nat>, failedAt: map<nat, int>)

  datatype Step =
    | CreateRun(run: string, info: RunInfo)
    | Append(e: Entry)
    | Pick(now: int, limit: int, rows: seq<Picked>)
    | Settle(outcome: Outcome, stamp: int)
    | Requeue(tenant: string, id: nat)
    | Crash

  ghost predicate Enabled(c: Codec, m: State, step: Step) {
    match step
    case CreateRun(run, _) => run !in m.db.runs
    case Append(e) =>
      && NextSequence(m.db, e) >= 0 && e.id !in m.db.outbox
      && forall i :: 0 <= i < |m.db.evidence| ==> m.db.evidence[i].id != e.id
    case Pick(now, limit, rows) => m.batch == [] && IsBatch(m.db, now, limit, rows)
    case Settle(_, _) => m.batch != [] && m.batch[0].id in m.db.outbox
    case Requeue(tenant, id) => Requeueable(m.db, tenant, id)
    case Crash => true
  }

  function Count(requeues: map<nat, nat>, id: nat): nat { if id in requeues then requeues[id] else 0 }

  function Apply(c: Codec, p: Policy, m: State, step: Step): State
    requires Enabled(c, m, step)
  {
    match step
    case CreateRun(run, info) => m.(db := m.db.(runs := m.db.runs[run := info]))
    case Append(e) => m.(db := Appended(c, m.db, e))
    case Pick(now, _, rows) => m.(batch := rows, clock := now)
    case Settle(outcome, stamp) =>
      var row := m.batch[0];
      m.(db := Settled(p, m.db, row, outcome, m.clock, stamp), batch := m.batch[1..],
         failedAt := if outcome.Refused? then m.failedAt[row.id := m.clock] else m.failedAt)
    case Requeue(_, id) => m.(db := Requeued(m.db, id), requeues := m.requeues[id := Count(m.requeues, id) + 1])
    case Crash => m.(batch := [])
  }

  predicate Init(m: State) {
    m.db == Tables(map[], [], map[], map[], map[]) && m.batch == [] && m.requeues == map[] && m.failedAt == map[]
  }

  ghost predicate IsRun(c: Codec, p: Policy, states: seq<State>, steps: seq<Step>) {
    && ValidPolicy(p) && Stable(c) && |states| == |steps| + 1 && Init(states[0])
    && forall i :: 0 <= i < |steps| ==>
                     Enabled(c, states[i], steps[i]) && states[i + 1] == Apply(c, p, states[i], steps[i])
  }

  // ---- The arithmetic of retry cycles ----

  /** The attempts an event had made when its current cycle started. */
  function CycleStart(p: Policy, requeues: nat): nat {
    if requeues == 0 then 0 else CycleStart(p, requeues - 1) + p.maxAttempts
  }

  lemma {:induction false} CycleStartIsProduct(p: Policy, requeues: nat)
    ensures CycleStart(p, requeues) == p.maxAttempts * requeues
  {
    if requeues > 0 {
      CycleStartIsProduct(p, requeues - 1);
    }
  }

  /** What holds of one event, given its side rows and its history. */
  ghost predicate EventOk(p: Policy, row: OutboxRow, delivery: Option<DeliveryRow>, baseline: Option<nat>,
                          requeues: nat, failedAt: Option<int>) {
    var start := CycleStart(p, requeues);
    var base := if baseline.Some? then baseline.value else 0;
    match row.status
    case PENDING =>
      && base == start && start <= row.attempts < start + p.maxAttempts
      && (if row.attempts == start then delivery.None?
          else failedAt.Some?
               && delivery == Some(DeliveryRow(Some(failedAt.value + Delay(p, row.attempts - start)), None)))
    case DEAD_LETTER =>
      && base == start && row.attempts == start + p.maxAttempts
      && delivery.Some? && delivery.value.nextAttempt.None? && delivery.value.deadLettered.Some?
    case DELIVERED =>
      delivery.None? && baseline.None? && start < row.attempts <= start + p.maxAttempts
  }

  ghost predicate EventAt(p: Policy, m: State, id: nat)
    requires id in m.db.outbox
  {
    EventOk(p, m.db.outbox[id], Lookup(m.db.delivery, id), Lookup(m.db.baseline, id),
            Count(m.requeues, id), Lookup(m.failedAt, id))
  }

  ghost predicate EventsOk(p: Policy, m: State) {
    && (forall id :: id in m.db.outbox ==> EventAt(p, m, id))
    && (forall id :: id in m.requeues || id in m.failedAt || id in m.db.delivery || id in m.db.baseline
                     ==> id in m.db.outbox)
  }

  /** The snapshot stays true of every event the publisher has yet to send. */
  ghost predicate BatchOk(m: State) {
    && (forall i :: 0 <= i < |m.batch| ==> Matches(m.db, m.batch[i]) && Due(m.db, m.batch[i].id, m.clock))
    && (forall i, j :: 0 <= i < j < |m.batch| ==> m.batch[i].id != m.batch[j].id)
  }

  ghost predicate RetryInv(p: Policy, m: State) { EventsOk(p, m) && BatchOk(m) }

  /** What the commit leaves behind under the event's own id. */
  lemma SettledAt(p: Policy, db: Tables, row: Picked, outcome: Outcome, now: int, stamp: int)
    requires row.id in db.outbox
    ensures var db', event := Settled(p, db, row, outcome, now, stamp), db.outbox[row.id];
            match outcome
            case Sent =>
              && db'.outbox[row.id] == event.(status := DELIVERED, attempts := event.attempts + 1, lastError := None,
                                              deliveredAt := Some(stamp))
              && Lookup(db'.delivery, row.id) == None && Lookup(db'.baseline, row.id) == None
            case Refused(error) =>
              && Lookup(db'.baseline, row.id) == Lookup(db.baseline, row.id)
              && (if row.attempts + 1 - row.baseline >= p.maxAttempts
                  then db'.outbox[row.id] == event.(status := DEAD_LETTER, attempts := row.attempts + 1,
                                                    lastError := Some(Truncated(error)))
                       && Lookup(db'.delivery, row.id) == Some(DeliveryRow(None, Some(now)))
                  else db'.outbox[row.id] == event.(attempts := row.attempts + 1, lastError := Some(Truncated(error)))
                       && Lookup(db'.delivery, row.id)
                          == Some(DeliveryRow(Some(now + DelayAt(p, row.attempts + 1 - row.baseline)), None)))
  {
  }

  lemma SettleKeepsEvent(p: Policy, m: State, outcome: Outcome, stamp: int)
    requires ValidPolicy(p) && m.batch != [] && Matches(m.db, m.batch[0]) && EventAt(p, m, m.batch[0].id)
    ensures var row := m.batch[0];
            var db' := Settled(p, m.db, row, outcome, m.clock, stamp);
            EventOk(p, db'.outbox[row.id], Lookup(db'.delivery, row.id), Lookup(db'.baseline, row.id),
                    Count(m.requeues, row.id),
                    if outcome.Refused? then Some(m.clock) else Lookup(m.failedAt, row.id))
  {
    SettledAt(p, m.db, m.batch[0], outcome, m.clock, stamp);
  }

  lemma SettleTouchesOne(p: Policy, db: Tables, row: Picked, outcome: Outcome, now: int, stamp: int)
    requires row.id in db.outbox
    ensures var db' := Settled(p, db, row, outcome, now, stamp);
            && db'.runs == db.runs && db'.evidence == db.evidence && db'.outbox.Keys == db.outbox.Keys
            && forall id :: id != row.id ==>
                              && Lookup(db'.outbox, id) == Lookup(db.outbox, id)
                              && Lookup(db'.delivery, id) == Lookup(db.delivery, id)
                              && Lookup(db'.baseline, id) == Lookup(db.baseline, id)
  {
  }

  /** Everything but event `x` is as before. */
  ghost predicate SameElsewhere(m: State, m': State, x: nat) {
    && m'.db.outbox.Keys == m.db.outbox.Keys
    && forall id :: id != x ==>
                      && Lookup(m'.db.outbox, id) == Lookup(m.db.outbox, id)
                      && Lookup(m'.db.delivery, id) == Lookup(m.db.delivery, id)
                      && Lookup(m'.db.baseline, id) == Lookup(m.db.baseline, id)
                      && Lookup(m'.requeues, id) == Lookup(m.requeues, id)
                      && Lookup(m'.failedAt, id) == Lookup(m.failedAt, id)
  }

  lemma OneEventChanged(p: Policy, m: State, m': State, x: nat)
    requires EventsOk(p, m) && SameElsewhere(m, m', x) && x in m'.db.outbox && EventAt(p, m', x)
    ensures EventsOk(p, m')
  {
    forall id | id in m'.db.outbox ensures EventAt(p, m', id) {
      if id != x {
        assert EventAt(p, m, id) && Lookup(m'.db.outbox, id) == Lookup(m.db.outbox, id);
      }
    }
    forall id | id in m'.requeues || id in m'.failedAt || id in m'.db.delivery || id in m'.db.baseline
      ensures id in m'.db.outbox
    {
      if id != x {
        assert Lookup(m'.db.outbox, id) == Lookup(m.db.outbox, id);
      }
    }
  }

  lemma SettleKeepsEvents(c: Codec, p: Policy, m: State, step: Step)
    requires ValidPolicy(p) && RetryInv(p, m) && step.Settle? && Enabled(c, m, step)
    ensures EventsOk(p, Apply(c, p, m, step))
  {
    var m' := Apply(c, p, m, step);
    var row := m.batch[0];
    assert Matches(m.db, row) && EventAt(p, m, row.id);
    SettleKeepsEvent(p, m, step.outcome, step.stamp);
    SettleTouchesOne(p, m.db, row, step.outcome, m.clock, step.stamp);
    assert SameElsewhere(m, m', row.id);
    OneEventChanged(p, m, m', row.id);
  }

  lemma SettleKeepsBatch(c: Codec, p: Policy, m: State, step: Step)
    requires BatchOk(m) && step.Settle? && Enabled(c, m, step)
    ensures BatchOk(Apply(c, p, m, step))
  {
    var m' := Apply(c, p, m, step);
    SettleTouchesOne(p, m.db, m.batch[0], step.outcome, m.clock, step.stamp);
    forall i | 0 <= i < |m'.batch| ensures Matches(m'.db, m'.batch[i]) && Due(m'.db, m'.batch[i].id, m'.clock) {
      var id := m.batch[i + 1].id;
      assert m'.batch[i] == m.batch[i + 1] && m.batch[0].id != id;
      assert Matches(m.db, m.batch[i + 1]) && Due(m.db, id, m.clock);
      assert Lookup(m'.db.outbox, id) == Lookup(m.db.outbox, id);
      assert Lookup(m'.db.delivery, id) == Lookup(m.db.delivery, id);
      assert Lookup(m'.db.baseline, id) == Lookup(m.db.baseline, id);
    }
  }

  lemma SettleKeepsRetry(c: Codec, p: Policy, m: State, step: Step)
    requires ValidPolicy(p) && RetryInv(p, m) && step.Settle? && Enabled(c, m, step)
    ensures RetryInv(p, Apply(c, p, m, step))
  {
    SettleKeepsEvents(c, p, m, step);
    SettleKeepsBatch(c, p, m, step);
  }

  lemma RequeueKeepsEvent(c: Codec, p: Policy, m: State, step: Step)
    requires step.Requeue? && Enabled(c, m, step) && ValidPolicy(p) && EventAt(p, m, step.id)
    ensures var m' := Apply(c, p, m, step); step.id in m'.db.outbox && EventAt(p, m', step.id)
    ensures SameElsewhere(m, Apply(c, p, m, step), step.id)
  {
    var m' := Apply(c, p, m, step);
    assert m'.db.outbox[step.id].status == PENDING && Lookup(m'.db.delivery, step.id) == None;
    assert Lookup(m'.db.baseline, step.id) == Some(m.db.outbox[step.id].attempts);
    assert Count(m'.requeues, step.id) == Count(m.requeues, step.id) + 1;
  }

  lemma RequeueKeepsRetry(c: Codec, p: Policy, m: State, step: Step)
    requires ValidPolicy(p) && RetryInv(p, m) && step.Requeue? && Enabled(c, m, step)
    ensures RetryInv(p, Apply(c, p, m, step))
  {
    var m' := Apply(c, p, m, step);
    assert EventAt(p, m, step.id);
    RequeueKeepsEvent(c, p, m, step);
    OneEventChanged(p, m, m', step.id);
    forall i | 0 <= i < |m'.batch| ensures Matches(m'.db, m'.batch[i]) && Due(m'.db, m'.batch[i].id, m'.clock) {
      assert Matches(m.db, m.batch[i]) && m.batch[i].id != step.id;
    }
  }

  lemma AppendKeepsRetry(c: Codec, p: Policy, m: State, step: Step)
    requires ValidPolicy(p) && RetryInv(p, m) && step.Append? && Enabled(c, m, step)
    ensures RetryInv(p, Apply(c, p, m, step))
  {
    var m' := Apply(c, p, m, step);
    assert m'.db.delivery == m.db.delivery && m'.db.baseline == m.db.baseline;
    forall id | id in m'.db.outbox ensures EventAt(p, m', id) {
      if id in m.db.outbox {
        assert EventAt(p, m, id) && m'.db.outbox[id] == m.db.outbox[id];
      }
    }
    forall i | 0 <= i < |m'.batch| ensures Matches(m'.db, m'.batch[i]) && Due(m'.db, m'.batch[i].id, m'.clock) {
      assert Matches(m.db, m.batch[i]);
    }
  }

  lemma PickKeepsRetry(c: Codec, p: Policy, m: State, step: Step)
    requires RetryInv(p, m) && step.Pick? && Enabled(c, m, step)
    ensures RetryInv(p, Apply(c, p, m, step))
  {
    var m' := Apply(c, p, m, step);
    forall id | id in m'.db.outbox ensures EventAt(p, m', id) {
      assert EventAt(p, m, id);
    }
    assert forall i, j :: 0 <= i < j < |m'.batch| ==> Before(m.db, m'.batch[i].id, m'.batch[j].id);
  }

  lemma QuietKeepsRetry(c: Codec, p: Policy, m: State, step: Step)
    requires RetryInv(p, m) && (step.CreateRun? || step.Crash?) && Enabled(c, m, step)
    ensures RetryInv(p, Apply(c, p, m, step))
  {
    var m' := Apply(c, p, m, step);
    forall id | id in m'.db.outbox ensures EventAt(p, m', id) {
      assert EventAt(p, m, id);
    }
    if step.CreateRun? {
      forall i | 0 <= i < |m'.batch| ensures Matches(m'.db, m'.batch[i]) && Due(m'.db, m'.batch[i].id, m'.clock) {
        assert Matches(m.db, m.batch[i]);
      }
    }
  }

  lemma StepKeepsRetry(c: Codec, p: Policy, m: State, step: Step)
    requires ValidPolicy(p) && RetryInv(p, m) && Enabled(c, m, step)
    ensures RetryInv(p, Apply(c, p, m, step))
  {
    match step
    case CreateRun(_, _) => QuietKeepsRetry(c, p, m, step);
    case Append(_) => AppendKeepsRetry(c, p, m, step);
    case Pick(_, _, _) => PickKeepsRetry(c, p, m, step);
    case Settle(_, _) => SettleKeepsRetry(c, p, m, step);
    case Requeue(_, _) => RequeueKeepsRetry(c, p, m, step);
    case Crash => QuietKeepsRetry(c, p, m, step);
  }

  /** Retry-cycle arithmetic over every interleaving: the baseline is the budget times the
      requeues while a cycle is open, a pending event is within its budget, a dead letter has
      spent exactly its budget, and a delivered event has no side rows. */
  lemma {:induction false} RetryArithmetic(c: Codec, p: Policy, states: seq<State>, steps: seq<Step>, n: nat)
    requires IsRun(c, p, states, steps) && n < |states|
    ensures RetryInv(p, states[n])
  {
    if n > 0 {
      RetryArithmetic(c, p, states, steps, n - 1);
      assert states[n - 1 + 1] == Apply(c, p, states[n - 1], steps[n - 1]);
      StepKeepsRetry(c, p, states[n - 1], steps[n - 1]);
    }
  }

  // ---- What never changes ----

  predicate RowStable(a: OutboxRow, b: OutboxRow) {
    && b.tenant == a.tenant && b.run == a.run && b.envelope == a.envelope && b.createdAt == a.createdAt
    && a.attempts <= b.attempts && (a.status == DELIVERED ==> b == a)
  }

  ghost predicate OutboxStable(a: Tables, b: Tables) {
    forall id :: id in a.outbox ==> id in b.outbox && RowStable(a.outbox[id], b.outbox[id])
  }

  lemma SettleIsStable(p: Policy, db: Tables, row: Picked, outcome: Outcome, now: int, stamp: int)
    requires Matches(db, row)
    ensures OutboxStable(db, Settled(p, db, row, outcome, now, stamp))
  {
    SettledAt(p, db, row, outcome, now, stamp);
  }

  lemma StepIsStable(c: Codec, p: Policy, m: State, step: Step)
    requires BatchOk(m) && Enabled(c, m, step)
    ensures OutboxStable(m.db, Apply(c, p, m, step).db)
  {
    if step.Settle? {
      assert Matches(m.db, m.batch[0]);
      SettleIsStable(p, m.db, m.batch[0], step.outcome, m.clock, step.stamp);
    }
  }

  lemma StableIsTransitive(x: Tables, y: Tables, z: Tables)
    requires OutboxStable(x, y) && OutboxStable(y, z)
    ensures OutboxStable(x, z)
  {
    forall id | id in x.outbox ensures id in z.outbox && RowStable(x.outbox[id], z.outbox[id]) {
      assert id in y.outbox;
    }
  }

  ghost predicate StableAt(states: seq<State>, n: nat)
    requires n + 1 < |states|
  {
    OutboxStable(states[n].db, states[n + 1].db)
  }

  lemma StepsAreStable(c: Codec, p: Policy, states: seq<State>, steps: seq<Step>)
    requires IsRun(c, p, states, steps)
    ensures forall n :: 0 <= n < |steps| ==> StableAt(states, n)
  {
    forall n | 0 <= n < |steps| ensures StableAt(states, n) {
      RetryArithmetic(c, p, states, steps, n);
      assert Enabled(c, states[n], steps[n]) && states[n + 1] == Apply(c, p, states[n], steps[n]);
      StepIsStable(c, p, states[n], steps[n]);
    }
  }

  lemma {:induction false} StaysStable(states: seq<State>, i: nat, j: nat)
    requires i <= j < |states| && forall n :: 0 <= n < |states| - 1 ==> StableAt(states, n)
    ensures OutboxStable(states[i].db, states[j].db)
    decreases j
  {
    if i < j {
      StaysStable(states, i, j - 1);
      assert StableAt(states, j - 1);
      StableIsTransitive(states[i].db, states[j - 1].db, states[j].db);
    }
  }

  /** Through retries, dead letters and requeues an event keeps its envelope (and so its key),
      its attempts never decrease, and delivery is final. */
  lemma EventsAreStable(c: Codec, p: Policy, states: seq<State>, steps: seq<Step>, i: nat, j: nat)
    requires IsRun(c, p, states, steps) && i <= j < |states|
    ensures OutboxStable(states[i].db, states[j].db)
  {
    StepsAreStable(c, p, states, steps);
    StaysStable(states, i, j);
  }

  // ---- Backoff ----

  /** Two consecutive failures of one cycle are at least the delay of the first apart, on the
      batch clock. */
  lemma FailuresAreSpaced(c: Codec, p: Policy, states: seq<State>, steps: seq<Step>, n: nat)
    requires IsRun(c, p, states, steps) && n < |steps| && steps[n].Settle? && steps[n].outcome.Refused?
    requires var m := states[n]; m.batch[0].attempts > m.batch[0].baseline
    ensures var m := states[n];
            var id, k := m.batch[0].id, m.batch[0].attempts - m.batch[0].baseline;
            && id in m.failedAt && m.clock >= m.failedAt[id] + Min(p.cap, p.base * Pow2(k - 1))
            && states[n + 1].failedAt[id] == m.clock
  {
    var m := states[n];
    RetryArithmetic(c, p, states, steps, n);
    assert Enabled(c, m, steps[n]) && states[n + 1] == Apply(c, p, m, steps[n]);
    assert Matches(m.db, m.batch[0]) && Due(m.db, m.batch[0].id, m.clock);
    assert EventAt(p, m, m.batch[0].id);
  }

  /** A refused send of event `id` at step `n`, the `k`-th failure of the cycle that began at `base`. */
  ghost predicate FailsAt(states: seq<State>, steps: seq<Step>, n: nat, id: nat, base: nat, k: nat)
    requires |states| == |steps| + 1
  {
    && n < |steps| && steps[n].Settle? && steps[n].outcome.Refused? && states[n].batch != []
    && states[n].batch[0].id == id && states[n].batch[0].baseline == base && states[n].batch[0].attempts + 1 == base + k
  }

  /** What a step does to one event's attempts and last failure: only a refused send of that
      event sets the latter, and then it adds an attempt. */
  ghost predicate FailureKept(m: State, m': State, id: nat) {
    id in m.db.outbox ==>
      && id in m'.db.outbox && m.db.outbox[id].attempts <= m'.db.outbox[id].attempts
      && (m'.db.outbox[id].attempts == m.db.outbox[id].attempts ==> Lookup(m'.failedAt, id) == Lookup(m.failedAt, id))
  }

  lemma StepKeepsFailure(c: Codec, p: Policy, m: State, step: Step, id: nat)
    requires RetryInv(p, m) && Enabled(c, m, step)
    ensures FailureKept(m, Apply(c, p, m, step), id)
  {
    if step.Settle? {
      var row := m.batch[0];
      assert Matches(m.db, row);
      SettledAt(p, m.db, row, step.outcome, m.clock, step.stamp);
      SettleTouchesOne(p, m.db, row, step.outcome, m.clock, step.stamp);
      if id != row.id {
        var db' := Settled(p, m.db, row, step.outcome, m.clock, step.stamp);
        assert Lookup(db'.outbox, id) == Lookup(m.db.outbox, id);
      }
    }
  }

  ghost predicate FailureKeptAt(states: seq<State>, n: nat, id: nat)
    requires n + 1 < |states|
  {
    FailureKept(states[n], states[n + 1], id)
  }

  lemma FailureKeptBySteps(c: Codec, p: Policy, states: seq<State>, steps: seq<Step>, id: nat)
    requires IsRun(c, p, states, steps)
    ensures forall n :: 0 <= n < |steps| ==> FailureKeptAt(states, n, id)
  {
    forall n | 0 <= n < |steps| ensures FailureKeptAt(states, n, id) {
      RetryArithmetic(c, p, states, steps, n);
      assert Enabled(c, states[n], steps[n]) && states[n + 1] == Apply(c, p, states[n], steps[n]);
      StepKeepsFailure(c, p, states[n], steps[n], id);
    }
  }

  lemma {:induction false} FailureIsRemembered(states: seq<State>, i: nat, j: nat, id: nat)
    requires i <= j < |states| && forall n :: 0 <= n < |states| - 1 ==> FailureKeptAt(states, n, id)
    ensures FailureKept(states[i], states[j], id)
    decreases j
  {
    if i < j {
      FailureIsRemembered(states, i, j - 1, id);
      assert FailureKeptAt(states, j - 1, id);
    }
  }

  /** Failures `k` and `k + 1` of one cycle are a delay apart, however far apart their steps are. */
  lemma NextFailureWaits(c: Codec, p: Policy, states: seq<State>, steps: seq<Step>, i: nat, j: nat, id: nat,
                         base: nat, k: nat)
    requires IsRun(c, p, states, steps) && i < j && k >= 1
    requires FailsAt(states, steps, i, id, base, k) && FailsAt(states, steps, j, id, base, k + 1)
    ensures states[j].clock >= states[i].clock + Delay(p, k)
  {
    FailureLeaves(c, p, states, steps, i);
    FailureKeptBySteps(c, p, states, steps, id);
    FailureIsRemembered(states, i + 1, j, id);
    FailuresAreSpaced(c, p, states, steps, j);
    HeadMatches(c, p, states, steps, j);
  }

  lemma HeadMatches(c: Codec, p: Policy, states: seq<State>, steps: seq<Step>, n: nat)
    requires IsRun(c, p, states, steps) && n < |steps| && steps[n].Settle?
    ensures states[n].batch != [] && Matches(states[n].db, states[n].batch[0])
  {
    RetryArithmetic(c, p, states, steps, n);
    assert Enabled(c, states[n], steps[n]);
  }

  /** What a refused send leaves of its event. */
  lemma FailureLeaves(c: Codec, p: Policy, states: seq<State>, steps: seq<Step>, n: nat)
    requires IsRun(c, p, states, steps) && n < |steps| && steps[n].Settle? && steps[n].outcome.Refused?
    ensures var m, m' := states[n], states[n + 1];
            && m.batch != [] && m.batch[0].id in m'.db.outbox
            && m'.db.outbox[m.batch[0].id].attempts == m.batch[0].attempts + 1
            && Lookup(m'.failedAt, m.batch[0].id) == Some(m.clock)
  {
    var m := states[n];
    RetryArithmetic(c, p, states, steps, n);
    assert Enabled(c, m, steps[n]) && states[n + 1] == Apply(c, p, m, steps[n]);
    SettledAt(p, m.db, m.batch[0], steps[n].outcome, m.clock, steps[n].stamp);
  }

  /** The first `n` failures of one cycle, wherever they happen in a run, spread over at least the
      forced waiting of `n` attempts. */
  lemma {:induction false} CycleTakesForcedWait(c: Codec, p: Policy, states: seq<State>, steps: seq<Step>,
                                                at: seq<nat>, id: nat,
                                                base: nat, n: nat)
    requires IsRun(c, p, states, steps) && 1 <= n <= |at|
    requires forall k :: 0 <= k < |at| ==> FailsAt(states, steps, at[k], id, base, k + 1)
    requires forall k :: 0 <= k < |at| - 1 ==> at[k] < at[k + 1]
    ensures at[0] < |states| && at[n - 1] < |states|
    ensures states[at[n - 1]].clock >= states[at[0]].clock + ForcedWait(p, n)
  {
    assert FailsAt(states, steps, at[0], id, base, 0 + 1);
    if n > 1 {
      CycleTakesForcedWait(c, p, states, steps, at, id, base, n - 1);
      assert at[n - 2] < at[n - 2 + 1];
      NextFailureWaits(c, p, states, steps, at[n - 2], at[n - 1], id, base, n - 1);
    }
  }

  lemma DelayGrows(p: Policy, k: nat)
    requires k >= 1
    ensures Delay(p, k) <= Delay(p, k + 1) <= p.cap
  {
    assert p.base * Pow2(k) == 2 * (p.base * Pow2(k - 1));
  }

  /** The waits of a whole cycle of `n` attempts. */
  function ForcedWait(p: Policy, n: nat): nat {
    if n <= 1 then 0 else ForcedWait(p, n - 1) + Delay(p, n - 1)
  }

  lemma {:induction false} ForcedWaitWithinCaps(p: Policy, n: nat)
    requires n >= 1
    ensures ForcedWait(p, n) <= (n - 1) * p.cap
  {
    if n > 1 {
      ForcedWaitWithinCaps(p, n - 1);
      assert (n - 1) * p.cap == (n - 2) * p.cap + p.cap;
    }
  }

  lemma {:induction false} ForcedWaitWithinDoubling(p: Policy, n: nat)
    requires n >= 1
    ensures ForcedWait(p, n) <= p.base * Pow2(n - 1) - p.base
  {
    if n > 1 {
      ForcedWaitWithinDoubling(p, n - 1);
      assert p.base * Pow2(n - 1) == 2 * (p.base * Pow2(n - 2));
    }
  }

  /** The forced waiting of a whole cycle has two closed-form bounds, and both hold. */
  lemma ForcedWaitIsBounded(p: Policy, n: nat)
    requires n >= 1
    ensures ForcedWait(p, n) <= (n - 1) * p.cap && ForcedWait(p, n) <= p.base * (Pow2(n - 1) - 1)
  {
    ForcedWaitWithinCaps(p, n);
    ForcedWaitWithinDoubling(p, n);
  }
}
