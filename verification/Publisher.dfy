/** `OutboxPublisher` as an object: one batch, its selection and its counters. */
module Publisher {
  import opened Domain
  import opened Ledger
  import opened Outbox
  import opened OutboxMirror

  /** The constructor's validation. */
  method CheckPolicy(maxAttempts: int, base: int, cap: int) returns (policy: Option<Policy>)
    ensures policy.Some? <==> maxAttempts >= 1 && 0 <= base <= cap
    ensures policy.Some? ==> ValidPolicy(policy.value) && policy.value == Policy(maxAttempts, base, cap)
  {
    if maxAttempts < 1 {
      return None;
    }
    if base < 0 || cap < base {
      return None;
    }
    return Some(Policy(maxAttempts, base, cap));
  }

  // ---- Selection ----

  /** `first` comes before everything else in `ids`. */
  predicate IsFirst(db: Tables, ids: set<nat>, first: nat) {
    first in ids && forall x :: x in ids && x != first ==> Before(db, first, x)
  }

  lemma {:induction false} FirstExists(db: Tables, ids: set<nat>) returns (first: nat)
    requires ids != {} && ids <= db.outbox.Keys
    ensures IsFirst(db, ids, first)
    decreases |ids|
  {
    var some :| some in ids;
    first := some;
    var rest := ids - {some};
    if rest != {} {
      var other := FirstExists(db, rest);
      if Before(db, other, some) {
        first := other;
      }
      forall x | x in ids && x != first ensures Before(db, first, x) {
        assert x == some || x in rest;
        assert x in rest && x != other ==> Before(db, other, x);
      }
    } else {
      assert forall x :: x in ids ==> x == some || x in rest;
    }
  }

  lemma SelectsOneMore(rows: seq<Picked>, row: Picked, id: nat)
    ensures Selects(rows + [row], id) <==> Selects(rows, id) || id == row.id
  {
    if Selects(rows, id) {
      var i :| 0 <= i < |rows| && rows[i].id == id;
      assert (rows + [row])[i].id == id;
    } else if id == row.id {
      assert (rows + [row])[|rows|].id == id;
    }
  }

  /** The SELECT of `publish_batch`. */
  method SelectDue(db: Tables, now: int, limit: int) returns (rows: seq<Picked>)
    ensures IsBatch(db, now, limit, rows)
  {
    var rest := set id | id in db.outbox.Keys && Due(db, id, now);
    rows := [];
    while rest != {} && |rows| != limit
      invariant limit >= 0 ==> |rows| <= limit
      invariant Selecting(db, now, rows, rest)
      decreases |rest|
    {
      ghost var candidate := FirstExists(db, rest);
      var first :| first in rest && forall x :: x in rest && x != first ==> Before(db, first, x);
      var row := Picked(first, db.outbox[first].attempts, Baseline(db, first));
      SelectsNext(db, now, rows, rest, row);
      rows, rest := rows + [row], rest - {first};
    }
  }

  /** Of the due events `rows` are selected and `rest` are left, all of them after `rows`. */
  ghost predicate Selecting(db: Tables, now: int, rows: seq<Picked>, rest: set<nat>) {
    && rest <= db.outbox.Keys && (forall id :: id in rest ==> Due(db, id, now))
    && (forall id :: Due(db, id, now) && !Selects(rows, id) ==> id in rest)
    && (forall i :: 0 <= i < |rows| ==> Matches(db, rows[i]) && Due(db, rows[i].id, now))
    && (forall i, j :: 0 <= i < j < |rows| ==> Before(db, rows[i].id, rows[j].id))
    && (forall i, id :: 0 <= i < |rows| && id in rest ==> Before(db, rows[i].id, id))
  }

  lemma SelectsNext(db: Tables, now: int, rows: seq<Picked>, rest: set<nat>, row: Picked)
    requires Selecting(db, now, rows, rest) && row.id in rest && Matches(db, row)
    requires forall x :: x in rest && x != row.id ==> Before(db, row.id, x)
    ensures Selecting(db, now, rows + [row], rest - {row.id})
  {
    var more, fewer := rows + [row], rest - {row.id};
    forall id ensures Selects(more, id) <==> Selects(rows, id) || id == row.id {
      SelectsOneMore(rows, row, id);
    }
    forall i, id | 0 <= i < |more| && id in fewer ensures Before(db, more[i].id, id) {
      assert id in rest && id != row.id;
      assert i < |rows| ==> more[i] == rows[i];
    }
  }

  // ---- The batch ----

  /** The commits of a batch, one after another. */
  function SettledAll(p: Policy, db: Tables, rows: seq<Picked>, outcomes: seq<Outcome>, now: int,
                      stamps: seq<int>): (r: Tables)
    requires |rows| == |outcomes| == |stamps|
    requires forall i :: 0 <= i < |rows| ==> rows[i].id in db.outbox
    ensures r.outbox.Keys == db.outbox.Keys
  {
    if rows == [] then db
    else
      var n := |rows| - 1;
      Settled(p, SettledAll(p, db, rows[..n], outcomes[..n], now, stamps[..n]), rows[n], outcomes[n], now, stamps[n])
  }

  function Failures(outcomes: seq<Outcome>): nat {
    if outcomes == [] then 0
    else Failures(outcomes[..|outcomes| - 1]) + if outcomes[|outcomes| - 1].Refused? then 1 else 0
  }

  /** Whether a refused send spends the last attempt of the cycle. */
  predicate Exhausts(p: Policy, row: Picked) { row.attempts + 1 - row.baseline >= p.maxAttempts }

  function DeadLetters(p: Policy, rows: seq<Picked>, outcomes: seq<Outcome>): nat
    requires |rows| == |outcomes|
  {
    if rows == [] then 0
    else
      var n := |rows| - 1;
      DeadLetters(p, rows[..n], outcomes[..n]) + if outcomes[n].Refused? && Exhausts(p, rows[n]) then 1 else 0
  }

  /** The counters of the loop. */
  predicate Tallies(p: Policy, rows: seq<Picked>, outcomes: seq<Outcome>, delivered: nat, failed: nat, dead: nat) {
    |outcomes| == |rows| == delivered + failed && failed == Failures(outcomes) && dead == DeadLetters(p, rows, outcomes)
  }

  /** As many sends as there are outcomes are committed. */
  ghost predicate Committed(p: Policy, db: Tables, rows: seq<Picked>, outcomes: seq<Outcome>, now: int,
                            stamps: seq<int>, tables: Tables) {
    && |outcomes| <= |rows| == |stamps| && (forall i :: 0 <= i < |rows| ==> rows[i].id in db.outbox)
    && tables == SettledAll(p, db, rows[..|outcomes|], outcomes, now, stamps[..|outcomes|])
  }

  /** How the specification of a batch grows by one send. */
  lemma OneMoreSend(p: Policy, db: Tables, rows: seq<Picked>, outcomes: seq<Outcome>, outcome: Outcome, now: int,
                    stamps: seq<int>, tables: Tables)
    requires Committed(p, db, rows, outcomes, now, stamps, tables) && |outcomes| < |rows|
    ensures rows[|outcomes|].id in tables.outbox
    ensures var i := |outcomes|;
            Committed(p, db, rows, outcomes + [outcome], now, stamps,
                      Settled(p, tables, rows[i], outcome, now, stamps[i]))
  {
    var i := |outcomes|;
    assert rows[..i + 1][..i] == rows[..i] && stamps[..i + 1][..i] == stamps[..i];
    assert (outcomes + [outcome])[..i] == outcomes;
  }

  lemma AllCommitted(p: Policy, db: Tables, rows: seq<Picked>, outcomes: seq<Outcome>, now: int, stamps: seq<int>,
                     tables: Tables)
    requires Committed(p, db, rows, outcomes, now, stamps, tables) && |outcomes| == |rows|
    ensures tables == SettledAll(p, db, rows, outcomes, now, stamps)
  {
    assert rows[..|rows|] == rows && stamps[..|rows|] == stamps;
  }

  lemma OneMoreTally(p: Policy, rows: seq<Picked>, outcomes: seq<Outcome>, outcome: Outcome, delivered: nat,
                     failed: nat, dead: nat)
    requires |outcomes| < |rows| && Tallies(p, rows[..|outcomes|], outcomes, delivered, failed, dead)
    ensures var i := |outcomes|;
            Tallies(p, rows[..i + 1], outcomes + [outcome], if outcome.Refused? then delivered else delivered + 1,
                    if outcome.Refused? then failed + 1 else failed,
                    if outcome.Refused? && Exhausts(p, rows[i]) then dead + 1 else dead)
  {
    var i := |outcomes|;
    assert rows[..i + 1][..i] == rows[..i] && (outcomes + [outcome])[..i] == outcomes;
  }

  class OutboxPublisher {
    const store: Store
    const policy: Policy

    constructor (store: Store, policy: Policy)
      requires ValidPolicy(policy)
      ensures this.store == store && this.policy == policy
    {
      this.store := store;
      this.policy := policy;
    }

    /** `publish_batch`: `sender` is the answer to the i-th send, `clock` the i-th reading of
        `utc_now`. The counters add up, and the tables end as the batch's commits leave them. */
    method PublishBatch(now: int, limit: int, sender: (nat, Envelope) -> Outcome, clock: nat -> int)
      returns (selected: nat, delivered: nat, failed: nat, deadLettered: nat,
               rows: seq<Picked>, outcomes: seq<Outcome>)
      modifies store
      ensures IsBatch(old(store.tables), now, limit, rows)
      ensures |outcomes| == |rows| == selected
      ensures forall i :: 0 <= i < |rows| ==>
                            outcomes[i] == sender(i, old(store.tables).outbox[rows[i].id].envelope)
      ensures store.tables == SettledAll(policy, old(store.tables), rows, outcomes, now, seq(|rows|, clock))
      ensures selected == delivered + failed && failed == Failures(outcomes)
      ensures deadLettered == DeadLetters(policy, rows, outcomes)
    {
      rows := SelectDue(store.tables, now, limit);
      outcomes, delivered, failed, deadLettered := SendAll(rows, now, sender, clock);
      selected := |rows|;
    }

    /** The loop over the snapshot: send, commit what came of it, count. */
    method SendAll(rows: seq<Picked>, now: int, sender: (nat, Envelope) -> Outcome, clock: nat -> int)
      returns (outcomes: seq<Outcome>, delivered: nat, failed: nat, deadLettered: nat)
      requires forall i :: 0 <= i < |rows| ==> rows[i].id in store.tables.outbox
      modifies store
      ensures |outcomes| == |rows| == delivered + failed && failed == Failures(outcomes)
      ensures forall i :: 0 <= i < |rows| ==>
                            outcomes[i] == sender(i, old(store.tables).outbox[rows[i].id].envelope)
      ensures store.tables == SettledAll(policy, old(store.tables), rows, outcomes, now, seq(|rows|, clock))
      ensures deadLettered == DeadLetters(policy, rows, outcomes)
    {
      var db := store.tables;
      var stamps := seq(|rows|, clock);
      outcomes, delivered, failed, deadLettered := [], 0, 0, 0;
      for i := 0 to |rows|
        invariant |outcomes| == i && Tallies(policy, rows[..i], outcomes, delivered, failed, deadLettered)
        invariant forall k :: 0 <= k < i ==> outcomes[k] == sender(k, db.outbox[rows[k].id].envelope)
        invariant Committed(policy, db, rows, outcomes, now, stamps, store.tables)
      {
        var outcome := sender(i, db.outbox[rows[i].id].envelope);
        OneMoreSend(policy, db, rows, outcomes, outcome, now, stamps, store.tables);
        OneMoreTally(policy, rows, outcomes, outcome, delivered, failed, deadLettered);
        if outcome.Refused? {
          failed := failed + 1;
          if Exhausts(policy, rows[i]) {
            deadLettered := deadLettered + 1;
          }
        } else {
          delivered := delivered + 1;
        }
        store.tables := Settled(policy, store.tables, rows[i], outcome, now, stamps[i]);
        outcomes := outcomes + [outcome];
      }
      AllCommitted(policy, db, rows, outcomes, now, stamps, store.tables);
      assert rows[..|rows|] == rows;
    }
  }

  // ---- The object refines the machine ----

  function FailedAll(failedAt: map<nat, int>, rows: seq<Picked>, outcomes: seq<Outcome>, now: int): map<nat, int>
    requires |rows| == |outcomes|
  {
    if rows == [] then failedAt
    else
      var n := |rows| - 1;
      var before := FailedAll(failedAt, rows[..n], outcomes[..n], now);
      if outcomes[n].Refused? then before[rows[n].id := now] else before
  }

  /** The machine's state after the first `n` sends of its batch, in terms of `SettledAll`. */
  function MidBatch(p: Policy, m: State, outcomes: seq<Outcome>, stamps: seq<int>, n: nat): State
    requires n <= |m.batch| == |outcomes| == |stamps|
    requires forall i :: 0 <= i < |m.batch| ==> m.batch[i].id in m.db.outbox
  {
    m.(db := SettledAll(p, m.db, m.batch[..n], outcomes[..n], m.clock, stamps[..n]), batch := m.batch[n..],
       failedAt := FailedAll(m.failedAt, m.batch[..n], outcomes[..n], m.clock))
  }

  lemma MidBatchStep(c: Codec, p: Policy, m: State, outcomes: seq<Outcome>, stamps: seq<int>, n: nat)
    requires n < |m.batch| == |outcomes| == |stamps|
    requires forall i :: 0 <= i < |m.batch| ==> m.batch[i].id in m.db.outbox
    ensures var mid, step := MidBatch(p, m, outcomes, stamps, n), Settle(outcomes[n], stamps[n]);
            Enabled(c, mid, step) && Apply(c, p, mid, step) == MidBatch(p, m, outcomes, stamps, n + 1)
  {
    assert m.batch[..n + 1][..n] == m.batch[..n] && outcomes[..n + 1][..n] == outcomes[..n];
    assert stamps[..n + 1][..n] == stamps[..n];
    assert m.batch[n..][1..] == m.batch[n + 1..];
  }

  /** What `PublishBatch` computes after each send is a state of the machine, one `Settle` step
      after another, so whatever holds of the machine's runs holds of the loop. */
  lemma {:induction false} BatchRefinesMachine(c: Codec, p: Policy, m: State, outcomes: seq<Outcome>,
                                               stamps: seq<int>, n: nat)
    requires RetryInv(p, m) && ValidPolicy(p) && n <= |m.batch| == |outcomes| == |stamps|
    ensures forall i :: 0 <= i < |m.batch| ==> m.batch[i].id in m.db.outbox
    ensures RetryInv(p, MidBatch(p, m, outcomes, stamps, n))
    ensures n < |m.batch| ==>
              var mid, step := MidBatch(p, m, outcomes, stamps, n), Settle(outcomes[n], stamps[n]);
              Enabled(c, mid, step) && Apply(c, p, mid, step) == MidBatch(p, m, outcomes, stamps, n + 1)
  {
    assert forall i :: 0 <= i < |m.batch| ==> Matches(m.db, m.batch[i]);
    if n == 0 {
      assert MidBatch(p, m, outcomes, stamps, 0) == m;
    } else {
      BatchRefinesMachine(c, p, m, outcomes, stamps, n - 1);
      SettleKeepsRetry(c, p, MidBatch(p, m, outcomes, stamps, n - 1), Settle(outcomes[n - 1], stamps[n - 1]));
    }
    if n < |m.batch| {
      MidBatchStep(c, p, m, outcomes, stamps, n);
    }
  }

  // ---- Dead letters ----

  datatype RequeueAnswer = BackToPending(run: string) | NotFound | Conflict

  class DeadLetterOffice {
    const ledger: EvidenceLedger

    constructor (ledger: EvidenceLedger)
      ensures this.ledger == ledger
    {
      this.ledger := ledger;
    }

    /** `requeue_dead_letter`: only a dead letter of this tenant goes back to PENDING, with its
        attempts kept as the new baseline, and the requeue itself becomes an event of the run.
        `e` carries the fresh id, the actor and the time of that event. */
    method RequeueDeadLetter(tenant: string, id: nat, e: Entry) returns (answer: RequeueAnswer)
      requires Stable(ledger.codec) && MirrorInv(ledger.codec, ledger.store.tables)
               && e.id !in ledger.store.tables.outbox
      modifies ledger.store
      ensures MirrorInv(ledger.codec, ledger.store.tables)
      ensures answer.NotFound?
              <==> !(id in old(ledger.store.tables).outbox && old(ledger.store.tables).outbox[id].tenant == tenant)
      ensures answer.BackToPending? <==> Requeueable(old(ledger.store.tables), tenant, id)
      ensures !answer.BackToPending? ==> ledger.store.tables == old(ledger.store.tables)
      ensures answer.BackToPending? ==>
                var db, row := old(ledger.store.tables), old(ledger.store.tables).outbox[id];
                var event := Announcement(e, row);
                && NextSequence(Requeued(db, id), event) >= 0
                && ledger.store.tables == Appended(ledger.codec, Requeued(db, id), event)
                && |ledger.store.tables.evidence| == |db.evidence| + 1
    {
      var db := ledger.store.tables;
      if id !in db.outbox || db.outbox[id].tenant != tenant {
        return NotFound;
      }
      var row := db.outbox[id];
      if row.status != DEAD_LETTER {
        return Conflict;
      }
      ledger.store.tables := db.(
        outbox := db.outbox[id := row.(status := PENDING, lastError := None, deliveredAt := None)],
        delivery := db.delivery - {id},
        baseline := db.baseline[id := row.attempts]);
      RequeueKeepsMirror(ledger.codec, db, id, e);
      var record := ledger.Append(Announcement(e, row));
      return BackToPending(row.run);
    }
  }

  function Announcement(e: Entry, row: OutboxRow): Entry {
    e.(tenant := row.tenant, run := row.run, eventType := "siem.dead_letter.requeued")
  }

  /** The event's run is known, so the announcement cannot be lost. */
  lemma RequeueKeepsMirror(c: Codec, db: Tables, id: nat, e: Entry)
    requires Stable(c) && MirrorInv(c, db) && id in db.outbox && db.outbox[id].status == DEAD_LETTER
             && e.id !in db.outbox
    ensures var db', event := Requeued(db, id), Announcement(e, db.outbox[id]);
            && LedgerOk(c, db') && event.run in db'.runs && db'.runs[event.run].tenant == event.tenant
            && NextSequence(db', event) >= 0 && MirrorInv(c, Appended(c, db', event))
  {
    var i :| 0 <= i < |db.evidence| && db.evidence[i].id == id;
    assert RowMirrored(c, db, i);
    StableKeepsMirror(c, db, Requeued(db, id));
    SequenceCounts(c, Requeued(db, id), Announcement(e, db.outbox[id]));
    AppendKeepsMirror(c, Requeued(db, id), Announcement(e, db.outbox[id]));
  }
}
