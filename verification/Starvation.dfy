/** No starvation in the outbox: an event can be passed over only as often as the retry
    budgets of the events before it allow. */
module Starvation {
  import opened Domain
  import opened Ledger
  import opened Outbox

  /** The sends an event may still get in its current cycle. */
  function Budget(p: Policy, db: Tables, id: nat): int {
    if id in db.outbox && db.outbox[id].status == PENDING
    then p.maxAttempts - (db.outbox[id].attempts - Baseline(db, id)) else 0
  }

  function TotalBudget(p: Policy, db: Tables, ids: seq<nat>): int {
    if ids == [] then 0 else Budget(p, db, ids[0]) + TotalBudget(p, db, ids[1..])
  }

  function Ids(rows: seq<Picked>): set<nat> { set i | 0 <= i < |rows| :: rows[i].id }

  /** The events of `ids` that the publisher has picked and not yet settled. */
  function InFlight(m: State, ids: seq<nat>): set<nat> { Ids(m.batch) * (set i | 0 <= i < |ids| :: ids[i]) }

  /** Budgets not yet spoken for: a picked event has one send reserved. */
  function Potential(p: Policy, m: State, ids: seq<nat>): int { TotalBudget(p, m.db, ids) - |InFlight(m, ids)| }

  // ---- Budgets ----

  lemma BudgetOfPending(p: Policy, m: State, id: nat)
    requires EventsOk(p, m)
    ensures Budget(p, m.db, id) >= 0
    ensures id in m.db.outbox && m.db.outbox[id].status == PENDING ==> Budget(p, m.db, id) >= 1
  {
    if id in m.db.outbox {
      assert EventAt(p, m, id);
    }
  }

  lemma {:induction false} TotalsCompare(p: Policy, db: Tables, db': Tables, ids: seq<nat>)
    requires forall id :: id in ids ==> Budget(p, db', id) <= Budget(p, db, id)
    ensures TotalBudget(p, db', ids) <= TotalBudget(p, db, ids)
  {
    if ids != [] {
      TotalsCompare(p, db, db', ids[1..]);
    }
  }

  /** If one listed budget shrinks and the others do not grow, the total shrinks. */
  lemma {:induction false} TotalsShrink(p: Policy, db: Tables, db': Tables, ids: seq<nat>, x: nat)
    requires forall id :: id in ids ==> Budget(p, db', id) <= Budget(p, db, id)
    requires x in ids && Budget(p, db', x) < Budget(p, db, x)
    ensures TotalBudget(p, db', ids) < TotalBudget(p, db, ids)
  {
    if ids[0] == x {
      TotalsCompare(p, db, db', ids[1..]);
    } else {
      assert x in ids[1..];
      TotalsShrink(p, db, db', ids[1..], x);
    }
  }

  /** A set of listed events with a send left each weighs at most the total. */
  lemma {:induction false} TotalCovers(p: Policy, m: State, ids: seq<nat>, picked: set<nat>)
    requires EventsOk(p, m) && (forall id :: id in picked ==> id in ids && Budget(p, m.db, id) >= 1)
    ensures |picked| <= TotalBudget(p, m.db, ids)
  {
    if ids == [] {
      assert picked == {};
    } else {
      BudgetOfPending(p, m, ids[0]);
      var rest := picked - {ids[0]};
      forall id | id in rest ensures id in ids[1..] {
        assert id in ids && id != ids[0];
      }
      TotalCovers(p, m, ids[1..], rest);
      assert |picked| <= |rest| + 1 && (ids[0] !in picked ==> rest == picked);
    }
  }

  lemma PotentialIsNatural(p: Policy, m: State, ids: seq<nat>)
    requires RetryInv(p, m)
    ensures Potential(p, m, ids) >= 0
  {
    forall id | id in InFlight(m, ids) ensures id in ids && Budget(p, m.db, id) >= 1 {
      var i :| 0 <= i < |m.batch| && m.batch[i].id == id;
      assert Matches(m.db, m.batch[i]);
      BudgetOfPending(p, m, id);
    }
    TotalCovers(p, m, ids, InFlight(m, ids));
  }

  // ---- Steps ----

  lemma SettleSpends(c: Codec, p: Policy, m: State, step: Step)
    requires ValidPolicy(p) && RetryInv(p, m) && step.Settle? && Enabled(c, m, step)
    ensures var m', x := Apply(c, p, m, step), m.batch[0].id;
            && Budget(p, m'.db, x) < Budget(p, m.db, x)
            && forall id :: id != x ==> Budget(p, m'.db, id) == Budget(p, m.db, id)
  {
    var row := m.batch[0];
    assert Matches(m.db, row);
    BudgetOfPending(p, m, row.id);
    SettledAt(p, m.db, row, step.outcome, m.clock, step.stamp);
    SettleTouchesOne(p, m.db, row, step.outcome, m.clock, step.stamp);
    var db' := Settled(p, m.db, row, step.outcome, m.clock, step.stamp);
    assert Baseline(db', row.id) == if step.outcome.Sent? then 0 else Baseline(m.db, row.id) by {
      assert Lookup(db'.baseline, row.id) == if step.outcome.Sent? then None else Lookup(m.db.baseline, row.id);
    }
    forall id | id != row.id ensures Budget(p, db', id) == Budget(p, m.db, id) {
      assert Lookup(db'.outbox, id) == Lookup(m.db.outbox, id) && Lookup(db'.baseline, id) == Lookup(m.db.baseline, id);
    }
  }

  lemma SettleKeepsPotential(c: Codec, p: Policy, m: State, step: Step, ids: seq<nat>)
    requires ValidPolicy(p) && RetryInv(p, m) && step.Settle? && Enabled(c, m, step)
    ensures Potential(p, Apply(c, p, m, step), ids) <= Potential(p, m, ids)
  {
    var m', x := Apply(c, p, m, step), m.batch[0].id;
    SettleSpends(c, p, m, step);
    forall id ensures id in Ids(m'.batch) <==> id in Ids(m.batch) && id != x {
      if id in Ids(m.batch) && id != x {
        var i :| 0 <= i < |m.batch| && m.batch[i].id == id;
        assert m'.batch[i - 1].id == id;
      }
      if i :| 0 <= i < |m'.batch| && m'.batch[i].id == id {
        assert m.batch[i + 1].id == id && m.batch[0].id != m.batch[i + 1].id;
      }
    }
    assert InFlight(m', ids) == InFlight(m, ids) - {x};
    if x in ids {
      TotalsShrink(p, m.db, m'.db, ids, x);
    } else {
      TotalsCompare(p, m.db, m'.db, ids);
    }
  }

  lemma {:induction false} DistinctIds(rows: seq<Picked>)
    requires forall i, j :: 0 <= i < j < |rows| ==> rows[i].id != rows[j].id
    ensures |Ids(rows)| == |rows|
  {
    if rows != [] {
      var n := |rows| - 1;
      DistinctIds(rows[..n]);
      forall id ensures id in Ids(rows) <==> id in Ids(rows[..n]) || id == rows[n].id {
        if i :| 0 <= i < |rows| && rows[i].id == id {
          assert i < n ==> rows[..n][i].id == id;
        }
        if i :| 0 <= i < n && rows[..n][i].id == id {
          assert rows[i].id == id;
        }
      }
      assert rows[n].id !in Ids(rows[..n]);
      assert Ids(rows) == Ids(rows[..n]) + {rows[n].id};
    }
  }

  /** The event is due, and the snapshot leaves it out. */
  ghost predicate PassesOver(m: State, step: Step, e: nat) {
    step.Pick? && Due(m.db, e, step.now) && !Selects(step.rows, e)
  }

  /** Passing an event over reserves a send of `limit` events that come before it. */
  lemma PassingOverReserves(c: Codec, p: Policy, m: State, step: Step, e: nat, ids: seq<nat>)
    requires RetryInv(p, m) && Enabled(c, m, step) && PassesOver(m, step, e) && step.limit >= 0
    requires forall id :: Before(m.db, id, e) ==> id in ids
    ensures Potential(p, Apply(c, p, m, step), ids) == Potential(p, m, ids) - step.limit
  {
    var m' := Apply(c, p, m, step);
    assert |step.rows| == step.limit && forall i :: 0 <= i < |step.rows| ==> Before(m.db, step.rows[i].id, e);
    assert forall i, j :: 0 <= i < j < |step.rows| ==> Before(m.db, step.rows[i].id, step.rows[j].id);
    DistinctIds(step.rows);
    forall id | id in Ids(step.rows) ensures id in ids {
    }
    assert InFlight(m', ids) == Ids(step.rows);
    assert InFlight(m, ids) == {};
  }

  /** Steps other than requeues and crashes never create budget for old events. */
  lemma StepKeepsPotential(c: Codec, p: Policy, m: State, step: Step, ids: seq<nat>)
    requires ValidPolicy(p) && RetryInv(p, m) && Enabled(c, m, step) && !step.Requeue? && !step.Crash?
    requires forall id :: id in ids ==> id in m.db.outbox
    ensures Potential(p, Apply(c, p, m, step), ids) <= Potential(p, m, ids)
  {
    var m' := Apply(c, p, m, step);
    if step.Settle? {
      SettleKeepsPotential(c, p, m, step, ids);
    } else {
      TotalsCompare(p, m.db, m'.db, ids);
      if step.Pick? {
        assert InFlight(m, ids) == {};
      }
    }
  }

  // ---- The bound ----

  /** How many of the steps from `a` to `b` pass over the event. */
  ghost function PassedOver(states: seq<State>, steps: seq<Step>, e: nat, a: nat, b: nat): nat
    requires a <= b <= |steps| && |states| == |steps| + 1
    decreases b - a
  {
    if a == b then 0
    else PassedOver(states, steps, e, a, b - 1) + if PassesOver(states[b - 1], steps[b - 1], e) then 1 else 0
  }

  /** Step `k` is neither a requeue nor a crash, its snapshot has the limit, and all events
      before `e` are older than the watch. */
  ghost predicate CalmStep(states: seq<State>, steps: seq<Step>, e: nat, limit: nat, a: nat, k: nat)
    requires a <= k < |steps| && |states| == |steps| + 1
  {
    && !steps[k].Requeue? && !steps[k].Crash? && (steps[k].Pick? ==> steps[k].limit == limit)
    && forall id :: Before(states[k].db, id, e) ==> id in states[a].db.outbox
  }

  ghost predicate Undisturbed(states: seq<State>, steps: seq<Step>, e: nat, limit: nat, a: nat, b: nat)
    requires a <= b <= |steps| && |states| == |steps| + 1
  {
    forall k :: a <= k < b ==> CalmStep(states, steps, e, limit, a, k)
  }

  /** What comes before `e` now came before it then. */
  lemma OldOrderHolds(old0: Tables, db: Tables, e: nat, earlier: seq<nat>)
    requires OutboxStable(old0, db) && e in old0.outbox
    requires forall id :: id in earlier <==> Before(old0, id, e)
    requires forall id :: Before(db, id, e) ==> id in old0.outbox
    ensures forall id :: id in earlier ==> id in db.outbox
    ensures forall id :: Before(db, id, e) ==> id in earlier
  {
    forall id | Before(db, id, e) ensures id in earlier {
      assert RowStable(old0.outbox[id], db.outbox[id]) && RowStable(old0.outbox[e], db.outbox[e]);
    }
    forall id | id in earlier ensures id in db.outbox {
      assert Before(old0, id, e);
    }
  }

  /** The events before `e` when the watch starts. */
  ghost predicate Watches(states: seq<State>, e: nat, earlier: seq<nat>, a: nat)
    requires a < |states|
  {
    e in states[a].db.outbox && forall id :: id in earlier <==> Before(states[a].db, id, e)
  }

  /** Step `k` lowers the potential by `limit` if it passes over the event, and never raises it. */
  ghost predicate Spends(p: Policy, states: seq<State>, steps: seq<Step>, e: nat, earlier: seq<nat>, limit: nat, k: nat)
    requires k < |steps| && |states| == |steps| + 1
  {
    Potential(p, states[k + 1], earlier)
    <= Potential(p, states[k], earlier) - if PassesOver(states[k], steps[k], e) then limit else 0
  }

  lemma WatchedStep(c: Codec, p: Policy, states: seq<State>, steps: seq<Step>, e: nat, earlier: seq<nat>,
                    limit: nat, a: nat, k: nat)
    requires IsRun(c, p, states, steps) && a <= k < |steps| && Watches(states, e, earlier, a)
    requires CalmStep(states, steps, e, limit, a, k)
    ensures Spends(p, states, steps, e, earlier, limit, k)
  {
    var m, step := states[k], steps[k];
    RetryArithmetic(c, p, states, steps, k);
    EventsAreStable(c, p, states, steps, a, k);
    assert Enabled(c, m, step) && states[k + 1] == Apply(c, p, m, step);
    OldOrderHolds(states[a].db, m.db, e, earlier);
    if PassesOver(m, step, e) {
      PassingOverReserves(c, p, m, step, e, earlier);
    } else {
      StepKeepsPotential(c, p, m, step, earlier);
    }
  }

  function Times(limit: nat, n: nat): nat { if n == 0 then 0 else Times(limit, n - 1) + limit }

  lemma {:induction false} TimesIsProduct(limit: nat, n: nat)
    ensures Times(limit, n) == limit * n
  {
    if n > 0 {
      TimesIsProduct(limit, n - 1);
    }
  }

  lemma {:induction false} SpendingAddsUp(p: Policy, states: seq<State>, steps: seq<Step>, e: nat, earlier: seq<nat>,
                                          limit: nat, a: nat, b: nat)
    requires a <= b <= |steps| && |states| == |steps| + 1
    requires forall k :: a <= k < b ==> Spends(p, states, steps, e, earlier, limit, k)
    ensures Times(limit, PassedOver(states, steps, e, a, b)) + Potential(p, states[b], earlier)
            <= Potential(p, states[a], earlier)
    decreases b - a
  {
    if a < b {
      SpendingAddsUp(p, states, steps, e, earlier, limit, a, b - 1);
      assert Spends(p, states, steps, e, earlier, limit, b - 1);
    }
  }

  /** The number of snapshots that pass over a due event, times the limit, is at most the retry
      budget left to the events before it when the watch starts. */
  lemma NoStarvation(c: Codec, p: Policy, states: seq<State>, steps: seq<Step>, e: nat, earlier: seq<nat>,
                     limit: nat, a: nat, b: nat)
    requires IsRun(c, p, states, steps) && a <= b <= |steps| && Watches(states, e, earlier, a)
    requires Undisturbed(states, steps, e, limit, a, b)
    ensures limit * PassedOver(states, steps, e, a, b) <= TotalBudget(p, states[a].db, earlier)
  {
    forall k | a <= k < b ensures Spends(p, states, steps, e, earlier, limit, k) {
      assert CalmStep(states, steps, e, limit, a, k);
      WatchedStep(c, p, states, steps, e, earlier, limit, a, k);
    }
    SpendingAddsUp(p, states, steps, e, earlier, limit, a, b);
    RetryArithmetic(c, p, states, steps, b);
    PotentialIsNatural(p, states[b], earlier);
    TimesIsProduct(limit, PassedOver(states, steps, e, a, b));
  }
}
