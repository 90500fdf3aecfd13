/** The outbox mirrors the evidence: same ids, and every stored envelope is the one that
    `export_events` rebuilds from the ledger. */
module OutboxMirror {
  import opened Domain
  import opened Ledger
  import opened Outbox

  ghost predicate RowMirrored(c: Codec, db: Tables, i: int)
    requires 0 <= i < |db.evidence|
  {
    var e := db.evidence[i];
    && e.id in db.outbox && e.run in db.runs && e.sequence >= 1
    && db.outbox[e.id].envelope == Exported(c, db.runs[e.run], Parsed(c, e))
    && db.outbox[e.id].tenant == e.tenant && db.outbox[e.id].run == e.run && db.outbox[e.id].createdAt == e.at
  }

  ghost predicate IdsDistinct(rows: seq<Evidence<string>>) {
    forall i, j :: 0 <= i < j < |rows| ==> rows[i].id != rows[j].id
  }

  ghost predicate Mirrors(c: Codec, db: Tables) {
    && IdsDistinct(db.evidence)
    && (forall i :: 0 <= i < |db.evidence| ==> RowMirrored(c, db, i))
    && (forall id :: id in db.outbox ==> exists i :: 0 <= i < |db.evidence| && db.evidence[i].id == id)
  }

  ghost predicate MirrorInv(c: Codec, db: Tables) { LedgerOk(c, db) && Mirrors(c, db) }

  /** The new record is mirrored by its own envelope, because canonical text is stable. */
  lemma NewRowMirrored(c: Codec, db: Tables, e: Entry)
    requires Stable(c) && NextSequence(db, e) >= 1 && e.run in db.runs && db.runs[e.run].tenant == e.tenant
    ensures RowMirrored(c, Appended(c, db, e), |db.evidence|)
  {
    assert Canonical(c, c.encode(e.payload));
  }

  lemma OldRowMirrored(c: Codec, db: Tables, e: Entry, i: nat)
    requires NextSequence(db, e) >= 0 && e.id !in db.outbox && i < |db.evidence| && RowMirrored(c, db, i)
    ensures Appended(c, db, e).evidence[i] == db.evidence[i] && RowMirrored(c, Appended(c, db, e), i)
  {
  }

  lemma AppendKeepsIds(c: Codec, db: Tables, e: Entry)
    requires Mirrors(c, db) && NextSequence(db, e) >= 0 && e.id !in db.outbox
    ensures IdsDistinct(Appended(c, db, e).evidence)
  {
    var rows := Appended(c, db, e).evidence;
    forall i, j | 0 <= i < j < |rows| ensures rows[i].id != rows[j].id {
      assert RowMirrored(c, db, i);
      assert j < |db.evidence| ==> rows[j] == db.evidence[j];
    }
  }

  lemma AppendIsOnto(c: Codec, db: Tables, e: Entry, id: nat)
    requires Mirrors(c, db) && NextSequence(db, e) >= 0 && id in Appended(c, db, e).outbox
    ensures exists i :: 0 <= i < |Appended(c, db, e).evidence| && Appended(c, db, e).evidence[i].id == id
  {
    var rows := Appended(c, db, e).evidence;
    if id in db.outbox {
      var i :| 0 <= i < |db.evidence| && db.evidence[i].id == id;
      assert rows[i].id == id;
    } else {
      assert rows[|db.evidence|].id == id;
    }
  }

  lemma AppendKeepsMirror(c: Codec, db: Tables, e: Entry)
    requires Stable(c) && MirrorInv(c, db) && NextSequence(db, e) >= 0 && e.id !in db.outbox
    ensures MirrorInv(c, Appended(c, db, e))
  {
    var db' := Appended(c, db, e);
    AppendKeepsLedger(c, db, e);
    SequenceCounts(c, db, e);
    AppendKeepsIds(c, db, e);
    forall i | 0 <= i < |db'.evidence| ensures RowMirrored(c, db', i) {
      if i < |db.evidence| {
        OldRowMirrored(c, db, e, i);
      } else {
        NewRowMirrored(c, db, e);
      }
    }
    forall id | id in db'.outbox ensures exists i :: 0 <= i < |db'.evidence| && db'.evidence[i].id == id {
      AppendIsOnto(c, db, e, id);
    }
  }

  /** Commits that leave the evidence alone and keep every envelope keep the mirror. */
  lemma StableKeepsMirror(c: Codec, db: Tables, db': Tables)
    requires MirrorInv(c, db) && OutboxStable(db, db') && db'.outbox.Keys == db.outbox.Keys
    requires db'.evidence == db.evidence
    requires forall run :: run in db.runs ==> run in db'.runs && db'.runs[run] == db.runs[run]
    ensures MirrorInv(c, db')
  {
    forall i | 0 <= i < |db'.evidence| ensures RowMirrored(c, db', i) {
      assert RowMirrored(c, db, i);
    }
    forall id | id in db'.outbox ensures exists i :: 0 <= i < |db'.evidence| && db'.evidence[i].id == id {
      assert id in db.outbox;
    }
  }

  lemma StepKeepsMirror(c: Codec, p: Policy, m: State, step: Step)
    requires Stable(c) && MirrorInv(c, m.db) && BatchOk(m) && Enabled(c, m, step)
    ensures MirrorInv(c, Apply(c, p, m, step).db)
  {
    if step.Append? {
      AppendKeepsMirror(c, m.db, step.e);
    } else {
      StepIsStable(c, p, m, step);
      if step.Settle? {
        SettleTouchesOne(p, m.db, m.batch[0], step.outcome, m.clock, step.stamp);
      }
      StableKeepsMirror(c, m.db, Apply(c, p, m, step).db);
    }
  }

  /** In every reachable state the outbox and the evidence are in bijection by id, every chain
      verifies, and each stored envelope equals the exported one. */
  lemma {:induction false} OutboxMirrorsEvidence(c: Codec, p: Policy, states: seq<State>, steps: seq<Step>, n: nat)
    requires IsRun(c, p, states, steps) && n < |states|
    ensures MirrorInv(c, states[n].db)
  {
    if n > 0 {
      OutboxMirrorsEvidence(c, p, states, steps, n - 1);
      RetryArithmetic(c, p, states, steps, n - 1);
      assert states[n - 1 + 1] == Apply(c, p, states[n - 1], steps[n - 1]);
      StepKeepsMirror(c, p, states[n - 1], steps[n - 1]);
    }
  }

  // ---- Idempotency keys are unique ----

  lemma {:induction false} RowsOfPrefix(rows: seq<Evidence<string>>, n: nat, tenant: string, run: string)
    requires n <= |rows|
    ensures RowsOf(rows[..n], tenant, run) <= RowsOf(rows, tenant, run)
  {
    if n == |rows| {
      assert rows[..n] == rows;
    } else {
      assert rows[..|rows| - 1][..n] == rows[..n];
      RowsOfPrefix(rows[..|rows| - 1], n, tenant, run);
    }
  }

  /** A record's sequence number is its position among the records of its run. */
  lemma SequenceIsPosition(c: Codec, db: Tables, i: nat)
    requires LedgerOk(c, db) && i < |db.evidence|
    ensures db.evidence[i].sequence == |RowsOf(db.evidence[..i + 1], db.evidence[i].tenant, db.evidence[i].run)|
  {
    var e := db.evidence[i];
    var upTo, all := RowsOf(db.evidence[..i + 1], e.tenant, e.run), RowsOf(db.evidence, e.tenant, e.run);
    assert db.evidence[..i + 1] == db.evidence[..i] + [e];
    RowsOfGrows(db.evidence[..i], e, e.tenant, e.run);
    RowsOfPrefix(db.evidence, i + 1, e.tenant, e.run);
    assert ChainedRows(c, all) && RowChained(c, all, |upTo| - 1);
    assert all[|upTo| - 1] == upTo[|upTo| - 1] == e;
  }

  /** No two events share an idempotency key, across all runs and tenants. */
  lemma KeysAreUnique(c: Codec, db: Tables, i: nat, j: nat)
    requires MirrorInv(c, db) && i < j < |db.evidence|
    ensures db.evidence[i].id in db.outbox && db.evidence[j].id in db.outbox
    ensures db.outbox[db.evidence[i].id].envelope.key != db.outbox[db.evidence[j].id].envelope.key
  {
    var a, b := db.evidence[i], db.evidence[j];
    assert RowMirrored(c, db, i) && RowMirrored(c, db, j);
    if Key(a.run, a.sequence) == Key(b.run, b.sequence) {
      KeyIsInjective(a.run, a.sequence, b.run, b.sequence);
      LaterHasHigherNumber(c, db, i, j);
      assert false;
    }
  }

  /** Of two records of one run the later one has the higher number. */
  lemma LaterHasHigherNumber(c: Codec, db: Tables, i: nat, j: nat)
    requires MirrorInv(c, db) && i < j < |db.evidence| && db.evidence[i].run == db.evidence[j].run
    ensures db.evidence[i].sequence < db.evidence[j].sequence
  {
    var a, b := db.evidence[i], db.evidence[j];
    assert RowMirrored(c, db, i) && RowMirrored(c, db, j);
    assert a.tenant == b.tenant;
    SequenceIsPosition(c, db, i);
    SequenceIsPosition(c, db, j);
    MoreRows(db.evidence, i, j);
  }

  lemma MoreRows(rows: seq<Evidence<string>>, i: nat, j: nat)
    requires i < j < |rows| && rows[i].run == rows[j].run && rows[i].tenant == rows[j].tenant
    ensures var a := rows[i];
            |RowsOf(rows[..i + 1], a.tenant, a.run)| < |RowsOf(rows[..j + 1], a.tenant, a.run)|
  {
    var a, b := rows[i], rows[j];
    assert rows[..j][..i + 1] == rows[..i + 1];
    RowsOfPrefix(rows[..j], i + 1, a.tenant, a.run);
    assert rows[..j + 1] == rows[..j] + [b];
    RowsOfGrows(rows[..j], b, b.tenant, b.run);
  }

  // ---- export_events ----

  lemma {:induction false} RowsOfAreRows(rows: seq<Evidence<string>>, tenant: string, run: string, k: nat)
    returns (i: nat)
    requires k < |RowsOf(rows, tenant, run)|
    ensures i < |rows| && rows[i] == RowsOf(rows, tenant, run)[k] && rows[i].tenant == tenant && rows[i].run == run
  {
    var front := rows[..|rows| - 1];
    if k < |RowsOf(front, tenant, run)| {
      i := RowsOfAreRows(front, tenant, run, k);
    } else {
      i := |rows| - 1;
    }
  }

  /** `export_events` for a known run: the list it rebuilds is the list of stored envelopes. */
  method ExportEvents(c: Codec, db: Tables, tenant: string, run: string) returns (events: Option<seq<Envelope>>)
    requires MirrorInv(c, db)
    ensures events.None? <==> !(run in db.runs && db.runs[run].tenant == tenant)
    ensures events.Some? ==>
              var rows := RowsOf(db.evidence, tenant, run);
              && |events.value| == |rows|
              && forall k :: 0 <= k < |rows| ==>
                               rows[k].id in db.outbox && events.value[k] == db.outbox[rows[k].id].envelope
  {
    if run !in db.runs || db.runs[run].tenant != tenant {
      return None;
    }
    var records := Records(c, db, tenant, run);
    ghost var rows := RowsOf(db.evidence, tenant, run);
    var list: seq<Envelope> := [];
    for k := 0 to |records|
      invariant |list| == k
      invariant forall j :: 0 <= j < k ==> rows[j].id in db.outbox && list[j] == db.outbox[rows[j].id].envelope
    {
      ghost var i := RowsOfAreRows(db.evidence, tenant, run, k);
      assert RowMirrored(c, db, i);
      list := list + [Exported(c, db.runs[run], records[k])];
    }
    return Some(list);
  }
}
