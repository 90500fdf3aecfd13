/** The evidence ledger: a hash chain per run, and an outbox envelope written in the same
    commit as every record. */
module Ledger {
  import opened Domain
  import opened Integrations

  /** The text and hash functions the ledger is built on; any total functions will do. */
  datatype Codec = Codec(encode: Json -> string, decode: string -> Json, digest: string -> string)

  /** Canonical text is stable: parsing and printing it again changes nothing. */
  ghost predicate Stable(c: Codec) {
    forall p :: Canonical(c, c.encode(p))
  }

  predicate Canonical(c: Codec, text: string) { c.encode(c.decode(text)) == text }

  ghost predicate CollisionFree(c: Codec) {
    forall x, y :: c.digest(x) == c.digest(y) ==> x == y
  }

  function Zeros(n: nat): string { if n == 0 then "" else Zeros(n - 1) + "0" }

  const GENESIS: string := Zeros(64)

  // ---- Tables ----

  /** A row of the evidence table (`P` is text) or a record read from it (`P` is JSON). */
  datatype Evidence<P> = Evidence(
    id: nat, tenant: string, run: string, sequence: int, eventType: string, payload: P,
    hash: string, previous: string, at: int, actor: string, policy: int, correlation: string)

  /** The immutable part of a run row that envelopes quote. */
  datatype RunInfo = RunInfo(
    tenant: string, agent: string, parent: Option<string>, correlation: string, policy: int, startedAt: int)

  /** An event as the SIEM receives it; `payload` is its canonical text. */
  datatype Envelope = Envelope(
    id: nat, run: string, parent: Option<string>, agent: string, correlation: string, policy: int,
    at: int, producer: string, key: string, eventType: string, payload: string)

  datatype DeliveryStatus = PENDING | DELIVERED | DEAD_LETTER

  datatype OutboxRow = OutboxRow(
    tenant: string, run: string, envelope: Envelope, status: DeliveryStatus, attempts: nat,
    lastError: Option<string>, createdAt: int, deliveredAt: Option<int>)

  datatype DeliveryRow = DeliveryRow(nextAttempt: Option<int>, deadLettered: Option<int>)

  datatype Tables = Tables(
    runs: map<string, RunInfo>, evidence: seq<Evidence<string>>, outbox: map<nat, OutboxRow>,
    delivery: map<nat, DeliveryRow>, baseline: map<nat, nat>)

  // ---- Queries ----

  /** The rows of one run in insertion order. */
  function RowsOf(rows: seq<Evidence<string>>, tenant: string, run: string): seq<Evidence<string>> {
    if rows == [] then []
    else
      var last := rows[|rows| - 1];
      RowsOf(rows[..|rows| - 1], tenant, run) + if last.tenant == tenant && last.run == run then [last] else []
  }

  /** ORDER BY sequence_no DESC LIMIT 1. */
  function Latest(rows: seq<Evidence<string>>): Option<Evidence<string>> {
    if rows == [] then None
    else
      var last, rest := rows[|rows| - 1], Latest(rows[..|rows| - 1]);
      if rest.Some? && rest.value.sequence > last.sequence then rest else Some(last)
  }

  function Parsed(c: Codec, row: Evidence<string>): Evidence<Json> {
    Evidence(row.id, row.tenant, row.run, row.sequence, row.eventType, c.decode(row.payload),
             row.hash, row.previous, row.at, row.actor, row.policy, row.correlation)
  }

  function ParsedAll(c: Codec, rows: seq<Evidence<string>>): seq<Evidence<Json>> {
    seq(|rows|, i requires 0 <= i < |rows| => Parsed(c, rows[i]))
  }

  /** `EvidenceLedger.records`: ORDER BY sequence_no is insertion order, by `LedgerOk`. */
  function Records(c: Codec, db: Tables, tenant: string, run: string): seq<Evidence<Json>> {
    ParsedAll(c, RowsOf(db.evidence, tenant, run))
  }

  // ---- Idempotency keys ----

  function Decimal(n: nat): string {
    if n < 10 then [n as char + '0'] else Decimal(n / 10) + [(n % 10) as char + '0']
  }

  function Key(run: string, sequence: nat): string { run + ":" + Decimal(sequence) }

  lemma {:induction false} DecimalHasNoColon(n: nat)
    ensures ':' !in Decimal(n) && Decimal(n) != ""
  {
    if n >= 10 {
      DecimalHasNoColon(n / 10);
    }
  }

  lemma {:induction false} DecimalIsInjective(m: nat, n: nat)
    requires Decimal(m) == Decimal(n)
    ensures m == n
  {
    var s, t := Decimal(m), Decimal(n);
    assert s[|s| - 1] == t[|t| - 1];
    DecimalHasNoColon(m / 10);
    DecimalHasNoColon(n / 10);
    if m >= 10 && n >= 10 {
      assert Decimal(m / 10) == s[..|s| - 1] && Decimal(n / 10) == t[..|t| - 1];
      DecimalIsInjective(m / 10, n / 10);
    }
  }

  lemma {:induction false} DecimalReadsBack(n: nat)
    ensures ReadDigits(Decimal(n)) == Some(n) && '_' !in Decimal(n)
  {
    if n >= 10 {
      DecimalReadsBack(n / 10);
      DecimalHasNoColon(n / 10);
    }
  }

  /** Printing a count and reading it back is the identity. */
  lemma ReadIntOfDecimal(n: nat)
    ensures ReadInt(Decimal(n)) == Some(n)
  {
    DecimalReadsBack(n);
    DecimalIsDigits(n);
  }

  lemma {:induction false} DecimalIsDigits(n: nat)
    ensures Decimal(n) != "" && forall i :: 0 <= i < |Decimal(n)| ==> IsDigit(Decimal(n)[i])
  {
    if n >= 10 {
      DecimalIsDigits(n / 10);
    }
  }

  function LastColon(k: string): int {
    if k == [] then -1 else if k[|k| - 1] == ':' then |k| - 1 else LastColon(k[..|k| - 1])
  }

  lemma {:induction false} LastColonOf(r: string, d: string)
    requires ':' !in d
    ensures LastColon(r + ":" + d) == |r|
  {
    var k := r + ":" + d;
    if d == [] {
      assert k == r + ":";
    } else {
      assert k[..|k| - 1] == r + ":" + d[..|d| - 1];
      LastColonOf(r, d[..|d| - 1]);
    }
  }

  /** The key text determines run and sequence number, whatever characters run ids contain. */
  lemma KeyIsInjective(r: string, m: nat, s: string, n: nat)
    requires Key(r, m) == Key(s, n)
    ensures r == s && m == n
  {
    var k := Key(r, m);
    DecimalHasNoColon(m);
    DecimalHasNoColon(n);
    LastColonOf(r, Decimal(m));
    LastColonOf(s, Decimal(n));
    assert r == k[..|r|] && s == k[..|s|];
    assert Decimal(m) == k[|r| + 1..] && Decimal(n) == k[|s| + 1..];
    DecimalIsInjective(m, n);
  }

  // ---- Appending ----

  /** What the caller of `append` supplies, and the fresh id and clock reading it uses. */
  datatype Entry = Entry(
    id: nat, tenant: string, run: string, eventType: string, payload: Json, actor: string,
    policy: int, correlation: string, at: int)

  function NextSequence(db: Tables, e: Entry): int {
    match Latest(RowsOf(db.evidence, e.tenant, e.run))
    case None => 1
    case Some(row) => row.sequence + 1
  }

  function RowFor(c: Codec, db: Tables, e: Entry): Evidence<string> {
    var previous := Latest(RowsOf(db.evidence, e.tenant, e.run));
    Evidence(e.id, e.tenant, e.run, NextSequence(db, e), e.eventType, c.encode(e.payload),
             c.digest(c.encode(e.payload)), if previous.None? then GENESIS else previous.value.hash,
             e.at, e.actor, e.policy, e.correlation)
  }

  /** The envelope of a record, as `export_events` rebuilds it from the record and the run row. */
  function Exported(c: Codec, info: RunInfo, row: Evidence<Json>): Envelope
    requires row.sequence >= 0
  {
    Envelope(row.id, row.run, info.parent, info.agent, row.correlation, row.policy, row.at, row.actor,
             Key(row.run, row.sequence), row.eventType, c.encode(row.payload))
  }

  /** The commit of `append`; without the run row the transaction is rolled back. */
  function Appended(c: Codec, db: Tables, e: Entry): Tables
    requires NextSequence(db, e) >= 0
  {
    if e.run !in db.runs || db.runs[e.run].tenant != e.tenant then db
    else
      var row, info := RowFor(c, db, e), db.runs[e.run];
      var envelope := Envelope(e.id, e.run, info.parent, info.agent, e.correlation, e.policy, e.at, e.actor,
                               Key(e.run, row.sequence), e.eventType, c.encode(e.payload));
      db.(evidence := db.evidence + [row],
          outbox := db.outbox[e.id := OutboxRow(e.tenant, e.run, envelope, PENDING, 0, None, e.at, None)])
  }

  // ---- The invariant of the ledger ----

  ghost predicate ChainedRows(c: Codec, rows: seq<Evidence<string>>) {
    forall i :: 0 <= i < |rows| ==> RowChained(c, rows, i)
  }

  ghost predicate RowChained(c: Codec, rows: seq<Evidence<string>>, i: int)
    requires 0 <= i < |rows|
  {
    && rows[i].sequence == i + 1
    && rows[i].previous == (if i == 0 then GENESIS else rows[i - 1].hash)
    && rows[i].hash == c.digest(rows[i].payload)
    && Canonical(c, rows[i].payload)
  }

  ghost predicate RunsKnown(db: Tables) {
    forall i :: 0 <= i < |db.evidence| ==>
                  db.evidence[i].run in db.runs && db.runs[db.evidence[i].run].tenant == db.evidence[i].tenant
  }

  ghost predicate LedgerOk(c: Codec, db: Tables) {
    RunsKnown(db) && forall tenant, run :: ChainedRows(c, RowsOf(db.evidence, tenant, run))
  }

  lemma RowsOfGrows(rows: seq<Evidence<string>>, row: Evidence<string>, tenant: string, run: string)
    ensures RowsOf(rows + [row], tenant, run)
            == RowsOf(rows, tenant, run) + if row.tenant == tenant && row.run == run then [row] else []
  {
    assert (rows + [row])[..|rows|] == rows;
  }

  lemma {:induction false} LatestIsLast(c: Codec, rows: seq<Evidence<string>>)
    requires ChainedRows(c, rows)
    ensures Latest(rows) == if rows == [] then None else Some(rows[|rows| - 1])
  {
    if rows != [] {
      var front := rows[..|rows| - 1];
      forall i | 0 <= i < |front| ensures RowChained(c, front, i) {
        assert RowChained(c, rows, i);
      }
      LatestIsLast(c, front);
      assert RowChained(c, rows, |rows| - 1);
      assert front != [] ==> RowChained(c, front, |front| - 1);
    }
  }

  lemma ChainGrows(c: Codec, rows: seq<Evidence<string>>, row: Evidence<string>)
    requires ChainedRows(c, rows) && RowChained(c, rows + [row], |rows|)
    ensures ChainedRows(c, rows + [row])
  {
    forall i | 0 <= i < |rows| ensures RowChained(c, rows + [row], i) {
      assert RowChained(c, rows, i);
    }
  }

  lemma SequenceCounts(c: Codec, db: Tables, e: Entry)
    requires LedgerOk(c, db)
    ensures NextSequence(db, e) == |RowsOf(db.evidence, e.tenant, e.run)| + 1
  {
    var rows := RowsOf(db.evidence, e.tenant, e.run);
    LatestIsLast(c, rows);
    assert rows != [] ==> RowChained(c, rows, |rows| - 1);
  }

  /** Appends of any runs, in any order, keep every run's chain. */
  lemma AppendKeepsLedger(c: Codec, db: Tables, e: Entry)
    requires Stable(c) && LedgerOk(c, db) && NextSequence(db, e) >= 0
    ensures LedgerOk(c, Appended(c, db, e))
  {
    var db' := Appended(c, db, e);
    if db' != db {
      var row, mine := RowFor(c, db, e), RowsOf(db.evidence, e.tenant, e.run);
      LatestIsLast(c, mine);
      assert mine != [] ==> RowChained(c, mine, |mine| - 1);
      assert Canonical(c, c.encode(e.payload));
      ChainGrows(c, mine, row);
      forall tenant, run ensures ChainedRows(c, RowsOf(db'.evidence, tenant, run)) {
        RowsOfGrows(db.evidence, row, tenant, run);
        if tenant != e.tenant || run != e.run {
          assert RowsOf(db'.evidence, tenant, run) == RowsOf(db.evidence, tenant, run);
        }
      }
    }
  }

  // ---- verify_chain ----

  /** What a well-formed chain is, said once for the whole list. */
  ghost predicate ChainValid(c: Codec, records: seq<Evidence<Json>>) {
    forall i :: 0 <= i < |records| ==> LinkValid(c, records, i)
  }

  ghost predicate LinkValid(c: Codec, records: seq<Evidence<Json>>, i: int)
    requires 0 <= i < |records|
  {
    && records[i].sequence == i + 1
    && records[i].previous == (if i == 0 then GENESIS else records[i - 1].hash)
    && records[i].hash == c.digest(c.encode(records[i].payload))
  }

  datatype ChainError = ExpectedSequence(n: nat) | BrokenPreviousHash(n: nat) | PayloadMismatch(n: nat)

  /** What is wrong with record `i`; a wrong number counts before a broken link, and that before a
      wrong hash. */
  function ErrorAt(c: Codec, records: seq<Evidence<Json>>, i: nat): Option<ChainError>
    requires i < |records|
  {
    if records[i].sequence != i + 1 then Some(ExpectedSequence(i + 1))
    else if records[i].previous != (if i == 0 then GENESIS else records[i - 1].hash)
        then Some(BrokenPreviousHash(i + 1))
    else if c.digest(c.encode(records[i].payload)) != records[i].hash then Some(PayloadMismatch(i + 1))
    else None
  }

  /** The error that counts, with its reason: that of the first record that has one. */
  ghost predicate IsFirstError(c: Codec, records: seq<Evidence<Json>>, error: Option<ChainError>) {
    if error.None? then ChainValid(c, records)
    else var n := error.value.n;
         && 1 <= n <= |records| && ErrorAt(c, records, n - 1) == error
         && forall i :: 0 <= i < n - 1 ==> LinkValid(c, records, i)
  }

  function FirstErrorFrom(c: Codec, records: seq<Evidence<Json>>, i: nat): Option<ChainError>
    requires i <= |records|
    decreases |records| - i
  {
    if i == |records| then None
    else if ErrorAt(c, records, i).Some? then ErrorAt(c, records, i) else FirstErrorFrom(c, records, i + 1)
  }

  lemma {:induction false} FirstErrorIsFirst(c: Codec, records: seq<Evidence<Json>>, i: nat)
    requires i <= |records| && forall k :: 0 <= k < i ==> LinkValid(c, records, k)
    ensures IsFirstError(c, records, FirstErrorFrom(c, records, i))
    decreases |records| - i
  {
    if i < |records| && ErrorAt(c, records, i).None? {
      FirstErrorIsFirst(c, records, i + 1);
    }
  }

  lemma OneFirstError(c: Codec, records: seq<Evidence<Json>>, a: Option<ChainError>, b: Option<ChainError>)
    requires IsFirstError(c, records, a) && IsFirstError(c, records, b)
    ensures a == b
  {
    if a.Some? {
      assert !LinkValid(c, records, a.value.n - 1);
    }
    if b.Some? {
      assert !LinkValid(c, records, b.value.n - 1);
    }
  }

  /** `EvidenceLedger.verify_chain`: accepts exactly the valid chains, and otherwise names the
      first bad record. */
  method VerifyChain(c: Codec, records: seq<Evidence<Json>>) returns (error: Option<ChainError>)
    ensures error.None? <==> ChainValid(c, records)
    ensures IsFirstError(c, records, error)
    ensures error.Some? ==> !LinkValid(c, records, error.value.n - 1)
  {
    var previous := GENESIS;
    for i := 0 to |records|
      invariant forall k :: 0 <= k < i ==> LinkValid(c, records, k)
      invariant previous == if i == 0 then GENESIS else records[i - 1].hash
    {
      if records[i].sequence != i + 1 {
        assert !LinkValid(c, records, i);
        return Some(ExpectedSequence(i + 1));
      }
      if records[i].previous != previous {
        assert !LinkValid(c, records, i);
        return Some(BrokenPreviousHash(i + 1));
      }
      if c.digest(c.encode(records[i].payload)) != records[i].hash {
        assert !LinkValid(c, records, i);
        return Some(PayloadMismatch(i + 1));
      }
      previous := records[i].hash;
    }
    return None;
  }

  /** In every state the ledger reaches, every run's records verify. */
  lemma RecordsVerify(c: Codec, db: Tables, tenant: string, run: string)
    requires LedgerOk(c, db)
    ensures ChainValid(c, Records(c, db, tenant, run))
  {
    var rows := RowsOf(db.evidence, tenant, run);
    assert ChainedRows(c, rows);
    forall i | 0 <= i < |rows| ensures LinkValid(c, Records(c, db, tenant, run), i) {
      assert RowChained(c, rows, i);
    }
  }

  /** A list made only of genuine records of one run verifies exactly when it is a prefix. */
  lemma VerifiesExactlyPrefixes(c: Codec, db: Tables, tenant: string, run: string, list: seq<Evidence<Json>>)
    requires LedgerOk(c, db)
    requires forall i :: 0 <= i < |list| ==> list[i] in Records(c, db, tenant, run)
    ensures ChainValid(c, list) <==> list <= Records(c, db, tenant, run)
  {
    var genuine := Records(c, db, tenant, run);
    RecordsVerify(c, db, tenant, run);
    if ChainValid(c, list) {
      forall i | 0 <= i < |list| ensures i < |genuine| && list[i] == genuine[i] {
        assert LinkValid(c, list, i);
        var j :| 0 <= j < |genuine| && genuine[j] == list[i];
        assert LinkValid(c, genuine, j);
      }
      if list != [] {
        assert list[|list| - 1] in genuine;
      }
    }
    if list <= genuine {
      forall i | 0 <= i < |list| ensures LinkValid(c, list, i) {
        assert LinkValid(c, genuine, i);
      }
    }
  }

  /** With a collision-free hash, replacing a payload by one with another canonical text while
      keeping the stored hash is rejected. */
  lemma TamperedPayloadIsRejected(c: Codec, records: seq<Evidence<Json>>, i: nat, payload: Json)
    requires CollisionFree(c) && ChainValid(c, records) && i < |records|
    requires c.encode(payload) != c.encode(records[i].payload)
    ensures !ChainValid(c, records[i := records[i].(payload := payload)])
  {
    var forged := records[i := records[i].(payload := payload)];
    assert LinkValid(c, records, i);
    assert !LinkValid(c, forged, i);
  }

  /** Among valid chains of length `n` the head hash determines all payload texts. */
  ghost predicate HeadBinds(c: Codec, n: nat) {
    forall a, b :: ChainValid(c, a) && ChainValid(c, b) && |a| == |b| == n && SameHead(a, b) ==> SameTexts(c, a, b)
  }

  ghost predicate SameHead(a: seq<Evidence<Json>>, b: seq<Evidence<Json>>)
    requires |a| == |b|
  {
    a != [] ==> a[|a| - 1].hash == b[|b| - 1].hash
  }

  ghost predicate SameTexts(c: Codec, a: seq<Evidence<Json>>, b: seq<Evidence<Json>>)
    requires |a| == |b|
  {
    forall i :: 0 <= i < |a| ==> c.encode(a[i].payload) == c.encode(b[i].payload)
  }

  /** A chain whose first payload is `first` and whose others are all `later`. */
  function Link(c: Codec, first: Json, later: Json, i: nat): Evidence<Json> {
    var payload := if i == 0 then first else later;
    var previous := if i == 0 then GENESIS else c.digest(c.encode(if i == 1 then first else later));
    Evidence(i, "t", "r", i + 1, "e", payload, c.digest(c.encode(payload)), previous, 0, "x", 1, "c")
  }

  function Chain(c: Codec, first: Json, later: Json, n: nat): seq<Evidence<Json>> {
    seq(n, i requires 0 <= i < n => Link(c, first, later, i))
  }

  lemma ChainIsValid(c: Codec, first: Json, later: Json, n: nat)
    ensures ChainValid(c, Chain(c, first, later, n))
  {
    forall i | 0 <= i < n ensures LinkValid(c, Chain(c, first, later, n), i) {
      assert Chain(c, first, later, n)[i] == Link(c, first, later, i);
      assert i > 0 ==> Chain(c, first, later, n)[i - 1] == Link(c, first, later, i - 1);
    }
  }

  /** The hash covers the payload alone: at every length from two on there are valid chains with
      equal head hash and different histories. */
  lemma HeadHashDoesNotBindHistory(c: Codec, p: Json, q: Json, n: nat)
    returns (a: seq<Evidence<Json>>, b: seq<Evidence<Json>>)
    requires c.encode(p) != c.encode(q) && n >= 2
    ensures ChainValid(c, a) && ChainValid(c, b) && |a| == |b| == n && SameHead(a, b) && !SameTexts(c, a, b)
  {
    a, b := Chain(c, p, q, n), Chain(c, q, q, n);
    ChainIsValid(c, p, q, n);
    ChainIsValid(c, q, q, n);
    assert c.encode(a[0].payload) != c.encode(b[0].payload);
  }

  /** With a collision-free hash and at least two payload texts to choose from, the head hash
      binds the history of a chain if and only if the chain has at most one record. */
  lemma HeadHashBindsExactly(c: Codec, p: Json, q: Json, n: nat)
    requires CollisionFree(c) && c.encode(p) != c.encode(q)
    ensures HeadBinds(c, n) <==> n <= 1
  {
    if n <= 1 {
      forall a, b | ChainValid(c, a) && ChainValid(c, b) && |a| == |b| == n && SameHead(a, b)
        ensures SameTexts(c, a, b)
      {
        assert n == 1 ==> LinkValid(c, a, 0) && LinkValid(c, b, 0);
      }
    } else {
      var a, b := HeadHashDoesNotBindHistory(c, p, q, n);
    }
  }

  // ---- The store and the ledger object ----

  class Store {
    var tables: Tables

    constructor ()
      ensures tables == Tables(map[], [], map[], map[], map[])
    {
      tables := Tables(map[], [], map[], map[], map[]);
    }
  }

  class EvidenceLedger {
    const store: Store
    const codec: Codec

    constructor (store: Store, codec: Codec)
      ensures this.store == store && this.codec == codec
    {
      this.store := store;
      this.codec := codec;
    }

    /** `append`: one transaction that inserts the record and its envelope, or nothing. */
    method Append(e: Entry) returns (record: Option<Evidence<string>>)
      requires LedgerOk(codec, store.tables) && Stable(codec)
      modifies store
      ensures NextSequence(old(store.tables), e) >= 0
      ensures store.tables == Appended(codec, old(store.tables), e)
      ensures LedgerOk(codec, store.tables)
      ensures record.Some? <==> e.run in store.tables.runs && store.tables.runs[e.run].tenant == e.tenant
      ensures record.Some? ==> store.tables.evidence == old(store.tables).evidence + [record.value]
    {
      var db := store.tables;
      SequenceCounts(codec, db, e);
      AppendKeepsLedger(codec, db, e);
      var encoded := codec.encode(e.payload);
      var previous := Latest(RowsOf(db.evidence, e.tenant, e.run));
      var sequence := if previous.None? then 1 else previous.value.sequence + 1;
      var previousHash := if previous.None? then GENESIS else previous.value.hash;
      var row := Evidence(e.id, e.tenant, e.run, sequence, e.eventType, encoded, codec.digest(encoded),
                          previousHash, e.at, e.actor, e.policy, e.correlation);
      if e.run !in db.runs || db.runs[e.run].tenant != e.tenant {
        return None;
      }
      var info := db.runs[e.run];
      var envelope := Envelope(e.id, e.run, info.parent, info.agent, e.correlation, e.policy, e.at, e.actor,
                               Key(e.run, sequence), e.eventType, encoded);
      store.tables := db.(
        evidence := db.evidence + [row],
        outbox := db.outbox[e.id := OutboxRow(e.tenant, e.run, envelope, PENDING, 0, None, e.at, None)]);
      return Some(row);
    }
  }
}
