/** Signed reports: written once for a run with a verdict, and true of the run and of the ledger
    forever. */
module Reports {
  import opened Domain
  import I = Integrations
  import opened Ledger
  import O = Orchestrator
  import V = OrchestratorInvariant
  import T = OrchestratorTheorems

  /** What a manifest says of a run's records, and the keyed hash over it. */
  datatype Summary = Summary(tenant: string, run: string, count: nat, head: string, error: Option<ChainError>)

  datatype Manifest = Manifest(body: Summary, signature: string)

  /** The part of a run that a report quotes. */
  datatype Finding = Finding(state: ShutdownState, stoppedAt: Option<int>, probes: map<ProbeKind, ProbeResult>,
                             jobs: I.JobTable)

  /** What a report says of the run itself; `info` without the parent. */
  datatype Identity = Identity(tenant: string, run: string, agent: string, correlation: string, policy: int,
                               startedAt: int)

  function IdentityOf(run: string, info: RunInfo): Identity {
    Identity(info.tenant, run, info.agent, info.correlation, info.policy, info.startedAt)
  }

  datatype Report = Report(generatedAt: int, id: Identity, finding: Finding, manifest: Manifest)

  /** Canonical text of reports and manifests, and the keyed hash. */
  datatype Signer = Signer(
    render: Report -> string, parse: string -> Report, renderSummary: Summary -> string, mac: string -> string)

  ghost predicate RoundTrips(g: Signer) { forall r :: g.parse(g.render(r)) == r }

  /** `verify_signed_payload`. */
  predicate Verifies(g: Signer, r: Report, signature: string) { g.mac(g.render(r)) == signature }

  /** `verify_manifest`. */
  predicate ManifestVerifies(g: Signer, m: Manifest) { g.mac(g.renderSummary(m.body)) == m.signature }

  datatype Stored = Stored(tenant: string, text: string, signature: string)

  function Signed(g: Signer, r: Report): Stored { Stored(r.id.tenant, g.render(r), g.mac(g.render(r))) }

  function HeadOf(rows: seq<Evidence<string>>): string {
    if rows == [] then GENESIS else rows[|rows| - 1].hash
  }

  ghost function SummaryOf(c: Codec, db: Tables, tenant: string, run: string): Summary {
    Summary(tenant, run, |RowsOf(db.evidence, tenant, run)|, HeadOf(RowsOf(db.evidence, tenant, run)),
            FirstErrorFrom(c, Records(c, db, tenant, run), 0))
  }

  /** `manifest`. */
  ghost function ManifestOf(c: Codec, g: Signer, db: Tables, tenant: string, run: string): Manifest {
    Manifest(SummaryOf(c, db, tenant, run), g.mac(g.renderSummary(SummaryOf(c, db, tenant, run))))
  }

  /** The summary describes a prefix of the run's chain: `count` records long, ending in `head`. */
  ghost predicate DescribesPrefix(db: Tables, m: Summary) {
    var rows := RowsOf(db.evidence, m.tenant, m.run);
    m.error.None? && m.count <= |rows| && m.head == HeadOf(rows[..m.count])
  }

  lemma ManifestDescribes(c: Codec, g: Signer, db: Tables, tenant: string, run: string)
    requires LedgerOk(c, db)
    ensures DescribesPrefix(db, SummaryOf(c, db, tenant, run)) && ManifestVerifies(g, ManifestOf(c, g, db, tenant, run))
  {
    RecordsVerify(c, db, tenant, run);
    FirstErrorIsFirst(c, Records(c, db, tenant, run), 0);
    OneFirstError(c, Records(c, db, tenant, run), None, FirstErrorFrom(c, Records(c, db, tenant, run), 0));
  }

  lemma AppendKeepsPrefixes(c: Codec, db: Tables, e: Entry, m: Summary)
    requires NextSequence(db, e) >= 0 && DescribesPrefix(db, m)
    ensures DescribesPrefix(Appended(c, db, e), m)
  {
    if Appended(c, db, e) != db {
      RowsOfGrows(db.evidence, RowFor(c, db, e), m.tenant, m.run);
    }
  }

  // ---- A verdict is final, with all that a report quotes of it ----

  function FindingOf(s: O.State): Finding { Finding(s.run.state, s.run.stoppedAt, O.Existing(s.probes), s.jobs) }

  /** The finding still holds; restart probes may have been added. */
  predicate StillHolds(f: Finding, s: O.State) {
    && IsTerminal(f.state) && s.run.state == f.state && s.run.stoppedAt == f.stoppedAt && s.jobs == f.jobs
    && forall kind :: kind != Restart ==>
                        (kind in f.probes <==> kind in O.Existing(s.probes))
                        && (kind in f.probes ==> f.probes[kind] == O.Existing(s.probes)[kind])
  }

  lemma FinishedWorkerWrites(cfg: O.Config, s: O.State, t: nat, c: O.Choice)
    requires V.Inv(s) && V.Terminal(s) && t in s.workers
    ensures var s' := O.Advance(cfg, s, t, c); s'.run == s.run && s'.probes == s.probes && s'.jobs == s.jobs
  {
    assert V.WorkerOk(s, t, s.workers[t]);
    assert !T.Writes(s.workers[t].pc) && !s.workers[t].pc.SaveJobs?;
    T.ReadersWriteNothing(cfg, s, t, c);
    JobsKept(cfg, s, t, c);
  }

  lemma JobsKept(cfg: O.Config, s: O.State, t: nat, c: O.Choice)
    requires t in s.workers && !s.workers[t].pc.SaveJobs?
    ensures O.Advance(cfg, s, t, c).jobs == s.jobs
  {
  }

  lemma FindingIsFinal(cfg: O.Config, s: O.State, step: O.Step, f: Finding)
    requires V.Inv(s) && O.Enabled(s, step) && StillHolds(f, s)
    ensures StillHolds(f, O.Apply(cfg, s, step))
  {
    match step
    case Work(t, c) => FinishedWorkerWrites(cfg, s, t, c);
    case RestartProbe(row) => V.ExistingGrows(s.probes, row);
    case _ =>
  }

  // ---- Reports interleaved with everything else ----

  /** A run and its orchestrator. */
  datatype Managed = Managed(cfg: O.Config, s: O.State)

  /** A report being made under the report lock, between its reads and its insert. */
  datatype Draft = NoDraft | Checked(tenant: string, run: string, finding: Finding)
                 | Ready(tenant: string, run: string, finding: Finding, manifest: Manifest)

  datatype State = State(db: Tables, runs: map<string, Managed>, reports: map<string, Stored>, draft: Draft)

  datatype Step =
    | StartRun(run: string, info: RunInfo, managed: Managed)
    | Append(e: Entry)
    | Advance(run: string, step: O.Step)
    | Ask(tenant: string, run: string)
    | ReadManifest
    | Insert(at: int)
    | Crash

  predicate Enabled(s: State, step: Step) {
    match step
    case StartRun(run, _, managed) => run !in s.db.runs && O.Init(managed.s)
    case Append(e) => NextSequence(s.db, e) >= 0
    case Advance(run, step) => run in s.runs && O.Enabled(s.runs[run].s, step)
    case Ask(tenant, run) =>
      && s.draft.NoDraft? && run !in s.reports && run in s.db.runs && s.db.runs[run].tenant == tenant
      && run in s.runs && IsTerminal(s.runs[run].s.run.state)
    case ReadManifest => s.draft.Checked?
    case Insert(_) => s.draft.Ready? && s.draft.run in s.db.runs
    case Crash => true
  }

  ghost function Apply(c: Codec, g: Signer, s: State, step: Step): State
    requires Enabled(s, step)
  {
    match step
    case StartRun(run, info, managed) => s.(db := s.db.(runs := s.db.runs[run := info]), runs := s.runs[run := managed])
    case Append(e) => s.(db := Appended(c, s.db, e))
    case Advance(run, step) => s.(runs :=
                                  s.runs[run := s.runs[run].(s := O.Apply(s.runs[run].cfg, s.runs[run].s, step))])
    case Ask(tenant, run) => s.(draft := Checked(tenant, run, FindingOf(s.runs[run].s)))
    case ReadManifest =>
      s.(draft := Ready(s.draft.tenant, s.draft.run, s.draft.finding,
                        ManifestOf(c, g, s.db, s.draft.tenant, s.draft.run)))
    case Insert(at) => s.(reports := s.reports[s.draft.run := Signed(g, Drafted(s, at))], draft := NoDraft)
    case Crash => s.(draft := NoDraft)
  }

  function Drafted(s: State, at: int): Report
    requires s.draft.Ready? && s.draft.run in s.db.runs
  {
    Report(at, IdentityOf(s.draft.run, s.db.runs[s.draft.run]), s.draft.finding, s.draft.manifest)
  }

  /** The timing hypothesis, for every run. */
  ghost predicate AllInTime(s: State) { forall run :: run in s.runs ==> O.InTime(s.runs[run].s) }

  ghost predicate IsRun(c: Codec, g: Signer, states: seq<State>, steps: seq<Step>) {
    && Stable(c) && RoundTrips(g) && |states| == |steps| + 1
    && states[0] == State(Tables(map[], [], map[], map[], map[]), map[], map[], NoDraft)
    && (forall i :: 0 <= i < |states| ==> AllInTime(states[i]))
    && forall i :: 0 <= i < |steps| ==>
                     Enabled(states[i], steps[i]) && states[i + 1] == Apply(c, g, states[i], steps[i])
  }

  /** The finding is the run's final one. */
  ghost predicate Found(s: State, run: string, tenant: string, f: Finding) {
    && run in s.runs && StillHolds(f, s.runs[run].s) && run in s.db.runs && s.db.runs[run].tenant == tenant
  }

  /** The manifest is authentic and describes a true prefix of the run's evidence. */
  ghost predicate Attested(g: Signer, db: Tables, run: string, tenant: string, m: Manifest) {
    m.body.tenant == tenant && m.body.run == run && DescribesPrefix(db, m.body) && ManifestVerifies(g, m)
  }

  ghost predicate Genuine(g: Signer, s: State, r: Report) {
    && Found(s, r.id.run, r.id.tenant, r.finding) && r.id == IdentityOf(r.id.run, s.db.runs[r.id.run])
    && Attested(g, s.db, r.id.run, r.id.tenant, r.manifest)
  }

  ghost predicate ReportOk(g: Signer, s: State, run: string)
    requires run in s.reports
  {
    var r := g.parse(s.reports[run].text);
    && r.id.run == run && r.id.tenant == s.reports[run].tenant && Genuine(g, s, r)
    && Verifies(g, r, s.reports[run].signature)
  }

  ghost predicate DraftOk(g: Signer, s: State) {
    match s.draft
    case NoDraft => true
    case Checked(tenant, run, f) => run !in s.reports && Found(s, run, tenant, f)
    case Ready(tenant, run, f, m) => run !in s.reports && Found(s, run, tenant, f) && Attested(g, s.db, run, tenant, m)
  }

  ghost predicate RunsOk(s: State) { forall run :: run in s.runs ==> V.Inv(s.runs[run].s) }

  ghost predicate Inv(c: Codec, g: Signer, s: State) {
    && LedgerOk(c, s.db) && s.runs.Keys == s.db.runs.Keys && RunsOk(s) && DraftOk(g, s)
    && forall run :: run in s.reports ==> ReportOk(g, s, run)
  }

  lemma StepKeepsRuns(c: Codec, g: Signer, s: State, step: Step)
    requires RunsOk(s) && AllInTime(s) && Enabled(s, step)
    ensures RunsOk(Apply(c, g, s, step))
  {
    if step.Advance? {
      V.StepKeepsInv(s.runs[step.run].cfg, s.runs[step.run].s, step.step);
    }
  }

  lemma FoundSurvives(c: Codec, g: Signer, s: State, step: Step, run: string, tenant: string, f: Finding)
    requires RunsOk(s) && s.runs.Keys == s.db.runs.Keys && Enabled(s, step) && Found(s, run, tenant, f)
    ensures Found(Apply(c, g, s, step), run, tenant, f)
    ensures Apply(c, g, s, step).db.runs[run] == s.db.runs[run]
  {
    if step.Advance? && step.run == run {
      FindingIsFinal(s.runs[run].cfg, s.runs[run].s, step.step, f);
      assert Apply(c, g, s, step).runs[run].s == O.Apply(s.runs[run].cfg, s.runs[run].s, step.step);
    } else {
      OtherRunsStay(c, g, s, step, run);
    }
  }

  lemma OtherRunsStay(c: Codec, g: Signer, s: State, step: Step, run: string)
    requires Enabled(s, step) && run in s.runs && run in s.db.runs && !(step.Advance? && step.run == run)
    ensures var s' := Apply(c, g, s, step);
            run in s'.runs && s'.runs[run] == s.runs[run] && run in s'.db.runs && s'.db.runs[run] == s.db.runs[run]
  {
  }

  lemma AttestationSurvives(c: Codec, g: Signer, s: State, step: Step, run: string, tenant: string, m: Manifest)
    requires Enabled(s, step) && Attested(g, s.db, run, tenant, m)
    ensures Attested(g, Apply(c, g, s, step).db, run, tenant, m)
  {
    if step.Append? {
      AppendKeepsPrefixes(c, s.db, step.e, m.body);
    }
  }

  lemma StepKeepsLedger(c: Codec, g: Signer, s: State, step: Step)
    requires Stable(c) && LedgerOk(c, s.db) && Enabled(s, step)
    ensures LedgerOk(c, Apply(c, g, s, step).db)
  {
    if step.Append? {
      AppendKeepsLedger(c, s.db, step.e);
    }
  }

  lemma StepKeepsDraft(c: Codec, g: Signer, s: State, step: Step)
    requires Inv(c, g, s) && Enabled(s, step)
    ensures DraftOk(g, Apply(c, g, s, step))
  {
    if step.ReadManifest? {
      ManifestDescribes(c, g, s.db, s.draft.tenant, s.draft.run);
    } else if !s.draft.NoDraft? {
      FoundSurvives(c, g, s, step, s.draft.run, s.draft.tenant, s.draft.finding);
      if s.draft.Ready? {
        AttestationSurvives(c, g, s, step, s.draft.run, s.draft.tenant, s.draft.manifest);
      }
    }
  }

  lemma GenuineSurvives(c: Codec, g: Signer, s: State, step: Step, r: Report)
    requires RunsOk(s) && s.runs.Keys == s.db.runs.Keys && Enabled(s, step) && Genuine(g, s, r)
    ensures Genuine(g, Apply(c, g, s, step), r)
  {
    FoundSurvives(c, g, s, step, r.id.run, r.id.tenant, r.finding);
    AttestationSurvives(c, g, s, step, r.id.run, r.id.tenant, r.manifest);
  }

  lemma StoredStays(c: Codec, g: Signer, s: State, step: Step, run: string)
    requires DraftOk(g, s) && Enabled(s, step) && run in s.reports
    ensures run in Apply(c, g, s, step).reports && Apply(c, g, s, step).reports[run] == s.reports[run]
  {
  }

  lemma OldReportStays(c: Codec, g: Signer, s: State, step: Step, run: string)
    requires RunsOk(s) && s.runs.Keys == s.db.runs.Keys && DraftOk(g, s) && Enabled(s, step)
    requires run in s.reports && ReportOk(g, s, run)
    ensures run in Apply(c, g, s, step).reports && Apply(c, g, s, step).reports[run] == s.reports[run]
    ensures ReportOk(g, Apply(c, g, s, step), run)
  {
    StoredStays(c, g, s, step, run);
    GenuineSurvives(c, g, s, step, g.parse(s.reports[run].text));
  }

  lemma NewReportIsTrue(c: Codec, g: Signer, s: State, at: int)
    requires RoundTrips(g) && Inv(c, g, s) && Enabled(s, Insert(at))
    ensures s.draft.run in Apply(c, g, s, Insert(at)).reports && ReportOk(g, Apply(c, g, s, Insert(at)), s.draft.run)
  {
    assert Genuine(g, s, Drafted(s, at));
    assert Genuine(g, Apply(c, g, s, Insert(at)), Drafted(s, at));
  }

  lemma StepKeepsReport(c: Codec, g: Signer, s: State, step: Step, run: string)
    requires RoundTrips(g) && Inv(c, g, s) && Enabled(s, step) && run in Apply(c, g, s, step).reports
    ensures ReportOk(g, Apply(c, g, s, step), run)
    ensures run in s.reports ==> Apply(c, g, s, step).reports[run] == s.reports[run]
  {
    if run in s.reports {
      assert ReportOk(g, s, run);
      OldReportStays(c, g, s, step, run);
    } else {
      assert step.Insert? && run == s.draft.run;
      NewReportIsTrue(c, g, s, step.at);
    }
  }

  lemma StepKeepsInv(c: Codec, g: Signer, s: State, step: Step)
    requires Stable(c) && RoundTrips(g) && Inv(c, g, s) && AllInTime(s) && Enabled(s, step)
    ensures Inv(c, g, Apply(c, g, s, step))
  {
    var s' := Apply(c, g, s, step);
    StepKeepsLedger(c, g, s, step);
    StepKeepsRuns(c, g, s, step);
    StepKeepsDraft(c, g, s, step);
    forall run | run in s'.reports ensures ReportOk(g, s', run) {
      StepKeepsReport(c, g, s, step, run);
    }
  }

  lemma {:induction false} InvHolds(c: Codec, g: Signer, states: seq<State>, steps: seq<Step>, n: nat)
    requires IsRun(c, g, states, steps) && n < |states|
    ensures Inv(c, g, states[n])
  {
    if n > 0 {
      InvHolds(c, g, states, steps, n - 1);
      var s, step := states[n - 1], steps[n - 1];
      assert Enabled(s, step) && states[n - 1 + 1] == Apply(c, g, s, step);
      StepKeepsInv(c, g, s, step);
    }
  }

  ghost predicate Keeps(a: map<string, Stored>, b: map<string, Stored>, run: string)
    requires run in a
  {
    run in b && b[run] == a[run]
  }

  lemma StepKeepsStored(c: Codec, g: Signer, states: seq<State>, steps: seq<Step>, run: string, i: nat)
    requires IsRun(c, g, states, steps) && i < |steps| && run in states[i].reports
    ensures Keeps(states[i].reports, states[i + 1].reports, run)
  {
    InvHolds(c, g, states, steps, i);
    assert Enabled(states[i], steps[i]) && states[i + 1] == Apply(c, g, states[i], steps[i]);
    StepKeepsReport(c, g, states[i], steps[i], run);
  }

  lemma {:induction false} StoredIsKept(c: Codec, g: Signer, states: seq<State>, steps: seq<Step>, run: string,
                                        i: nat, j: nat)
    requires IsRun(c, g, states, steps) && i <= j < |states| && run in states[i].reports
    ensures Keeps(states[i].reports, states[j].reports, run)
    decreases j
  {
    if i < j {
      StoredIsKept(c, g, states, steps, run, i, j - 1);
      StepKeepsStored(c, g, states, steps, run, j - 1);
    }
  }

  /** Report stability: once stored, a report never changes, its signature and its manifest's
      verify, verdict, stop time, probe results and delegated jobs are the run's forever, and its
      manifest describes a true prefix of the evidence however many events follow. */
  lemma ReportsAreStable(c: Codec, g: Signer, states: seq<State>, steps: seq<Step>, run: string, i: nat, j: nat)
    requires IsRun(c, g, states, steps) && i <= j < |states| && run in states[i].reports
    ensures run in states[j].reports && states[j].reports[run] == states[i].reports[run]
    ensures ReportOk(g, states[j], run)
  {
    StoredIsKept(c, g, states, steps, run, i, j);
    InvHolds(c, g, states, steps, j);
  }

  // ---- The object ----

  /** The steps lead from `s` to `s'`. */
  ghost predicate Follows(c: Codec, g: Signer, s: State, steps: seq<Step>, s': State)
    decreases |steps|
  {
    if steps == [] then s' == s
    else Enabled(s, steps[0]) && Follows(c, g, Apply(c, g, s, steps[0]), steps[1..], s')
  }

  ghost predicate Sound(c: Codec, g: Signer, s: State) {
    Inv(c, g, s) && AllInTime(s) && RoundTrips(g) && Stable(c)
  }

  datatype Answer = Answered(report: Report, signature: string) | NotFound | Conflict

  class ReportDesk {
    const ledger: EvidenceLedger
    const signer: Signer
    var runs: map<string, Managed>
    var reports: map<string, Stored>

    constructor (ledger: EvidenceLedger, signer: Signer, runs: map<string, Managed>)
      requires RoundTrips(signer) && Stable(ledger.codec) && LedgerOk(ledger.codec, ledger.store.tables)
      requires runs.Keys == ledger.store.tables.runs.Keys
      requires forall run :: run in runs ==> V.Inv(runs[run].s) && O.InTime(runs[run].s)
      ensures this.ledger == ledger && this.signer == signer && this.runs == runs
      ensures Valid() && reports == map[]
    {
      this.ledger, this.signer, this.runs, this.reports := ledger, signer, runs, map[];
    }

    ghost function View(): State
      reads this, ledger, ledger.store
    {
      State(ledger.store.tables, runs, reports, NoDraft)
    }

    ghost predicate Valid()
      reads this, ledger, ledger.store
    {
      Sound(ledger.codec, signer, View())
    }

    /** `report`: the stored report if there is one, otherwise a new one for a run with a
        verdict, written by the machine's steps and announced in the ledger. */
    method MakeReport(tenant: string, run: string, at: int, e: Entry) returns (answer: Answer)
      requires Valid() && e.tenant == tenant && e.run == run
      modifies this`reports, ledger.store
      ensures Valid()
      ensures answer.NotFound? <==> run !in runs || old(ledger.store.tables).runs[run].tenant != tenant
      ensures answer.Conflict? <==> !answer.NotFound? && !IsTerminal(runs[run].s.run.state)
      ensures !answer.Answered? || run in old(reports) ==> View() == old(View())
      ensures answer.Answered? ==>
                && run in reports && answer.report == signer.parse(reports[run].text)
                && answer.signature == reports[run].signature && Verifies(signer, answer.report, answer.signature)
      ensures answer.Answered? && run !in old(reports) ==>
                Written(ledger.codec, signer, old(View()), View(), tenant, run, at, e, answer)
    {
      var db := ledger.store.tables;
      if run in reports && reports[run].tenant == tenant {
        assert ReportOk(signer, View(), run);
        return Answered(signer.parse(reports[run].text), reports[run].signature);
      }
      if run !in runs || db.runs[run].tenant != tenant {
        return NotFound;
      }
      if !IsTerminal(runs[run].s.run.state) {
        return Conflict;
      }
      answer := WriteReport(tenant, run, at, e);
    }

    /** `manifest`: read the records, verify their chain, sign the summary. */
    method MakeManifest(tenant: string, run: string) returns (m: Manifest)
      ensures m == ManifestOf(ledger.codec, signer, ledger.store.tables, tenant, run)
    {
      var records := Records(ledger.codec, ledger.store.tables, tenant, run);
      var error := VerifyChain(ledger.codec, records);
      var head := if records == [] then GENESIS else records[|records| - 1].hash;
      FirstErrorIsFirst(ledger.codec, records, 0);
      OneFirstError(ledger.codec, records, error, FirstErrorFrom(ledger.codec, records, 0));
      var body := Summary(tenant, run, |records|, head, error);
      m := Manifest(body, signer.mac(signer.renderSummary(body)));
    }

    /** A new report: read, sign, insert, announce. */
    method WriteReport(tenant: string, run: string, at: int, e: Entry) returns (answer: Answer)
      requires Valid() && Enabled(View(), Ask(tenant, run))
      modifies this`reports, ledger.store
      ensures Written(ledger.codec, signer, old(View()), View(), tenant, run, at, e, answer) && Valid()
    {
      var report := ReadReport(tenant, run, at);
      ReportCommits(ledger.codec, signer, View(), tenant, run, at, e);
      answer := StoreReport(tenant, run, report, e);
    }

    /** Sign, insert, announce. */
    method StoreReport(tenant: string, run: string, report: Report, e: Entry) returns (answer: Answer)
      requires report.id.tenant == tenant && LedgerOk(ledger.codec, ledger.store.tables) && Stable(ledger.codec)
      requires NextSequence(ledger.store.tables, e) >= 0
      modifies this`reports, ledger.store
      ensures View() == AfterReport(ledger.codec, signer, old(View()), run, report, e)
      ensures answer == Answered(report, signer.mac(signer.render(report)))
    {
      var signature := signer.mac(signer.render(report));
      reports := reports[run := Stored(tenant, signer.render(report), signature)];
      var _ := ledger.Append(e);
      answer := Answered(report, signature);
    }

    /** The text of a new report: identity, finding and manifest, as they are read. */
    method ReadReport(tenant: string, run: string, at: int) returns (report: Report)
      requires run in runs && run in ledger.store.tables.runs && ledger.store.tables.runs[run].tenant == tenant
      ensures report == ReportOf(ledger.codec, signer, View(), tenant, run, at)
    {
      var info, managed := ledger.store.tables.runs[run], runs[run].s;
      var id := Identity(tenant, run, info.agent, info.correlation, info.policy, info.startedAt);
      var finding := Finding(managed.run.state, managed.run.stoppedAt, O.Existing(managed.probes), managed.jobs);
      var manifest := MakeManifest(tenant, run);
      report := Report(at, id, finding, manifest);
    }
  }

  /** The report of a run as it stands. */
  ghost function ReportOf(c: Codec, g: Signer, s: State, tenant: string, run: string, at: int): Report
    requires run in s.runs && run in s.db.runs
  {
    Report(at, IdentityOf(run, s.db.runs[run]), FindingOf(s.runs[run].s), ManifestOf(c, g, s.db, tenant, run))
  }

  /** The report answered is new, was written by the machine's steps, and verifies. */
  ghost predicate Written(c: Codec, g: Signer, s: State, s': State, tenant: string, run: string, at: int, e: Entry,
                          answer: Answer) {
    && run in s.runs && run in s.db.runs && run in s'.reports && s'.runs == s.runs
    && answer == Answered(ReportOf(c, g, s, tenant, run, at), s'.reports[run].signature)
    && Verifies(g, answer.report, answer.signature) && answer.report == g.parse(s'.reports[run].text)
    && Follows(c, g, s, [Ask(tenant, run), ReadManifest, Insert(at), Append(e)], s')
  }

  /** The state after the four commits of a new report. */
  ghost function AfterReport(c: Codec, g: Signer, s: State, run: string, report: Report, e: Entry): State
    requires NextSequence(s.db, e) >= 0
  {
    State(Appended(c, s.db, e), s.runs, s.reports[run := Signed(g, report)], NoDraft)
  }

  lemma ReportCommits(c: Codec, g: Signer, s: State, tenant: string, run: string, at: int, e: Entry)
    requires Sound(c, g, s) && Enabled(s, Ask(tenant, run))
    ensures NextSequence(s.db, e) >= 0
    ensures var report := ReportOf(c, g, s, tenant, run, at);
            var s' := AfterReport(c, g, s, run, report, e);
            Sound(c, g, s') && Written(c, g, s, s', tenant, run, at, e, Answered(report, g.mac(g.render(report))))
  {
    FourCommits(c, g, s, tenant, run, at, e);
  }

  lemma FourCommits(c: Codec, g: Signer, s: State, tenant: string, run: string, at: int, e: Entry)
    requires Sound(c, g, s) && Enabled(s, Ask(tenant, run))
    ensures NextSequence(s.db, e) >= 0
    ensures var s' := AfterReport(c, g, s, run, ReportOf(c, g, s, tenant, run, at), e);
            Sound(c, g, s') && Follows(c, g, s, [Ask(tenant, run), ReadManifest, Insert(at), Append(e)], s')
  {
    SequenceCounts(c, s.db, e);
    var a := Apply(c, g, s, Ask(tenant, run));
    StepKeepsInv(c, g, s, Ask(tenant, run));
    var b := Apply(c, g, a, ReadManifest);
    StepKeepsInv(c, g, a, ReadManifest);
    var d := Apply(c, g, b, Insert(at));
    StepKeepsInv(c, g, b, Insert(at));
    StepKeepsInv(c, g, d, Append(e));
    FourStepsFollow(c, g, s, a, b, d, Ask(tenant, run), ReadManifest, Insert(at), Append(e));
  }

  lemma FourStepsFollow(c: Codec, g: Signer, s: State, a: State, b: State, d: State, s0: Step, s1: Step, s2: Step,
                        s3: Step)
    requires Enabled(s, s0) && a == Apply(c, g, s, s0) && Enabled(a, s1) && b == Apply(c, g, a, s1)
    requires Enabled(b, s2) && d == Apply(c, g, b, s2) && Enabled(d, s3)
    ensures Follows(c, g, s, [s0, s1, s2, s3], Apply(c, g, d, s3))
  {
    var s' := Apply(c, g, d, s3);
    assert Follows(c, g, s', [], s');
    assert Follows(c, g, d, [s3], s');
    assert [s2, s3][1..] == [s3] && Follows(c, g, b, [s2, s3], s');
    assert [s1, s2, s3][1..] == [s2, s3] && Follows(c, g, a, [s1, s2, s3], s');
    assert [s0, s1, s2, s3][1..] == [s1, s2, s3];
  }
}
