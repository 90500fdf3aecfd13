/** The orchestrator and the ledger together: what the evidence rows of a run say about it. */
module RunEvidence {
  import opened Domain
  import I = Integrations
  import opened Ledger
  import opened Orchestrator
  import opened OrchestratorInvariant
  import opened OrchestratorTheorems
  import opened OrchestratorOutcomes

  // ---- Events as records ----

  function TypeOf(e: Event): string {
    match e
    case ShutdownRequested => "shutdown.requested"
    case RecoveryResumed(_) => "shutdown.recovery.resumed"
    case PhaseReached(FENCING) => "shutdown.fenced"
    case PhaseReached(PROCESS_STOP_SENT) => "shutdown.process.stop.sent"
    case PhaseReached(CHILD_DISCOVERY) => "agent.child.discovered"
    case PhaseReached(_) => "shutdown.probe.requested"
    case ProbeResultSaved(_, _) => "shutdown.probe.result"
    case ShutdownCompleted(_) => "shutdown.completed"
    case DeadlineExceeded => "shutdown.recovery.deadline.exceeded"
  }

  const REQUESTED_TYPE: string := "shutdown.requested"
  const COMPLETED_TYPE: string := "shutdown.completed"
  const EXPIRED_TYPE: string := "shutdown.recovery.deadline.exceeded"

  /** The types that only the orchestrator writes. */
  predicate IsOwn(eventType: string) {
    eventType in {REQUESTED_TYPE, "shutdown.recovery.resumed", "shutdown.fenced", "shutdown.process.stop.sent",
                  "agent.child.discovered", "shutdown.probe.requested", "shutdown.probe.result", COMPLETED_TYPE,
                  EXPIRED_TYPE}
  }

  function NameOf(state: ShutdownState): string {
    match state
    case RUNNING => "RUNNING"
    case REQUESTED => "REQUESTED"
    case FENCING => "FENCING"
    case PROCESS_STOP_SENT => "PROCESS_STOP_SENT"
    case CHILD_DISCOVERY => "CHILD_DISCOVERY"
    case PROBING => "PROBING"
    case VERIFIED => "VERIFIED"
    case PARTIAL => "PARTIAL"
    case UNKNOWN => "UNKNOWN"
    case FAILED => "FAILED"
  }

  /** The payload names the verdict. */
  predicate Names(payload: I.Json, state: ShutdownState) {
    payload.JObj? && "state" in payload.fields && payload.fields["state"] == I.JStr(NameOf(state))
  }

  predicate Describes(e: Event, payload: I.Json) {
    match e
    case ShutdownCompleted(v) => Names(payload, v)
    case DeadlineExceeded => Names(payload, UNKNOWN)
    case _ => true
  }

  /** The row records the event. */
  ghost predicate Fits(c: Codec, e: Event, row: Evidence<string>) {
    row.eventType == TypeOf(e) && exists payload :: row.payload == c.encode(payload) && Describes(e, payload)
  }

  // ---- The joint machine ----

  /** The run and the tenant it belongs to. */
  datatype Subject = Subject(tenant: string, run: string)

  datatype Joint = Joint(run: State, db: Tables)

  /** A step of the run's orchestrator, with the record it appends should it emit an event; or an
      append by anybody else; or a new run. */
  datatype Move = Orchestrate(step: Step, e: Entry) | Append(e: Entry) | StartRun(id: string, info: RunInfo)

  predicate IsFor(who: Subject, e: Entry) { e.tenant == who.tenant && e.run == who.run }

  /** What `_append_event` is handed for an event of this run. */
  predicate Announces(who: Subject, event: Event, e: Entry) {
    IsFor(who, e) && e.eventType == TypeOf(event) && Describes(event, e.payload)
  }

  predicate CanMove(cfg: Config, who: Subject, j: Joint, move: Move) {
    match move
    case Orchestrate(step, e) =>
      && Enabled(j.run, step) && NextSequence(j.db, e) >= 0
      && (var events := Apply(cfg, j.run, step).events;
          |events| > |j.run.events| ==> Announces(who, events[|events| - 1], e))
    case Append(e) => NextSequence(j.db, e) >= 0 && (IsFor(who, e) ==> !IsOwn(e.eventType))
    case StartRun(id, _) => id !in j.db.runs
  }

  function Moved(c: Codec, cfg: Config, who: Subject, j: Joint, move: Move): Joint
    requires CanMove(cfg, who, j, move)
  {
    match move
    case Orchestrate(step, e) =>
      var run := Apply(cfg, j.run, step);
      Joint(run, if |run.events| > |j.run.events| then Appended(c, j.db, e) else j.db)
    case Append(e) => j.(db := Appended(c, j.db, e))
    case StartRun(id, info) => j.(db := j.db.(runs := j.db.runs[id := info]))
  }

  predicate Known(who: Subject, db: Tables) { who.run in db.runs && db.runs[who.run].tenant == who.tenant }

  ghost predicate IsJointRun(c: Codec, cfg: Config, who: Subject, js: seq<Joint>, moves: seq<Move>) {
    && |js| == |moves| + 1 && Init(js[0].run) && Known(who, js[0].db)
    && (forall i :: 0 <= i < |RowsOf(js[0].db.evidence, who.tenant, who.run)| ==>
                      !IsOwn(RowsOf(js[0].db.evidence, who.tenant, who.run)[i].eventType))
    && forall i :: 0 <= i < |moves| ==>
                      CanMove(cfg, who, js[i], moves[i]) && js[i + 1] == Moved(c, cfg, who, js[i], moves[i])
  }

  // ---- Rows and events agree ----

  function CountRows(rows: seq<Evidence<string>>, eventType: string): nat {
    if rows == [] then 0
    else CountRows(rows[..|rows| - 1], eventType) + if rows[|rows| - 1].eventType == eventType then 1 else 0
  }

  function CountEvents(events: seq<Event>, eventType: string): nat {
    if events == [] then 0
    else CountEvents(events[..|events| - 1], eventType) + if TypeOf(events[|events| - 1]) == eventType then 1 else 0
  }

  ghost predicate RowFound(c: Codec, events: seq<Event>, row: Evidence<string>) {
    exists k :: 0 <= k < |events| && Fits(c, events[k], row)
  }

  /** The run's own rows are the events of its machine, as many of each type and each describing one. */
  ghost predicate Recorded(c: Codec, rows: seq<Evidence<string>>, events: seq<Event>) {
    && (forall eventType :: IsOwn(eventType) ==> CountRows(rows, eventType) == CountEvents(events, eventType))
    && (forall i :: 0 <= i < |rows| && IsOwn(rows[i].eventType) ==> RowFound(c, events, rows[i]))
  }

  function RowsFor(who: Subject, db: Tables): seq<Evidence<string>> { RowsOf(db.evidence, who.tenant, who.run) }

  lemma {:induction false} NoOwnRows(rows: seq<Evidence<string>>, eventType: string)
    requires IsOwn(eventType) && forall i :: 0 <= i < |rows| ==> !IsOwn(rows[i].eventType)
    ensures CountRows(rows, eventType) == 0
  {
    if rows != [] {
      NoOwnRows(rows[..|rows| - 1], eventType);
    }
  }

  /** An own event and its row are added together. */
  lemma OwnRowAdded(c: Codec, rows: seq<Evidence<string>>, events: seq<Event>, row: Evidence<string>, event: Event)
    requires Recorded(c, rows, events) && Fits(c, event, row)
    ensures Recorded(c, rows + [row], events + [event])
  {
    var rows', events' := rows + [row], events + [event];
    assert rows'[..|rows|] == rows && events'[..|events|] == events;
    forall i | 0 <= i < |rows'| && IsOwn(rows'[i].eventType) ensures RowFound(c, events', rows'[i]) {
      if i < |rows| {
        assert rows'[i] == rows[i];
        var k :| 0 <= k < |events| && Fits(c, events[k], rows[i]);
        assert events'[k] == events[k];
      } else {
        assert events'[|events|] == event;
      }
    }
  }

  /** Anybody else's row changes nothing. */
  lemma OtherRowAdded(c: Codec, rows: seq<Evidence<string>>, events: seq<Event>, row: Evidence<string>)
    requires Recorded(c, rows, events) && !IsOwn(row.eventType)
    ensures Recorded(c, rows + [row], events)
  {
    var rows' := rows + [row];
    assert rows'[..|rows|] == rows;
    forall i | 0 <= i < |rows'| && IsOwn(rows'[i].eventType) ensures RowFound(c, events, rows'[i]) {
      assert i < |rows| && rows'[i] == rows[i];
    }
  }

  lemma RowsAfterAppend(c: Codec, who: Subject, db: Tables, e: Entry)
    requires NextSequence(db, e) >= 0
    ensures var db' := Appended(c, db, e);
            RowsFor(who, db') == if IsFor(who, e) && Known(who, db) then RowsFor(who, db) + [RowFor(c, db, e)]
                else RowsFor(who, db)
    ensures Known(who, db) ==> Known(who, Appended(c, db, e))
  {
    if Appended(c, db, e) != db {
      RowsOfGrows(db.evidence, RowFor(c, db, e), who.tenant, who.run);
    }
  }

  lemma StepEmits(cfg: Config, s: State, step: Step)
    requires Enabled(s, step)
    ensures var events := Apply(cfg, s, step).events;
            events == s.events || (|events| == |s.events| + 1 && events == s.events + [events[|s.events|]])
  {
    if step.Work? {
      AdvanceEmits(cfg, s, step.t, step.c);
    }
  }

  ghost predicate JointOk(c: Codec, who: Subject, j: Joint) {
    Known(who, j.db) && Recorded(c, RowsFor(who, j.db), j.run.events)
  }

  lemma MoveKeepsRecord(c: Codec, cfg: Config, who: Subject, j: Joint, move: Move)
    requires JointOk(c, who, j) && CanMove(cfg, who, j, move)
    ensures JointOk(c, who, Moved(c, cfg, who, j, move))
  {
    match move
    case Orchestrate(step, e) =>
      StepEmits(cfg, j.run, step);
      var events := Apply(cfg, j.run, step).events;
      if |events| > |j.run.events| {
        var event := events[|j.run.events|];
        RowsAfterAppend(c, who, j.db, e);
        assert RowFor(c, j.db, e).payload == c.encode(e.payload) && Describes(event, e.payload);
        OwnRowAdded(c, RowsFor(who, j.db), j.run.events, RowFor(c, j.db, e), event);
      }
    case Append(e) =>
      RowsAfterAppend(c, who, j.db, e);
      if IsFor(who, e) {
        OtherRowAdded(c, RowsFor(who, j.db), j.run.events, RowFor(c, j.db, e));
      }
    case StartRun(_, _) =>
  }

  lemma {:induction false} RecordHolds(c: Codec, cfg: Config, who: Subject, js: seq<Joint>, moves: seq<Move>, n: nat)
    requires IsJointRun(c, cfg, who, js, moves) && n < |js|
    ensures JointOk(c, who, js[n])
  {
    if n == 0 {
      forall eventType | IsOwn(eventType) ensures CountRows(RowsFor(who, js[0].db), eventType) == 0 {
        NoOwnRows(RowsFor(who, js[0].db), eventType);
      }
    } else {
      RecordHolds(c, cfg, who, js, moves, n - 1);
      assert CanMove(cfg, who, js[n - 1], moves[n - 1]) && js[n - 1 + 1] == Moved(c, cfg, who, js[n - 1], moves[n - 1]);
      MoveKeepsRecord(c, cfg, who, js[n - 1], moves[n - 1]);
    }
  }

  // ---- The orchestrator's half is a run of its own ----

  lemma {:induction false} Project(c: Codec, cfg: Config, who: Subject, js: seq<Joint>, moves: seq<Move>, n: nat)
    returns (states: seq<State>, steps: seq<Step>)
    requires IsJointRun(c, cfg, who, js, moves) && n < |js|
    ensures IsRun(cfg, states, steps) && states[|steps|] == js[n].run
    ensures forall s :: s in states ==> exists k :: 0 <= k <= n && js[k].run == s
  {
    if n == 0 {
      states, steps := [js[0].run], [];
    } else {
      states, steps := Project(c, cfg, who, js, moves, n - 1);
      var j, move := js[n - 1], moves[n - 1];
      assert CanMove(cfg, who, j, move) && js[n - 1 + 1] == Moved(c, cfg, who, j, move);
      if move.Orchestrate? {
        states, steps := RunExtend(cfg, states, steps, move.step);
      }
    }
  }

  lemma RunExtend(cfg: Config, states: seq<State>, steps: seq<Step>, step: Step)
    returns (ss: seq<State>, how: seq<Step>)
    requires IsRun(cfg, states, steps) && Enabled(states[|steps|], step)
    ensures IsRun(cfg, ss, how) && ss[|how|] == Apply(cfg, states[|steps|], step)
    ensures forall s :: s in ss ==> s in states || s == Apply(cfg, states[|steps|], step)
  {
    ss, how := states + [Apply(cfg, states[|steps|], step)], steps + [step];
  }

  // ---- Theorems ----

  lemma {:induction false} RequestedEventsCounted(events: seq<Event>)
    ensures CountEvents(events, REQUESTED_TYPE) == multiset(events)[ShutdownRequested]
  {
    if events != [] {
      var n := |events| - 1;
      RequestedEventsCounted(events[..n]);
      assert events == events[..n] + [events[n]];
      assert TypeOf(events[n]) == REQUESTED_TYPE <==> events[n] == ShutdownRequested by {
        TypesDiffer(events[n]);
      }
    }
  }

  lemma TypesDiffer(e: Event)
    ensures TypeOf(e) == REQUESTED_TYPE <==> e.ShutdownRequested?
    ensures TypeOf(e) == COMPLETED_TYPE <==> e.ShutdownCompleted?
    ensures TypeOf(e) == EXPIRED_TYPE <==> e.DeadlineExceeded?
  {
    assert |REQUESTED_TYPE| == 18 && |COMPLETED_TYPE| == 18 && |EXPIRED_TYPE| == 35;
    assert REQUESTED_TYPE[9] == 'r' && COMPLETED_TYPE[9] == 'c';
  }

  /** Over any schedule, timely or not, and whatever else is appended, a run has at most one
      shutdown.requested record. */
  lemma OneRequestRecord(c: Codec, cfg: Config, who: Subject, js: seq<Joint>, moves: seq<Move>, n: nat)
    requires IsJointRun(c, cfg, who, js, moves) && n < |js|
    ensures CountRows(RowsFor(who, js[n].db), REQUESTED_TYPE) <= 1
  {
    var states, steps := Project(c, cfg, who, js, moves, n);
    RequestIsAnnouncedOnce(cfg, states, steps, |steps|);
    RecordHolds(c, cfg, who, js, moves, n);
    RequestedEventsCounted(js[n].run.events);
  }

  ghost predicate AllInTime(js: seq<Joint>) { forall i :: 0 <= i < |js| ==> InTime(js[i].run) }

  /** In a timely run every record of a completion or an expiry carries the run's verdict. */
  lemma VerdictRecordsAreTrue(c: Codec, cfg: Config, who: Subject, js: seq<Joint>, moves: seq<Move>, n: nat, i: nat)
    returns (payload: I.Json)
    requires IsJointRun(c, cfg, who, js, moves) && AllInTime(js) && n < |js|
    requires i < |RowsFor(who, js[n].db)| && RowsFor(who, js[n].db)[i].eventType in {COMPLETED_TYPE, EXPIRED_TYPE}
    ensures RowsFor(who, js[n].db)[i].payload == c.encode(payload) && Names(payload, js[n].run.run.state)
    ensures Terminal(js[n].run)
  {
    var s, row := js[n].run, RowsFor(who, js[n].db)[i];
    RecordHolds(c, cfg, who, js, moves, n);
    assert RowFound(c, s.events, row);
    var k :| 0 <= k < |s.events| && Fits(c, s.events[k], row);
    TypesDiffer(s.events[k]);
    payload :| row.payload == c.encode(payload) && Describes(s.events[k], payload);
    var states, steps := Project(c, cfg, who, js, moves, n);
    assert IsTimelyRun(cfg, states, steps) by {
      forall m | 0 <= m < |states| ensures InTime(states[m]) {
        assert states[m] in states;
      }
    }
    EvidenceAgreesWithRun(cfg, states, steps, |steps|);
    assert Supported(s.events[k], s.run.state);
  }
}
