/** The drill protocol: two-person approval, a run id reserved at request time, and
    reconciliation after a crash at any commit between approval and dispatch. */
module Drills {
  import opened Domain
  import L = Ledger

  datatype DrillStatus = PENDING_APPROVAL | APPROVED | STARTED | FAILED | REJECTED

  datatype DrillRow = DrillRow(
    tenant: string, author: string, approver: Option<string>, approvedAt: int, rejectedBy: Option<string>,
    status: DrillStatus, runId: nat)

  /** The dispatcher's idempotency key for a drill. Nothing keeps a caller from using the same text. */
  function ForDrill(d: nat): (key: string)
    ensures key != ""
  {
    "drill:" + L.Decimal(d)
  }

  /** A run as far as the protocol sees it; `stop` is the key of its accepted shutdown request. */
  datatype RunRow = RunRow(tenant: string, stop: Option<string>)

  /** What the holder of the drill lock does next. */
  datatype Pc = Look | CreateRun | RequestStop | MarkStarted | MarkFailed

  /** The approval of one drill, or a recovery pass over the drills it selected. */
  datatype Holder = Nobody | Approving(drill: nat, pc: Pc) | Recovering(queue: seq<nat>, pc: Pc)

  datatype State = State(drills: map<nat, DrillRow>, runs: map<nat, RunRow>, nextId: nat, holder: Holder)

  datatype Step =
    | RequestDrill(tenant: string, author: string)
    | Approve(drill: nat, actor: string, at: int)
    | Reject(drill: nat, actor: string)
    | BeginRecovery(queue: seq<nat>)
    | Dispatch
    | OpenRun(tenant: string)                 // public create_run
    | RequestShutdown(run: nat, key: string)  // public request_shutdown
    | Crash

  // ---- Commits ----

  predicate MayReview(row: DrillRow, actor: string) { row.status == PENDING_APPROVAL && row.author != actor }

  function Approved(row: DrillRow, actor: string, at: int): DrillRow {
    row.(status := APPROVED, approver := Some(actor), approvedAt := at)
  }

  /** `request_shutdown`: the first key wins, its own repetition is accepted, any other conflicts. */
  predicate StopConflicts(run: RunRow, key: string) { run.stop.Some? && run.stop != Some(key) }

  function Stopped(run: RunRow, key: string): RunRow { if run.stop.None? then run.(stop := Some(key)) else run }

  /** The drill the lock holder is working on. */
  function Current(h: Holder): Option<nat> {
    match h
    case Nobody => None
    case Approving(d, _) => Some(d)
    case Recovering(queue, _) => if queue == [] then None else Some(queue[0])
  }

  function PcOf(h: Holder): Pc { if h.Nobody? then Look else h.pc }

  function At(h: Holder, pc: Pc): Holder {
    match h
    case Nobody => Nobody
    case Approving(d, _) => Approving(d, pc)
    case Recovering(queue, _) => Recovering(queue, pc)
  }

  /** After a drill is marked STARTED the approval is over, and a recovery pass goes on. */
  function Done(h: Holder): Holder {
    match h
    case Recovering(queue, _) => if |queue| <= 1 then Nobody else Recovering(queue[1..], Look)
    case _ => Nobody
  }

  /** After an exception the approval records FAILED; a recovery pass is abandoned. */
  function Raised(h: Holder): Holder {
    match h
    case Approving(d, _) => Approving(d, MarkFailed)
    case _ => Nobody
  }

  /** One commit of the dispatch of drill `d`. */
  function Dispatched(s: State, d: nat): State
    requires d in s.drills
  {
    var row := s.drills[d];
    match PcOf(s.holder)
    case Look =>
      s.(holder := At(s.holder, if row.runId !in s.runs then CreateRun
                                else if s.runs[row.runId].stop.None? then RequestStop else MarkStarted))
    case CreateRun =>
      if row.runId in s.runs then s.(holder := Raised(s.holder))
      else s.(runs := s.runs[row.runId := RunRow(row.tenant, None)], holder := At(s.holder, RequestStop))
    case RequestStop =>
      if row.runId !in s.runs || StopConflicts(s.runs[row.runId], ForDrill(d)) then s.(holder := Raised(s.holder))
      else s.(runs := s.runs[row.runId := Stopped(s.runs[row.runId], ForDrill(d))], holder := At(s.holder, MarkStarted))
    case MarkStarted => s.(drills := s.drills[d := row.(status := STARTED)], holder := Done(s.holder))
    case MarkFailed => s.(drills := s.drills[d := row.(status := DrillStatus.FAILED)], holder := Nobody)
  }

  predicate Enabled(s: State, step: Step) {
    match step
    case Approve(d, actor, _) => s.holder.Nobody? && d in s.drills && MayReview(s.drills[d], actor)
    case Reject(d, actor) => s.holder.Nobody? && d in s.drills && MayReview(s.drills[d], actor)
    case BeginRecovery(queue) =>
      && s.holder.Nobody? && queue != []
      && (forall i :: 0 <= i < |queue| ==> queue[i] in s.drills && s.drills[queue[i]].status == APPROVED)
      && (forall i, j :: 0 <= i < j < |queue| ==> queue[i] != queue[j])
    case Dispatch => Current(s.holder).Some? && Current(s.holder).value in s.drills
    case _ => true
  }

  function Apply(s: State, step: Step): State
    requires Enabled(s, step)
  {
    match step
    case RequestDrill(tenant, author) =>
      s.(drills := s.drills[s.nextId := DrillRow(tenant, author, None, 0, None, PENDING_APPROVAL, s.nextId + 1)],
         nextId := s.nextId + 2)
    case Approve(d, actor, at) =>
      s.(drills := s.drills[d := Approved(s.drills[d], actor, at)], holder := Approving(d, CreateRun))
    case Reject(d, actor) =>
      s.(drills := s.drills[d := s.drills[d].(status := REJECTED, rejectedBy := Some(actor))])
    case BeginRecovery(queue) => s.(holder := Recovering(queue, Look))
    case Dispatch => Dispatched(s, Current(s.holder).value)
    case OpenRun(tenant) => s.(runs := s.runs[s.nextId := RunRow(tenant, None)], nextId := s.nextId + 1)
    case RequestShutdown(run, key) =>
      if run in s.runs && key != "" then s.(runs := s.runs[run := Stopped(s.runs[run], key)]) else s
    case Crash => s.(holder := Nobody)
  }

  predicate Init(s: State) { s.drills == map[] && s.runs == map[] && s.holder == Nobody }

  ghost predicate IsRun(states: seq<State>, steps: seq<Step>) {
    && |states| == |steps| + 1 && Init(states[0])
    && forall i :: 0 <= i < |steps| ==> Enabled(states[i], steps[i]) && states[i + 1] == Apply(states[i], steps[i])
  }

  // ---- The invariant ----

  predicate Reviewed(row: DrillRow) { row.approver.Some? && row.approver.value != row.author }

  /** What a drill's status says about its approver and its reserved run. */
  predicate DrillOk(row: DrillRow, runs: map<nat, RunRow>) {
    && (row.status in {APPROVED, STARTED, DrillStatus.FAILED} ==> Reviewed(row))
    && (row.status in {PENDING_APPROVAL, REJECTED} ==> row.runId !in runs)
    && (row.status == STARTED ==> row.runId in runs && runs[row.runId].stop.Some?)
    && (row.runId in runs ==> runs[row.runId].tenant == row.tenant)
  }

  ghost predicate DrillsOk(s: State) {
    && (forall d :: d in s.drills ==> d < s.nextId && s.drills[d].runId < s.nextId && DrillOk(s.drills[d], s.runs))
    && (forall d, e :: d in s.drills && e in s.drills && s.drills[d].runId == s.drills[e].runId ==> d == e)
    && (forall r :: r in s.runs ==> r < s.nextId)
  }

  predicate PcOk(row: DrillRow, runs: map<nat, RunRow>, pc: Pc) {
    match pc
    case Look => true
    case CreateRun => row.runId !in runs
    case RequestStop => row.runId in runs
    case MarkStarted => row.runId in runs && runs[row.runId].stop.Some?
    case MarkFailed => true
  }

  ghost predicate HolderOk(s: State) {
    match s.holder
    case Nobody => true
    case Approving(d, pc) => d in s.drills && s.drills[d].status == APPROVED && PcOk(s.drills[d], s.runs, pc)
    case Recovering(queue, pc) =>
      && queue != [] && pc != MarkFailed
      && (forall i :: 0 <= i < |queue| ==> queue[i] in s.drills && s.drills[queue[i]].status == APPROVED)
      && (forall i, j :: 0 <= i < j < |queue| ==> queue[i] != queue[j])
      && PcOk(s.drills[queue[0]], s.runs, pc)
  }

  ghost predicate Inv(s: State) { DrillsOk(s) && HolderOk(s) }

  /** Writing a run is fine if it is fine for the drill that reserved it. */
  lemma WriteRunKeeps(s: State, r: nat, run: RunRow, h: Holder)
    requires DrillsOk(s) && r < s.nextId
    requires forall d :: d in s.drills && s.drills[d].runId == r ==> DrillOk(s.drills[d], s.runs[r := run])
    ensures DrillsOk(s.(runs := s.runs[r := run], holder := h))
  {
    forall d | d in s.drills ensures DrillOk(s.drills[d], s.runs[r := run]) {
      assert DrillOk(s.drills[d], s.runs);
    }
  }

  lemma WriteDrillKeeps(s: State, d: nat, row: DrillRow, h: Holder)
    requires DrillsOk(s) && d in s.drills && row.runId == s.drills[d].runId && DrillOk(row, s.runs)
    ensures DrillsOk(s.(drills := s.drills[d := row], holder := h))
  {
  }

  lemma DispatchKeepsDrills(s: State)
    requires Inv(s) && Enabled(s, Dispatch)
    ensures DrillsOk(Apply(s, Dispatch))
  {
    var d := Current(s.holder).value;
    var row, h := s.drills[d], Apply(s, Dispatch).holder;
    match PcOf(s.holder)
    case CreateRun => WriteRunKeeps(s, row.runId, RunRow(row.tenant, None), h);
    case RequestStop => WriteRunKeeps(s, row.runId, Stopped(s.runs[row.runId], ForDrill(d)), h);
    case MarkStarted => WriteDrillKeeps(s, d, row.(status := STARTED), h);
    case MarkFailed => WriteDrillKeeps(s, d, row.(status := DrillStatus.FAILED), h);
    case Look =>
  }

  /** While the lock is held, nobody else changes a drill's status, and runs only gain. */
  lemma DispatchKeepsHolder(s: State)
    requires Inv(s) && Enabled(s, Dispatch)
    ensures HolderOk(Apply(s, Dispatch))
  {
  }

  lemma RequestDrillKeeps(s: State, tenant: string, author: string)
    requires Inv(s)
    ensures Inv(Apply(s, RequestDrill(tenant, author)))
  {
    var s' := Apply(s, RequestDrill(tenant, author));
    forall d | d in s'.drills ensures DrillOk(s'.drills[d], s'.runs) {
      assert d in s.drills ==> DrillOk(s.drills[d], s.runs);
    }
  }

  lemma OpenRunKeeps(s: State, tenant: string)
    requires Inv(s)
    ensures Inv(Apply(s, OpenRun(tenant)))
  {
    var s' := Apply(s, OpenRun(tenant));
    forall d | d in s'.drills ensures DrillOk(s'.drills[d], s'.runs) {
      assert d in s.drills && DrillOk(s.drills[d], s.runs);
    }
  }

  lemma StepKeepsInv(s: State, step: Step)
    requires Inv(s) && Enabled(s, step)
    ensures Inv(Apply(s, step))
  {
    match step
    case RequestDrill(tenant, author) => RequestDrillKeeps(s, tenant, author);
    case Approve(d, actor, at) => WriteDrillKeeps(s, d, Approved(s.drills[d], actor, at), Approving(d, CreateRun));
    case Reject(d, actor) => WriteDrillKeeps(s, d, s.drills[d].(status := REJECTED, rejectedBy := Some(actor)),
                                             s.holder);
    case Dispatch =>
      DispatchKeepsDrills(s);
      DispatchKeepsHolder(s);
    case OpenRun(tenant) => OpenRunKeeps(s, tenant);
    case RequestShutdown(run, key) =>
      if run in s.runs && key != "" {
        WriteRunKeeps(s, run, Stopped(s.runs[run], key), s.holder);
      }
    case _ =>
  }

  lemma {:induction false} InvHolds(states: seq<State>, steps: seq<Step>, n: nat)
    requires IsRun(states, steps) && n < |states|
    ensures Inv(states[n])
  {
    if n > 0 {
      InvHolds(states, steps, n - 1);
      assert states[n - 1 + 1] == Apply(states[n - 1], steps[n - 1]);
      StepKeepsInv(states[n - 1], steps[n - 1]);
    }
  }

  // ---- Theorems over every crash point ----

  /** A run with a drill's reserved id exists only once the drill was approved, by somebody other
      than its author; a rejected or pending drill has none; a STARTED drill's run exists and
      its shutdown was requested. */
  lemma DrillProtocol(states: seq<State>, steps: seq<Step>, n: nat, d: nat)
    requires IsRun(states, steps) && n < |states| && d in states[n].drills
    ensures var row := states[n].drills[d];
            && (row.runId in states[n].runs ==>
                  row.status in {APPROVED, STARTED, DrillStatus.FAILED} && Reviewed(row)
                  && states[n].runs[row.runId].tenant == row.tenant)
            && (row.status == STARTED ==> row.runId in states[n].runs && states[n].runs[row.runId].stop.Some?)
  {
    InvHolds(states, steps, n);
    assert DrillOk(states[n].drills[d], states[n].runs);
  }

  /** How a drill row may change: its reservation and author never, its status along the protocol. */
  predicate RowFollows(a: DrillRow, b: DrillRow) {
    && b.runId == a.runId && b.tenant == a.tenant && b.author == a.author
    && (a.status != PENDING_APPROVAL ==> b.approver == a.approver && b.status != PENDING_APPROVAL)
    && (a.status in {STARTED, DrillStatus.FAILED, REJECTED} ==> b.status == a.status)
    && (b.status == REJECTED ==> a.status in {PENDING_APPROVAL, REJECTED})
  }

  ghost predicate DrillsFollow(s: State, s': State) {
    && (forall d :: d in s.drills ==> d in s'.drills && RowFollows(s.drills[d], s'.drills[d]))
    && (forall r :: r in s.runs ==> r in s'.runs && (s.runs[r].stop.Some? ==> s'.runs[r] == s.runs[r]))
  }

  lemma DispatchFollows(s: State)
    requires Inv(s) && Enabled(s, Dispatch)
    ensures DrillsFollow(s, Apply(s, Dispatch))
  {
    var s', d := Apply(s, Dispatch), Current(s.holder).value;
    assert s.drills[d].status == APPROVED;
    forall e | e in s.drills ensures e in s'.drills && RowFollows(s.drills[e], s'.drills[e]) {
      assert e != d ==> s'.drills[e] == s.drills[e];
    }
  }

  lemma StepFollows(s: State, step: Step)
    requires Inv(s) && Enabled(s, step)
    ensures DrillsFollow(s, Apply(s, step))
  {
    if step.Dispatch? {
      DispatchFollows(s);
    } else if step.RequestDrill? {
      assert s.nextId !in s.drills;
    } else if step.OpenRun? {
      assert s.nextId !in s.runs;
    }
  }

  lemma FollowsIsTransitive(x: State, y: State, z: State)
    requires DrillsFollow(x, y) && DrillsFollow(y, z)
    ensures DrillsFollow(x, z)
  {
    forall d | d in x.drills ensures d in z.drills && RowFollows(x.drills[d], z.drills[d]) {
      assert d in y.drills;
    }
  }

  /** Over all crashes and recoveries a drill's reserved run id never changes, STARTED, FAILED and
      REJECTED are final, and the key of a shutdown request is never replaced. */
  lemma {:induction false} ReservationsAreKept(states: seq<State>, steps: seq<Step>, i: nat, j: nat)
    requires IsRun(states, steps) && i <= j < |states|
    ensures DrillsFollow(states[i], states[j])
    decreases j
  {
    if i < j {
      ReservationsAreKept(states, steps, i, j - 1);
      InvHolds(states, steps, j - 1);
      assert states[j - 1 + 1] == Apply(states[j - 1], steps[j - 1]);
      StepFollows(states[j - 1], steps[j - 1]);
      FollowsIsTransitive(states[i], states[j - 1], states[j]);
    }
  }

  // ---- A recovery pass among everything else that happens ----

  ghost predicate AllStarted(s: State, drills: seq<nat>) {
    forall k :: 0 <= k < |drills| ==> drills[k] in s.drills && s.drills[drills[k]].status == STARTED
  }

  /** The pass over `order` has started the first `n` drills and is busy with the next. */
  ghost predicate Passing(s: State, order: seq<nat>, n: nat) {
    n < |order| && s.holder.Recovering? && s.holder.queue == order[n..] && AllStarted(s, order[..n])
  }

  /** The dispatcher's request for the current drill of the pass meets another key. */
  predicate Outrun(s: State, step: Step) {
    && s.holder.Recovering? && step.Dispatch? && s.holder.pc == RequestStop && s.holder.queue != []
    && s.holder.queue[0] in s.drills && s.drills[s.holder.queue[0]].runId in s.runs
    && StopConflicts(s.runs[s.drills[s.holder.queue[0]].runId], ForDrill(s.holder.queue[0]))
  }

  /** The two ways to abandon a pass: the process dies, or another key got in first. */
  predicate Abandons(s: State, step: Step) { s.holder.Recovering? && (step.Crash? || Outrun(s, step)) }

  lemma StartedStays(s: State, step: Step, drills: seq<nat>)
    requires Inv(s) && Enabled(s, step) && AllStarted(s, drills)
    ensures AllStarted(Apply(s, step), drills)
  {
    StepFollows(s, step);
    var s' := Apply(s, step);
    forall k | 0 <= k < |drills| ensures drills[k] in s'.drills && s'.drills[drills[k]].status == STARTED {
      assert RowFollows(s.drills[drills[k]], Apply(s, step).drills[drills[k]]);
    }
  }

  /** A commit of the pass leaves it at the same drill, or with that drill STARTED at the next,
      or at its end. */
  lemma DispatchPasses(s: State, order: seq<nat>, n: nat)
    requires Inv(s) && Enabled(s, Dispatch) && Passing(s, order, n) && !Abandons(s, Dispatch)
    ensures var s' := Apply(s, Dispatch);
            || (s'.holder.Recovering? && s'.holder.queue == order[n..])
            || (s'.drills[order[n]].status == STARTED && s'.holder == Done(s.holder))
  {
    assert s.holder.queue[0] == order[n];
    assert PcOk(s.drills[order[n]], s.runs, s.holder.pc);
  }

  lemma PassGoesOn(s: State, step: Step, order: seq<nat>, n: nat) returns (n': nat)
    requires Inv(s) && Enabled(s, step) && Passing(s, order, n) && !Abandons(s, step)
    ensures Passing(Apply(s, step), order, n') || (Apply(s, step).holder.Nobody? && AllStarted(Apply(s, step), order))
  {
    n' := n;
    var s' := Apply(s, step);
    StartedStays(s, step, order[..n]);
    if step.Dispatch? {
      DispatchPasses(s, order, n);
      if s'.holder == Done(s.holder) && s'.drills[order[n]].status == STARTED {
        assert order[..n + 1] == order[..n] + [order[n]];
        assert order[n..][1..] == order[n + 1..];
        if n + 1 < |order| {
          n' := n + 1;
        } else {
          assert order[..n + 1] == order;
        }
      }
    }
  }

  /** A step ends a pass before its end exactly if it is one of those two. */
  lemma AbandonedExactly(s: State, step: Step, order: seq<nat>, n: nat)
    requires Inv(s) && Enabled(s, step) && Passing(s, order, n)
    ensures Apply(s, step).holder.Nobody? && !AllStarted(Apply(s, step), order) <==> Abandons(s, step)
  {
    var s' := Apply(s, step);
    assert s.holder.queue[0] == order[n];
    if Abandons(s, step) {
      assert order[n] in s.drills && s.drills[order[n]].status == APPROVED;
      assert s'.drills[order[n]].status == APPROVED;
    } else {
      var n' := PassGoesOn(s, step, order, n);
    }
  }

  /** The run of drill `d` is stopped, and no pass is on its way to stop it again. */
  predicate Settled(s: State, d: nat) {
    && d in s.drills && s.drills[d].runId in s.runs && s.runs[s.drills[d].runId].stop.Some?
    && !(s.holder.Recovering? && s.holder.pc == RequestStop && Current(s.holder) == Some(d))
  }

  lemma SettledStays(s: State, step: Step, d: nat)
    requires Inv(s) && Enabled(s, step) && Settled(s, d)
    ensures Settled(Apply(s, step), d)
  {
    StepFollows(s, step);
    assert RowFollows(s.drills[d], Apply(s, step).drills[d]);
    if step.Dispatch? && s.holder.Recovering? {
      assert PcOk(s.drills[s.holder.queue[0]], s.runs, s.holder.pc);
    }
  }

  /** A pass that is outrun settles the drill it is outrun at, which was not settled before. */
  lemma OutrunSettles(s: State, step: Step)
    requires Inv(s) && Enabled(s, step) && Outrun(s, step)
    ensures var d := s.holder.queue[0]; !Settled(s, d) && Settled(Apply(s, step), d)
  {
  }

  /** How many passes were outrun in the first `n` steps. */
  function TimesOutrun(states: seq<State>, steps: seq<Step>, n: nat): nat
    requires |states| == |steps| + 1 && n < |states|
  {
    if n == 0 then 0
    else TimesOutrun(states, steps, n - 1) + if Outrun(states[n - 1], steps[n - 1]) then 1 else 0
  }

  lemma OutrunAt(states: seq<State>, steps: seq<Step>, n: nat, before: set<nat>) returns (after: set<nat>)
    requires IsRun(states, steps) && n < |steps| && forall d :: d in before ==> Settled(states[n], d)
    ensures forall d :: d in after ==> Settled(states[n + 1], d)
    ensures |after| == |before| + if Outrun(states[n], steps[n]) then 1 else 0
  {
    InvHolds(states, steps, n);
    assert Enabled(states[n], steps[n]) && states[n + 1] == Apply(states[n], steps[n]);
    forall d | d in before ensures Settled(states[n + 1], d) {
      SettledStays(states[n], steps[n], d);
    }
    after := before;
    if Outrun(states[n], steps[n]) {
      OutrunSettles(states[n], steps[n]);
      after := before + {states[n].holder.queue[0]};
    }
  }

  lemma {:induction false} OutrunDrills(states: seq<State>, steps: seq<Step>, n: nat) returns (drills: set<nat>)
    requires IsRun(states, steps) && n < |states|
    ensures |drills| == TimesOutrun(states, steps, n) && forall d :: d in drills ==> Settled(states[n], d)
  {
    drills := {};
    if n > 0 {
      drills := OutrunDrills(states, steps, n - 1);
      drills := OutrunAt(states, steps, n - 1, drills);
    }
  }

  lemma {:induction false} SubsetIsSmaller(a: set<nat>, b: set<nat>)
    requires a <= b
    ensures |a| <= |b|
  {
    if a != {} {
      var x :| x in a;
      SubsetIsSmaller(a - {x}, b - {x});
    }
  }

  /** Competing requests cannot hold recovery up forever: over any schedule, however many requests
      compete, at most one pass is lost for each drill there is. */
  lemma OutrunAtMostOncePerDrill(states: seq<State>, steps: seq<Step>, n: nat)
    requires IsRun(states, steps) && n < |states|
    ensures TimesOutrun(states, steps, n) <= |states[n].drills|
  {
    var drills := OutrunDrills(states, steps, n);
    SubsetIsSmaller(drills, states[n].drills.Keys);
  }

  /** The pass begun at step `i` has started everything, or is still at it. */
  ghost predicate UnderWay(s: State, order: seq<nat>) {
    AllStarted(s, order) || exists n :: Passing(s, order, n)
  }

  lemma UnderWayStep(s: State, step: Step, order: seq<nat>)
    requires Inv(s) && Enabled(s, step) && UnderWay(s, order) && !Abandons(s, step)
    ensures UnderWay(Apply(s, step), order)
  {
    if AllStarted(s, order) {
      StartedStays(s, step, order);
    } else {
      var n :| Passing(s, order, n);
      var n' := PassGoesOn(s, step, order, n);
    }
  }

  lemma {:induction false} PassStaysUnderWay(states: seq<State>, steps: seq<Step>, i: nat, j: nat, order: seq<nat>)
    requires IsRun(states, steps) && i < j < |states| && steps[i] == BeginRecovery(order)
    requires forall k :: i < k < j ==> !Abandons(states[k], steps[k])
    ensures UnderWay(states[j], order)
    decreases j
  {
    if j == i + 1 {
      PassBegins(states, steps, i, order);
    } else {
      PassStaysUnderWay(states, steps, i, j - 1, order);
      UnderWayAt(states, steps, j - 1, order);
    }
  }

  lemma PassBegins(states: seq<State>, steps: seq<Step>, i: nat, order: seq<nat>)
    requires IsRun(states, steps) && i < |steps| && steps[i] == BeginRecovery(order)
    ensures UnderWay(states[i + 1], order)
  {
    assert Enabled(states[i], steps[i]) && states[i + 1] == Apply(states[i], steps[i]);
    assert order[0..] == order && Passing(states[i + 1], order, 0);
  }

  lemma UnderWayAt(states: seq<State>, steps: seq<Step>, k: nat, order: seq<nat>)
    requires IsRun(states, steps) && k < |steps| && UnderWay(states[k], order) && !Abandons(states[k], steps[k])
    ensures UnderWay(states[k + 1], order)
  {
    InvHolds(states, steps, k);
    assert Enabled(states[k], steps[k]) && states[k + 1] == Apply(states[k], steps[k]);
    UnderWayStep(states[k], steps[k], order);
  }

  /** One recovery pass with no competing shutdown request: whatever else is requested, created
      or stopped meanwhile, when the pass is over every drill that was APPROVED at its start is
      STARTED, with its shutdown requested. */
  lemma PassStartsAll(states: seq<State>, steps: seq<Step>, i: nat, j: nat, order: seq<nat>, d: nat)
    requires IsRun(states, steps) && i < j < |states| && steps[i] == BeginRecovery(order)
    requires IsSelection(states[i].drills, order) && d in states[i].drills && states[i].drills[d].status == APPROVED
    requires forall k :: i < k < j ==> !Abandons(states[k], steps[k])
    requires states[j].holder.Nobody?
    ensures d in states[j].drills && states[j].drills[d].status == STARTED
    ensures states[j].drills[d].runId == states[i].drills[d].runId && states[j].drills[d].runId in states[j].runs
    ensures states[j].runs[states[j].drills[d].runId].stop.Some?
  {
    PassStaysUnderWay(states, steps, i, j, order);
    InvHolds(states, steps, j);
    ReservationsAreKept(states, steps, i, j);
    var k :| 0 <= k < |order| && order[k] == d;
    assert AllStarted(states[j], order);
    assert DrillOk(states[j].drills[d], states[j].runs);
  }

  /** The steps lead from `s` to `s'`. */
  ghost predicate Follows(s: State, steps: seq<Step>, s': State)
    decreases |steps|
  {
    if steps == [] then s' == s else Enabled(s, steps[0]) && Follows(Apply(s, steps[0]), steps[1..], s')
  }

  lemma {:induction false} FollowsKeepsInv(s: State, steps: seq<Step>, s': State)
    requires Inv(s) && Follows(s, steps, s')
    ensures Inv(s')
    decreases |steps|
  {
    if steps != [] {
      StepKeepsInv(s, steps[0]);
      FollowsKeepsInv(Apply(s, steps[0]), steps[1..], s');
    }
  }

  lemma {:induction false} FollowsOn(s: State, a: seq<Step>, mid: State, b: seq<Step>, s': State)
    requires Follows(s, a, mid) && Follows(mid, b, s')
    ensures Follows(s, a + b, s')
    decreases |a|
  {
    if a == [] {
      assert a + b == b;
    } else {
      FollowsOn(Apply(s, a[0]), a[1..], mid, b, s');
      assert (a + b)[1..] == a[1..] + b;
    }
  }

  lemma OneStep(s: State, step: Step)
    requires Enabled(s, step)
    ensures Follows(s, [step], Apply(s, step))
  {
    assert Follows(Apply(s, step), [], Apply(s, step));
  }

  lemma OneMoreStep(s: State, steps: seq<Step>, mid: State, step: Step)
    requires Follows(s, steps, mid) && Enabled(mid, step)
    ensures Follows(s, steps + [step], Apply(mid, step))
  {
    OneStep(mid, step);
    FollowsOn(s, steps, mid, [step], Apply(mid, step));
  }

  /** Drill 0 was approved and the process died; its run, if it exists, carries `stop`. */
  function Left(created: bool, stop: Option<string>, h: Holder): State {
    State(map[0 := DrillRow("t", "author", Some("approver"), 0, None, APPROVED, 1)],
          if created then map[1 := RunRow("t", stop)] else map[], 2, h)
  }

  lemma ReachPass() returns (steps: seq<Step>)
    ensures Follows(State(map[], map[], 0, Nobody), steps, Left(false, None, Recovering([0], Look)))
    ensures |steps| == 4 && steps[3] == BeginRecovery([0])
  {
    var s0, asked := State(map[], map[], 0, Nobody), RequestDrill("t", "author");
    OneStep(s0, asked);
    var s1 := Apply(s0, asked);
    OneMoreStep(s0, [asked], s1, Approve(0, "approver", 0));
    var s2 := Apply(s1, Approve(0, "approver", 0));
    OneMoreStep(s0, [asked] + [Approve(0, "approver", 0)], s2, Crash);
    assert Apply(s2, Crash) == Left(false, None, Nobody);
    steps := [asked] + [Approve(0, "approver", 0)] + [Crash];
    OneMoreStep(s0, steps, Left(false, None, Nobody), BeginRecovery([0]));
    steps := steps + [BeginRecovery([0])];
  }

  /** Between the creation of a drill's run and the dispatcher's request somebody else stops the
      run with another key: the pass is abandoned and the drill stays APPROVED. */
  lemma CompetingRequestAbandonsPass(key: string) returns (steps: seq<Step>)
    requires key != "" && key != ForDrill(0)
    ensures Follows(State(map[], map[], 0, Nobody), steps, Left(true, Some(key), Nobody))
    ensures |steps| > 3 && steps[3] == BeginRecovery([0])
  {
    var s0 := State(map[], map[], 0, Nobody);
    steps := ReachPass();
    OneMoreStep(s0, steps, Left(false, None, Recovering([0], Look)), Dispatch);
    steps := steps + [Dispatch];
    OneMoreStep(s0, steps, Left(false, None, Recovering([0], CreateRun)), Dispatch);
    steps := steps + [Dispatch];
    OneMoreStep(s0, steps, Left(true, None, Recovering([0], RequestStop)), RequestShutdown(1, key));
    steps := steps + [RequestShutdown(1, key)];
    assert Apply(Left(true, None, Recovering([0], RequestStop)), RequestShutdown(1, key)).runs
           == map[1 := RunRow("t", Some(key))];
    OneMoreStep(s0, steps, Left(true, Some(key), Recovering([0], RequestStop)), Dispatch);
    steps := steps + [Dispatch];
  }

  // ---- An undisturbed pass ----

  datatype Desk = Desk(drills: map<nat, DrillRow>, runs: map<nat, RunRow>)

  /** What recovery makes of one approved drill: its run exists, its shutdown is requested, by
      the dispatcher unless somebody asked before, and the drill is STARTED. */
  function RecoveredRun(runs: map<nat, RunRow>, d: nat, row: DrillRow): RunRow {
    Stopped(if row.runId in runs then runs[row.runId] else RunRow(row.tenant, None), ForDrill(d))
  }

  function RecoverOne(desk: Desk, d: nat): Desk
    requires d in desk.drills
  {
    var row := desk.drills[d];
    Desk(desk.drills[d := row.(status := STARTED)], desk.runs[row.runId := RecoveredRun(desk.runs, d, row)])
  }

  function RecoverAll(desk: Desk, order: seq<nat>): (r: Desk)
    requires forall i :: 0 <= i < |order| ==> order[i] in desk.drills
    ensures r.drills.Keys == desk.drills.Keys
  {
    if order == [] then desk else RecoverOne(RecoverAll(desk, order[..|order| - 1]), order[|order| - 1])
  }

  /** The SELECT: exactly the approved drills, each once, by approval time. */
  ghost predicate IsSelection(drills: map<nat, DrillRow>, order: seq<nat>) {
    && (forall i :: 0 <= i < |order| ==> order[i] in drills && drills[order[i]].status == APPROVED)
    && (forall i, j :: 0 <= i < j < |order| ==>
                         order[i] != order[j] && drills[order[i]].approvedAt <= drills[order[j]].approvedAt)
    && (forall d :: d in drills && drills[d].status == APPROVED ==> d in order)
  }

  ghost predicate DistinctRuns(drills: map<nat, DrillRow>) {
    forall d, e :: d in drills && e in drills && drills[d].runId == drills[e].runId ==> d == e
  }

  lemma {:induction false} DrillAfterPass(desk: Desk, order: seq<nat>, d: nat)
    requires (forall i :: 0 <= i < |order| ==> order[i] in desk.drills) && d in desk.drills
    ensures RecoverAll(desk, order).drills[d] == if d in order then desk.drills[d].(status := STARTED)
            else desk.drills[d]
  {
    if order != [] {
      DrillAfterPass(desk, order[..|order| - 1], d);
      assert order == order[..|order| - 1] + [order[|order| - 1]];
    }
  }

  /** Runs that no selected drill reserved are left alone. */
  lemma {:induction false} OtherRunAfterPass(desk: Desk, order: seq<nat>, r: nat)
    requires forall i :: 0 <= i < |order| ==> order[i] in desk.drills && desk.drills[order[i]].runId != r
    ensures r in RecoverAll(desk, order).runs <==> r in desk.runs
    ensures r in desk.runs ==> RecoverAll(desk, order).runs[r] == desk.runs[r]
  {
    if order != [] {
      OtherRunAfterPass(desk, order[..|order| - 1], r);
      DrillAfterPass(desk, order[..|order| - 1], order[|order| - 1]);
    }
  }

  lemma LastRunAfterPass(desk: Desk, order: seq<nat>)
    requires order != [] && forall i :: 0 <= i < |order| ==> order[i] in desk.drills
    requires forall i :: 0 <= i < |order| - 1 ==> desk.drills[order[i]].runId != desk.drills[order[|order| - 1]].runId
    ensures var d := order[|order| - 1];
            var r, after := desk.drills[d].runId, RecoverAll(desk, order);
            r in after.runs && after.runs[r] == RecoveredRun(desk.runs, d, desk.drills[d])
  {
    var n := |order| - 1;
    DrillAfterPass(desk, order[..n], order[n]);
    OtherRunAfterPass(desk, order[..n], desk.drills[order[n]].runId);
  }

  lemma {:induction false} RunAfterPass(desk: Desk, order: seq<nat>, k: nat)
    requires k < |order| && (forall i :: 0 <= i < |order| ==> order[i] in desk.drills)
    requires forall i, j :: 0 <= i < j < |order| ==> desk.drills[order[i]].runId != desk.drills[order[j]].runId
    ensures var r, after := desk.drills[order[k]].runId, RecoverAll(desk, order);
            r in after.runs && after.runs[r] == RecoveredRun(desk.runs, order[k], desk.drills[order[k]])
  {
    var n := |order| - 1;
    if k == n {
      LastRunAfterPass(desk, order);
    } else {
      RunAfterPass(desk, order[..n], k);
      DrillAfterPass(desk, order[..n], order[n]);
    }
  }

  /** One recovery pass without a competing request takes every approved drill to STARTED with
      its shutdown requested, whichever crash left it behind, and touches no other drill. */
  lemma OnePassStartsAll(desk: Desk, order: seq<nat>, d: nat)
    requires IsSelection(desk.drills, order) && DistinctRuns(desk.drills) && d in desk.drills
    ensures var row, after := desk.drills[d], RecoverAll(desk, order);
            if row.status == APPROVED
            then after.drills[d] == row.(status := STARTED) && row.runId in after.runs
                && after.runs[row.runId].stop.Some?
                 && (row.runId !in desk.runs || desk.runs[row.runId].stop.None? ==>
                       after.runs[row.runId].stop == Some(ForDrill(d)))
            else after.drills[d] == row
  {
    DrillAfterPass(desk, order, d);
    if desk.drills[d].status == APPROVED {
      var k :| 0 <= k < |order| && order[k] == d;
      forall i, j | 0 <= i < j < |order| ensures desk.drills[order[i]].runId != desk.drills[order[j]].runId {
        assert order[i] != order[j];
      }
      RunAfterPass(desk, order, k);
    }
  }
}
