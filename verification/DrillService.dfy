/** The drill operations of the control plane as an object, each a path of the protocol machine. */
module DrillService {
  import opened Domain
  import I = Integrations
  import opened Drills

  // ---- An undisturbed pass can always be completed ----

  /** The look-up and commits the pass makes for one drill. */
  function PassOver(runs: map<nat, RunRow>, row: DrillRow): seq<Step> {
    if row.runId !in runs then [Dispatch, Dispatch, Dispatch, Dispatch]
    else if runs[row.runId].stop.None? then [Dispatch, Dispatch, Dispatch]
    else [Dispatch, Dispatch]
  }

  function After(s: State, desk: Desk, h: Holder): State { s.(drills := desk.drills, runs := desk.runs, holder := h) }

  /** The pass turns to drill `d`. */
  predicate Facing(s: State, d: nat) {
    s.holder.Recovering? && s.holder.pc == Look && s.holder.queue != [] && s.holder.queue[0] == d && d in s.drills
  }

  lemma TailRecovers(s: State, d: nat, steps: seq<Step>, mid: State)
    requires Facing(s, d) && Follows(s, steps, mid) && mid.drills == s.drills && mid.nextId == s.nextId
    requires mid.runs == RecoverOne(Desk(s.drills, s.runs), d).runs && mid.holder == At(s.holder, MarkStarted)
    ensures Follows(s, steps + [Dispatch], After(s, RecoverOne(Desk(s.drills, s.runs), d), Done(s.holder)))
  {
    OneMoreStep(s, steps, mid, Dispatch);
    assert Apply(mid, Dispatch) == After(s, RecoverOne(Desk(s.drills, s.runs), d), Done(s.holder));
  }

  /** Undisturbed, the pass turns one drill into what `RecoverOne` says. */
  lemma DispatchRecovers(s: State, d: nat)
    requires Facing(s, d)
    ensures Follows(s, PassOver(s.runs, s.drills[d]), After(s, RecoverOne(Desk(s.drills, s.runs), d), Done(s.holder)))
  {
    var r := s.drills[d].runId;
    var looked := Apply(s, Dispatch);
    OneStep(s, Dispatch);
    if r !in s.runs {
      var created := Apply(looked, Dispatch);
      OneMoreStep(s, [Dispatch], looked, Dispatch);
      var asked := Apply(created, Dispatch);
      OneMoreStep(s, [Dispatch, Dispatch], created, Dispatch);
      TailRecovers(s, d, [Dispatch, Dispatch, Dispatch], asked);
    } else if s.runs[r].stop.None? {
      var asked := Apply(looked, Dispatch);
      OneMoreStep(s, [Dispatch], looked, Dispatch);
      TailRecovers(s, d, [Dispatch, Dispatch], asked);
    } else {
      assert s.runs[r := s.runs[r]] == s.runs;
      TailRecovers(s, d, [Dispatch], looked);
    }
  }

  /** Who holds the lock when `n` drills of the pass are done. */
  function Remaining(order: seq<nat>, n: nat): Holder
    requires n <= |order|
  {
    if n == |order| then Nobody else Recovering(order[n..], Look)
  }

  lemma BeginPass(s: State, order: seq<nat>) returns (steps: seq<Step>)
    requires s.holder.Nobody? && IsSelection(s.drills, order)
    ensures Follows(s, steps, s.(holder := Remaining(order, 0)))
  {
    if order == [] {
      steps := [];
    } else {
      steps := [BeginRecovery(order)];
      OneStep(s, BeginRecovery(order));
      assert order[0..] == order;
    }
  }

  lemma ContinuePass(before: State, steps: seq<Step>, s: State, order: seq<nat>, n: nat) returns (more: seq<Step>)
    requires n < |order| && order[n] in s.drills && s.holder == Remaining(order, n) && Follows(before, steps, s)
    ensures Follows(before, more, After(s, RecoverOne(Desk(s.drills, s.runs), order[n]), Remaining(order, n + 1)))
  {
    DispatchRecovers(s, order[n]);
    assert order[n..][1..] == order[n + 1..];
    more := steps + PassOver(s.runs, s.drills[order[n]]);
    FollowsOn(before, steps, s, PassOver(s.runs, s.drills[order[n]]),
              After(s, RecoverOne(Desk(s.drills, s.runs), order[n]), Done(s.holder)));
  }

  /** From every state in which nobody holds the lock there is a pass that ends as `RecoverAll`
      says. */
  lemma {:induction false} PassCanComplete(s: State, order: seq<nat>, n: nat) returns (steps: seq<Step>)
    requires s.holder.Nobody? && IsSelection(s.drills, order) && n <= |order|
    ensures Follows(s, steps, After(s, RecoverAll(Desk(s.drills, s.runs), order[..n]), Remaining(order, n)))
  {
    if n == 0 {
      steps := BeginPass(s, order);
    } else {
      steps := PassCanComplete(s, order, n - 1);
      var desk := RecoverAll(Desk(s.drills, s.runs), order[..n - 1]);
      var mid := After(s, desk, Remaining(order, n - 1));
      assert order[..n][..n - 1] == order[..n - 1] && Desk(mid.drills, mid.runs) == desk;
      steps := ContinuePass(s, steps, mid, order, n - 1);
    }
  }

  ghost predicate AllStopped(s: State, drills: map<nat, DrillRow>) {
    forall d :: d in drills && drills[d].status == APPROVED ==>
                  && d in s.drills && s.drills[d] == drills[d].(status := STARTED)
                  && drills[d].runId in s.runs && s.runs[drills[d].runId].stop.Some?
  }

  /** So nothing is ever stuck: from every state, whoever holds the lock and wherever it is, a
      restart and one undisturbed pass start every approved drill and get its run stopped. */
  lemma EveryDrillCanStart(s: State, order: seq<nat>) returns (steps: seq<Step>, s': State)
    requires Inv(s) && IsSelection(s.drills, order)
    ensures Follows(s, [Crash] + steps, s') && s'.holder.Nobody? && AllStopped(s', s.drills)
  {
    var free := Apply(s, Crash);
    OneStep(s, Crash);
    steps := PassCanComplete(free, order, |order|);
    assert order[..|order|] == order;
    s' := After(free, RecoverAll(Desk(s.drills, s.runs), order), Nobody);
    FollowsOn(s, [Crash], free, steps, s');
    forall d | d in s.drills && s.drills[d].status == APPROVED
      ensures d in s'.drills && s'.drills[d] == s.drills[d].(status := STARTED)
      ensures s.drills[d].runId in s'.runs && s'.runs[s.drills[d].runId].stop.Some?
    {
      OnePassStartsAll(Desk(s.drills, s.runs), order, d);
    }
  }

  // ---- Selection ----

  lemma {:induction false} EarliestExists(drills: map<nat, DrillRow>, ids: set<nat>) returns (first: nat)
    requires ids != {} && ids <= drills.Keys
    ensures first in ids && forall x :: x in ids ==> drills[first].approvedAt <= drills[x].approvedAt
    decreases |ids|
  {
    var some :| some in ids;
    first := some;
    var rest := ids - {some};
    if rest != {} {
      var other := EarliestExists(drills, rest);
      if drills[other].approvedAt < drills[some].approvedAt {
        first := other;
      }
    }
    forall x | x in ids ensures drills[first].approvedAt <= drills[x].approvedAt {
      assert x == some || x in rest;
    }
  }

  method SelectApproved(drills: map<nat, DrillRow>) returns (order: seq<nat>)
    ensures IsSelection(drills, order)
  {
    var rest := set d | d in drills.Keys && drills[d].status == APPROVED;
    order := [];
    while rest != {}
      invariant rest <= drills.Keys
      invariant forall d :: d in rest ==> drills[d].status == APPROVED && d !in order
      invariant forall i :: 0 <= i < |order| ==> order[i] in drills && drills[order[i]].status == APPROVED
      invariant forall i, j :: 0 <= i < j < |order| ==>
                  order[i] != order[j] && drills[order[i]].approvedAt <= drills[order[j]].approvedAt
      invariant forall i, d :: 0 <= i < |order| && d in rest ==> drills[order[i]].approvedAt <= drills[d].approvedAt
      invariant forall d :: d in drills && drills[d].status == APPROVED ==> d in order || d in rest
      decreases |rest|
    {
      ghost var candidate := EarliestExists(drills, rest);
      var first :| first in rest && forall x :: x in rest ==> drills[first].approvedAt <= drills[x].approvedAt;
      order := order + [first];
      rest := rest - {first};
    }
  }

  // ---- The object ----

  datatype Approval = Started | Replayed | Failed | NotFound | Conflict

  datatype Rejection = Rejected | NoSuchDrill | NotReviewable | NoReason

  /** The steps that the drill lock does not hold back. */
  predicate Public(step: Step) { step.RequestDrill? || step.OpenRun? || step.RequestShutdown? }

  /** What such steps leave alone: the drills there are, accepted shutdowns, and reserved runs
      that do not exist yet. */
  ghost predicate Undisturbed(s: State, s': State) {
    && s'.holder == s.holder
    && DrillsKept(s.drills, s'.drills)
    && (forall d :: d in s.drills && s.drills[d].runId !in s.runs ==> s.drills[d].runId !in s'.runs)
    && (forall r :: r in s.runs ==> r in s'.runs && s'.runs[r].tenant == s.runs[r].tenant
                                    && (s.runs[r].stop.Some? ==> s'.runs[r] == s.runs[r]))
  }

  ghost predicate DrillsKept(a: map<nat, DrillRow>, b: map<nat, DrillRow>) {
    forall d :: d in a ==> d in b && b[d] == a[d]
  }

  lemma PublicDisturbsNothing(s: State, step: Step)
    requires Inv(s) && Enabled(s, step) && Public(step)
    ensures Undisturbed(s, Apply(s, step))
  {
  }

  lemma UndisturbedTwice(x: State, y: State, z: State)
    requires Undisturbed(x, y) && Undisturbed(y, z)
    ensures Undisturbed(x, z)
  {
  }

  ghost predicate Distinct(order: seq<nat>) { forall i, j :: 0 <= i < j < |order| ==> order[i] != order[j] }

  /** The pass has started the first `n` drills of `order` and left all others as they were. */
  ghost predicate Progress(before: map<nat, DrillRow>, drills: map<nat, DrillRow>, order: seq<nat>, n: nat) {
    && n <= |order|
    && (forall k :: 0 <= k < n ==> order[k] in drills && drills[order[k]].status == STARTED)
    && (forall k :: n <= k < |order| ==> Same(before, drills, order[k]))
    && (forall d :: d in before && d !in order ==> Same(before, drills, d))
  }

  predicate Same(before: map<nat, DrillRow>, drills: map<nat, DrillRow>, d: nat) {
    d in before && d in drills && drills[d] == before[d]
  }

  lemma ProgressGrows(before: map<nat, DrillRow>, drills: map<nat, DrillRow>, drills': map<nat, DrillRow>,
                      order: seq<nat>, n: nat)
    requires Distinct(order) && Progress(before, drills, order, n) && n < |order| && order[n] in drills'
    requires forall e :: e in drills && e != order[n] ==> e in drills' && drills'[e] == drills[e]
    requires drills'[order[n]].status == STARTED
    ensures Progress(before, drills', order, n + 1)
  {
    forall k | 0 <= k < n ensures order[k] != order[n] {
    }
    forall k | n < k < |order| ensures Same(before, drills', order[k]) {
      assert Same(before, drills, order[k]) && order[k] != order[n];
    }
    forall d | d in before && d !in order ensures Same(before, drills', d) {
      assert Same(before, drills, d) && order[n] in order;
    }
  }

  lemma ProgressStays(before: map<nat, DrillRow>, drills: map<nat, DrillRow>, drills': map<nat, DrillRow>,
                      order: seq<nat>, n: nat)
    requires Progress(before, drills, order, n) && n < |order| && order[n] in drills'
    requires forall e :: e in drills && e != order[n] ==> e in drills' && drills'[e] == drills[e]
    requires drills'[order[n]] == drills[order[n]]
    ensures Progress(before, drills', order, n)
  {
    forall k | n <= k < |order| ensures Same(before, drills', order[k]) {
      assert Same(before, drills, order[k]);
    }
    forall d | d in before && d !in order ensures Same(before, drills', d) {
      assert Same(before, drills, d);
    }
  }

  /** What an approval of drill `d` leaves behind. */
  ghost predicate LeftBehind(before: map<nat, DrillRow>, runsBefore: map<nat, RunRow>, drills: map<nat, DrillRow>,
                             runs: map<nat, RunRow>, d: nat, actor: string, at: int, started: bool)
    requires d in before
  {
    var row := before[d];
    && (forall e :: e in before && e != d ==> e in drills && drills[e] == before[e]) && d in drills
    && drills[d] == Approved(row, actor, at).(status := if started then STARTED else DrillStatus.FAILED)
    && row.runId !in runsBefore && row.runId in runs && runs[row.runId].tenant == row.tenant
    && runs[row.runId].stop.Some? && (started <==> runs[row.runId].stop == Some(ForDrill(d)))
  }

  /** The three commits of an approval, put together. */
  lemma ApprovalDispatches(before: map<nat, DrillRow>, runsBefore: map<nat, RunRow>, mid: map<nat, DrillRow>,
                           runs: map<nat, RunRow>, d: nat, actor: string, at: int, started: bool)
    requires d in before && DrillsKept(before[d := Approved(before[d], actor, at)], mid)
    requires var r := before[d].runId;
             && r !in runsBefore && r in runs && runs[r].tenant == before[d].tenant
             && runs[r].stop.Some? && (started <==> runs[r].stop == Some(ForDrill(d)))
    ensures d in mid
    ensures var status := if started then STARTED else DrillStatus.FAILED;
            LeftBehind(before, runsBefore, mid[d := mid[d].(status := status)], runs, d, actor, at, started)
  {
    var approved := before[d := Approved(before[d], actor, at)];
    assert d in approved && mid[d] == approved[d];
    forall e | e in before && e != d ensures e in mid && mid[e] == before[e] {
      assert e in approved && approved[e] == before[e];
    }
  }

  lemma KeptTwice(a: map<nat, DrillRow>, b: map<nat, DrillRow>, c: map<nat, DrillRow>)
    requires DrillsKept(a, b) && DrillsKept(b, c)
    ensures DrillsKept(a, c)
  {
  }

  class DrillDesk {
    var drills: map<nat, DrillRow>
    var runs: map<nat, RunRow>
    var nextId: nat

    /** The machine's state now and the steps that led to it. */
    ghost var m: State
    ghost var trace: seq<Step>

    ghost predicate Valid()
      reads this
    {
      && m.drills == drills && m.runs == runs && m.nextId == nextId && Inv(m)
      && Follows(State(map[], map[], 0, Nobody), trace, m)
    }

    constructor ()
      ensures Valid() && drills == map[] && runs == map[] && m.holder.Nobody?
    {
      drills, runs, nextId, m, trace := map[], map[], 0, State(map[], map[], 0, Nobody), [];
    }

    ghost method Log(step: Step)
      requires Follows(State(map[], map[], 0, Nobody), trace, m) && Inv(m) && Enabled(m, step)
      modifies this`m, this`trace
      ensures m == Apply(old(m), step) && trace == old(trace) + [step]
      ensures Follows(State(map[], map[], 0, Nobody), trace, m) && Inv(m)
    {
      OneMoreStep(State(map[], map[], 0, Nobody), trace, m, step);
      StepKeepsInv(m, step);
      m, trace := Apply(m, step), trace + [step];
    }

    // ---- What other threads may do meanwhile ----

    /** `create_run` by a public caller. */
    method CreateRun(tenant: string) returns (run: nat)
      requires Valid()
      modifies this
      ensures Valid() && Undisturbed(old(m), m) && run !in old(runs) && runs == old(runs)[run := RunRow(tenant, None)]
    {
      PublicDisturbsNothing(m, OpenRun(tenant));
      Log(OpenRun(tenant));
      run := nextId;
      runs, nextId := runs[run := RunRow(tenant, None)], nextId + 1;
    }

    /** `request_shutdown` by a public caller: the first key wins. */
    method RequestShutdown(run: nat, key: string) returns (ok: bool)
      requires Valid()
      modifies this
      ensures Valid() && Undisturbed(old(m), m) && drills == old(drills)
      ensures ok <==> run in old(runs) && key != "" && old(runs)[run].stop in {None, Some(key)}
      ensures runs == if ok then old(runs)[run := old(runs)[run].(stop := Some(key))] else old(runs)
    {
      PublicDisturbsNothing(m, Step.RequestShutdown(run, key));
      Log(Step.RequestShutdown(run, key));
      ok := run in runs && key != "" && !StopConflicts(runs[run], key);
      if ok {
        runs := runs[run := runs[run].(stop := Some(key))];
      } else if run in runs && key != "" {
        assert runs[run := runs[run]] == runs;
      }
    }

    /** `request_drill`: the drill waits for approval and has reserved a run id of its own. */
    method RequestDrill(tenant: string, author: string) returns (d: nat, reserved: nat)
      requires Valid()
      modifies this
      ensures Valid() && Undisturbed(old(m), m) && trace == old(trace) + [Step.RequestDrill(tenant, author)]
      ensures d !in old(drills) && runs == old(runs) && reserved !in runs
      ensures drills == old(drills)[d := DrillRow(tenant, author, None, 0, None, PENDING_APPROVAL, reserved)]
      ensures forall e :: e in old(drills) ==> old(drills)[e].runId != reserved
    {
      PublicDisturbsNothing(m, Step.RequestDrill(tenant, author));
      Log(Step.RequestDrill(tenant, author));
      d, reserved := nextId, nextId + 1;
      drills := drills[d := DrillRow(tenant, author, None, 0, None, PENDING_APPROVAL, reserved)];
      nextId := nextId + 2;
    }

    /** Any number of public calls, while this thread holds the drill lock or not. */
    method Others()
      requires Valid()
      modifies this
      ensures Valid() && Undisturbed(old(m), m)
    {
      var calls: nat := *;
      while calls > 0
        invariant Valid() && Undisturbed(old(m), m)
      {
        ghost var before := m;
        var which: int, who: string, run: nat, key: string := *, *, *, *;
        if which == 0 {
          var _ := CreateRun(who);
        } else if which == 1 {
          var _, _ := RequestDrill(who, key);
        } else {
          var _ := RequestShutdown(run, key);
        }
        UndisturbedTwice(old(m), before, m);
        calls := calls - 1;
      }
    }

    // ---- The dispatcher, under the lock ----

    /** The dispatcher works on drill `d` and is about to do `pc`. */
    ghost predicate Working(d: nat, pc: Pc)
      reads this
    {
      Valid() && Current(m.holder) == Some(d) && PcOf(m.holder) == pc && d in drills
    }

    /** The reserved run is created. */
    method DispatchRun(d: nat)
      requires Working(d, Pc.CreateRun)
      modifies this`runs, this`m, this`trace
      ensures Working(d, RequestStop) && m.holder == At(old(m).holder, RequestStop)
      ensures drills[d].runId !in old(runs)
      ensures runs == old(runs)[drills[d].runId := RunRow(drills[d].tenant, None)]
    {
      Log(Dispatch);
      runs := runs[drills[d].runId := RunRow(drills[d].tenant, None)];
    }

    /** Its shutdown is requested under the drill's key, unless another key got in first. */
    method DispatchStop(d: nat) returns (ok: bool)
      requires Working(d, RequestStop)
      modifies this`runs, this`m, this`trace
      ensures Valid() && drills[d].runId in old(runs) && ok == !StopConflicts(old(runs)[drills[d].runId], ForDrill(d))
      ensures m.holder == if ok then At(old(m).holder, MarkStarted) else Raised(old(m).holder)
      ensures runs == if ok
              then old(runs)[drills[d].runId := RunRow(old(runs)[drills[d].runId].tenant, Some(ForDrill(d)))]
                      else old(runs)
    {
      var r := drills[d].runId;
      Log(Dispatch);
      ok := !StopConflicts(runs[r], ForDrill(d));
      if ok {
        runs := runs[r := runs[r].(stop := Some(ForDrill(d)))];
      }
    }

    /** The same two commits, with other threads at work around them. */
    method DispatchRunAmidst(d: nat)
      requires Working(d, Pc.CreateRun)
      modifies this
      ensures Working(d, RequestStop) && m.holder == At(old(m).holder, RequestStop) && DrillsKept(old(drills), drills)
      ensures drills[d].runId !in old(runs) && drills[d].runId in runs
              && runs[drills[d].runId].tenant == drills[d].tenant
    {
      Others();
      DispatchRun(d);
      Others();
    }

    method DispatchStopAmidst(d: nat) returns (ok: bool)
      requires Working(d, RequestStop)
      modifies this
      ensures Valid() && DrillsKept(old(drills), drills)
      ensures m.holder == if ok then At(old(m).holder, MarkStarted) else Raised(old(m).holder)
      ensures d in drills && drills[d].runId in old(runs) && drills[d].runId in runs
      ensures runs[drills[d].runId].tenant == old(runs)[drills[d].runId].tenant && runs[drills[d].runId].stop.Some?
      ensures ok <==> runs[drills[d].runId].stop == Some(ForDrill(d))
    {
      Others();
      ok := DispatchStop(d);
      Others();
    }

    /** The drill's last commit. */
    method Mark(d: nat, status: DrillStatus)
      requires Working(d, if status == STARTED then MarkStarted else MarkFailed)
               && status in {STARTED, DrillStatus.FAILED}
      modifies this`drills, this`m, this`trace
      ensures Valid() && drills == old(drills)[d := old(drills)[d].(status := status)]
      ensures m.holder == if status == STARTED then Done(old(m).holder) else Nobody
    {
      Log(Dispatch);
      drills := drills[d := drills[d].(status := status)];
    }

    /** `approve_drill`: refused to the author and outside PENDING_APPROVAL; otherwise dispatched
        under the drill's key, whatever other threads do between its commits, and FAILED exactly
        when another key got in first. */
    method ApproveDrill(tenant: string, d: nat, actor: string, at: int) returns (answer: Approval)
      requires Valid() && m.holder.Nobody?
      modifies this
      ensures Valid() && m.holder.Nobody?
      ensures answer.NotFound? <==> !(d in old(drills) && old(drills)[d].tenant == tenant)
      ensures answer.Replayed? <==>
                !answer.NotFound? && old(drills)[d].status == STARTED && old(drills)[d].approver == Some(actor)
      ensures answer.Conflict? <==> !answer.NotFound? && !answer.Replayed? && !MayReview(old(drills)[d], actor)
      ensures answer.NotFound? || answer.Replayed? || answer.Conflict? ==> m == old(m)
      ensures answer.Started? || answer.Failed? ==>
                LeftBehind(old(drills), old(runs), drills, runs, d, actor, at, answer.Started?)
    {
      if d !in drills || drills[d].tenant != tenant {
        return NotFound;
      }
      if drills[d].status != PENDING_APPROVAL {
        return if drills[d].status == STARTED && drills[d].approver == Some(actor) then Replayed else Conflict;
      }
      if drills[d].author == actor {
        return Conflict;
      }
      var started := DispatchApproved(d, actor, at);
      return if started then Started else Failed;
    }


    /** The part of `approve_drill` after its checks. */
    method DispatchApproved(d: nat, actor: string, at: int) returns (started: bool)
      requires Valid() && m.holder.Nobody? && d in drills && MayReview(drills[d], actor)
      modifies this
      ensures Valid() && m.holder.Nobody? && LeftBehind(old(drills), old(runs), drills, runs, d, actor, at, started)
    {
      CommitApproval(d, actor, at);
      ghost var approved := drills;
      DispatchRunAmidst(d);
      ghost var created := drills;
      started := DispatchStopAmidst(d);
      KeptTwice(approved, created, drills);
      ApprovalDispatches(old(drills), old(runs), drills, runs, d, actor, at, started);
      Mark(d, if started then STARTED else DrillStatus.FAILED);
    }

    method CommitApproval(d: nat, actor: string, at: int)
      requires Valid() && m.holder.Nobody? && d in drills && MayReview(drills[d], actor)
      modifies this`drills, this`m, this`trace
      ensures Working(d, Pc.CreateRun) && m.holder.Approving?
      ensures drills == old(drills)[d := Approved(old(drills)[d], actor, at)]
    {
      Log(Approve(d, actor, at));
      drills := drills[d := Approved(drills[d], actor, at)];
    }

    /** `reject_drill`. */
    method RejectDrill(tenant: string, d: nat, actor: string, reason: string) returns (answer: Rejection)
      requires Valid() && m.holder.Nobody?
      modifies this
      ensures Valid() && m.holder.Nobody? && runs == old(runs)
      ensures answer.NoReason? <==> forall i :: 0 <= i < |reason| ==> I.IsSpace(reason[i])
      ensures answer.NoSuchDrill? <==> !answer.NoReason? && !(d in old(drills) && old(drills)[d].tenant == tenant)
      ensures answer.NotReviewable? <==> !answer.NoReason? && !answer.NoSuchDrill? && !MayReview(old(drills)[d], actor)
      ensures drills == if answer.Rejected?
              then old(drills)[d := old(drills)[d].(status := REJECTED, rejectedBy := Some(actor))]
                        else old(drills)
    {
      if forall i :: 0 <= i < |reason| ==> I.IsSpace(reason[i]) {
        return NoReason;
      }
      if d !in drills || drills[d].tenant != tenant {
        return NoSuchDrill;
      }
      if drills[d].status != PENDING_APPROVAL || drills[d].author == actor {
        return NotReviewable;
      }
      Log(Reject(d, actor));
      drills := drills[d := drills[d].(status := REJECTED, rejectedBy := Some(actor))];
      return Rejected;
    }

    // ---- Recovery ----

    /** The body of the recovery loop: reconcile one approved drill with its run and mark it
        STARTED; `false` is the conflict that abandons the pass. */
    method RecoverDrill(d: nat) returns (ok: bool)
      requires Working(d, Look) && m.holder.Recovering?
      modifies this
      ensures Valid() && old(m).holder.Recovering? && m.holder == if ok then Done(old(m).holder) else Nobody
      ensures forall e :: e in old(drills) && e != d ==> e in drills && drills[e] == old(drills)[e]
      ensures d in drills && drills[d] == if ok then old(drills)[d].(status := STARTED) else old(drills)[d]
      ensures drills[d].runId in runs && runs[drills[d].runId].stop.Some?
      ensures !ok ==> runs[drills[d].runId].stop != Some(ForDrill(d))
    {
      LookUp(d);
      ok := EnsureStopped(d);
      if ok {
        Mark(d, STARTED);
      }
    }

    /** What is missing of the run and of its shutdown request is supplied. */
    method EnsureStopped(d: nat) returns (ok: bool)
      requires d in drills
      requires Working(d, if drills[d].runId !in runs then Pc.CreateRun
                          else if runs[drills[d].runId].stop.None? then RequestStop else MarkStarted)
      modifies this
      ensures Valid() && DrillsKept(old(drills), drills)
      ensures m.holder == if ok then At(old(m).holder, MarkStarted) else Raised(old(m).holder)
      ensures drills[d].runId in runs && runs[drills[d].runId].stop.Some?
      ensures !ok ==> runs[drills[d].runId].stop != Some(ForDrill(d))
    {
      ok := true;
      if drills[d].runId !in runs {
        DispatchRunAmidst(d);
        ok := DispatchStopAmidst(d);
      } else if runs[drills[d].runId].stop.None? {
        ok := DispatchStopAmidst(d);
      }
    }

    /** `get_run` tells what is left to do. */
    ghost method LookUp(d: nat)
      requires Working(d, Look)
      modifies this`m, this`trace
      ensures Working(d, if drills[d].runId !in runs then Pc.CreateRun
                         else if runs[drills[d].runId].stop.None? then RequestStop else MarkStarted)
      ensures m.holder == At(old(m).holder, PcOf(m.holder))
    {
      Log(Dispatch);
    }

    /** The pass begins, if there is anything to do. */
    ghost method Begin(order: seq<nat>)
      requires Valid() && m.holder.Nobody? && IsSelection(drills, order)
      modifies this`m, this`trace
      ensures Valid() && m.holder == Remaining(order, 0) && Distinct(order) && Progress(drills, drills, order, 0)
    {
      if order != [] {
        Log(BeginRecovery(order));
        assert order[0..] == order;
      }
    }

    /** One round of the recovery loop. */
    method RecoverNext(order: seq<nat>, n: nat, ghost before: map<nat, DrillRow>) returns (ok: bool)
      requires n < |order| && Distinct(order) && Progress(before, drills, order, n) && Valid()
      requires m.holder == Remaining(order, n)
      modifies this
      ensures Valid() && Progress(before, drills, order, if ok then n + 1 else n)
      ensures m.holder == if ok then Remaining(order, n + 1) else Nobody
      ensures !ok ==> Refused(order[n])
    {
      ghost var now := drills;
      assert Same(before, drills, order[n]);
      assert m.holder.queue[0] == order[n];
      ok := RecoverDrill(order[n]);
      assert order[n..][1..] == order[n + 1..];
      if ok {
        ProgressGrows(before, now, drills, order, n);
      } else {
        ProgressStays(before, now, drills, order, n);
      }
    }

    /** Another key than the drill's stopped its run, and the drill waits for the next pass. */
    ghost predicate Refused(d: nat)
      reads this
    {
      && d in drills && drills[d].status == APPROVED && drills[d].runId in runs
      && StopConflicts(runs[drills[d].runId], ForDrill(d))
    }

    /** `recover_approved_drills`, whatever other threads do meanwhile: every drill it counts is
        STARTED, it leaves the others alone, and it counts all that were APPROVED unless another
        key got in first for one of them. */
    method RecoverApprovedDrills() returns (recovered: nat, order: seq<nat>, abandoned: bool)
      requires Valid() && m.holder.Nobody?
      modifies this
      ensures Valid() && m.holder.Nobody? && IsSelection(old(drills), order)
              && Progress(old(drills), drills, order, recovered)
      ensures abandoned <==> recovered < |order|
      ensures abandoned ==> Refused(order[recovered])
    {
      order := SelectApproved(drills);
      recovered, abandoned := 0, false;
      Begin(order);
      while recovered < |order|
        invariant Distinct(order) && Valid() && Progress(old(drills), drills, order, recovered)
                  && m.holder == Remaining(order, recovered)
      {
        var ok := RecoverNext(order, recovered, old(drills));
        if !ok {
          abandoned := true;
          return;
        }
        recovered := recovered + 1;
      }
    }
  }
}
