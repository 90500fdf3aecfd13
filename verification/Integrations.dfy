/** The Kubernetes adapter's probe classifiers. A transport is arbitrary: every call either
    fails or returns any status with any body, and a resource listing returns any items. */
module Integrations {
  import opened Domain

  /** `JNotFinite` is NaN or an infinity, to which a literal beyond the float range also parses. */
  datatype Json =
    | JNull
    | JBool(b: bool)
    | JNum(n: int)
    | JReal(x: real)
    | JNotFinite
    | JStr(s: string)
    | JArr(items: seq<Json>)
    | JObj(fields: map<string, Json>)

  datatype Http = Down | Reply(status: int, body: Json)

  /** One listed resource. `name` is `None` when the metadata cannot be read; `status` is
      `None` when the item carries no status. */
  datatype Item = Item(name: Option<string>, status: Option<Json>)

  datatype Listing = Unavailable | Items(items: seq<Item>)

  /** Everything one probe call can learn from outside. */
  datatype World = World(
    runPods: Listing, parentPods: Listing, jobs: Listing, cronjobs: Listing,
    publish: Http, consume: Http,
    grant: Http, credential: Http,
    egressNew: Http, egressExisting: Http)

  /** Which probes the deployment configured, and whether the agent's namespace is allowlisted. */
  datatype Config = Config(namespaceAllowed: bool, kafka: bool, credential: bool, egress: bool)

  // ---- Resource listings ----

  /** The items of both label selectors keyed by name; a later item replaces an earlier one.
      `None` is the exception raised by an unreadable name. */
  function Keyed(items: seq<Item>): Option<map<string, Item>> {
    if items == [] then Some(map[])
    else
      var last := items[|items| - 1];
      var rest := Keyed(items[..|items| - 1]);
      if rest.None? || last.name.None? then None
      else Some(rest.value[last.name.value := last])
  }

  function Related(run: Listing, parent: Listing): Option<map<string, Item>> {
    if run.Unavailable? || parent.Unavailable? then None else Keyed(run.items + parent.items)
  }

  /** `_related`: both listings, one item after another. */
  method CollectRelated(run: Listing, parent: Listing) returns (items: Option<map<string, Item>>)
    ensures items == Related(run, parent)
  {
    if run.Unavailable? || parent.Unavailable? {
      return None;
    }
    var all := run.items + parent.items;
    var found: map<string, Item> := map[];
    var i := 0;
    while i < |all|
      invariant 0 <= i <= |all|
      invariant Keyed(all[..i]) == Some(found)
    {
      assert all[..i + 1][..i] == all[..i];
      if all[i].name.None? {
        UnreadableName(all, i);
        return None;
      }
      found := found[all[i].name.value := all[i]];
      i := i + 1;
    }
    assert all[..i] == all;
    return Some(found);
  }

  lemma {:induction false} UnreadableName(items: seq<Item>, i: nat)
    requires i < |items| && items[i].name.None?
    ensures Keyed(items).None?
  {
    if i < |items| - 1 {
      UnreadableName(items[..|items| - 1], i);
    }
  }

  /** The status object of an item, `None` when reading it would raise. */
  function StatusFields(item: Item): Option<map<string, Json>> {
    match item.status
    case None => Some(map[])
    case Some(JObj(fields)) => Some(fields)
    case Some(_) => None
  }

  function Field(fields: map<string, Json>, key: string): Json {
    if key in fields then fields[key] else JNull
  }

  /** Whether a pod still runs; `None` when its status cannot be read. */
  function PodActive(item: Item): Option<bool> {
    match StatusFields(item)
    case None => None
    case Some(fields) =>
      match Field(fields, "phase")
      case JStr(p) => Some(p != "Succeeded" && p != "Failed")
      case JArr(_) => None
      case JObj(_) => None
      case _ => Some(true)
  }

  function CronJobActive(item: Item): Option<bool> {
    match StatusFields(item)
    case None => None
    case Some(fields) => Some(Field(fields, "active") != JNull && Field(fields, "active") != JArr([]))
  }

  /** `int(active) > 0` with a default of 0 when the key is absent. */
  function JobActive(item: Item): Option<bool> {
    match StatusFields(item)
    case None => None
    case Some(fields) =>
      if "active" !in fields then Some(false)
      else match AsInt(fields["active"])
        case None => None
        case Some(n) => Some(n > 0)
  }

  // ---- int() of a JSON value ----

  predicate IsSpace(c: char) { 9 <= c as int <= 13 || 28 <= c as int <= 32 }

  predicate IsDigit(c: char) { '0' <= c <= '9' }

  function Stripped(s: string): string {
    if s == "" then s
    else if IsSpace(s[0]) then Stripped(s[1..])
    else if IsSpace(s[|s| - 1]) then Stripped(s[..|s| - 1])
    else s
  }

  /** Decimal digits, single underscores allowed between them. */
  function ReadDigits(s: string): Option<nat> {
    if s == "" || !IsDigit(s[|s| - 1]) then None
    else
      var digit, front := s[|s| - 1] as int - '0' as int, s[..|s| - 1];
      if front == "" then Some(digit)
      else
        match ReadDigits(if front[|front| - 1] == '_' then front[..|front| - 1] else front)
        case None => None
        case Some(n) => Some(10 * n + digit)
  }

  /** `int` of a text: `None` is the exception it raises. */
  function ReadInt(text: string): Option<int> {
    var s := Stripped(text);
    if s == "" then None
    else
      match ReadDigits(if s[0] in {'-', '+'} then s[1..] else s)
      case None => None
      case Some(n) => Some(if s[0] == '-' then -(n as int) else n)
  }

  /** `int` drops the fraction, whatever the sign. */
  function Truncate(x: real): int { if x >= 0.0 then x.Floor else -(-x).Floor }

  /** `int` of a JSON value: `None` is the exception, also for a number that is not finite. */
  function AsInt(value: Json): Option<int> {
    match value
    case JNum(n) => Some(n)
    case JBool(b) => Some(if b then 1 else 0)
    case JReal(x) => Some(Truncate(x))
    case JStr(text) => ReadInt(text)
    case _ => None
  }

  // ---- Discovery, and the rows `_save_delegated_jobs` makes of it ----

  datatype ChildSystem = Jobs | CronJobs

  /** A child as `discover_children` reports it; an absent status is reported as an empty object. */
  datatype Child = Child(system: ChildSystem, name: string, status: Json)

  function ChildrenOf(system: ChildSystem, items: seq<Item>): Option<seq<Child>> {
    if items == [] then Some([])
    else
      var last := items[|items| - 1];
      var rest := ChildrenOf(system, items[..|items| - 1]);
      if rest.None? || last.name.None? then None
      else
        var status := if last.status.Some? then last.status.value else JObj(map[]);
        Some(rest.value + [Child(system, last.name.value, status)])
  }

  /** `discover_children`: `None` when a listing or a name cannot be read. */
  function Discovered(jobs: Listing, cronjobs: Listing): Option<seq<Child>> {
    if jobs.Unavailable? || cronjobs.Unavailable? then None
    else
      var a, b := ChildrenOf(Jobs, jobs.items), ChildrenOf(CronJobs, cronjobs.items);
      if a.None? || b.None? then None else Some(a.value + b.value)
  }

  /** `UNSEEN` is the label UNKNOWN of the table, a name that run states take here. */
  datatype JobStatus = ACTIVE | INACTIVE | UNSEEN

  function StatusOf(fields: map<string, Json>): JobStatus {
    if Field(fields, "active") !in {JNull, JArr([]), JNum(0), JBool(false), JReal(0.0)} then ACTIVE
    else if fields != map[] then INACTIVE
    else UNSEEN
  }

  type JobTable = map<(ChildSystem, string), JobStatus>

  /** Saving raises as soon as a status is not an object; then nothing is written. */
  predicate Savable(children: seq<Child>) { forall i :: 0 <= i < |children| ==> children[i].status.JObj? }

  /** The table after saving: one row per system and name, the last report winning. */
  function Saved(jobs: JobTable, children: seq<Child>): JobTable
    requires Savable(children)
  {
    if children == [] then jobs
    else
      var n := |children| - 1;
      Saved(jobs, children[..n])[(children[n].system, children[n].name) := StatusOf(children[n].status.fields)]
  }

  /** The loop of `_save_delegated_jobs`; `None` is the exception, which rolls everything back. */
  method SaveChildren(jobs: JobTable, children: seq<Child>) returns (saved: Option<JobTable>)
    ensures saved.None? <==> exists i :: 0 <= i < |children| && !children[i].status.JObj?
    ensures saved.Some? ==> Savable(children) && saved.value == Saved(jobs, children)
  {
    var table := jobs;
    for i := 0 to |children|
      invariant Savable(children[..i]) && table == Saved(jobs, children[..i])
    {
      if !children[i].status.JObj? {
        return None;
      }
      assert children[..i + 1][..i] == children[..i];
      table := table[(children[i].system, children[i].name) := StatusOf(children[i].status.fields)];
    }
    assert children[..|children|] == children;
    return Some(table);
  }

  /** A status that is there and is not an object. */
  ghost predicate Illegible(item: Item) { item.status.Some? && !item.status.value.JObj? }

  ghost predicate ListsIllegible(listing: Listing) {
    listing.Items? && exists i :: 0 <= i < |listing.items| && Illegible(listing.items[i])
  }

  lemma {:induction false} ChildrenMatchItems(system: ChildSystem, items: seq<Item>)
    requires ChildrenOf(system, items).Some?
    ensures var children := ChildrenOf(system, items).value;
            && |children| == |items|
            && forall i :: 0 <= i < |items| ==> (children[i].status.JObj? <==> !Illegible(items[i]))
  {
    if items != [] {
      ChildrenMatchItems(system, items[..|items| - 1]);
    }
  }

  /** Saving what the cluster listed raises if and only if some listed child has a status that
      is present and not an object. */
  lemma SaveRaisesExactly(jobs: Listing, cronjobs: Listing)
    requires Discovered(jobs, cronjobs).Some?
    ensures !Savable(Discovered(jobs, cronjobs).value) <==> ListsIllegible(jobs) || ListsIllegible(cronjobs)
  {
    ChildrenMatchItems(Jobs, jobs.items);
    ChildrenMatchItems(CronJobs, cronjobs.items);
    var a, b := ChildrenOf(Jobs, jobs.items).value, ChildrenOf(CronJobs, cronjobs.items).value;
    var all := a + b;
    if i :| 0 <= i < |a| && Illegible(jobs.items[i]) {
      assert !all[i].status.JObj?;
    }
    if i :| 0 <= i < |b| && Illegible(cronjobs.items[i]) {
      assert !all[|a| + i].status.JObj?;
    }
    if i :| 0 <= i < |all| && !all[i].status.JObj? {
      assert if i < |a| then Illegible(jobs.items[i]) else Illegible(cronjobs.items[i - |a|]);
    }
  }

  /** FAIL if something is active, PASS if nothing is, UNKNOWN if any item cannot be read. */
  function Verdict(statuses: set<Option<bool>>): ProbeResult {
    if None in statuses then Unknown
    else if Some(true) in statuses then Fail
    else Pass
  }

  function ProcessProbe(w: World): ProbeResult {
    match Related(w.runPods, w.parentPods)
    case None => Unknown
    case Some(pods) => Verdict(set name | name in pods :: PodActive(pods[name]))
  }

  function DelegationProbe(w: World): ProbeResult {
    if w.jobs.Unavailable? || w.cronjobs.Unavailable? then Unknown
    else if exists i | 0 <= i < |w.jobs.items + w.cronjobs.items| :: (w.jobs.items + w.cronjobs.items)[i].name.None?
    then Unknown
    else Verdict((set i | 0 <= i < |w.jobs.items| :: JobActive(w.jobs.items[i]))
                 + (set i | 0 <= i < |w.cronjobs.items| :: CronJobActive(w.cronjobs.items[i])))
  }

  // ---- Authority probes ----

  function KafkaProbe(w: World): ProbeResult {
    if w.publish.Down? || w.consume.Down? then Unknown
    else
      var statuses := {w.publish.status, w.consume.status};
      if statuses <= {401, 403} then Pass
      else if statuses * {200, 201, 204} != {} then Fail
      else Unknown
  }

  /** Whether the old credential still works; `None` when the broker's answer is ambiguous. */
  function CredentialActive(h: Http): Option<bool>
    requires h.Reply? && h.body.JObj?
  {
    if h.status in {401, 403, 404} then Some(false)
    else if h.status == 200 && Field(h.body.fields, "active").JBool? then Some(Field(h.body.fields, "active").b)
    else None
  }

  function CredentialProbe(w: World): ProbeResult {
    if w.grant.Down? || w.credential.Down? || !w.credential.body.JObj? then Unknown
    else
      var denied := w.grant.status in {401, 403};
      var accepted := w.grant.status in {200, 201, 202, 204};
      var active := CredentialActive(w.credential);
      if denied && active == Some(false) then Pass
      else if accepted || active == Some(true) then Fail
      else Unknown
  }

  /** The gateway's decision, `None` when it is ambiguous, and the exception raised when a
      successful reply is not an object. */
  datatype Decision = Raises | Decided(allowed: Option<bool>)

  function Allowed(h: Http): Decision
    requires h.Reply?
  {
    if h.status in {401, 403, 451} then Decided(Some(false))
    else if 200 <= h.status < 300 then
      if !h.body.JObj? then Raises
      else if Field(h.body.fields, "allowed").JBool? then Decided(Some(Field(h.body.fields, "allowed").b))
      else Decided(None)
    else Decided(None)
  }

  function EgressProbe(w: World): ProbeResult {
    if w.egressNew.Down? || w.egressExisting.Down? then Unknown
    else
      var n, e := Allowed(w.egressNew), Allowed(w.egressExisting);
      if n.Raises? || e.Raises? then Unknown
      else if n.allowed == Some(false) && e.allowed == Some(false) then Pass
      else if n.allowed == Some(true) || e.allowed == Some(true) then Fail
      else Unknown
  }

  /** `KubernetesKafkaAdapter.probe` for an allowlisted namespace. */
  function KubernetesProbe(c: Config, w: World, kind: ProbeKind): ProbeResult {
    match kind
    case Process => ProcessProbe(w)
    case Delegation => DelegationProbe(w)
    case Kafka => if c.kafka then KafkaProbe(w) else Unknown
    case Credential => if c.credential then CredentialProbe(w) else Unknown
    case Network => if c.egress then EgressProbe(w) else Unknown
    case Restart => Unknown
  }

  // ---- What a PASS means, said without the classifiers ----

  /** The boundary `kind` was observed and found closed. */
  ghost predicate Closed(c: Config, w: World, kind: ProbeKind) {
    match kind
    case Process =>
      && w.runPods.Items? && w.parentPods.Items?
      && (forall i :: 0 <= i < |w.runPods.items + w.parentPods.items| ==>
            Readable((w.runPods.items + w.parentPods.items)[i]))
      && (forall i :: 0 <= i < |w.runPods.items + w.parentPods.items| ==>
            LastOfName(w.runPods.items + w.parentPods.items, i) ==>
            PodFinished((w.runPods.items + w.parentPods.items)[i]))
    case Delegation =>
      && w.jobs.Items? && w.cronjobs.Items?
      && (forall i :: 0 <= i < |w.jobs.items| ==> Readable(w.jobs.items[i]) && JobIdle(w.jobs.items[i]))
      && (forall i :: 0 <= i < |w.cronjobs.items| ==> Readable(w.cronjobs.items[i]) && CronJobIdle(w.cronjobs.items[i]))
    case Kafka =>
      c.kafka && Denied(w.publish, {401, 403}) && Denied(w.consume, {401, 403})
    case Credential =>
      && c.credential && Denied(w.grant, {401, 403})
      && w.credential.Reply? && w.credential.body.JObj?
      && (w.credential.status in {401, 403, 404}
          || (w.credential.status == 200 && Says(w.credential.body, "active", false)))
    case Network =>
      c.egress && EgressDenied(w.egressNew) && EgressDenied(w.egressExisting)
    case Restart => false
  }

  ghost predicate Readable(item: Item) { item.name.Some? }

  /** No later item of the listing carries the same name. */
  ghost predicate LastOfName(items: seq<Item>, i: int)
    requires 0 <= i < |items|
  {
    forall j :: i < j < |items| ==> items[j].name != items[i].name
  }

  ghost predicate Says(body: Json, key: string, value: bool) {
    body.JObj? && key in body.fields && body.fields[key] == JBool(value)
  }

  ghost predicate PodFinished(item: Item) {
    item.status.Some? && item.status.value.JObj? && "phase" in item.status.value.fields
    && item.status.value.fields["phase"] in {JStr("Succeeded"), JStr("Failed")}
  }

  ghost predicate JobIdle(item: Item) {
    item.status.None?
    || (item.status.value.JObj?
        && ("active" in item.status.value.fields ==>
              var n := AsInt(item.status.value.fields["active"]); n.Some? && n.value <= 0))
  }

  ghost predicate CronJobIdle(item: Item) {
    item.status.None?
    || (item.status.value.JObj?
        && ("active" in item.status.value.fields ==>
              item.status.value.fields["active"] in {JNull, JArr([])}))
  }

  ghost predicate Denied(h: Http, statuses: set<int>) { h.Reply? && h.status in statuses }

  ghost predicate EgressDenied(h: Http) {
    Denied(h, {401, 403, 451}) || (h.Reply? && 200 <= h.status < 300 && Says(h.body, "allowed", false))
  }

  lemma {:induction false} KeyedWhenReadable(items: seq<Item>)
    ensures Keyed(items).Some? <==> forall i :: 0 <= i < |items| ==> Readable(items[i])
  {
    if items != [] {
      var n := |items| - 1;
      KeyedWhenReadable(items[..n]);
      assert items == items[..n] + [items[n]];
    }
  }

  /** The collected map holds the last item of every name ... */
  lemma {:induction false} KeyedHoldsLast(items: seq<Item>, i: nat)
    requires Keyed(items).Some? && i < |items| && LastOfName(items, i)
    ensures items[i].name.Some? && items[i].name.value in Keyed(items).value
    ensures Keyed(items).value[items[i].name.value] == items[i]
  {
    var n := |items| - 1;
    if i < n {
      assert items[n].name != items[i].name;
      KeyedHoldsLast(items[..n], i);
    }
  }

  /** ... and nothing else. */
  lemma {:induction false} KeyedIsLast(items: seq<Item>, name: string) returns (i: nat)
    requires Keyed(items).Some? && name in Keyed(items).value
    ensures i < |items| && LastOfName(items, i) && items[i].name == Some(name)
    ensures Keyed(items).value[name] == items[i]
  {
    var n := |items| - 1;
    if Some(name) == items[n].name {
      i := n;
    } else {
      i := KeyedIsLast(items[..n], name);
    }
  }

  lemma ProcessPassImpliesClosed(c: Config, w: World)
    requires ProcessProbe(w) == Pass
    ensures Closed(c, w, Process)
  {
    var all := w.runPods.items + w.parentPods.items;
    KeyedWhenReadable(all);
    var pods := Keyed(all).value;
    forall i | 0 <= i < |all| && LastOfName(all, i) ensures PodFinished(all[i]) {
      KeyedHoldsLast(all, i);
      assert PodActive(pods[all[i].name.value]) in set name | name in pods :: PodActive(pods[name]);
    }
  }

  lemma ClosedImpliesProcessPass(c: Config, w: World)
    requires Closed(c, w, Process)
    ensures ProcessProbe(w) == Pass
  {
    var all := w.runPods.items + w.parentPods.items;
    KeyedWhenReadable(all);
    var pods := Keyed(all).value;
    forall name | name in pods ensures PodActive(pods[name]) == Some(false) {
      var i := KeyedIsLast(all, name);
      assert PodFinished(all[i]);
    }
  }

  lemma DelegationPassExactly(c: Config, w: World)
    ensures DelegationProbe(w) == Pass <==> Closed(c, w, Delegation)
  {
    if w.jobs.Items? && w.cronjobs.Items? {
      var all := w.jobs.items + w.cronjobs.items;
      var jobs := set i | 0 <= i < |w.jobs.items| :: JobActive(w.jobs.items[i]);
      var crons := set i | 0 <= i < |w.cronjobs.items| :: CronJobActive(w.cronjobs.items[i]);
      if DelegationProbe(w) == Pass {
        forall i | 0 <= i < |w.jobs.items| ensures Readable(w.jobs.items[i]) && JobIdle(w.jobs.items[i]) {
          assert all[i] == w.jobs.items[i];
          assert JobActive(w.jobs.items[i]) in jobs + crons;
        }
        forall i | 0 <= i < |w.cronjobs.items|
          ensures Readable(w.cronjobs.items[i]) && CronJobIdle(w.cronjobs.items[i])
        {
          assert all[|w.jobs.items| + i] == w.cronjobs.items[i];
          assert CronJobActive(w.cronjobs.items[i]) in jobs + crons;
        }
      }
      if Closed(c, w, Delegation) {
        forall i | 0 <= i < |all| ensures all[i].name.Some? {
          assert i < |w.jobs.items| ==> Readable(w.jobs.items[i]);
          assert i >= |w.jobs.items| ==> Readable(w.cronjobs.items[i - |w.jobs.items|]);
        }
        forall s | s in jobs + crons ensures s == Some(false) {}
      }
    }
  }

  /** Fail closed, exactly: for every transport behaviour a probe passes if and only if its
      boundary is configured, was observed and is closed. */
  lemma PassMeansClosed(c: Config, w: World, kind: ProbeKind)
    ensures KubernetesProbe(c, w, kind) == Pass <==> Closed(c, w, kind)
  {
    match kind
    case Process =>
      if ProcessProbe(w) == Pass {
        ProcessPassImpliesClosed(c, w);
      } else if Closed(c, w, Process) {
        ClosedImpliesProcessPass(c, w);
      }
    case Delegation => DelegationPassExactly(c, w);
    case Kafka => KafkaExactly(c, w);
    case Credential => CredentialExactly(c, w);
    case Network => NetworkExactly(c, w);
    case Restart =>
  }

  // ---- What a FAIL means ----

  /** The boundary `kind` was observed without ambiguity where it matters, and found open. */
  ghost predicate Breached(c: Config, w: World, kind: ProbeKind) {
    match kind
    case Process =>
      && w.runPods.Items? && w.parentPods.Items? && PodsBreached(w.runPods.items + w.parentPods.items)
    case Delegation =>
      && w.jobs.Items? && w.cronjobs.Items?
      && (forall i :: 0 <= i < |w.jobs.items| ==> Readable(w.jobs.items[i]) && JobLegible(w.jobs.items[i]))
      && (forall i :: 0 <= i < |w.cronjobs.items| ==>
                        Readable(w.cronjobs.items[i]) && CronJobLegible(w.cronjobs.items[i]))
      && ((exists i :: 0 <= i < |w.jobs.items| && !JobIdle(w.jobs.items[i]))
          || (exists i :: 0 <= i < |w.cronjobs.items| && !CronJobIdle(w.cronjobs.items[i])))
    case Kafka =>
      && c.kafka && w.publish.Reply? && w.consume.Reply?
      && (w.publish.status in {200, 201, 204} || w.consume.status in {200, 201, 204})
    case Credential =>
      && c.credential && w.grant.Reply? && w.credential.Reply? && w.credential.body.JObj?
      && (w.grant.status in {200, 201, 202, 204}
          || (w.credential.status == 200 && Says(w.credential.body, "active", true)))
    case Network =>
      && c.egress && EgressLegible(w.egressNew) && EgressLegible(w.egressExisting)
      && (EgressAllowed(w.egressNew) || EgressAllowed(w.egressExisting))
    case Restart => false
  }

  /** Every pod is named, the last item of every name can be read, and one of those is running. */
  ghost predicate PodsBreached(all: seq<Item>) {
    && (forall i :: 0 <= i < |all| ==>
                      Readable(all[i])) && (forall i :: 0 <= i < |all| ==> LastOfName(all, i) ==> PodLegible(all[i]))
    && (exists i :: 0 <= i < |all| && LastOfName(all, i) && !PodFinished(all[i]))
  }

  ghost predicate PodLegible(item: Item) {
    item.status.Some? ==>
      && item.status.value.JObj?
      && ("phase" in item.status.value.fields ==>
            !item.status.value.fields["phase"].JArr? && !item.status.value.fields["phase"].JObj?)
  }

  ghost predicate JobLegible(item: Item) {
    item.status.Some? ==>
      && item.status.value.JObj?
      && ("active" in item.status.value.fields ==>
            AsInt(item.status.value.fields["active"]).Some?)
  }

  ghost predicate CronJobLegible(item: Item) { item.status.Some? ==> item.status.value.JObj? }

  ghost predicate EgressLegible(h: Http) { h.Reply? && (200 <= h.status < 300 ==> h.body.JObj?) }

  ghost predicate EgressAllowed(h: Http) { h.Reply? && 200 <= h.status < 300 && Says(h.body, "allowed", true) }

  lemma KafkaExactly(c: Config, w: World)
    ensures KubernetesProbe(c, w, Kafka) == Pass <==> Closed(c, w, Kafka)
    ensures KubernetesProbe(c, w, Kafka) == Fail <==> Breached(c, w, Kafka)
  {
    if c.kafka && w.publish.Reply? && w.consume.Reply? {
      var both := {w.publish.status, w.consume.status} * {200, 201, 204};
      if w.publish.status in {200, 201, 204} {
        assert w.publish.status in both;
      }
      if w.consume.status in {200, 201, 204} {
        assert w.consume.status in both;
      }
    }
  }

  lemma CredentialExactly(c: Config, w: World)
    ensures KubernetesProbe(c, w, Credential) == Pass <==> Closed(c, w, Credential)
    ensures KubernetesProbe(c, w, Credential) == Fail <==> Breached(c, w, Credential)
  {
  }

  lemma EgressDecision(h: Http)
    requires h.Reply?
    ensures Allowed(h) == Decided(Some(false)) <==> EgressDenied(h)
    ensures Allowed(h) == Decided(Some(true)) <==> EgressAllowed(h)
    ensures Allowed(h).Raises? <==> !EgressLegible(h)
  {
  }

  lemma NetworkExactly(c: Config, w: World)
    ensures KubernetesProbe(c, w, Network) == Pass <==> Closed(c, w, Network)
    ensures KubernetesProbe(c, w, Network) == Fail <==> Breached(c, w, Network)
  {
    if w.egressNew.Reply? && w.egressExisting.Reply? {
      EgressDecision(w.egressNew);
      EgressDecision(w.egressExisting);
    }
  }

  lemma PodActiveExactly(item: Item)
    ensures PodActive(item).Some? <==> PodLegible(item)
    ensures PodActive(item) == Some(true) <==> PodLegible(item) && !PodFinished(item)
  {
  }

  lemma ProcessFailImpliesBreached(all: seq<Item>)
    requires Keyed(all).Some?
    requires Verdict(set name | name in Keyed(all).value :: PodActive(Keyed(all).value[name])) == Fail
    ensures PodsBreached(all)
  {
    KeyedWhenReadable(all);
    var pods := Keyed(all).value;
    var statuses := set name | name in pods :: PodActive(pods[name]);
    forall i | 0 <= i < |all| && LastOfName(all, i) ensures PodLegible(all[i]) {
      KeyedHoldsLast(all, i);
      assert PodActive(pods[all[i].name.value]) in statuses;
      PodActiveExactly(all[i]);
    }
    var name :| name in pods && PodActive(pods[name]) == Some(true);
    var i := KeyedIsLast(all, name);
    PodActiveExactly(all[i]);
  }

  lemma BreachedImpliesProcessFail(all: seq<Item>)
    requires PodsBreached(all)
    ensures Keyed(all).Some?
    ensures Verdict(set name | name in Keyed(all).value :: PodActive(Keyed(all).value[name])) == Fail
  {
    KeyedWhenReadable(all);
    var pods := Keyed(all).value;
    forall name | name in pods ensures PodActive(pods[name]).Some? {
      var i := KeyedIsLast(all, name);
      PodActiveExactly(all[i]);
    }
    var i :| 0 <= i < |all| && LastOfName(all, i) && !PodFinished(all[i]);
    KeyedHoldsLast(all, i);
    PodActiveExactly(all[i]);
    assert PodActive(pods[all[i].name.value]) in set name | name in pods :: PodActive(pods[name]);
  }

  lemma ProcessFailExactly(c: Config, w: World)
    ensures ProcessProbe(w) == Fail <==> Breached(c, w, Process)
  {
    if w.runPods.Items? && w.parentPods.Items? {
      var all := w.runPods.items + w.parentPods.items;
      if ProcessProbe(w) == Fail {
        ProcessFailImpliesBreached(all);
      } else if PodsBreached(all) {
        BreachedImpliesProcessFail(all);
      }
    }
  }

  lemma ChildActiveExactly(item: Item)
    ensures JobActive(item).Some? <==> JobLegible(item)
    ensures JobActive(item) == Some(true) <==> JobLegible(item) && !JobIdle(item)
    ensures CronJobActive(item).Some? <==> CronJobLegible(item)
    ensures CronJobActive(item) == Some(true) <==> CronJobLegible(item) && !CronJobIdle(item)
  {
  }

  lemma DelegationFailImpliesBreached(c: Config, w: World)
    requires DelegationProbe(w) == Fail
    ensures Breached(c, w, Delegation)
  {
    var all := w.jobs.items + w.cronjobs.items;
    var jobs := set i | 0 <= i < |w.jobs.items| :: JobActive(w.jobs.items[i]);
    var crons := set i | 0 <= i < |w.cronjobs.items| :: CronJobActive(w.cronjobs.items[i]);
    forall i | 0 <= i < |w.jobs.items| ensures Readable(w.jobs.items[i]) && JobLegible(w.jobs.items[i]) {
      assert all[i] == w.jobs.items[i] && JobActive(w.jobs.items[i]) in jobs + crons;
      ChildActiveExactly(w.jobs.items[i]);
    }
    forall i | 0 <= i < |w.cronjobs.items|
      ensures Readable(w.cronjobs.items[i]) && CronJobLegible(w.cronjobs.items[i])
    {
      assert all[|w.jobs.items| + i] == w.cronjobs.items[i] && CronJobActive(w.cronjobs.items[i]) in jobs + crons;
      ChildActiveExactly(w.cronjobs.items[i]);
    }
    if Some(true) in jobs {
      var i :| 0 <= i < |w.jobs.items| && JobActive(w.jobs.items[i]) == Some(true);
      ChildActiveExactly(w.jobs.items[i]);
    } else {
      var i :| 0 <= i < |w.cronjobs.items| && CronJobActive(w.cronjobs.items[i]) == Some(true);
      ChildActiveExactly(w.cronjobs.items[i]);
    }
  }

  lemma BreachedImpliesDelegationFail(c: Config, w: World)
    requires Breached(c, w, Delegation)
    ensures DelegationProbe(w) == Fail
  {
    var all := w.jobs.items + w.cronjobs.items;
    var jobs := set i | 0 <= i < |w.jobs.items| :: JobActive(w.jobs.items[i]);
    var crons := set i | 0 <= i < |w.cronjobs.items| :: CronJobActive(w.cronjobs.items[i]);
    forall i | 0 <= i < |all| ensures all[i].name.Some? {
      assert i < |w.jobs.items| ==> Readable(w.jobs.items[i]);
      assert i >= |w.jobs.items| ==> Readable(w.cronjobs.items[i - |w.jobs.items|]);
    }
    forall i | 0 <= i < |w.jobs.items| ensures JobActive(w.jobs.items[i]).Some? {
      ChildActiveExactly(w.jobs.items[i]);
    }
    forall i | 0 <= i < |w.cronjobs.items| ensures CronJobActive(w.cronjobs.items[i]).Some? {
      ChildActiveExactly(w.cronjobs.items[i]);
    }
    if i :| 0 <= i < |w.jobs.items| && !JobIdle(w.jobs.items[i]) {
      ChildActiveExactly(w.jobs.items[i]);
      assert JobActive(w.jobs.items[i]) in jobs + crons;
    } else {
      var i :| 0 <= i < |w.cronjobs.items| && !CronJobIdle(w.cronjobs.items[i]);
      ChildActiveExactly(w.cronjobs.items[i]);
      assert CronJobActive(w.cronjobs.items[i]) in jobs + crons;
    }
  }

  /** For every transport behaviour a probe fails if and only if its boundary was seen open;
      with `PassMeansClosed`, everything else is UNKNOWN. */
  lemma FailMeansBreached(c: Config, w: World, kind: ProbeKind)
    ensures KubernetesProbe(c, w, kind) == Fail <==> Breached(c, w, kind)
  {
    match kind
    case Process => ProcessFailExactly(c, w);
    case Delegation =>
      if DelegationProbe(w) == Fail {
        DelegationFailImpliesBreached(c, w);
      } else if Breached(c, w, Delegation) {
        BreachedImpliesDelegationFail(c, w);
      }
    case Kafka => KafkaExactly(c, w);
    case Credential => CredentialExactly(c, w);
    case Network => NetworkExactly(c, w);
    case Restart =>
  }

  /** Two items of one name never disagree about whether the pod has finished. */
  ghost predicate SelectorsAgree(items: seq<Item>) {
    forall i, j :: 0 <= i < |items| && 0 <= j < |items| && items[i].name == items[j].name ==>
                     (PodFinished(items[i]) <==> PodFinished(items[j]))
  }

  ghost predicate NoneRunning(items: seq<Item>) { forall i :: 0 <= i < |items| ==> PodFinished(items[i]) }

  /** A PASS of the process probe means that no listed pod is running if and only if the two
      selectors agree about the pods they both list. */
  lemma NoRelatedPodActive(w: World)
    requires ProcessProbe(w) == Pass
    ensures NoneRunning(w.runPods.items + w.parentPods.items) <==> SelectorsAgree(w.runPods.items + w.parentPods.items)
  {
    var all := w.runPods.items + w.parentPods.items;
    ProcessPassImpliesClosed(Config(true, false, false, false), w);
    if SelectorsAgree(all) {
      forall i | 0 <= i < |all| ensures PodFinished(all[i]) {
        var last := LastIndexOfName(all, i);
      }
    }
  }

  lemma LastIndexOfName(items: seq<Item>, i: nat) returns (last: nat)
    requires i < |items|
    ensures i <= last < |items| && LastOfName(items, last) && items[last].name == items[i].name
    decreases |items| - i
  {
    if j :| i < j < |items| && items[j].name == items[i].name {
      last := LastIndexOfName(items, j);
    } else {
      last := i;
    }
  }

  /** Without that agreement the process probe passes although a pod was listed as running:
      the second selector's answer about the same name replaces the first one's. */
  lemma StaleListingHidesRunningPod() returns (w: World)
    ensures ProcessProbe(w) == Pass
    ensures w.runPods.Items? && |w.runPods.items| == 1 && !PodFinished(w.runPods.items[0])
  {
    var running := Item(Some("pod"), Some(JObj(map["phase" := JStr("Running")])));
    var finished := Item(Some("pod"), Some(JObj(map["phase" := JStr("Succeeded")])));
    w := World(Items([running]), Items([finished]), Unavailable, Unavailable, Down, Down, Down, Down, Down, Down);
    var all := [running] + [finished];
    assert all[..1][..0] == [] && all[..1] == [running];
    assert LastOfName(all, 1) && !LastOfName(all, 0) by { assert all[1].name == all[0].name; }
    assert Closed(Config(true, false, false, false), w, Process);
    PassMeansClosed(Config(true, false, false, false), w, Process);
  }
}
