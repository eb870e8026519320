/** Health verdicts over the bounded summaries of a stored record, one rule per kind. Two library calls are
    parameters: reading an ISO time stamp with a zone (in microseconds), and the text of a summary value. */
module HealthRules {
  import opened Inventory
  import Text

  type Conditions = seq<Condition>

  type Summary = map<string, Value>

  datatype Library = Library(parseUtc: string -> Option<int>, show: Value -> string)

  const MINUTE: int := 60_000_000

  // ---- Reading summaries ---------------------------------------------------

  function Get(summary: Summary, key: string): Value {
    if key in summary then summary[key] else Null
  }

  function AsInt(value: Value): Option<int> {
    match value
    case Whole(n) => Some(n)
    case Fraction(x) => if x.Floor as real == x then Some(x.Floor) else None
    case _ => None
  }

  function IntAt(summary: Summary, key: string): Option<int> {
    AsInt(Get(summary, key))
  }

  function OrZero(value: Option<int>): int {
    if value.Some? then value.value else 0
  }

  function Find(conditions: Conditions, name: string): Option<Condition> {
    if conditions == [] then None
    else if conditions[0].name == name then Some(conditions[0])
    else Find(conditions[1..], name)
  }

  predicate HasStatus(conditions: Conditions, name: string, status: string) {
    Find(conditions, name).Some? && Find(conditions, name).value.status == status
  }

  // An absent reason and an empty one both give way to the default.
  function ReasonOr(condition: Condition, default_: string): string {
    if condition.reason.Some? && condition.reason.value != "" then condition.reason.value else default_
  }

  predicate IsCodeChar(c: char) {
    'A' <= c <= 'Z' || 'a' <= c <= 'z' || '0' <= c <= '9' || c == '_' || c == '-'
  }

  function Blanked(reason: string): (s: string)
    ensures |s| == |reason|
    ensures forall i :: 0 <= i < |s| ==>
        IsCodeChar(s[i]) && (if IsCodeChar(reason[i]) then s[i] == reason[i] else s[i] == '_')
  {
    if reason == "" then ""
    else Blanked(reason[..|reason| - 1]) + [if IsCodeChar(reason[|reason| - 1]) then reason[|reason| - 1] else '_']
  }

  function SafeReason(reason: string): (s: string)
    ensures |s| == (if |reason| <= 64 then |reason| else 64)
    ensures forall i :: 0 <= i < |s| ==>
        IsCodeChar(s[i]) && (if IsCodeChar(reason[i]) then s[i] == reason[i] else s[i] == '_')
  {
    var s := Blanked(reason);
    if |s| <= 64 then s else s[..64]
  }

  predicate GenerationLag(spec: Summary, status: Summary) {
    var generation, observed := IntAt(spec, "generation"), IntAt(status, "observed_generation");
    generation.Some? && observed.Some? && observed.value < generation.value
  }

  // ---- sorted(set(reasons)) ------------------------------------------------

  predicate Less(a: string, b: string) {
    if b == "" then false
    else if a == "" then true
    else a[0] < b[0] || (a[0] == b[0] && Less(a[1..], b[1..]))
  }

  function AddSorted(reason: string, sorted: seq<string>): (r: seq<string>)
    ensures forall x :: x in r <==> x == reason || x in sorted
  {
    if sorted == [] then [reason]
    else if reason == sorted[0] then sorted
    else if Less(reason, sorted[0]) then [reason] + sorted
    else [sorted[0]] + AddSorted(reason, sorted[1..])
  }

  function SortedSet(reasons: seq<string>): (r: seq<string>)
    ensures forall x :: x in r <==> x in reasons
  {
    if reasons == [] then [] else AddSorted(reasons[0], SortedSet(reasons[1..]))
  }

  // The last step of several rules: degraded for a reason, or healthy.
  function Softly(reasons: seq<string>): Verdict {
    if reasons != [] then Verdict(Degraded, SortedSet(reasons)) else Verdict(Healthy, [])
  }

  function When(condition: bool, reason: string): seq<string> {
    if condition then [reason] else []
  }

  // ---- The rules -----------------------------------------------------------

  function Desired(spec: Summary, status: Summary): Option<int> {
    if IntAt(spec, "replicas").Some? then IntAt(spec, "replicas") else IntAt(status, "replicas")
  }

  predicate Short(count: Option<int>, desired: int) {
    count.Some? && count.value < desired
  }

  function DeploymentRule(spec: Summary, status: Summary, conditions: Conditions): Verdict {
    if HasStatus(conditions, "ReplicaFailure", "True") then Verdict(Unhealthy, ["replica_failure"])
    else if HasStatus(conditions, "Progressing", "False") then
      var reason := ReasonOr(Find(conditions, "Progressing").value, "progress_stalled");
      if reason == "ProgressDeadlineExceeded" then Verdict(Unhealthy, ["progress_deadline_exceeded"])
      else Verdict(Unhealthy, ["progressing_false:" + SafeReason(reason)])
    else
      var desired := Desired(spec, status);
      if desired.None? then Verdict(Unknown, ["no_status_reported"])
      else if desired.value == 0 then Verdict(Degraded, ["scaled_to_zero"])
      else
        var ready := OrZero(IntAt(status, "ready_replicas"));
        if ready == 0 then Verdict(Unhealthy, ["no_ready_replicas"])
        else
          Softly(When(ready < desired.value, "replicas_unavailable")
                 + When(Short(IntAt(status, "available_replicas"), desired.value), "replicas_not_available")
                 + When(Short(IntAt(status, "updated_replicas"), desired.value), "rollout_in_progress")
                 + When(GenerationLag(spec, status), "generation_lag"))
  }

  // ReplicaSets share it: their revisions are simply absent.
  function StatefulSetRule(spec: Summary, status: Summary): Verdict {
    var desired := Desired(spec, status);
    if desired.None? then Verdict(Unknown, ["no_status_reported"])
    else if desired.value == 0 then Verdict(Degraded, ["scaled_to_zero"])
    else
      var ready := OrZero(IntAt(status, "ready_replicas"));
      if ready == 0 then Verdict(Unhealthy, ["no_ready_replicas"])
      else
        var current, updated := IntAt(status, "current_replicas"), IntAt(status, "updated_replicas");
        var was, next := Get(status, "current_revision"), Get(status, "update_revision");
        Softly(When(ready < desired.value, "replicas_unavailable")
               + When(Short(updated, desired.value) || (current.Some? && updated.Some? && current != updated),
                      "update_rollout_in_progress")
               + When(was.Text? && next.Text? && was != next, "revision_lag")
               + When(GenerationLag(spec, status), "generation_lag"))
  }

  function DaemonSetRule(spec: Summary, status: Summary): Verdict {
    var desired, ready := IntAt(status, "desired"), IntAt(status, "ready");
    if desired.None? then Verdict(Unknown, ["no_status_reported"])
    else if desired.value == 0 then Verdict(Degraded, ["scaled_to_zero"])
    else if ready.None? || ready.value == 0 then Verdict(Unhealthy, ["no_ready_replicas"])
    else
      Softly(When(ready.value < desired.value, "replicas_unavailable")
             + When(OrZero(IntAt(status, "misscheduled")) > 0, "pods_misscheduled")
             + When(Short(IntAt(status, "updated"), desired.value), "rollout_in_progress")
             + When(GenerationLag(spec, status), "generation_lag"))
  }

  predicate Truthy(value: Value) {
    match value
    case Null => false
    case Flag(b) => b
    case Whole(n) => n != 0
    case Fraction(x) => x != 0.0
    case Text(s) => s != ""
    case Containers(images) => images != []
  }

  function Shown(library: Library, value: Value): string {
    if value.Text? then value.text else library.show(value)
  }

  function PodRule(library: Library, status: Summary, conditions: Conditions): Verdict {
    var phase := Get(status, "phase");
    var reasons := When(Get(status, "crashloop") == Flag(true), "crashloop_backoff")
        + When(Get(status, "oom_killed") == Flag(true), "oom_killed");
    if phase == Value.Text("Succeeded") then Verdict(Healthy, [])
    else if phase == Value.Text("Failed") then Verdict(Unhealthy, if reasons != [] then reasons else ["pod_failed"])
    else if reasons != [] then Verdict(Unhealthy, reasons)
    else if HasStatus(conditions, "PodScheduled", "False") || HasStatus(conditions, "PodScheduled", "Unknown") then
      if ReasonOr(Find(conditions, "PodScheduled").value, "") == "Unschedulable"
      then Verdict(Unhealthy, ["unschedulable"])
      else Verdict(Degraded, ["pod_not_scheduled"])
    else if phase == Value.Text("Pending") then
      var waiting := Get(status, "waiting_reason");
      Verdict(Degraded,
              ["pod_pending"] + if Truthy(waiting) then ["waiting:" + SafeReason(Shown(library, waiting))] else [])
    else if phase == Value.Text("Running") then
      Softly(When(HasStatus(conditions, "Ready", "False"), "pod_not_ready")
             + When(HasStatus(conditions, "ContainersReady", "False"), "containers_not_ready")
             + When(OrZero(IntAt(status, "restarts")) > 5, "restart_churn"))
    else Verdict(Unknown, ["no_status_reported"])
  }

  function JobRule(status: Summary, conditions: Conditions): Verdict {
    var failed, succeeded := OrZero(IntAt(status, "failed")), OrZero(IntAt(status, "succeeded"));
    var active := OrZero(IntAt(status, "active"));
    if HasStatus(conditions, "Failed", "True") then
      Verdict(Unhealthy, ["job_failed:" + SafeReason(ReasonOr(Find(conditions, "Failed").value, "job_failed"))])
    else if HasStatus(conditions, "Complete", "True") then Verdict(Healthy, [])
    else if failed > 0 && active > 0 then Verdict(Degraded, ["job_retrying_after_failures"])
    else if failed > 0 then Verdict(Unhealthy, ["job_failed"])
    else if succeeded > 0 then Verdict(Healthy, [])
    else if active > 0 then Verdict(Degraded, ["job_running"])
    else Verdict(Unknown, ["no_status_reported"])
  }

  // Python's strip removes four control characters more than Go's TrimSpace does.
  predicate IsBlank(c: char) {
    Text.IsSpace(c) || '\U{1C}' <= c <= '\U{1F}'
  }

  function Strip(s: string): string {
    if s == "" then ""
    else if IsBlank(s[0]) then Strip(s[1..])
    else if IsBlank(s[|s| - 1]) then Strip(s[..|s| - 1])
    else s
  }

  function Digits(s: string): (n: nat)
    ensures n <= |s|
  {
    if s == "" || !Text.IsDigit(s[0]) then 0 else 1 + Digits(s[1..])
  }

  // Every minute, every n minutes, hourly and daily; any other schedule is not judged. The bound is in microseconds.
  function BareIntervalBound(s: string): Option<int> {
    var n := Digits(s);
    if s == "* * * * *" then Some(MINUTE)
    else if "*/" <= s && Digits(s[2..]) > 0 && s[2 + Digits(s[2..])..] == " * * * *" then
      match Text.ParseDigits(s[2..2 + Digits(s[2..])])
      case Some(minutes) => Some(minutes * MINUTE)
      case None => None
    else if n > 0 && s[n..] == " * * * *" then Some(60 * MINUTE)
    else if n > 0 && " " <= s[n..] && Digits(s[n + 1..]) > 0 && s[n + 1 + Digits(s[n + 1..])..] == " * * *"
    then Some(24 * 60 * MINUTE)
    else None
  }

  function CronIntervalBound(schedule: string): Option<int> {
    BareIntervalBound(Strip(schedule))
  }

  function ParseUtc(library: Library, value: Value): Option<int> {
    if value.Text? then library.parseUtc(value.text) else None
  }

  predicate ScheduleMissed(schedule: Value, last: int, now: int) {
    && schedule.Text? && CronIntervalBound(schedule.text).Some?
    && now - last > 2 * CronIntervalBound(schedule.text).value + MINUTE
  }

  function CronJobRule(library: Library, spec: Summary, status: Summary, now: int): Verdict {
    var last := ParseUtc(library, Get(status, "last_schedule_time"));
    if Get(spec, "suspend") == Flag(true) then Verdict(Degraded, ["cronjob_suspended"])
    else if last.None? then Verdict(Unknown, ["never_scheduled"])
    else
      Softly(When(ScheduleMissed(Get(spec, "schedule"), last.value, now), "schedule_missed")
             + When(ParseUtc(library, Get(status, "last_successful_time")).None?, "no_successful_run_recorded"))
  }

  function NodeRule(conditions: Conditions): Verdict {
    if Find(conditions, "Ready").None? then Verdict(Unknown, ["no_status_reported"])
    else if HasStatus(conditions, "Ready", "False") then Verdict(Unhealthy, ["node_not_ready"])
    else if HasStatus(conditions, "Ready", "Unknown") then Verdict(Unknown, ["node_status_unknown"])
    else
      var reasons := When(HasStatus(conditions, "MemoryPressure", "True"), "memorypressure")
                     + When(HasStatus(conditions, "DiskPressure", "True"), "diskpressure")
                     + When(HasStatus(conditions, "PIDPressure", "True"), "pidpressure");
      if reasons != [] then Verdict(Degraded, reasons) else Verdict(Healthy, [])
  }

  function NamespaceRule(status: Summary, conditions: Conditions): Verdict {
    var phase := Get(status, "phase");
    if phase == Value.Text("Active") then Verdict(Healthy, [])
    else if phase == Value.Text("Terminating") then
      if HasStatus(conditions, "NamespaceFinalizersRemaining", "True")
      then Verdict(Degraded, ["namespace_terminating_stuck"])
      else Verdict(Degraded, ["namespace_terminating"])
    else Verdict(Unknown, ["no_status_reported"])
  }

  function VolumeClaimRule(status: Summary): Verdict {
    var phase := Get(status, "phase");
    if phase == Value.Text("Bound") then Verdict(Healthy, [])
    else if phase == Value.Text("Pending") then Verdict(Degraded, ["pvc_pending"])
    else if phase == Value.Text("Lost") then Verdict(Unhealthy, ["pvc_lost"])
    else Verdict(Unknown, ["no_status_reported"])
  }

  // ---- Resource quotas -----------------------------------------------------

  datatype Quantity = Quantity(amount: nat, unit: string)

  predicate AllLetters(s: string) {
    forall i :: 0 <= i < |s| ==> 'a' <= s[i] <= 'z' || 'A' <= s[i] <= 'Z'
  }

  // Digits, then letters, then perhaps one line feed, which the pattern's end anchor lets through.
  function ParseQuantity(value: Value): Option<Quantity> {
    if !value.Text? then None
    else
      var cut := value.text != "" && value.text[|value.text| - 1] == '\n';
      var s := if cut then value.text[..|value.text| - 1] else value.text;
      var n := Digits(s);
      if n == 0 || !AllLetters(s[n..]) then None
      else
        match Text.ParseDigits(s[..n])
        case Some(amount) => Some(Quantity(amount, s[n..]))
        case None => None
  }

  datatype Pair = Pair(hard: nat, used: nat)

  // Compared only when both are plain integers of the same unit.
  function QuotaPair(hard: Value, used: Value): Option<Pair> {
    var h, u := ParseQuantity(hard), ParseQuantity(used);
    if h.Some? && u.Some? && h.value.unit == u.value.unit then Some(Pair(h.value.amount, u.value.amount)) else None
  }

  function PairAt(status: Summary, key: string): Option<Pair>
    requires key in status
  {
    if "hard_" <= key then QuotaPair(status[key], Get(status, "used_" + key[5..])) else None
  }

  predicate Exhausted(p: Option<Pair>) {
    p.Some? && p.value.hard > 0 && p.value.used >= p.value.hard
  }

  predicate NearLimit(p: Option<Pair>) {
    p.Some? && p.value.hard > 0 && p.value.used < p.value.hard && p.value.used * 10 >= p.value.hard * 9
  }

  predicate AnyPair(status: Summary, keys: set<string>) {
    exists key :: key in keys && key in status && PairAt(status, key).Some?
  }

  predicate AnyExhausted(status: Summary, keys: set<string>) {
    exists key :: key in keys && key in status && Exhausted(PairAt(status, key))
  }

  predicate AnyNearLimit(status: Summary, keys: set<string>) {
    exists key :: key in keys && key in status && NearLimit(PairAt(status, key))
  }

  function ResourceQuotaRule(status: Summary): Verdict {
    if !AnyPair(status, status.Keys) then Verdict(Unknown, ["no_comparable_quota_data"])
    else if AnyExhausted(status, status.Keys) then Verdict(Degraded, ["quota_exhausted"])
    else if AnyNearLimit(status, status.Keys) then Verdict(Degraded, ["quota_near_limit"])
    else Verdict(Healthy, [])
  }

  lemma OneMoreKey(status: Summary, keys: set<string>, key: string)
    requires key in status
    ensures AnyPair(status, keys + {key}) <==> AnyPair(status, keys) || PairAt(status, key).Some?
    ensures AnyExhausted(status, keys + {key}) <==> AnyExhausted(status, keys) || Exhausted(PairAt(status, key))
    ensures AnyNearLimit(status, keys + {key}) <==> AnyNearLimit(status, keys) || NearLimit(PairAt(status, key))
  {
    assert key in keys + {key};
  }

  lemma NoKeys(status: Summary)
    ensures !AnyPair(status, {}) && !AnyExhausted(status, {}) && !AnyNearLimit(status, {})
  {
  }

  /** The loop, over the entries in whatever order the record lists them. */
  method JudgeQuota(status: Summary, order: seq<string>) returns (verdict: Verdict)
    requires IsListing(order, status.Keys)
    ensures verdict == ResourceQuotaRule(status)
  {
    hide AnyPair, AnyExhausted, AnyNearLimit, QuotaPair;
    NoKeys(status);
    var pairs: nat, exhausted, near := 0, false, false;
    ghost var done: set<string> := {};
    for i := 0 to |order|
      invariant forall x :: x in done <==> x in order[..i]
      invariant pairs > 0 <==> AnyPair(status, done)
      invariant exhausted <==> AnyExhausted(status, done)
      invariant near <==> AnyNearLimit(status, done)
    {
      var key := order[i];
      assert key in order;
      OneMoreKey(status, done, key);
      done := done + {key};
      if "hard_" <= key {
        var comparable := QuotaPair(status[key], Get(status, "used_" + key[5..]));
        if comparable.Some? {
          pairs := pairs + 1;
          var hard, used := comparable.value.hard, comparable.value.used;
          if hard > 0 {
            if used >= hard {
              exhausted := true;
            } else if used * 10 >= hard * 9 {
              near := true;
            }
          }
        }
      }
    }
    assert order[..|order|] == order;
    assert done == status.Keys;
    if pairs == 0 { return Verdict(Unknown, ["no_comparable_quota_data"]); }
    if exhausted { return Verdict(Degraded, ["quota_exhausted"]); }
    if near { return Verdict(Degraded, ["quota_near_limit"]); }
    return Verdict(Healthy, []);
  }

  // ---- Dispatch ------------------------------------------------------------

  function DeriveHealth(library: Library, kind: Kind, payload: Payload, now: int): Verdict {
    var spec, status, conditions := payload.spec, payload.status, payload.conditions;
    match kind.name
    case "Deployment" => DeploymentRule(spec, status, conditions)
    case "ReplicaSet" => StatefulSetRule(spec, status)
    case "StatefulSet" => StatefulSetRule(spec, status)
    case "DaemonSet" => DaemonSetRule(spec, status)
    case "Pod" => PodRule(library, status, conditions)
    case "Job" => JobRule(status, conditions)
    case "CronJob" => CronJobRule(library, spec, status, now)
    case "Node" => NodeRule(conditions)
    case "Namespace" => NamespaceRule(status, conditions)
    case "ResourceQuota" => ResourceQuotaRule(status)
    case "PersistentVolumeClaim" => VolumeClaimRule(status)
    case _ => Verdict(Unknown, ["no_health_rule"])
  }
}
