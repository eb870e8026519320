/** What holds of every verdict, and of every row of the projection in every reachable state. */
module HealthTheorems {
  import opened Inventory
  import opened Server
  import opened ServerTheorems
  import opened HealthRules

  // ---- Reasons are canonical -------------------------------------------------

  lemma {:induction false} LessIsTotal(a: string, b: string)
    ensures (Less(a, b) && !Less(b, a) && a != b) || (Less(b, a) && !Less(a, b) && a != b) || (a == b && !Less(a, b))
  {
    if a != "" && b != "" {
      LessIsTotal(a[1..], b[1..]);
      assert a == [a[0]] + a[1..] && b == [b[0]] + b[1..];
    }
  }

  lemma {:induction false} LessIsTransitive(a: string, b: string, c: string)
    requires Less(a, b) && Less(b, c)
    ensures Less(a, c)
  {
    if a != "" && a[0] == b[0] == c[0] { LessIsTransitive(a[1..], b[1..], c[1..]); }
  }

  ghost predicate Increasing(s: seq<string>) {
    forall i, j :: 0 <= i < j < |s| ==> Less(s[i], s[j])
  }

  lemma {:induction false} AddSortedIncreasing(reason: string, sorted: seq<string>)
    requires Increasing(sorted)
    ensures Increasing(AddSorted(reason, sorted))
  {
    if sorted != [] {
      var r := AddSorted(reason, sorted);
      LessIsTotal(reason, sorted[0]);
      if reason == sorted[0] {
      } else if Less(reason, sorted[0]) {
        forall j | 0 < j < |r| ensures Less(reason, r[j]) {
          if j > 1 { LessIsTransitive(reason, sorted[0], sorted[j - 1]); }
        }
      } else {
        AddSortedIncreasing(reason, sorted[1..]);
        forall j | 0 < j < |r| ensures Less(sorted[0], r[j]) {
          assert r[j] in AddSorted(reason, sorted[1..]);
          if r[j] != reason {
            var k :| 0 <= k < |sorted[1..]| && sorted[1..][k] == r[j];
            assert Less(sorted[0], sorted[k + 1]);
          }
        }
      }
    }
  }

  lemma {:induction false} SortedSetIncreasing(reasons: seq<string>)
    ensures Increasing(SortedSet(reasons))
  {
    if reasons != [] {
      SortedSetIncreasing(reasons[1..]);
      AddSortedIncreasing(reasons[0], SortedSet(reasons[1..]));
    }
  }

  lemma RestWithoutFirst(s: seq<string>)
    requires s != [] && Increasing(s)
    ensures forall x :: x in s[1..] <==> x in s && x != s[0]
  {
    assert s == [s[0]] + s[1..];
    forall k | 0 < k < |s| ensures s[k] != s[0] { LessIsTotal(s[0], s[k]); }
  }

  lemma FirstIsLeast(s: seq<string>, t: seq<string>)
    requires s != [] && t != [] && Increasing(s) && Increasing(t) && forall x :: x in s <==> x in t
    ensures s[0] == t[0] && forall x :: x in s[1..] <==> x in t[1..]
  {
    assert s[0] in t && t[0] in s;
    var j :| 0 <= j < |t| && t[j] == s[0];
    var k :| 0 <= k < |s| && s[k] == t[0];
    LessIsTotal(s[0], t[0]);
    RestWithoutFirst(s);
    RestWithoutFirst(t);
  }

  lemma BothEmptyOrNeither(s: seq<string>, t: seq<string>)
    requires forall x :: x in s <==> x in t
    ensures s == [] <==> t == []
  {
    if s != [] { assert s[0] in t; }
    if t != [] { assert t[0] in s; }
  }

  lemma {:induction false} IncreasingIsUnique(s: seq<string>, t: seq<string>)
    requires Increasing(s) && Increasing(t) && forall x :: x in s <==> x in t
    ensures s == t
    decreases |s|
  {
    BothEmptyOrNeither(s, t);
    if s != [] {
      FirstIsLeast(s, t);
      IncreasingIsUnique(s[1..], t[1..]);
    }
  }

  /** The reasons reported do not depend on the order or the number of times they were found. */
  lemma SortedSetIsCanonical(reasons: seq<string>, others: seq<string>)
    requires forall x :: x in reasons <==> x in others
    ensures SortedSet(reasons) == SortedSet(others)
  {
    SortedSetIncreasing(reasons);
    SortedSetIncreasing(others);
    IncreasingIsUnique(SortedSet(reasons), SortedSet(others));
  }

  // ---- Every verdict ---------------------------------------------------------

  predicate Justified(v: Verdict) {
    v.level.Healthy? <==> v.reasons == []
  }

  lemma SoftlyJustified(reasons: seq<string>)
    ensures Justified(Softly(reasons)) && !Softly(reasons).level.Unknown? && !Softly(reasons).level.Unhealthy?
  {
    if reasons != [] { assert reasons[0] in SortedSet(reasons); }
  }

  lemma DeploymentJustified(spec: Summary, status: Summary, conditions: Conditions)
    ensures Justified(DeploymentRule(spec, status, conditions))
  {
    forall reasons ensures Justified(Softly(reasons)) { SoftlyJustified(reasons); }
  }

  lemma SetsJustified(spec: Summary, status: Summary)
    ensures Justified(StatefulSetRule(spec, status)) && Justified(DaemonSetRule(spec, status))
  {
    forall reasons ensures Justified(Softly(reasons)) { SoftlyJustified(reasons); }
  }

  lemma PodJustified(library: Library, status: Summary, conditions: Conditions)
    ensures Justified(PodRule(library, status, conditions))
  {
    forall reasons ensures Justified(Softly(reasons)) { SoftlyJustified(reasons); }
  }

  lemma CronJobJustified(library: Library, spec: Summary, status: Summary, now: int)
    ensures Justified(CronJobRule(library, spec, status, now))
  {
    forall reasons ensures Justified(Softly(reasons)) { SoftlyJustified(reasons); }
  }

  /** Healthy exactly when there is no reason to report, across all rules; so unknown is never shown as healthy. */
  lemma HealthyIffNoReasons(library: Library, kind: Kind, payload: Payload, now: int)
    ensures Justified(DeriveHealth(library, kind, payload, now))
  {
    match kind.name
    case "Deployment" => DeploymentJustified(payload.spec, payload.status, payload.conditions);
    case "ReplicaSet" => SetsJustified(payload.spec, payload.status);
    case "StatefulSet" => SetsJustified(payload.spec, payload.status);
    case "DaemonSet" => SetsJustified(payload.spec, payload.status);
    case "Pod" => PodJustified(library, payload.status, payload.conditions);
    case "CronJob" => CronJobJustified(library, payload.spec, payload.status, now);
    case _ =>
  }

  /** The clock matters to cron jobs only, and time alone never makes one healthy again. */
  lemma OnlyCronJobsAge(library: Library, kind: Kind, payload: Payload, now: int, later: int)
    requires now <= later
    ensures kind.name != "CronJob" ==>
        DeriveHealth(library, kind, payload, now) == DeriveHealth(library, kind, payload, later)
    ensures DeriveHealth(library, kind, payload, later).level.Healthy? ==>
        DeriveHealth(library, kind, payload, now).level.Healthy?
  {
  }

  // ---- The vocabulary --------------------------------------------------------

  const FIXED_REASONS: set<string> := {
    "no_health_rule", "no_status_reported", "scaled_to_zero", "no_ready_replicas", "replicas_unavailable",
    "replicas_not_available", "rollout_in_progress", "update_rollout_in_progress", "revision_lag",
    "generation_lag", "pods_misscheduled", "replica_failure", "progress_deadline_exceeded",
    "crashloop_backoff", "oom_killed", "pod_failed", "unschedulable", "pod_not_scheduled", "pod_pending",
    "pod_not_ready", "containers_not_ready", "restart_churn", "job_retrying_after_failures", "job_failed",
    "job_running", "cronjob_suspended", "never_scheduled", "schedule_missed", "no_successful_run_recorded",
    "node_not_ready", "node_status_unknown", "memorypressure", "diskpressure", "pidpressure",
    "namespace_terminating_stuck", "namespace_terminating", "pvc_pending", "pvc_lost",
    "no_comparable_quota_data", "quota_exhausted", "quota_near_limit"
  }

  /** A fixed code, or one of three prefixes before at most 64 letters, digits, underscores and hyphens. */
  predicate IsReasonCode(reason: string) {
    || reason in FIXED_REASONS
    || exists n :: 0 <= n <= |reason| && reason[..n] in {"progressing_false:", "waiting:", "job_failed:"}
        && IsSafe(reason[n..])
  }

  predicate IsSafe(s: string) {
    |s| <= 64 && forall i :: 0 <= i < |s| ==> IsCodeChar(s[i])
  }

  lemma PrefixedIsCode(prefix: string, reason: string)
    requires prefix in {"progressing_false:", "waiting:", "job_failed:"}
    ensures IsReasonCode(prefix + SafeReason(reason))
  {
    var s := prefix + SafeReason(reason);
    assert s[..|prefix|] == prefix && s[|prefix|..] == SafeReason(reason);
  }

  predicate AllCodes(reasons: seq<string>) {
    forall r :: r in reasons ==> IsReasonCode(r)
  }

  lemma DeploymentCodes(spec: Summary, status: Summary, conditions: Conditions)
    ensures AllCodes(DeploymentRule(spec, status, conditions).reasons)
  {
    hide AsInt, Find, SafeReason;
    if HasStatus(conditions, "Progressing", "False") {
      PrefixedIsCode("progressing_false:", ReasonOr(Find(conditions, "Progressing").value, "progress_stalled"));
    }
  }

  lemma PodCodes(library: Library, status: Summary, conditions: Conditions)
    ensures AllCodes(PodRule(library, status, conditions).reasons)
  {
    hide AsInt, Find, SafeReason;
    PrefixedIsCode("waiting:", Shown(library, Get(status, "waiting_reason")));
  }

  lemma JobCodes(status: Summary, conditions: Conditions)
    ensures AllCodes(JobRule(status, conditions).reasons)
  {
    if HasStatus(conditions, "Failed", "True") {
      PrefixedIsCode("job_failed:", ReasonOr(Find(conditions, "Failed").value, "job_failed"));
    }
  }

  lemma StatefulSetCodes(spec: Summary, status: Summary)
    ensures AllCodes(StatefulSetRule(spec, status).reasons)
  {
  }

  lemma DaemonSetCodes(spec: Summary, status: Summary)
    ensures AllCodes(DaemonSetRule(spec, status).reasons)
  {
  }

  lemma CronJobCodes(library: Library, spec: Summary, status: Summary, now: int)
    ensures AllCodes(CronJobRule(library, spec, status, now).reasons)
  {
  }

  lemma NodeCodes(conditions: Conditions)
    ensures AllCodes(NodeRule(conditions).reasons)
  {
  }

  lemma PhaseCodes(status: Summary, conditions: Conditions)
    ensures AllCodes(NamespaceRule(status, conditions).reasons) && AllCodes(VolumeClaimRule(status).reasons)
    ensures AllCodes(ResourceQuotaRule(status).reasons)
  {
  }

  /** Nothing a cluster reports reaches a reason except through the blanking filter. */
  lemma ReasonsAreCodes(library: Library, kind: Kind, payload: Payload, now: int)
    ensures AllCodes(DeriveHealth(library, kind, payload, now).reasons)
  {
    match kind.name
    case "Deployment" => DeploymentCodes(payload.spec, payload.status, payload.conditions);
    case "ReplicaSet" => StatefulSetCodes(payload.spec, payload.status);
    case "StatefulSet" => StatefulSetCodes(payload.spec, payload.status);
    case "DaemonSet" => DaemonSetCodes(payload.spec, payload.status);
    case "Pod" => PodCodes(library, payload.status, payload.conditions);
    case "Job" => JobCodes(payload.status, payload.conditions);
    case "CronJob" => CronJobCodes(library, payload.spec, payload.status, now);
    case "Node" => NodeCodes(payload.conditions);
    case "Namespace" => PhaseCodes(payload.status, payload.conditions);
    case "ResourceQuota" => PhaseCodes(payload.status, payload.conditions);
    case "PersistentVolumeClaim" => PhaseCodes(payload.status, payload.conditions);
    case _ =>
  }

  // ---- Every row in every reachable state ------------------------------------

  /** Run under the real rules, the projection never shows a healthy row with a reason or any other without one,
      and a missing row is unknown. */
  lemma ProjectionHealth(states: seq<State>, events: seq<Event>, cfg: Config, library: Library, i: nat,
                         identity: Uid -> Ident, uid: Uid)
    requires forall kind, payload, now :: cfg.derive(kind, payload, now) == DeriveHealth(library, kind, payload, now)
    requires IsRunOf(states, events, cfg) && states[0] == NEW_CLUSTER && i < |states|
    requires forall k :: 0 <= k < |events| && events[k].Deliver? ==> NamedMessage(identity, events[k].message)
    requires uid in states[i].store.table
    ensures
      var row := states[i].store.table[uid];
      && Justified(row.health)
      && (row.lifecycle.Gone? ==> row.health.level.Unknown?)
      && (row.lifecycle.Active? ==>
          row.health == DeriveHealth(library, row.entity.ident.kind, row.entity.payload, row.lastSeen))
  {
    RunCoherent(states, events, cfg, i, identity);
    var row := states[i].store.table[uid];
    assert CoherentRow(cfg.derive, row);
    HealthyIffNoReasons(library, row.entity.ident.kind, row.entity.payload, row.lastSeen);
  }
}
