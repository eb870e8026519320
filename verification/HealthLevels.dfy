/** What every health level means, kind by kind, said of a record's own fields and conditions: each level has its
    exact condition and each reason code its exact finding, whatever the rules are made of. */
module HealthLevels {
  import opened Inventory
  import opened HealthRules
  import opened HealthText
  import HealthTheorems

  // ---- What a record says ----------------------------------------------------

  /** The first condition of that name stands at position i. */
  ghost predicate First(conditions: Conditions, name: string, i: nat) {
    i < |conditions| && conditions[i].name == name && forall j :: 0 <= j < i ==> conditions[j].name != name
  }

  /** The first condition of that name has that status; later ones do not count. */
  ghost predicate Says(conditions: Conditions, name: string, status: string) {
    exists i: nat :: First(conditions, name, i) && conditions[i].status == status
  }

  ghost predicate Mentions(conditions: Conditions, name: string) {
    exists i: nat :: First(conditions, name, i)
  }

  /** The first condition of that name gives that reason, or gives none or an empty one and this is the default. */
  ghost predicate Blames(conditions: Conditions, name: string, default_: string, reason: string) {
    exists i: nat :: First(conditions, name, i)
      && if conditions[i].reason in {None, Some("")} then reason == default_ else conditions[i].reason == Some(reason)
  }

  /** A whole number, or a fraction that is one. */
  ghost predicate Reads(summary: Summary, key: string, n: int) {
    key in summary && (summary[key] == Whole(n) || summary[key] == Fraction(n as real))
  }

  ghost predicate Has(summary: Summary, key: string, value: Value) {
    key in summary && summary[key] == value
  }

  ghost predicate Under(summary: Summary, key: string, bound: int) {
    exists n :: Reads(summary, key, n) && n < bound
  }

  ghost predicate Over(summary: Summary, key: string, bound: int) {
    exists n :: Reads(summary, key, n) && n > bound
  }

  /** Zero, or no number at all. */
  ghost predicate Nothing(summary: Summary, key: string) {
    forall n :: Reads(summary, key, n) ==> n == 0
  }

  /** The replicas wanted: those of the spec, or else those of the status. */
  ghost predicate Wants(spec: Summary, status: Summary, desired: int) {
    || Reads(spec, "replicas", desired)
    || ((forall n :: !Reads(spec, "replicas", n)) && Reads(status, "replicas", desired))
  }

  /** Both generations are known and the observed one is behind. */
  ghost predicate Lags(spec: Summary, status: Summary) {
    exists generation, observed ::
      Reads(spec, "generation", generation) && Reads(status, "observed_generation", observed) && observed < generation
  }

  ghost predicate Instant(library: Library, status: Summary, key: string, at: int) {
    exists text :: Has(status, key, Value.Text(text)) && library.parseUtc(text) == Some(at)
  }

  // ---- Order of reasons ------------------------------------------------------

  /** By code points: a proper prefix, or the smaller character at the first difference. */
  ghost predicate Before(a: string, b: string) {
    exists k :: 0 <= k <= |a| && k < |b| && a[..k] == b[..k] && (k == |a| || a[k] < b[k])
  }

  ghost predicate Sorted(reasons: seq<string>) {
    forall i, j :: 0 <= i < j < |reasons| ==> Before(reasons[i], reasons[j])
  }

  lemma {:induction false} LessIsBefore(a: string, b: string)
    requires Less(a, b)
    ensures Before(a, b)
  {
    if a == "" {
      assert a[..0] == b[..0];
    } else if a[0] < b[0] {
      assert a[..0] == b[..0];
    } else {
      LessIsBefore(a[1..], b[1..]);
      var k :| 0 <= k <= |a[1..]| && k < |b[1..]| && a[1..][..k] == b[1..][..k]
        && (k == |a[1..]| || a[1..][k] < b[1..][k]);
      assert a[..k + 1] == [a[0]] + a[1..][..k] && b[..k + 1] == [b[0]] + b[1..][..k];
    }
  }

  lemma SortedSetSorted(reasons: seq<string>)
    ensures Sorted(SortedSet(reasons))
  {
    var s := SortedSet(reasons);
    HealthTheorems.SortedSetIncreasing(reasons);
    forall i, j | 0 <= i < j < |s| ensures Before(s[i], s[j]) { LessIsBefore(s[i], s[j]); }
  }

  // ---- The rules read what the record says -------------------------------------

  lemma {:induction false} FindsFirst(conditions: Conditions, name: string)
    ensures Find(conditions, name).None? <==> forall k :: 0 <= k < |conditions| ==> conditions[k].name != name
    ensures Find(conditions, name).Some? ==>
        exists i: nat :: First(conditions, name, i) && conditions[i] == Find(conditions, name).value
  {
    if conditions != [] {
      if conditions[0].name == name {
        assert First(conditions, name, 0);
      } else {
        var rest := conditions[1..];
        FindsFirst(rest, name);
        assert forall k :: 0 < k < |conditions| ==> conditions[k] == rest[k - 1];
        if Find(rest, name).Some? {
          var i: nat :| First(rest, name, i) && rest[i] == Find(rest, name).value;
          assert First(conditions, name, i + 1);
        }
      }
    }
  }

  lemma FirstIsFound(conditions: Conditions, name: string, i: nat)
    requires First(conditions, name, i)
    ensures Find(conditions, name) == Some(conditions[i])
  {
    FindsFirst(conditions, name);
    var k: nat :| First(conditions, name, k) && conditions[k] == Find(conditions, name).value;
    assert k == i;
  }

  lemma HeardAs(conditions: Conditions, name: string)
    ensures Find(conditions, name).Some? <==> Mentions(conditions, name)
    ensures forall status :: HasStatus(conditions, name, status) <==> Says(conditions, name, status)
    ensures forall default_, reason :: Find(conditions, name).Some? ==>
        (ReasonOr(Find(conditions, name).value, default_) == reason <==> Blames(conditions, name, default_, reason))
  {
    FindsFirst(conditions, name);
    forall i: nat | First(conditions, name, i) ensures Find(conditions, name) == Some(conditions[i]) {
      FirstIsFound(conditions, name, i);
    }
  }

  lemma ReadAs(summary: Summary, key: string)
    ensures forall n :: IntAt(summary, key) == Some(n) <==> Reads(summary, key, n)
  {
  }

  lemma WantedAs(spec: Summary, status: Summary)
    ensures forall d :: Desired(spec, status) == Some(d) <==> Wants(spec, status, d)
  {
    ReadAs(spec, "replicas");
    ReadAs(status, "replicas");
  }

  lemma LagsAs(spec: Summary, status: Summary)
    ensures GenerationLag(spec, status) <==> Lags(spec, status)
  {
    ReadAs(spec, "generation");
    ReadAs(status, "observed_generation");
  }

  lemma CountedAs(summary: Summary, key: string)
    ensures OrZero(IntAt(summary, key)) == 0 <==> Nothing(summary, key)
    ensures forall d :: Short(IntAt(summary, key), d) <==> Under(summary, key, d)
    ensures forall d :: !Nothing(summary, key) ==> (OrZero(IntAt(summary, key)) < d <==> Under(summary, key, d))
    ensures forall d :: d >= 0 ==> (OrZero(IntAt(summary, key)) > d <==> Over(summary, key, d))
  {
    ReadAs(summary, key);
  }

  // ---- Deployments -----------------------------------------------------------

  ghost predicate Failing(conditions: Conditions) {
    Says(conditions, "ReplicaFailure", "True") || Says(conditions, "Progressing", "False")
  }

  ghost predicate DeploymentFinding(payload: Payload, desired: int, r: string) {
    || (r == "replicas_unavailable" && Under(payload.status, "ready_replicas", desired))
    || (r == "replicas_not_available" && Under(payload.status, "available_replicas", desired))
    || (r == "rollout_in_progress" && Under(payload.status, "updated_replicas", desired))
    || (r == "generation_lag" && Lags(payload.spec, payload.status))
  }

  /** Exactly the findings, in the order of their text. */
  ghost predicate Lists(reasons: seq<string>, finding: string -> bool) {
    Sorted(reasons) && forall r :: r in reasons <==> finding(r)
  }

  lemma SoftlyLists(reasons: seq<string>, finding: string -> bool)
    requires forall r :: r in reasons <==> finding(r)
    ensures Lists(Softly(reasons).reasons, finding)
  {
    SortedSetSorted(reasons);
  }

  /** A deployment is unhealthy when it reports a failure, or wants replicas and has none ready; otherwise every
      shortfall of what it wants, and a lagging generation, degrades it. */
  lemma DeploymentLevels(library: Library, kind: Kind, payload: Payload, now: int)
    requires kind.name == "Deployment"
    ensures
      var level := DeriveHealth(library, kind, payload, now).level;
      var spec, status, conditions := payload.spec, payload.status, payload.conditions;
      && (level.Unhealthy? <==>
          || Failing(conditions)
          || (exists d :: Wants(spec, status, d) && d != 0 && Nothing(status, "ready_replicas")))
      && (level.Unknown? <==> !Failing(conditions) && forall d :: !Wants(spec, status, d))
      && (level.Healthy? <==>
          && !Failing(conditions) && !Nothing(status, "ready_replicas") && !Lags(spec, status)
          && (exists d :: Wants(spec, status, d) && d != 0 && !Under(status, "ready_replicas", d)
               && !Under(status, "available_replicas", d) && !Under(status, "updated_replicas", d)))
      && (level.Degraded? <==>
          && !Failing(conditions)
          && exists d :: Wants(spec, status, d)
               && (d == 0
                   || (!Nothing(status, "ready_replicas")
                       && (Under(status, "ready_replicas", d) || Under(status, "available_replicas", d)
                           || Under(status, "updated_replicas", d) || Lags(spec, status)))))
  {
    var spec, status, conditions := payload.spec, payload.status, payload.conditions;
    HeardAs(conditions, "ReplicaFailure");
    HeardAs(conditions, "Progressing");
    WantedAs(spec, status);
    LagsAs(spec, status);
    CountedAs(status, "ready_replicas");
    CountedAs(status, "available_replicas");
    CountedAs(status, "updated_replicas");
  }

  /** Why, for each of those levels. */
  lemma DeploymentReasons(library: Library, kind: Kind, payload: Payload, now: int)
    requires kind.name == "Deployment"
    ensures
      var v := DeriveHealth(library, kind, payload, now);
      var spec, status, conditions := payload.spec, payload.status, payload.conditions;
      && (Says(conditions, "ReplicaFailure", "True") ==> v.reasons == ["replica_failure"])
      && (forall cause ::
           !Says(conditions, "ReplicaFailure", "True") && Says(conditions, "Progressing", "False")
           && Blames(conditions, "Progressing", "progress_stalled", cause) ==>
           v.reasons == if cause == "ProgressDeadlineExceeded" then ["progress_deadline_exceeded"]
                        else ["progressing_false:" + SafeReason(cause)])
      && (!Failing(conditions) && (forall d :: !Wants(spec, status, d)) ==> v.reasons == ["no_status_reported"])
      && (forall d :: !Failing(conditions) && Wants(spec, status, d) ==>
           if d == 0 then v.reasons == ["scaled_to_zero"]
           else if Nothing(status, "ready_replicas") then v.reasons == ["no_ready_replicas"]
           else Lists(v.reasons, r => DeploymentFinding(payload, d, r)))
  {
    hide AsInt, Find, SafeReason, SortedSet, Reads, Says, First, Lists, DeploymentFinding;
    var spec, status, conditions := payload.spec, payload.status, payload.conditions;
    HeardAs(conditions, "ReplicaFailure");
    HeardAs(conditions, "Progressing");
    WantedAs(spec, status);
    CountedAs(status, "ready_replicas");
    forall d | !Failing(conditions) && Wants(spec, status, d) && d != 0 && !Nothing(status, "ready_replicas")
      ensures Lists(DeploymentRule(spec, status, conditions).reasons, r => DeploymentFinding(payload, d, r))
    {
      DeploymentFindings(payload, d);
    }
  }

  lemma DeploymentFindings(payload: Payload, d: int)
    requires !Nothing(payload.status, "ready_replicas")
    ensures
      var status := payload.status;
      Lists(Softly(When(OrZero(IntAt(status, "ready_replicas")) < d, "replicas_unavailable")
                   + When(Short(IntAt(status, "available_replicas"), d), "replicas_not_available")
                   + When(Short(IntAt(status, "updated_replicas"), d), "rollout_in_progress")
                   + When(GenerationLag(payload.spec, status), "generation_lag")).reasons,
            r => DeploymentFinding(payload, d, r))
  {
    LagsAs(payload.spec, payload.status);
    CountedAs(payload.status, "ready_replicas");
    CountedAs(payload.status, "available_replicas");
    CountedAs(payload.status, "updated_replicas");
    hide AsInt, IntAt, Reads, Under, Lags, GenerationLag, Nothing, OrZero, Short;
    SoftlyLists(When(OrZero(IntAt(payload.status, "ready_replicas")) < d, "replicas_unavailable")
                   + When(Short(IntAt(payload.status, "available_replicas"), d), "replicas_not_available")
                   + When(Short(IntAt(payload.status, "updated_replicas"), d), "rollout_in_progress")
                   + When(GenerationLag(payload.spec, payload.status), "generation_lag"),
                   r => DeploymentFinding(payload, d, r));
  }

  // ---- Replica sets and stateful sets ----------------------------------------

  ghost predicate Rolling(status: Summary, desired: int) {
    || Under(status, "updated_replicas", desired)
    || exists m, n :: Reads(status, "current_replicas", m) && Reads(status, "updated_replicas", n) && m != n
  }

  ghost predicate TwoRevisions(status: Summary) {
    exists was, next :: Has(status, "current_revision", Value.Text(was))
      && Has(status, "update_revision", Value.Text(next)) && was != next
  }

  ghost predicate SetFinding(payload: Payload, desired: int, r: string) {
    || (r == "replicas_unavailable" && Under(payload.status, "ready_replicas", desired))
    || (r == "update_rollout_in_progress" && Rolling(payload.status, desired))
    || (r == "revision_lag" && TwoRevisions(payload.status))
    || (r == "generation_lag" && Lags(payload.spec, payload.status))
  }

  lemma RollsAs(status: Summary, d: int)
    ensures
      var current, updated := IntAt(status, "current_replicas"), IntAt(status, "updated_replicas");
      Short(updated, d) || (current.Some? && updated.Some? && current != updated) <==> Rolling(status, d)
    ensures
      var was, next := Get(status, "current_revision"), Get(status, "update_revision");
      was.Text? && next.Text? && was != next <==> TwoRevisions(status)
  {
    ReadAs(status, "current_replicas");
    ReadAs(status, "updated_replicas");
    CountedAs(status, "updated_replicas");
    var was, next := Get(status, "current_revision"), Get(status, "update_revision");
    if was.Text? && next.Text? {
      assert Has(status, "current_revision", Value.Text(was.text))
          && Has(status, "update_revision", Value.Text(next.text));
    }
  }

  lemma SetLevels(library: Library, kind: Kind, payload: Payload, now: int)
    requires kind.name in {"ReplicaSet", "StatefulSet"}
    ensures
      var level := DeriveHealth(library, kind, payload, now).level;
      var spec, status := payload.spec, payload.status;
      && (level.Unhealthy? <==> exists d :: Wants(spec, status, d) && d != 0 && Nothing(status, "ready_replicas"))
      && (level.Unknown? <==> forall d :: !Wants(spec, status, d))
      && (level.Healthy? <==>
          && !Nothing(status, "ready_replicas") && !TwoRevisions(status) && !Lags(spec, status)
          && exists d :: Wants(spec, status, d) && d != 0 && !Under(status, "ready_replicas", d) && !Rolling(status, d))
      && (level.Degraded? <==>
          exists d :: Wants(spec, status, d)
            && (d == 0
                || (!Nothing(status, "ready_replicas")
                    && (Under(status, "ready_replicas", d) || Rolling(status, d) || TwoRevisions(status)
                        || Lags(spec, status)))))
  {
    hide AsInt, Reads, SortedSet, Lags, Rolling, TwoRevisions, GenerationLag;
    var spec, status := payload.spec, payload.status;
    WantedAs(spec, status);
    LagsAs(spec, status);
    CountedAs(status, "ready_replicas");
    forall d ensures Rolling(status, d) <==>
      var current, updated := IntAt(status, "current_replicas"), IntAt(status, "updated_replicas");
      Short(updated, d) || (current.Some? && updated.Some? && current != updated) { RollsAs(status, d); }
    RollsAs(status, 0);
  }

  lemma SetReasons(library: Library, kind: Kind, payload: Payload, now: int)
    requires kind.name in {"ReplicaSet", "StatefulSet"}
    ensures
      var v := DeriveHealth(library, kind, payload, now);
      var spec, status := payload.spec, payload.status;
      && ((forall d :: !Wants(spec, status, d)) ==> v.reasons == ["no_status_reported"])
      && (forall d :: Wants(spec, status, d) ==>
           if d == 0 then v.reasons == ["scaled_to_zero"]
           else if Nothing(status, "ready_replicas") then v.reasons == ["no_ready_replicas"]
           else Lists(v.reasons, r => SetFinding(payload, d, r)))
  {
    hide AsInt, SortedSet, Reads, Lists, SetFinding, Rolling, TwoRevisions, GenerationLag;
    var spec, status := payload.spec, payload.status;
    WantedAs(spec, status);
    CountedAs(status, "ready_replicas");
    forall d | Wants(spec, status, d) && d != 0 && !Nothing(status, "ready_replicas")
      ensures Lists(StatefulSetRule(spec, status).reasons, r => SetFinding(payload, d, r))
    {
      SetFindings(payload, d);
    }
  }

  lemma SetFindings(payload: Payload, d: int)
    requires !Nothing(payload.status, "ready_replicas")
    ensures
      var status := payload.status;
      var current, updated := IntAt(status, "current_replicas"), IntAt(status, "updated_replicas");
      var was, next := Get(status, "current_revision"), Get(status, "update_revision");
      Lists(Softly(When(OrZero(IntAt(status, "ready_replicas")) < d, "replicas_unavailable")
                   + When(Short(updated, d) || (current.Some? && updated.Some? && current != updated),
                          "update_rollout_in_progress")
                   + When(was.Text? && next.Text? && was != next, "revision_lag")
                   + When(GenerationLag(payload.spec, status), "generation_lag")).reasons,
            r => SetFinding(payload, d, r))
  {
    LagsAs(payload.spec, payload.status);
    CountedAs(payload.status, "ready_replicas");
    RollsAs(payload.status, d);
    hide AsInt, IntAt, Reads, Under, Lags, GenerationLag, Nothing, OrZero, Short, Rolling, TwoRevisions, Get;
    var status := payload.status;
    var current, updated := IntAt(status, "current_replicas"), IntAt(status, "updated_replicas");
    var was, next := Get(status, "current_revision"), Get(status, "update_revision");
    SoftlyLists(When(OrZero(IntAt(status, "ready_replicas")) < d, "replicas_unavailable")
                + When(Short(updated, d) || (current.Some? && updated.Some? && current != updated),
                       "update_rollout_in_progress")
                + When(was.Text? && next.Text? && was != next, "revision_lag")
                + When(GenerationLag(payload.spec, status), "generation_lag"), r => SetFinding(payload, d, r));
  }

  // ---- Daemon sets -----------------------------------------------------------

  ghost predicate DaemonFinding(payload: Payload, desired: int, r: string) {
    || (r == "replicas_unavailable" && Under(payload.status, "ready", desired))
    || (r == "pods_misscheduled" && Over(payload.status, "misscheduled", 0))
    || (r == "rollout_in_progress" && Under(payload.status, "updated", desired))
    || (r == "generation_lag" && Lags(payload.spec, payload.status))
  }

  lemma DaemonSetLevels(library: Library, kind: Kind, payload: Payload, now: int)
    requires kind.name == "DaemonSet"
    ensures
      var level := DeriveHealth(library, kind, payload, now).level;
      var spec, status := payload.spec, payload.status;
      && (level.Unhealthy? <==> exists d :: Reads(status, "desired", d) && d != 0 && Nothing(status, "ready"))
      && (level.Unknown? <==> forall d :: !Reads(status, "desired", d))
      && (level.Healthy? <==>
          && !Nothing(status, "ready") && !Over(status, "misscheduled", 0) && !Lags(spec, status)
          && exists d :: Reads(status, "desired", d) && d != 0 && !Under(status, "ready", d)
               && !Under(status, "updated", d))
      && (level.Degraded? <==>
          exists d :: Reads(status, "desired", d)
            && (d == 0
                || (!Nothing(status, "ready")
                    && (Under(status, "ready", d) || Over(status, "misscheduled", 0) || Under(status, "updated", d)
                        || Lags(spec, status)))))
  {
    hide AsInt, SortedSet, Lags, GenerationLag;
    var spec, status := payload.spec, payload.status;
    ReadAs(status, "desired");
    ReadAs(status, "ready");
    LagsAs(spec, status);
    CountedAs(status, "ready");
    CountedAs(status, "misscheduled");
    CountedAs(status, "updated");
    hide Reads, IntAt;
  }

  lemma DaemonSetReasons(library: Library, kind: Kind, payload: Payload, now: int)
    requires kind.name == "DaemonSet"
    ensures
      var v := DeriveHealth(library, kind, payload, now);
      var status := payload.status;
      && ((forall d :: !Reads(status, "desired", d)) ==> v.reasons == ["no_status_reported"])
      && (forall d :: Reads(status, "desired", d) ==>
           if d == 0 then v.reasons == ["scaled_to_zero"]
           else if Nothing(status, "ready") then v.reasons == ["no_ready_replicas"]
           else Lists(v.reasons, r => DaemonFinding(payload, d, r)))
  {
    hide AsInt, SortedSet, Reads, Lists, DaemonFinding, GenerationLag;
    var status := payload.status;
    ReadAs(status, "desired");
    CountedAs(status, "ready");
    forall d | Reads(status, "desired", d) && d != 0 && !Nothing(status, "ready")
      ensures Lists(DaemonSetRule(payload.spec, status).reasons, r => DaemonFinding(payload, d, r))
    {
      DaemonFindings(payload, d);
    }
  }

  lemma DaemonFindings(payload: Payload, d: int)
    requires !Nothing(payload.status, "ready")
    ensures
      var status := payload.status;
      Lists(Softly(When(OrZero(IntAt(status, "ready")) < d, "replicas_unavailable")
                   + When(OrZero(IntAt(status, "misscheduled")) > 0, "pods_misscheduled")
                   + When(Short(IntAt(status, "updated"), d), "rollout_in_progress")
                   + When(GenerationLag(payload.spec, status), "generation_lag")).reasons,
            r => DaemonFinding(payload, d, r))
  {
    var status := payload.status;
    LagsAs(payload.spec, status);
    CountedAs(status, "ready");
    CountedAs(status, "misscheduled");
    CountedAs(status, "updated");
    hide AsInt, IntAt, Reads, Under, Over, Lags, GenerationLag, Nothing, OrZero, Short;
    SoftlyLists(When(OrZero(IntAt(status, "ready")) < d, "replicas_unavailable")
                + When(OrZero(IntAt(status, "misscheduled")) > 0, "pods_misscheduled")
                + When(Short(IntAt(status, "updated"), d), "rollout_in_progress")
                + When(GenerationLag(payload.spec, status), "generation_lag"), r => DaemonFinding(payload, d, r));
  }

  // ---- Pods ------------------------------------------------------------------

  ghost predicate InPhase(payload: Payload, phase: string) {
    Has(payload.status, "phase", Value.Text(phase))
  }

  ghost predicate Crashing(payload: Payload) {
    Has(payload.status, "crashloop", Flag(true)) || Has(payload.status, "oom_killed", Flag(true))
  }

  ghost predicate NotScheduled(payload: Payload) {
    Says(payload.conditions, "PodScheduled", "False") || Says(payload.conditions, "PodScheduled", "Unknown")
  }

  ghost predicate Unschedulable(payload: Payload) {
    NotScheduled(payload) && Blames(payload.conditions, "PodScheduled", "", "Unschedulable")
  }

  ghost predicate PodFinding(payload: Payload, r: string) {
    || (r == "pod_not_ready" && Says(payload.conditions, "Ready", "False"))
    || (r == "containers_not_ready" && Says(payload.conditions, "ContainersReady", "False"))
    || (r == "restart_churn" && Over(payload.status, "restarts", 5))
  }

  lemma PodHeard(payload: Payload)
    ensures forall status :: HasStatus(payload.conditions, "PodScheduled", status) <==>
        Says(payload.conditions, "PodScheduled", status)
    ensures forall status :: HasStatus(payload.conditions, "Ready", status) <==>
        Says(payload.conditions, "Ready", status)
    ensures forall status :: HasStatus(payload.conditions, "ContainersReady", status) <==>
        Says(payload.conditions, "ContainersReady", status)
    ensures NotScheduled(payload) ==> Find(payload.conditions, "PodScheduled").Some?
    ensures NotScheduled(payload) ==>
        (ReasonOr(Find(payload.conditions, "PodScheduled").value, "") == "Unschedulable" <==> Unschedulable(payload))
    ensures OrZero(IntAt(payload.status, "restarts")) > 5 <==> Over(payload.status, "restarts", 5)
    ensures forall phase :: Get(payload.status, "phase") == Value.Text(phase) <==> InPhase(payload, phase)
    ensures Get(payload.status, "crashloop") == Flag(true) || Get(payload.status, "oom_killed") == Flag(true)
            <==> Crashing(payload)
  {
    HeardAs(payload.conditions, "PodScheduled");
    HeardAs(payload.conditions, "Ready");
    HeardAs(payload.conditions, "ContainersReady");
    CountedAs(payload.status, "restarts");
  }

  /** A pod that succeeded is healthy whatever else it reports. One that crashes, runs out of memory, failed or
      cannot be scheduled is unhealthy. */
  lemma PodLevels(library: Library, kind: Kind, payload: Payload, now: int)
    requires kind.name == "Pod"
    ensures
      var level := DeriveHealth(library, kind, payload, now).level;
      && (level.Unhealthy? <==>
          !InPhase(payload, "Succeeded") && (InPhase(payload, "Failed") || Crashing(payload) || Unschedulable(payload)))
      && (level.Healthy? <==>
          || InPhase(payload, "Succeeded")
          || (InPhase(payload, "Running") && !Crashing(payload) && !NotScheduled(payload)
              && forall r :: !PodFinding(payload, r)))
      && (level.Unknown? <==>
          && !Crashing(payload) && !NotScheduled(payload)
          && !InPhase(payload, "Succeeded") && !InPhase(payload, "Failed")
          && !InPhase(payload, "Pending") && !InPhase(payload, "Running"))
      && (level.Degraded? <==>
          && !InPhase(payload, "Succeeded") && !InPhase(payload, "Failed") && !Crashing(payload)
          && !Unschedulable(payload)
          && (|| NotScheduled(payload)
              || InPhase(payload, "Pending")
              || (InPhase(payload, "Running") && exists r :: PodFinding(payload, r))))
  {
    PodHeard(payload);
    hide HasStatus, Says, AsInt, SortedSet, SafeReason, Blames, Over, IntAt, Find, Truthy, Shown,
      ReasonOr, Get, InPhase, Crashing;
    assert PodFinding(payload, "pod_not_ready") <==> Says(payload.conditions, "Ready", "False");
    assert PodFinding(payload, "containers_not_ready") <==> Says(payload.conditions, "ContainersReady", "False");
    assert PodFinding(payload, "restart_churn") <==> Over(payload.status, "restarts", 5);
  }

  lemma PodReasons(library: Library, kind: Kind, payload: Payload, now: int)
    requires kind.name == "Pod" && !InPhase(payload, "Succeeded")
    ensures
      var v := DeriveHealth(library, kind, payload, now);
      && (Crashing(payload) ==>
           Lists(v.reasons, r => || (r == "crashloop_backoff" && Has(payload.status, "crashloop", Flag(true)))
                                 || (r == "oom_killed" && Has(payload.status, "oom_killed", Flag(true)))))
      && (!Crashing(payload) && InPhase(payload, "Failed") ==> v.reasons == ["pod_failed"])
      && (!Crashing(payload) && !InPhase(payload, "Failed") && NotScheduled(payload) ==>
           v.reasons == if Unschedulable(payload) then ["unschedulable"] else ["pod_not_scheduled"])
  {
    PodHeard(payload);
    hide HasStatus, Says, AsInt, SortedSet, SafeReason, Blames, Over, IntAt, Find, Truthy, Shown, ReasonOr;
    var crash, memory := "crashloop_backoff", "oom_killed";
    assert crash[..0] == memory[..0];
    assert Before(crash, memory);
  }

  lemma WaitingPodReasons(library: Library, kind: Kind, payload: Payload, now: int)
    requires kind.name == "Pod" && InPhase(payload, "Pending") && !Crashing(payload) && !NotScheduled(payload)
    ensures
      var reasons := DeriveHealth(library, kind, payload, now).reasons;
      && (forall text :: text != "" && Has(payload.status, "waiting_reason", Value.Text(text)) ==>
           reasons == ["pod_pending", "waiting:" + SafeReason(text)])
      && (Has(payload.status, "waiting_reason", Value.Text("")) ==> reasons == ["pod_pending"])
      && (forall value :: Has(payload.status, "waiting_reason", value) && !value.Text? ==>
           reasons == if value in {Null, Flag(false), Whole(0), Fraction(0.0), Containers([])} then ["pod_pending"]
                      else ["pod_pending", "waiting:" + SafeReason(library.show(value))])
      && ("waiting_reason" !in payload.status ==> reasons == ["pod_pending"])
  {
    PodHeard(payload);
  }

  lemma RunningPodReasons(library: Library, kind: Kind, payload: Payload, now: int)
    requires kind.name == "Pod" && InPhase(payload, "Running") && !Crashing(payload) && !NotScheduled(payload)
    ensures Lists(DeriveHealth(library, kind, payload, now).reasons, r => PodFinding(payload, r))
  {
    PodHeard(payload);
    hide HasStatus, Says, AsInt, SortedSet, SafeReason, Over, IntAt, Lists;
    SoftlyLists(When(HasStatus(payload.conditions, "Ready", "False"), "pod_not_ready")
                + When(HasStatus(payload.conditions, "ContainersReady", "False"), "containers_not_ready")
                + When(OrZero(IntAt(payload.status, "restarts")) > 5, "restart_churn"), r => PodFinding(payload, r));
  }

  // ---- Jobs ------------------------------------------------------------------

  /** The conditions decide before the counters, a failed condition before a complete one; a failure counted is
      softened only by another try still running. */
  lemma JobLevels(library: Library, kind: Kind, payload: Payload, now: int)
    requires kind.name == "Job"
    ensures
      var level := DeriveHealth(library, kind, payload, now).level;
      var status, broken := payload.status, Says(payload.conditions, "Failed", "True");
      var complete := Says(payload.conditions, "Complete", "True");
      && (level.Unhealthy? <==> broken || (!complete && Over(status, "failed", 0) && !Over(status, "active", 0)))
      && (level.Healthy? <==>
          !broken && (complete || (!Over(status, "failed", 0) && Over(status, "succeeded", 0))))
      && (level.Degraded? <==>
          && !broken && !complete && Over(status, "active", 0)
          && (Over(status, "failed", 0) || !Over(status, "succeeded", 0)))
      && (level.Unknown? <==>
          && !broken && !complete
          && !Over(status, "failed", 0) && !Over(status, "succeeded", 0) && !Over(status, "active", 0))
  {
    HeardAs(payload.conditions, "Failed");
    HeardAs(payload.conditions, "Complete");
    CountedAs(payload.status, "failed");
    CountedAs(payload.status, "succeeded");
    CountedAs(payload.status, "active");
    hide HasStatus, Says, IntAt, Over, SafeReason;
  }

  lemma JobReasons(library: Library, kind: Kind, payload: Payload, now: int)
    requires kind.name == "Job"
    ensures
      var v := DeriveHealth(library, kind, payload, now);
      && (forall cause ::
           Says(payload.conditions, "Failed", "True") && Blames(payload.conditions, "Failed", "job_failed", cause) ==>
           v.reasons == ["job_failed:" + SafeReason(cause)])
      && (!Says(payload.conditions, "Failed", "True") ==>
           match v.level
           case Healthy => v.reasons == []
           case Unhealthy => v.reasons == ["job_failed"]
           case Unknown => v.reasons == ["no_status_reported"]
           case Degraded => v.reasons == if Over(payload.status, "failed", 0) then ["job_retrying_after_failures"]
                                         else ["job_running"])
  {
    HeardAs(payload.conditions, "Failed");
    CountedAs(payload.status, "failed");
    hide Says, IntAt, Over, SafeReason, Blames;
  }

  // ---- Nodes, namespaces and volume claims -----------------------------------

  ghost predicate Pressure(conditions: Conditions, r: string) {
    || (r == "memorypressure" && Says(conditions, "MemoryPressure", "True"))
    || (r == "diskpressure" && Says(conditions, "DiskPressure", "True"))
    || (r == "pidpressure" && Says(conditions, "PIDPressure", "True"))
  }

  lemma NodeHeard(conditions: Conditions)
    ensures Find(conditions, "Ready").Some? <==> Mentions(conditions, "Ready")
    ensures forall status :: HasStatus(conditions, "Ready", status) <==> Says(conditions, "Ready", status)
    ensures HasStatus(conditions, "MemoryPressure", "True") <==> Pressure(conditions, "memorypressure")
    ensures HasStatus(conditions, "DiskPressure", "True") <==> Pressure(conditions, "diskpressure")
    ensures HasStatus(conditions, "PIDPressure", "True") <==> Pressure(conditions, "pidpressure")
  {
    HeardAs(conditions, "Ready");
    HeardAs(conditions, "MemoryPressure");
    HeardAs(conditions, "DiskPressure");
    HeardAs(conditions, "PIDPressure");
  }

  /** A node is judged by its first Ready condition; only a node that is neither unready nor unknown is degraded by a
      pressure, and every pressure that is on is listed. */
  lemma NodeLevels(library: Library, kind: Kind, payload: Payload, now: int)
    requires kind.name == "Node"
    ensures
      var v := DeriveHealth(library, kind, payload, now);
      var conditions := payload.conditions;
      && (v.level.Unhealthy? <==> Says(conditions, "Ready", "False"))
      && (v.level.Unknown? <==> !Mentions(conditions, "Ready") || Says(conditions, "Ready", "Unknown"))
      && (v.level.Healthy? <==>
          && Mentions(conditions, "Ready") && !Says(conditions, "Ready", "False")
          && !Says(conditions, "Ready", "Unknown") && forall r :: !Pressure(conditions, r))
      && (v.level.Degraded? <==>
          && Mentions(conditions, "Ready") && !Says(conditions, "Ready", "False")
          && !Says(conditions, "Ready", "Unknown") && exists r :: Pressure(conditions, r))
      && (v.level.Unhealthy? ==> v.reasons == ["node_not_ready"])
      && (v.level.Unknown? ==>
           v.reasons == if Mentions(conditions, "Ready") then ["node_status_unknown"] else ["no_status_reported"])
      && (v.level.Degraded? ==>
           v.reasons == (if Pressure(conditions, "memorypressure") then ["memorypressure"] else [])
                        + (if Pressure(conditions, "diskpressure") then ["diskpressure"] else [])
                        + (if Pressure(conditions, "pidpressure") then ["pidpressure"] else []))
  {
    NodeHeard(payload.conditions);
    hide Says, Mentions, First;
  }

  lemma NamespaceLevels(library: Library, kind: Kind, payload: Payload, now: int)
    requires kind.name == "Namespace"
    ensures
      var v := DeriveHealth(library, kind, payload, now);
      && (v.level.Healthy? <==> InPhase(payload, "Active"))
      && (v.level.Degraded? <==> InPhase(payload, "Terminating"))
      && (v.level.Unknown? <==> !InPhase(payload, "Active") && !InPhase(payload, "Terminating"))
      && (v.level.Degraded? ==>
           v.reasons == if Says(payload.conditions, "NamespaceFinalizersRemaining", "True")
                        then ["namespace_terminating_stuck"] else ["namespace_terminating"])
      && (v.level.Unknown? ==> v.reasons == ["no_status_reported"])
  {
    HeardAs(payload.conditions, "NamespaceFinalizersRemaining");
  }

  lemma VolumeClaimLevels(library: Library, kind: Kind, payload: Payload, now: int)
    requires kind.name == "PersistentVolumeClaim"
    ensures
      var v := DeriveHealth(library, kind, payload, now);
      && (v.level.Healthy? <==> InPhase(payload, "Bound"))
      && (v.level.Degraded? <==> InPhase(payload, "Pending"))
      && (v.level.Unhealthy? <==> InPhase(payload, "Lost"))
      && (v.level.Unknown? <==>
          !InPhase(payload, "Bound") && !InPhase(payload, "Pending") && !InPhase(payload, "Lost"))
      && (v.level.Degraded? ==> v.reasons == ["pvc_pending"])
      && (v.level.Unhealthy? ==> v.reasons == ["pvc_lost"])
      && (v.level.Unknown? ==> v.reasons == ["no_status_reported"])
  {
    assert Has(payload.status, "phase", Value.Text("Bound")) <==> Get(payload.status, "phase") == Value.Text("Bound");
  }

  // ---- Cron jobs -------------------------------------------------------------

  /** Twice the interval of the schedule and a minute more have gone by. */
  ghost predicate Missed(spec: Summary, last: int, now: int) {
    exists text, bound :: Has(spec, "schedule", Value.Text(text)) && Recurs(text, bound)
      && now - last > 2 * bound + 60_000_000
  }

  ghost predicate EverSucceeded(library: Library, status: Summary) {
    exists at :: Instant(library, status, "last_successful_time", at)
  }

  lemma InstantAs(library: Library, status: Summary, key: string)
    ensures forall at :: ParseUtc(library, Get(status, key)) == Some(at) <==> Instant(library, status, key, at)
    ensures ParseUtc(library, Get(status, key)).Some? <==> exists at :: Instant(library, status, key, at)
  {
    forall at | ParseUtc(library, Get(status, key)) == Some(at) ensures Instant(library, status, key, at) {
      assert Has(status, key, Value.Text(Get(status, key).text));
    }
    if ParseUtc(library, Get(status, key)).Some? {
      assert Instant(library, status, key, ParseUtc(library, Get(status, key)).value);
    }
  }

  lemma MissedAs(spec: Summary, last: int, now: int)
    ensures ScheduleMissed(Get(spec, "schedule"), last, now) <==> Missed(spec, last, now)
  {
    hide CronIntervalBound, Recurs;
    var schedule := Get(spec, "schedule");
    if schedule.Text? {
      assert Has(spec, "schedule", Value.Text(schedule.text));
      forall bound ensures CronIntervalBound(schedule.text) == Some(bound) <==> Recurs(schedule.text, bound) {
        ScheduleBound(schedule.text, bound);
      }
      if CronIntervalBound(schedule.text).Some? {
        assert Recurs(schedule.text, CronIntervalBound(schedule.text).value);
      }
    }
  }

  /** Never unhealthy: suspended, overdue or without a recorded success is degraded, and without a readable last
      schedule nothing is known. */
  lemma CronJobLevels(library: Library, kind: Kind, payload: Payload, now: int)
    requires kind.name == "CronJob"
    ensures
      var v := DeriveHealth(library, kind, payload, now);
      var spec, status, suspended := payload.spec, payload.status, Has(payload.spec, "suspend", Flag(true));
      && !v.level.Unhealthy?
      && (v.level.Unknown? <==> !suspended && forall t :: !Instant(library, status, "last_schedule_time", t))
      && (v.level.Healthy? <==>
          && !suspended && EverSucceeded(library, status)
          && exists t :: Instant(library, status, "last_schedule_time", t) && !Missed(spec, t, now))
      && (v.level.Degraded? <==>
          || suspended
          || (exists t :: Instant(library, status, "last_schedule_time", t)
                && (Missed(spec, t, now) || !EverSucceeded(library, status))))
      && (suspended ==> v.reasons == ["cronjob_suspended"])
      && (v.level.Unknown? ==> v.reasons == ["never_scheduled"])
      && (forall t :: !suspended && Instant(library, status, "last_schedule_time", t) ==>
           Lists(v.reasons, r => || (r == "schedule_missed" && Missed(spec, t, now))
                                 || (r == "no_successful_run_recorded" && !EverSucceeded(library, status))))
  {
    hide ScheduleMissed, Missed, ParseUtc, Instant, SortedSet, Lists;
    var spec, status := payload.spec, payload.status;
    InstantAs(library, status, "last_schedule_time");
    InstantAs(library, status, "last_successful_time");
    var last := ParseUtc(library, Get(status, "last_schedule_time"));
    if last.Some? {
      MissedAs(spec, last.value, now);
      SoftlyLists(When(ScheduleMissed(Get(spec, "schedule"), last.value, now), "schedule_missed")
                  + When(ParseUtc(library, Get(status, "last_successful_time")).None?, "no_successful_run_recorded"),
                  r => || (r == "schedule_missed" && Missed(spec, last.value, now))
                       || (r == "no_successful_run_recorded" && !EverSucceeded(library, status)));
    }
  }

  // ---- Resource quotas -------------------------------------------------------

  /** Both sides of the resource are plain quantities of one unit. */
  ghost predicate Compared(status: Summary, resource: string, hard: nat, used: nat) {
    && "hard_" + resource in status && "used_" + resource in status
    && exists unit :: Measures(status["hard_" + resource], hard, unit)
        && Measures(status["used_" + resource], used, unit)
  }

  lemma PairAs(status: Summary, resource: string, hard: nat, used: nat)
    requires "hard_" + resource in status
    ensures PairAt(status, "hard_" + resource) == Some(Pair(hard, used)) <==> Compared(status, resource, hard, used)
  {
    hide ParseQuantity, Measures;
    var key := "hard_" + resource;
    assert key[5..] == resource;
    var h, u := status[key], Get(status, "used_" + resource);
    if PairAt(status, key) == Some(Pair(hard, used)) {
      QuantityRead(h, hard, ParseQuantity(h).value.unit);
      QuantityRead(u, used, ParseQuantity(u).value.unit);
      if "used_" + resource !in status { NullIsNoQuantity(); }
    }
    if Compared(status, resource, hard, used) {
      var unit :| Measures(h, hard, unit) && Measures(u, used, unit);
      QuantityRead(h, hard, unit);
      QuantityRead(u, used, unit);
    }
  }

  lemma NullIsNoQuantity()
    ensures ParseQuantity(Null).None?
  {
  }

  lemma PairsCompared(status: Summary)
    ensures forall key :: key in status && PairAt(status, key).Some? ==>
        exists resource :: Compared(status, resource, PairAt(status, key).value.hard, PairAt(status, key).value.used)
    ensures forall resource, hard, used :: Compared(status, resource, hard, used) ==>
        "hard_" + resource in status && PairAt(status, "hard_" + resource) == Some(Pair(hard, used))
  {
    hide QuotaPair;
    forall key | key in status && PairAt(status, key).Some?
      ensures exists resource ::
          Compared(status, resource, PairAt(status, key).value.hard, PairAt(status, key).value.used)
    {
      assert key == "hard_" + key[5..];
      PairAs(status, key[5..], PairAt(status, key).value.hard, PairAt(status, key).value.used);
    }
    forall resource, hard, used | Compared(status, resource, hard, used)
      ensures PairAt(status, "hard_" + resource) == Some(Pair(hard, used))
    {
      PairAs(status, resource, hard, used);
    }
  }

  lemma QuotaAs(status: Summary)
    ensures AnyPair(status, status.Keys) <==> exists resource, hard, used :: Compared(status, resource, hard, used)
    ensures AnyExhausted(status, status.Keys) <==>
        exists resource, hard, used :: Compared(status, resource, hard, used) && 0 < hard <= used
    ensures AnyNearLimit(status, status.Keys) <==>
        exists resource, hard, used :: Compared(status, resource, hard, used) && used < hard && 9 * hard <= 10 * used
  {
    PairsCompared(status);
    hide PairAt, Compared;
  }

  /** An exhausted resource hides one near its limit; a limit of zero is never reached. */
  lemma ResourceQuotaLevels(library: Library, kind: Kind, payload: Payload, now: int)
    requires kind.name == "ResourceQuota"
    ensures
      var v := DeriveHealth(library, kind, payload, now);
      var status := payload.status;
      && (v.level.Unknown? <==> forall resource, hard, used :: !Compared(status, resource, hard, used))
      && (v.level.Healthy? <==>
          && (exists resource, hard, used :: Compared(status, resource, hard, used))
          && (forall resource, hard, used :: Compared(status, resource, hard, used) && hard > 0 ==>
               10 * used < 9 * hard))
      && (v.level.Degraded? <==>
          exists resource, hard, used :: Compared(status, resource, hard, used) && hard > 0 && 9 * hard <= 10 * used)
      && (v.level.Unknown? ==> v.reasons == ["no_comparable_quota_data"])
      && (v.level.Degraded? ==>
           v.reasons == if exists resource, hard, used ::
                             Compared(status, resource, hard, used) && 0 < hard <= used
                        then ["quota_exhausted"] else ["quota_near_limit"])
  {
    QuotaAs(payload.status);
    hide AnyPair, AnyExhausted, AnyNearLimit, Compared;
  }

  // ---- Everything else -------------------------------------------------------

  const JUDGED: set<string> := {
    "Deployment", "ReplicaSet", "StatefulSet", "DaemonSet", "Pod", "Job", "CronJob", "Node", "Namespace",
    "ResourceQuota", "PersistentVolumeClaim"
  }

  lemma OtherKindsAreUnknown(library: Library, kind: Kind, payload: Payload, now: int)
    requires kind.name !in JUDGED
    ensures DeriveHealth(library, kind, payload, now) == Verdict(Unknown, ["no_health_rule"])
  {
  }
}
