/** The main results: whatever is lost, duplicated, delayed, refused, crashed, restarted, expired or
    pruned, the projection is what the agent has shipped of what it has seen of the cluster. */
module ReplicationTheorems {
  import opened Inventory
  import opened Projection
  import opened Server
  import opened Replication
  import opened ReplicationInvariants
  import opened ReplicationAgentSteps
  import opened ReplicationServerSteps

  /** A behaviour from the moment our agent was enrolled. */
  ghost predicate IsBehaviour(w: World, states: seq<System>, actions: seq<Action>) {
    && |states| == |actions| + 1
    && Enrolled(w, states[0])
    && forall i {:trigger actions[i]} :: 0 <= i < |actions| ==> IsStep(w, states[i], actions[i], states[i + 1])
  }

  ghost predicate IsStep(w: World, s: System, action: Action, s': System) {
    && CanAct(w, s, action)
    && (InCycle(s.agent) ==> s.agent.uid in s.sessions)
    && s' == Act(w, s, action)
  }

  lemma StartIsStep(w: World, s: System, uid: SnapshotUid)
    requires s.agent.phase.Idle? && uid !in s.sessions && uid !in s.server.snapshots
    ensures IsStep(w, s, StartCycle(uid), Started(w, s, uid))
  {
  }

  lemma ListIsStep(w: World, s: System, kind: Kind, version: nat, items: seq<Resource>)
    requires s.agent.phase.Listing? && s.agent.waiting.None? && s.agent.uid in s.sessions && kind !in s.agent.versions
    requires version <= |LogOf(s.logs, kind)| && IsListOf(items, Collection(LogOf(s.logs, kind)[..version]))
    ensures IsStep(w, s, Action.ListCollection(kind, version, items), Listed(s, kind, version, items))
  {
  }

  lemma PageIsStep(w: World, s: System, size: nat)
    requires s.agent.phase.Listing? && s.agent.waiting.None? && s.agent.uid in s.sessions
    requires 0 < size <= |s.agent.pending| && size <= SNAPSHOT_PAGE_MAX
    ensures IsStep(w, s, SendPage(size), Paged(w, s, size))
  {
  }

  lemma CompleteIsStep(w: World, s: System)
    requires s.agent.phase.Listing? && s.agent.waiting.None? && s.agent.uid in s.sessions && s.agent.pending == []
    ensures IsStep(w, s, SendComplete, Completed(w, s))
  {
  }

  lemma AckIsStep(w: World, s: System, persisted: bool)
    requires InCycle(s.agent) && s.agent.uid in s.sessions && s.agent.waiting.Some? && s.agent.waiting.value in s.acked
    ensures IsStep(w, s, ReceiveAck(persisted), Acknowledged(s, persisted))
  {
  }

  lemma FailIsStep(w: World, s: System)
    requires InCycle(s.agent) && s.agent.uid in s.sessions
    ensures IsStep(w, s, Fail, Stopped(s, Idle, s.agent.sequence))
  {
  }

  predicate IsAgentStep(action: Action) {
    !action.DeliverCopy? && !action.DeliverForeign? && !action.CommitDemand? && !action.Housekeep? && !action.Supersede?
  }

  lemma AgentStepRunning(w: World, s: System, action: Action)
    requires Running(w, s) && CanAct(w, s, action) && IsAgentStep(action)
    ensures Running(w, Act(w, s, action))
  {
    hide Running;
    match action
    case ChangeCluster(kind, change) => ChangeClusterInv(w, s, kind, change);
    case StartCycle(uid) => StartCycleInv(w, s, uid);
    case ListCollection(kind, version, items) => ListCollectionInv(w, s, kind, version, items);
    case SendPage(size) => SendPageInv(w, s, size);
    case SendComplete => SendCompleteInv(w, s);
    case ReceiveAck(persisted) => ReceiveAckInv(w, s, persisted);
    case WatchPush(kind, at) => WatchPushInv(w, s, kind, at);
    case WatchStop(kind) => WatchStopInv(w, s, kind);
    case Take => TakeInv(w, s);
    case Flush => FlushInv(w, s);
    case Fail => StopInv(w, s, Idle, s.agent.sequence);
    case Crash => StopInv(w, s, Down, s.agent.sequence);
    case Restart => StopInv(w, s, Idle, s.agent.stored);
  }

  // An agent step leaves the server alone, the cluster's logs named and the running cycle recorded.
  lemma AgentStepFrame(w: World, s: System, action: Action)
    requires CanAct(w, s, action) && IsAgentStep(action) && LogsOk(w.identity, s.logs)
    requires InCycle(s.agent) ==> s.agent.uid in s.sessions
    ensures
      var after := Act(w, s, action);
      && after.server == s.server
      && LogsOk(w.identity, after.logs)
      && (InCycle(after.agent) ==> after.agent.uid in after.sessions)
  {
  }

  lemma AgentStepInv(w: World, s: System, action: Action)
    requires SystemInv(w, s) && CanAct(w, s, action) && IsAgentStep(action)
    ensures SystemInv(w, Act(w, s, action))
  {
    AgentStepFrame(w, s, action);
    if Live(w, s) {
      AgentStepRunning(w, s, action);
    }
  }

  lemma ActInv(w: World, s: System, action: Action)
    requires SystemInv(w, s) && CanAct(w, s, action)
    ensures SystemInv(w, Act(w, s, action))
  {
    hide SystemInv, Handle, Perform;
    if IsAgentStep(action) {
      AgentStepInv(w, s, action);
    } else {
      match action
      case DeliverCopy(m, now, visit) => DeliverCopyInv(w, s, m, now, visit);
      case DeliverForeign(m, now, visit) => ForeignInv(w, s, m, now, visit);
      case CommitDemand(agent, discard) => CommitDemandInv(w, s, agent, discard);
      case Housekeep(e) => HousekeepInv(w, s, e);
      case Supersede(agent) => SupersedeInv(w, s, agent);
    }
  }

  lemma {:induction false} Reachable(w: World, states: seq<System>, actions: seq<Action>, i: nat)
    requires IsBehaviour(w, states, actions) && i < |states|
    ensures SystemInv(w, states[i])
  {
    if i == 0 {
      EnrolledInv(w, states[0]);
    } else {
      Reachable(w, states, actions, i - 1);
      assert IsStep(w, states[i - 1], actions[i - 1], states[i - 1 + 1]);
      ActInv(w, states[i - 1], actions[i - 1]);
    }
  }

  // ---- End-to-end agreement ------------------------------------------------

  /** The batch that was sent and not applied yet; there is at most one. */
  function Unapplied(s: System): seq<WatchEvent>
    requires s.agent.uid in s.sessions
  {
    var batches := s.sessions[s.agent.uid].batches;
    if s.mirroredBatches < |batches| && s.agent.waiting.Some? && s.agent.waiting.value.Events?
    then s.agent.waiting.value.events else []
  }

  // A projection that mirrors all batches but the last is missing just that one.
  lemma MissingBatch(view: EntityMap, t: Session, count: nat, rest: seq<WatchEvent>)
    requires count <= |t.batches| <= count + 1 && view == Fold(Snapshotted(t), Concat(t.batches[..count]))
    requires rest == if count < |t.batches| then t.batches[count] else []
    ensures Fold(view, rest) == Fold(Snapshotted(t), Concat(t.batches))
  {
    if count == |t.batches| {
      assert t.batches[..count] == t.batches;
    } else {
      assert t.batches == t.batches[..count] + [t.batches[count]];
      ConcatAppend(t.batches[..count], t.batches[count]);
      FoldAppend(Snapshotted(t), Concat(t.batches[..count]), t.batches[count]);
    }
  }

  lemma UnappliedIsMissing(w: World, s: System)
    requires SystemInv(w, s) && Live(w, s) && s.agent.phase.Watching?
    ensures s.agent.uid in s.sessions
    ensures
      var t := s.sessions[s.agent.uid];
      && s.mirroredBatches <= |t.batches| <= s.mirroredBatches + 1
      && Unapplied(s) == (if s.mirroredBatches < |t.batches| then t.batches[s.mirroredBatches] else [])
      && View(s.server.store.table) == Fold(Snapshotted(t), Concat(t.batches[..s.mirroredBatches]))
  {
  }

  lemma AgreementAt(w: World, s: System, kind: Kind)
    requires SystemInv(w, s) && Live(w, s) && s.agent.phase.Watching?
    ensures
      var local := Unapplied(s) + s.agent.batch + s.agent.queue;
      && Part(Fold(View(s.server.store.table), local), kind) == Seen(s.logs, s.agent.versions, kind)
      && (kind in s.agent.versions ==> s.agent.versions[kind] <= |LogOf(s.logs, kind)|)
  {
    var a := s.agent;
    UnappliedIsMissing(w, s);
    MissingBatch(View(s.server.store.table), s.sessions[a.uid], s.mirroredBatches, Unapplied(s));
    FoldAppend(View(s.server.store.table), Unapplied(s), a.batch + a.queue);
    Associative(Unapplied(s), a.batch, a.queue);
  }

  /** End-to-end agreement: in every reachable state of a live watch session, for every collection,
      the active projection followed by the batch in flight, the local batch and the queue is the
      collection at the version its watcher has reached. */
  lemma Agreement(w: World, states: seq<System>, actions: seq<Action>, i: nat, kind: Kind)
    requires IsBehaviour(w, states, actions) && i < |states|
    requires Live(w, states[i]) && states[i].agent.phase.Watching?
    ensures
      var s := states[i];
      && s.agent.uid in s.sessions
      && Part(Fold(View(s.server.store.table), Unapplied(s) + s.agent.batch + s.agent.queue), kind)
         == Seen(s.logs, s.agent.versions, kind)
  {
    Reachable(w, states, actions, i);
    AgreementAt(w, states[i], kind);
  }

  ghost predicate Drained(s: System) {
    && s.agent.phase.Watching? && s.agent.waiting.None? && s.agent.batch == [] && s.agent.queue == []
    && forall kind :: kind in s.agent.versions ==> s.agent.versions[kind] == |LogOf(s.logs, kind)|
  }

  /** Once everything is drained the projection is the cluster: every listed collection exactly, nothing else. */
  lemma DrainedMeansEqual(w: World, states: seq<System>, actions: seq<Action>, i: nat, kind: Kind)
    requires IsBehaviour(w, states, actions) && i < |states|
    requires Live(w, states[i]) && Drained(states[i])
    ensures
      var s := states[i];
      Part(View(s.server.store.table), kind)
        == if kind in s.agent.versions then Collection(LogOf(s.logs, kind)) else map[]
  {
    var s := states[i];
    Agreement(w, states, actions, i, kind);
    assert Unapplied(s) == [] && Unapplied(s) + s.agent.batch + s.agent.queue == [];
    if kind in s.agent.versions {
      assert LogOf(s.logs, kind)[..s.agent.versions[kind]] == LogOf(s.logs, kind);
    }
  }

  // ---- Sequence numbers ----------------------------------------------------

  /** No delivery of any copy of any message of ours, from this process or an earlier one, is ever
      answered with a sequence gap; and what has been acknowledged or stored is behind the server. */
  lemma NeverAGap(w: World, states: seq<System>, actions: seq<Action>, i: nat, m: Message, now: int, visit: Visit)
    requires IsBehaviour(w, states, actions) && i < |states|
    requires m in states[i].sent && ValidVisit(states[i].server, m, visit)
    ensures !Handle(states[i].server, w.cfg, m, now, visit).1.Gap?
    ensures w.me in states[i].server.agents
    ensures Live(w, states[i]) && !m.Begin? ==> m.sequence <= Last(w, states[i]) + 1
    ensures Live(w, states[i]) && m in states[i].acked ==> m.sequence <= Last(w, states[i])
    ensures Live(w, states[i]) ==> states[i].agent.stored <= Last(w, states[i])
  {
    var s := states[i];
    Reachable(w, states, actions, i);
    SentIsOurs(w, states, actions, i);
    NoGapAt(w, s, m, now, visit);
    if Live(w, s) {
      assert Recorded(s.sessions, m);
      if m.Events? {
        var u :| u in s.sessions && InSession(m, u, s.sessions[u]);
        assert SessionOk(s.sessions[u], Last(w, s));
      } else {
        assert SessionOk(s.sessions[m.uid], Last(w, s));
      }
    }
  }

  lemma {:induction false} SentIsOurs(w: World, states: seq<System>, actions: seq<Action>, i: nat)
    requires IsBehaviour(w, states, actions) && i < |states|
    ensures forall m :: m in states[i].sent ==> m.agent == w.me
  {
    hide Handle, Perform;
    if i > 0 {
      SentIsOurs(w, states, actions, i - 1);
      assert IsStep(w, states[i - 1], actions[i - 1], states[i - 1 + 1]);
    }
  }

  lemma NoGapAt(w: World, s: System, m: Message, now: int, visit: Visit)
    requires SystemInv(w, s) && m in s.sent && m.agent == w.me && ValidVisit(s.server, m, visit)
    ensures !Handle(s.server, w.cfg, m, now, visit).1.Gap?
  {
    if Live(w, s) {
      match m
      case Begin(_, _, _, _) =>
      case Page(_, _, _, _, _, _) => PageReplies(w, s, m);
      case Complete(_, _, _, _, _, _) => CompleteReplies(w, s, m, now);
      case Events(_, _, _, _) => EventsReplies(w, s, m);
    }
  }

  /** No snapshot of ours is ever opened twice, not even after its row was pruned. */
  lemma OpenedOnce(w: World, states: seq<System>, actions: seq<Action>, i: nat, m: Message, now: int)
    requires IsBehaviour(w, states, actions) && i < |states| && Live(w, states[i])
    requires m in states[i].sent && m.Begin? && m.uid in states[i].openings
    ensures !BeginTxn(states[i].server, m, now).1.Accepted?
  {
    Reachable(w, states, actions, i);
    var s := states[i];
    assert Recorded(s.sessions, m);
    var k :| 0 <= k < |s.openings| && s.openings[k] == m.uid;
    assert s.sessions[s.openings[k]].begin <= Last(w, s);
  }

  // ---- What the network and the messages are like ------------------------------

  /** Nothing sent, answered or demanded is ever taken back: any copy may still arrive, any demand still commit. A
      delivery leaves the demand that its refusal calls for, and counts as answered exactly if it was below 400. */
  lemma NothingIsTakenBack(w: World, s: System, action: Action, t: System)
    requires IsStep(w, s, action, t)
    ensures s.sent <= t.sent && s.acked <= t.acked && s.demands <= t.demands && s.openings <= t.openings
    ensures s.sessions.Keys <= t.sessions.Keys
    ensures action.DeliverCopy? ==>
        var outcome := Handle(s.server, w.cfg, action.message, action.now, action.visit).1;
        && t.demands == s.demands + Demands(action.message, outcome)
        && t.acked == (if outcome.Acknowledged() then s.acked + {action.message} else s.acked)
    ensures action.DeliverForeign? ==>
        var outcome := Handle(s.server, w.cfg, action.message, action.now, action.visit).1;
        t.demands == s.demands + Demands(action.message, outcome) && t.acked == s.acked
  {
    hide Handle, Perform;
  }

  /** Within the bounds of the server's own message schema. */
  ghost predicate Fits(m: Message) {
    match m
    case Page(_, _, _, _, number, resources) => number >= 1 && 1 <= |resources| <= 500
    case Events(_, _, _, events) => 1 <= |events| <= 500
    case _ => true
  }

  ghost predicate AllFit(s: System) {
    && (forall m :: m in s.sent ==> Fits(m))
    && (InCycle(s.agent) ==> |s.agent.batch| <= 500 && |s.agent.queue| <= 2048)
  }

  lemma StepFits(w: World, s: System, action: Action, t: System)
    requires IsStep(w, s, action, t) && AllFit(s)
    ensures AllFit(t)
  {
    hide Handle, Perform, Demand;
  }

  /** No message of ours is ever out of bounds: no page is empty or larger than 500, no batch either, and the queue
      never holds more than 2048 events. */
  lemma {:induction false} MessagesFit(w: World, states: seq<System>, actions: seq<Action>, i: nat)
    requires IsBehaviour(w, states, actions) && i < |states|
    ensures AllFit(states[i])
  {
    if i > 0 {
      MessagesFit(w, states, actions, i - 1);
      assert IsStep(w, states[i - 1], actions[i - 1], states[i - 1 + 1]);
      StepFits(w, states[i - 1], actions[i - 1], states[i]);
    }
  }
}
