/** The sessions the main results speak about do come about: from enrollment, whatever the server had seen
    before, seven steps lead to a live session that watches a collection. */
module Witness {
  import opened Inventory
  import opened Server
  import opened Accounting
  import opened ServerInvariants
  import opened Replication
  import opened ReplicationInvariants
  import opened ReplicationTheorems
  import opened SnapshotRoundTrip
  import opened Ingest

  ghost predicate Reaches(w: World, s: System, t: System) {
    exists states, actions :: IsBehaviour(w, states, actions) && states[0] == s && states[|actions|] == t
  }

  lemma ReachesItself(w: World, s: System)
    requires Enrolled(w, s)
    ensures Reaches(w, s, s)
  {
    assert IsBehaviour(w, [s], []);
  }

  lemma ReachesOn(w: World, s: System, t: System, action: Action, u: System)
    requires Reaches(w, s, t) && IsStep(w, t, action, u)
    ensures Reaches(w, s, u)
  {
    var states, actions :| IsBehaviour(w, states, actions) && states[0] == s && states[|actions|] == t;
    var longer := actions + [action];
    forall i | 0 <= i < |longer| ensures IsStep(w, (states + [u])[i], longer[i], (states + [u])[i + 1]) {
      if i < |actions| { assert actions[i] == longer[i]; }
    }
    assert IsBehaviour(w, states + [u], longer);
  }

  // ---- The begin -------------------------------------------------------------

  ghost predicate AwaitingBegin(w: World, s: System, uid: SnapshotUid, m: Message) {
    && Live(w, s) && Inv(s.server) && w.me in s.server.agents && s.server.agents[w.me].lastSequence == 0
    && uid !in s.server.snapshots && uid in s.sessions
    && m.Begin? && m.agent == w.me && m.uid == uid && m.sequence == 1 && m in s.sent
    && s.agent.phase.Listing? && s.agent.uid == uid && s.agent.waiting == Some(m) && s.agent.sequence == 1
    && s.agent.pending == [] && s.agent.pages == 0 && s.agent.total == 0 && s.agent.versions == map[]
  }

  lemma Start(w: World, s: System, uid: SnapshotUid) returns (t: System, m: Message)
    requires Enrolled(w, s) && s.server.agents[w.me].lastSequence == 0 && uid !in s.server.snapshots
    ensures IsStep(w, s, StartCycle(uid), t) && AwaitingBegin(w, t, uid, m)
  {
    m := BeginMessage(w, s.agent, uid);
    t := Started(w, s, uid);
  }

  ghost predicate HasBegun(w: World, s: System, uid: SnapshotUid, now: int, m: Message) {
    && Live(w, s) && w.me in s.server.agents && s.server.agents[w.me].lastSequence == 1
    && uid in s.server.snapshots && HoldsPages(s.server.snapshots[uid], [], 0, now)
    && s.server.appliedGeneration < s.server.snapshots[uid].generation && uid in s.sessions
    && m.Begin? && m.sequence == 1 && m in s.acked
    && s.agent.phase.Listing? && s.agent.uid == uid && s.agent.waiting == Some(m) && s.agent.sequence == 1
    && s.agent.pending == [] && s.agent.pages == 0 && s.agent.total == 0 && s.agent.versions == map[]
  }

  lemma OpenSnapshot(w: World, s: System, uid: SnapshotUid, now: int, m: Message) returns (t: System)
    requires AwaitingBegin(w, s, uid, m)
    ensures IsStep(w, s, DeliverCopy(m, now, Visit([], [])), t) && HasBegun(w, t, uid, now, m)
  {
    t := Delivered(s, m, BeginTxn(s.server, m, now));
  }

  // ---- The listing -----------------------------------------------------------

  ghost predicate HasListed(w: World, s: System, uid: SnapshotUid, now: int, kind: Kind) {
    && Live(w, s) && w.me in s.server.agents && s.server.agents[w.me].lastSequence == 1
    && uid in s.server.snapshots && HoldsPages(s.server.snapshots[uid], [], 0, now)
    && s.server.appliedGeneration < s.server.snapshots[uid].generation && uid in s.sessions
    && s.agent.phase.Listing? && s.agent.uid == uid && s.agent.waiting.None? && s.agent.sequence == 1
    && s.agent.pending == [] && s.agent.pages == 0 && s.agent.total == 0 && kind in s.agent.versions
  }

  lemma Acknowledge(w: World, s: System, uid: SnapshotUid, now: int, kind: Kind, m: Message)
    returns (t: System, u: System)
    requires HasBegun(w, s, uid, now, m)
    ensures IsStep(w, s, ReceiveAck(true), t) && IsStep(w, t, ListCollection(kind, 0, []), u)
        && HasListed(w, u, uid, now, kind)
  {
    t := Acknowledged(s, true);
    u := Replication.Listed(t, kind, 0, []);
    assert LogOf(t.logs, kind)[..0] == [];
    assert u.agent.pending == t.agent.pending + [];
  }

  // ---- The complete ----------------------------------------------------------

  ghost predicate AwaitingComplete(w: World, s: System, uid: SnapshotUid, now: int, kind: Kind, m: Message) {
    && Live(w, s) && w.me in s.server.agents && s.server.agents[w.me].lastSequence == 1
    && uid in s.server.snapshots && HoldsPages(s.server.snapshots[uid], [], 0, now)
    && s.server.appliedGeneration < s.server.snapshots[uid].generation && uid in s.sessions
    && m.Complete? && m.agent == w.me && m.uid == uid && m.sequence == 2 && m.totalPages == 0
        && m.totalResources == 0 && m in s.sent
    && s.agent.phase.Listing? && s.agent.uid == uid && s.agent.waiting == Some(m) && kind in s.agent.versions
  }

  lemma Close(w: World, s: System, uid: SnapshotUid, now: int, kind: Kind) returns (t: System, m: Message)
    requires HasListed(w, s, uid, now, kind)
    ensures IsStep(w, s, SendComplete, t) && AwaitingComplete(w, t, uid, now, kind, m)
  {
    m := CompleteMessage(w, s.agent);
    t := Completed(w, s);
  }

  lemma CompletePasses(w: World, s: System, uid: SnapshotUid, now: int, kind: Kind, m: Message)
    requires AwaitingComplete(w, s, uid, now, kind, m)
    ensures CompleteCheck(s.server, m, now, w.cfg.ttl).None?
  {
    var row := s.server.snapshots[uid];
    HeldIsContinuous(row, [], now);
    assert Concat<Resource>([]) == [] && Distinct([]);
  }

  ghost predicate AwaitingAck(w: World, s: System, kind: Kind, m: Message) {
    && Live(w, s) && s.agent.phase.Listing? && s.agent.uid in s.sessions
    && s.agent.waiting == Some(m) && m.Complete? && m in s.acked && kind in s.agent.versions
  }

  lemma Apply(w: World, s: System, uid: SnapshotUid, now: int, kind: Kind, m: Message, visit: Visit) returns (t: System)
    requires AwaitingComplete(w, s, uid, now, kind, m) && ValidVisit(s.server, m, visit)
    ensures IsStep(w, s, DeliverCopy(m, now, visit), t) && AwaitingAck(w, t, kind, m)
  {
    CompletePasses(w, s, uid, now, kind, m);
    t := Delivered(s, m, CompleteTxn(s.server, w.cfg, m, now, visit));
  }

  lemma Watch(w: World, s: System, kind: Kind, m: Message) returns (t: System)
    requires AwaitingAck(w, s, kind, m)
    ensures IsStep(w, s, ReceiveAck(true), t)
    ensures Live(w, t) && t.agent.phase.Watching? && kind in t.agent.watchers && kind in t.agent.versions
  {
    t := Acknowledged(s, true);
  }

  // ---- All seven steps -------------------------------------------------------

  lemma ListingIsReachable(w: World, s: System, uid: SnapshotUid, now: int, kind: Kind) returns (t: System)
    requires Enrolled(w, s) && s.server.agents[w.me].lastSequence == 0 && uid !in s.server.snapshots
    ensures Reaches(w, s, t) && HasListed(w, t, uid, now, kind)
  {
    var started, m := Start(w, s, uid);
    var begun := OpenSnapshot(w, started, uid, now, m);
    var acknowledged, listed := Acknowledge(w, begun, uid, now, kind, m);
    ReachesItself(w, s);
    ReachesOn(w, s, s, StartCycle(uid), started);
    ReachesOn(w, s, started, DeliverCopy(m, now, Visit([], [])), begun);
    ReachesOn(w, s, begun, ReceiveAck(true), acknowledged);
    ReachesOn(w, s, acknowledged, Action.ListCollection(kind, 0, []), listed);
    t := listed;
  }

  /** Live watch sessions are reachable, for any collection and after any history of the server. */
  lemma WatchingIsReachable(w: World, s: System, uid: SnapshotUid, now: int, kind: Kind) returns (t: System)
    requires Enrolled(w, s) && s.server.agents[w.me].lastSequence == 0 && uid !in s.server.snapshots
    ensures Reaches(w, s, t) && Live(w, t) && t.agent.phase.Watching? && kind in t.agent.watchers
        && kind in t.agent.versions
  {
    var listed := ListingIsReachable(w, s, uid, now, kind);
    var closing, m := Close(w, listed, uid, now, kind);
    var visit := AnyVisit(closing.server, m);
    var applied := Apply(w, closing, uid, now, kind, m, visit);
    t := Watch(w, applied, kind, m);
    ReachesOn(w, s, listed, SendComplete, closing);
    ReachesOn(w, s, closing, DeliverCopy(m, now, visit), applied);
    ReachesOn(w, s, applied, ReceiveAck(true), t);
  }

  // ---- Nothing holds the environment back --------------------------------------

  /** Any message ever sent may arrive at any time and clock, and any message of anybody else. */
  lemma AnyMessageMayArrive(w: World, s: System, m: Message, now: int) returns (visit: Visit)
    ensures m in s.sent ==> CanAct(w, s, DeliverCopy(m, now, visit))
    ensures m.agent != w.me || m.Heartbeat? ==> CanAct(w, s, DeliverForeign(m, now, visit))
  {
    visit := if m.Complete? then AnyVisit(s.server, m) else Visit([], []);
  }

  /** Any demand may commit; a never-used agent may be enrolled; expiry may run at any clock; the process may die, and
      once dead start again, and may give up its cycle or lose a watch at any moment of it; an answer once given may
      get through. */
  lemma NothingIsPrevented(w: World, s: System)
    ensures forall agent, discard :: (agent, discard) in s.demands ==> CanAct(w, s, CommitDemand(agent, discard))
    ensures forall agent :: agent !in s.server.agents ==> CanAct(w, s, Supersede(agent))
    ensures forall now :: CanAct(w, s, Housekeep(ExpireSnapshots(now)))
    ensures CanAct(w, s, Crash) && (s.agent.phase.Down? ==> CanAct(w, s, Restart))
    ensures s.agent.phase.Listing? || s.agent.phase.Watching? ==> CanAct(w, s, Fail)
    ensures forall kind :: s.agent.phase.Watching? ==> CanAct(w, s, WatchStop(kind))
    ensures forall persisted ::
        CanAct(w, s, ReceiveAck(persisted))
        <== (s.agent.phase.Listing? || s.agent.phase.Watching?) && s.agent.waiting.Some?
            && s.agent.waiting.value in s.acked
  {
  }

  /** A refusal leaves exactly the demand that the server's second transaction commits for it. */
  lemma DemandsAreTheServers(s: State, m: Message, outcome: Outcome)
    ensures |Demands(m, outcome)| <= 1
    ensures Demands(m, outcome) == {} ==> Demanded(s, m, outcome) == s
    ensures forall agent, discard :: (agent, discard) in Demands(m, outcome) ==>
        agent == m.agent && (discard == if outcome.Torn? then Some(outcome.snapshot) else None)
        && Demanded(s, m, outcome) == Demand(s, agent, discard)
    ensures Demands(m, outcome) == {} <==> !outcome.Gap? && !outcome.StaleSnapshot? && !outcome.Torn?
  {
  }
}
