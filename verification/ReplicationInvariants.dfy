/** The inductive facts of the replication system. They speak about our agent for as long as it
    is the cluster's writer; once another agent is enrolled its messages are all refused. */
module ReplicationInvariants {
  import opened Inventory
  import opened Projection
  import opened Server
  import opened Accounting
  import opened ServerInvariants
  import opened Replication

  // ---- Sessions and the messages they consist of ---------------------------

  function CompleteAt(t: Session): nat {
    t.begin + |t.pages| + 1
  }

  // The highest sequence number a session has used.
  function Top(t: Session): nat {
    t.begin + |t.pages| + (if t.closed then 1 else 0) + |t.batches|
  }

  ghost predicate InSession(m: Message, u: SnapshotUid, t: Session) {
    match m
    case Begin(_, q, _, uid) => uid == u && q == t.begin
    case Page(_, q, _, uid, number, resources) =>
      uid == u && 1 <= number <= |t.pages| && resources == t.pages[number - 1] && q == t.begin + number
    case Complete(_, q, _, uid, pages, resources) =>
      uid == u && t.closed && pages == |t.pages| && resources == |Concat(t.pages)| && q == CompleteAt(t)
    case Events(_, q, _, events) =>
      t.closed && CompleteAt(t) < q <= CompleteAt(t) + |t.batches| && events == t.batches[q - CompleteAt(t) - 1]
    case Heartbeat(_, _, _) => false
  }

  ghost predicate Recorded(sessions: Sessions, m: Message) {
    if m.Events? then exists u :: u in sessions && InSession(m, u, sessions[u])
    else !m.Heartbeat? && m.uid in sessions && InSession(m, m.uid, sessions[m.uid])
  }

  ghost predicate Messages(me: AgentId, sent: set<Message>, acked: set<Message>, sessions: Sessions, last: nat,
                           requests: nat) {
    && acked <= sent
    && (forall m :: m in sent ==> m.agent == me && m.request < requests && Recorded(sessions, m))
    && (forall m :: m in acked ==> m.sequence <= last)
  }

  ghost predicate SessionOk(t: Session, last: nat) {
    && (t.batches != [] ==> t.closed)
    && (Top(t) > t.begin ==> t.begin <= last && Top(t) <= last + 1)
  }

  /** The inductive core of "no gap": all but the newest number of a session are behind the server's. */
  ghost predicate SessionsOk(sessions: Sessions, last: nat) {
    forall u :: u in sessions ==> SessionOk(sessions[u], last)
  }

  ghost predicate InCycle(a: Agent) {
    a.phase.Listing? || a.phase.Watching?
  }

  /** The running cycle: its sequence counter, its one outstanding request. */
  ghost predicate CurrentOk(a: Agent, sessions: Sessions, sent: set<Message>, last: nat) {
    InCycle(a) ==>
      && a.uid in sessions
      && var t := sessions[a.uid];
         && a.sequence == Top(t)
         && a.pages == |t.pages| && a.total == |Concat(t.pages)|
         && (a.waiting.None? ==> Top(t) <= last)
         && (a.waiting.Some? ==>
               a.waiting.value in sent && a.waiting.value.sequence == Top(t) && InSession(a.waiting.value, a.uid, t))
         && (a.phase.Listing? ==> t.batches == [] && (t.closed <==> a.waiting.Some? && a.waiting.value.Complete?))
         && (a.phase.Watching? ==> t.closed && (a.waiting.Some? ==> a.waiting.value.Events?))
  }

  // ---- The server's rows of our sessions -----------------------------------

  ghost predicate PagesOf(row: Snapshot, t: Session) {
    && row.receivedPages <= |t.pages|
    && (forall n :: n in row.pages <==> 1 <= n <= row.receivedPages)
    && (forall n :: n in row.pages ==> row.pages[n] == t.pages[n - 1])
  }

  ghost predicate OwnRow(row: Snapshot, t: Session, last: nat) {
    && t.begin <= last
    && (row.status.Pending? ==> PagesOf(row, t) && last == t.begin + row.receivedPages)
    && (row.status.Finished? ==> t.closed && CompleteAt(t) <= last)
  }

  ghost predicate OwnRows(snapshots: Snapshots, sessions: Sessions, last: nat) {
    forall u :: u in snapshots && u in sessions ==> OwnRow(snapshots[u], sessions[u], last)
  }

  function Newest(openings: seq<SnapshotUid>): Option<SnapshotUid> {
    if openings == [] then None else Some(openings[|openings| - 1])
  }

  ghost predicate Openings(openings: seq<SnapshotUid>, snapshots: Snapshots, sessions: Sessions, last: nat) {
    && (forall i :: 0 <= i < |openings| ==> openings[i] in sessions && sessions[openings[i]].begin <= last)
    && (forall i, j :: 0 <= i < j < |openings| ==> openings[i] != openings[j])
    && (forall u :: u in snapshots && u in sessions && snapshots[u].status.Pending? ==> Newest(openings) == Some(u))
    // Batches of a session that is not the newest one are all older than the newest begin.
    && (forall u :: u in sessions && sessions[u].batches != [] && openings != [] && Newest(openings) != Some(u) ==>
          Top(sessions[u]) <= sessions[openings[|openings| - 1]].begin)
  }

  // ---- What the projection mirrors -----------------------------------------

  function Snapshotted(t: Session): EntityMap {
    Collect(Concat(t.pages))
  }

  /** The projection is the snapshot of the session mirrored last, followed by the first `count` of its batches. */
  ghost predicate Mirrors(table: Table, sessions: Sessions, mirrored: Option<SnapshotUid>, count: nat, last: nat) {
    mirrored.Some? ==>
      && mirrored.value in sessions
      && var t := sessions[mirrored.value];
         && t.closed && CompleteAt(t) <= last && count <= |t.batches|
         && View(table) == Fold(Snapshotted(t), Concat(t.batches[..count]))
  }

  ghost predicate FreshOk(row: AgentRow, sessions: Sessions, openings: seq<SnapshotUid>,
                          mirrored: Option<SnapshotUid>, count: nat) {
    row.inventory.Fresh? ==>
      && mirrored.Some? && mirrored == Newest(openings) && mirrored.value in sessions
      && row.lastSequence == CompleteAt(sessions[mirrored.value]) + count
  }

  ghost predicate Answered(a: Agent, acked: set<Message>) {
    a.waiting.None? || a.waiting.value in acked
  }

  /** How the running cycle relates to what is mirrored. */
  ghost predicate CycleMirrored(a: Agent, acked: set<Message>, snapshots: Snapshots, sessions: Sessions,
                                openings: seq<SnapshotUid>, mirrored: Option<SnapshotUid>, count: nat) {
    InCycle(a) && a.uid in sessions ==>
      && (a.phase.Watching? ==> mirrored == Some(a.uid))
      && (a.phase.Listing? && a.waiting.Some? && a.waiting.value.Complete? && a.waiting.value in acked ==>
          mirrored == Some(a.uid))
      && (a.uid in snapshots && snapshots[a.uid].status.Finished? ==> mirrored == Some(a.uid))
      && (mirrored == Some(a.uid) ==>
            // A begin accepted after our own snapshot was applied is a late copy that nothing followed.
            && (Newest(openings).Some? && Newest(openings) != Some(a.uid) && Newest(openings).value in sessions ==>
                  var v := sessions[Newest(openings).value];
                  && Top(v) == v.begin
                  && (a.phase.Listing? || Answered(a, acked) ==> Top(sessions[a.uid]) < v.begin)
                  && Top(sessions[a.uid]) <= v.begin)
            && |sessions[a.uid].batches| <= count + 1
            && (Answered(a, acked) ==> |sessions[a.uid].batches| <= count))
  }

  // ---- What the agent has seen of the cluster ------------------------------

  function Part(m: EntityMap, kind: Kind): EntityMap {
    map u | u in m && m[u].ident.kind == kind :: m[u]
  }

  function Seen(logs: Logs, versions: map<Kind, nat>, kind: Kind): EntityMap {
    if kind in versions
      && versions[kind] <= |LogOf(logs, kind)| then Collection(LogOf(logs, kind)[..versions[kind]]) else map[]
  }

  ghost predicate NamedMap(identity: Uid -> Ident, m: EntityMap) {
    forall u :: u in m ==> m[u].uid == u && Named(identity, m[u])
  }

  ghost predicate NamedResources(identity: Uid -> Ident, resources: seq<Resource>) {
    forall i :: 0 <= i < |resources| ==> Named(identity, resources[i].entity)
  }

  ghost predicate LogsOk(identity: Uid -> Ident, logs: Logs) {
    forall kind, i :: kind in logs && 0 <= i < |logs[kind]| ==>
      Named(identity, logs[kind][i].entity) && logs[kind][i].entity.ident.kind == kind
  }

  ghost predicate Held(m: EntityMap, logs: Logs, versions: map<Kind, nat>, identity: Uid -> Ident) {
    && NamedMap(identity, m)
    && (forall kind :: kind in versions ==> versions[kind] <= |LogOf(logs, kind)|)
    && (forall kind :: Part(m, kind) == Seen(logs, versions, kind))
  }

  // Everything the agent has taken from the cluster in this cycle, shipped or not.
  function Taken(a: Agent, t: Session): EntityMap {
    if a.phase.Listing? then Collect(Concat(t.pages) + a.pending)
    else Fold(Fold(Snapshotted(t), Concat(t.batches)), a.batch + a.queue)
  }

  ghost predicate AgentHolds(a: Agent, sessions: Sessions, logs: Logs, identity: Uid -> Ident) {
    InCycle(a) && a.uid in sessions ==>
      && Held(Taken(a, sessions[a.uid]), logs, a.versions, identity)
      && (a.phase.Listing? ==>
            && NamedResources(identity, a.pending)
            && a.batch == [] && a.queue == []
            && (sessions[a.uid].closed ==> a.pending == []))
      && (a.phase.Watching? ==> NamedEvents(identity, a.batch + a.queue))
  }

  ghost predicate NamedSession(identity: Uid -> Ident, t: Session) {
    && NamedResources(identity, Concat(t.pages))
    && (forall i :: 0 <= i < |t.batches| ==> NamedEvents(identity, t.batches[i]))
  }

  ghost predicate NamedSessions(identity: Uid -> Ident, sessions: Sessions) {
    forall u :: u in sessions ==> NamedSession(identity, sessions[u])
  }

  // ---- All of it -----------------------------------------------------------

  ghost predicate Live(w: World, s: System) {
    s.server.active == Some(w.me)
  }

  function Last(w: World, s: System): nat
    requires w.me in s.server.agents
  {
    s.server.agents[w.me].lastSequence
  }

  // What the server, the network and the finished cycles have to do with each other ...
  ghost predicate SharedInv(w: World, s: System) {
    && w.me in s.server.agents
    && var last := Last(w, s);
       && s.agent.stored <= last
       && Messages(w.me, s.sent, s.acked, s.sessions, last, s.agent.requests)
       && SessionsOk(s.sessions, last)
       && OwnRows(s.server.snapshots, s.sessions, last)
       && Openings(s.openings, s.server.snapshots, s.sessions, last)
       && Mirrors(s.server.store.table, s.sessions, s.mirrored, s.mirroredBatches, last)
       && FreshOk(s.server.agents[w.me], s.sessions, s.openings, s.mirrored, s.mirroredBatches)
       && NamedTable(w.identity, s.server.store.table)
       && NamedSessions(w.identity, s.sessions)
  }

  // ... and what the running cycle adds.
  ghost predicate CycleInv(w: World, s: System)
    requires w.me in s.server.agents
  {
    && CurrentOk(s.agent, s.sessions, s.sent, Last(w, s))
    && CycleMirrored(s.agent, s.acked, s.server.snapshots, s.sessions, s.openings, s.mirrored, s.mirroredBatches)
    && AgentHolds(s.agent, s.sessions, s.logs, w.identity)
  }

  // The facts a step of the running system works with; the server's own invariant is not among them.
  ghost predicate Running(w: World, s: System) {
    && (InCycle(s.agent) ==> s.agent.uid in s.sessions)
    && LogsOk(w.identity, s.logs)
    && SharedInv(w, s) && CycleInv(w, s)
  }

  ghost predicate SystemInv(w: World, s: System) {
    && Inv(s.server)
    && w.me in s.server.agents
    && (InCycle(s.agent) ==> s.agent.uid in s.sessions)
    && LogsOk(w.identity, s.logs)
    && (Live(w, s) ==> SharedInv(w, s) && CycleInv(w, s))
  }

  /** The moment our agent is enrolled: any server history before, nothing of ours in it. */
  ghost predicate Enrolled(w: World, s: System) {
    && Inv(s.server) && Live(w, s)
    && w.me in s.server.agents && !s.server.agents[w.me].inventory.Fresh?
    && NamedTable(w.identity, s.server.store.table)
    && LogsOk(w.identity, s.logs)
    && s.sent == {} && s.acked == {} && s.sessions == map[] && s.openings == []
    && s.mirrored.None? && s.mirroredBatches == 0
    && s.agent.phase.Idle? && s.agent.sequence == 0 && s.agent.stored == 0 && s.agent.waiting.None?
  }

  lemma EnrolledInv(w: World, s: System)
    requires Enrolled(w, s)
    ensures SystemInv(w, s)
  {
  }
}
