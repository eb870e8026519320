/** The whole replication system: one agent identity, an unreliable network, the server with its
    maintenance, every other agent as an adversary, and the cluster being watched. */
module Replication {
  import opened Inventory
  import opened Projection
  import opened Server
  import opened Accounting

  const SNAPSHOT_PAGE_MAX: nat := 500
  const WATCH_BATCH_MAX: nat := 500
  const QUEUE_CAPACITY: nat := 2048

  // ---- The cluster: one log of versioned changes per collection ------------

  datatype ClusterChange = ClusterChange(change: WatchType, entity: Entity)

  type Logs = map<Kind, seq<ClusterChange>>

  function LogOf(logs: Logs, kind: Kind): seq<ClusterChange> {
    if kind in logs then logs[kind] else []
  }

  function Stamp(c: ClusterChange, at: int): WatchEvent {
    WatchEvent(c.change, Resource(c.entity, at))
  }

  /** The collection at list version |log|. */
  function Collection(log: seq<ClusterChange>): EntityMap {
    if log == [] then map[]
    else Step(Collection(log[..|log| - 1]), Stamp(log[|log| - 1], 0))
  }

  /** LIST at a version returns every entity of the collection at that version once. */
  ghost predicate IsListOf(items: seq<Resource>, collection: EntityMap) {
    Distinct(items) && Collect(items) == collection
  }

  // ---- The agent process ---------------------------------------------------

  datatype Phase = Down | Idle | Listing | Watching

  datatype Agent = Agent(
    sequence: nat,               // the last number handed out by this process
    stored: nat,                 // the number in the sequence file
    phase: Phase,
    uid: SnapshotUid,            // of the current cycle
    waiting: Option<Message>,    // the one request that has no answer yet
    versions: map<Kind, nat>,    // per collection: the list version, then what its watcher has queued
    pending: seq<Resource>,
    pages: nat,
    total: nat,
    watchers: set<Kind>,
    queue: seq<WatchEvent>,
    batch: seq<WatchEvent>,
    requests: nat)               // request ids used so far

  // History, for proofs only: what the cycle that announced a snapshot uid has sent.
  datatype Session = Session(begin: nat, pages: seq<seq<Resource>>, closed: bool, batches: seq<seq<WatchEvent>>)

  type Sessions = map<SnapshotUid, Session>

  datatype World = World(me: AgentId, cfg: Config, identity: Uid -> Ident)

  datatype System = System(
    server: State,
    demands: set<(AgentId, Option<SnapshotId>)>,    // refusals whose own transaction may still commit
    sent: set<Message>,                             // any copy may arrive at any time, or never
    acked: set<Message>,                            // answered below 400 at least once
    logs: Logs,
    agent: Agent,
    sessions: Sessions,
    openings: seq<SnapshotUid>,                     // begins accepted, in order
    mirrored: Option<SnapshotUid>,                  // the session whose snapshot was applied last
    mirroredBatches: nat)                           // how many of its batches were applied since

  datatype Action =
    | ChangeCluster(kind: Kind, change: ClusterChange)
    | DeliverCopy(message: Message, now: int, visit: Visit)
    | DeliverForeign(message: Message, now: int, visit: Visit)
    | CommitDemand(agent: AgentId, discard: Option<SnapshotId>)
    | Housekeep(event: Event)
    | Supersede(agent: AgentId)
    | StartCycle(uid: SnapshotUid)
    | ListCollection(kind: Kind, version: nat, items: seq<Resource>)
    | SendPage(size: nat)
    | SendComplete
    | ReceiveAck(persisted: bool)
    | WatchPush(kind: Kind, at: int)
    | WatchStop(kind: Kind)
    | Take
    | Flush
    | Fail
    | Crash
    | Restart

  // ---- Sending -------------------------------------------------------------

  function Send(s: System, m: Message, agent: Agent, uid: SnapshotUid, session: Session): System {
    s.(sent := s.sent + {m},
       agent := agent.(sequence := m.sequence, waiting := Some(m), requests := agent.requests + 1),
       sessions := s.sessions[uid := session])
  }

  function BeginMessage(w: World, a: Agent, uid: SnapshotUid): Message {
    Begin(w.me, a.sequence + 1, a.requests, uid)
  }

  function PageMessage(w: World, a: Agent, size: nat): Message
    requires size <= |a.pending|
  {
    Page(w.me, a.sequence + 1, a.requests, a.uid, a.pages + 1, a.pending[..size])
  }

  function CompleteMessage(w: World, a: Agent): Message {
    Complete(w.me, a.sequence + 1, a.requests, a.uid, a.pages, a.total)
  }

  function EventsMessage(w: World, a: Agent): Message {
    Events(w.me, a.sequence + 1, a.requests, a.batch)
  }

  // ---- Delivery ------------------------------------------------------------

  function Demands(m: Message, outcome: Outcome): set<(AgentId, Option<SnapshotId>)> {
    match outcome
    case Gap => {(m.agent, None)}
    case StaleSnapshot => {(m.agent, None)}
    case Torn(id) => {(m.agent, Some(id))}
    case _ => {}
  }

  /** One copy of one of our own messages reaches the server and its transaction ends. */
  function Delivered(s: System, m: Message, reply: (State, Outcome)): System {
    var t := s.(server := reply.0,
                demands := s.demands + Demands(m, reply.1),
                acked := if reply.1.Acknowledged() then s.acked + {m} else s.acked);
    match m
    case Begin(_, _, _, uid) => if reply.1.Accepted? then t.(openings := s.openings + [uid]) else t
    case Complete(_, _, _, uid, _, _) => if reply.1.Applied? then t.(mirrored := Some(uid), mirroredBatches := 0) else t
    case Events(_, _, _, _) => if reply.1.Applied? then t.(mirroredBatches := s.mirroredBatches + 1) else t
    case _ => t
  }

  // ---- The next-state relation ---------------------------------------------

  predicate IsHousekeeping(e: Event) {
    e.ExpireSnapshots? || e.CapSnapshots? || e.DrainBatch? || e.PruneHistory? || e.ForgetChanges?
  }

  ghost predicate CanAct(w: World, s: System, action: Action) {
    var a := s.agent;
    match action
    case ChangeCluster(kind, change) => change.entity.ident.kind == kind && Named(w.identity, change.entity)
    case DeliverCopy(m, now, visit) => m in s.sent && ValidVisit(s.server, m, visit)
    case DeliverForeign(m, now, visit) => (m.agent != w.me || m.Heartbeat?) && ValidVisit(s.server, m, visit)
    case CommitDemand(agent, discard) => (agent, discard) in s.demands
    case Housekeep(e) => IsHousekeeping(e) && Enabled(s.server, e)
    case Supersede(agent) => agent !in s.server.agents
    case StartCycle(uid) => a.phase.Idle? && uid !in s.sessions && uid !in s.server.snapshots
    case ListCollection(kind, version, items) =>
      && a.phase.Listing? && a.waiting.None? && kind !in a.versions
      && version <= |LogOf(s.logs, kind)|
      && IsListOf(items, Collection(LogOf(s.logs, kind)[..version]))
    case SendPage(size) => a.phase.Listing? && a.waiting.None? && 0 < size <= |a.pending| && size <= SNAPSHOT_PAGE_MAX
    case SendComplete => a.phase.Listing? && a.waiting.None? && a.pending == []
    case ReceiveAck(_) => (a.phase.Listing? || a.phase.Watching?) && a.waiting.Some? && a.waiting.value in s.acked
    case WatchPush(kind, _) =>
      && a.phase.Watching? && kind in a.watchers && kind in a.versions
      && a.versions[kind] < |LogOf(s.logs, kind)| && |a.queue| < QUEUE_CAPACITY
    case WatchStop(kind) => a.phase.Watching?     // error, expiry, closed stream, or a full queue dropped the event
    case Take => a.phase.Watching? && a.waiting.None? && a.queue != [] && |a.batch| < WATCH_BATCH_MAX
    case Flush => a.phase.Watching? && a.waiting.None? && a.batch != []
    case Fail => a.phase.Listing? || a.phase.Watching?
    case Crash => true
    case Restart => a.phase.Down?
  }

  // ---- The agent's steps ---------------------------------------------------

  function Started(w: World, s: System, uid: SnapshotUid): System {
    var a := s.agent;
    Send(s, BeginMessage(w, a, uid),
         a.(phase := Listing, uid := uid, versions := map[], pending := [], pages := 0, total := 0,
            watchers := {}, queue := [], batch := []),
         uid, Session(a.sequence + 1, [], false, []))
  }

  function Listed(s: System, kind: Kind, version: nat, items: seq<Resource>): System {
    var a := s.agent;
    s.(agent := a.(versions := a.versions[kind := version], pending := a.pending + items))
  }

  function Paged(w: World, s: System, size: nat): System
    requires s.agent.uid in s.sessions && size <= |s.agent.pending|
  {
    var a, session := s.agent, s.sessions[s.agent.uid];
    Send(s, PageMessage(w, a, size),
         a.(pending := a.pending[size..], pages := a.pages + 1, total := a.total + size),
         a.uid, session.(pages := session.pages + [a.pending[..size]]))
  }

  function Completed(w: World, s: System): System
    requires s.agent.uid in s.sessions
  {
    Send(s, CompleteMessage(w, s.agent), s.agent, s.agent.uid, s.sessions[s.agent.uid].(closed := true))
  }

  // The number is stored after the acknowledgement, and storing may fail.
  function Acknowledged(s: System, persisted: bool): System
    requires s.agent.waiting.Some?
  {
    var a, m := s.agent, s.agent.waiting.value;
    var b := a.(waiting := None, stored := if persisted then m.sequence else a.stored);
    s.(agent := if m.Complete? then b.(phase := Watching, watchers := a.versions.Keys) else b)
  }

  function Pushed(s: System, kind: Kind, at: int): System
    requires kind in s.agent.versions && s.agent.versions[kind] < |LogOf(s.logs, kind)|
  {
    var a, version := s.agent, s.agent.versions[kind];
    s.(agent := a.(queue := a.queue + [Stamp(LogOf(s.logs, kind)[version], at)],
                   versions := a.versions[kind := version + 1]))
  }

  function Batched(s: System): System
    requires s.agent.queue != []
  {
    var a := s.agent;
    s.(agent := a.(batch := a.batch + [a.queue[0]], queue := a.queue[1..]))
  }

  function Flushed(w: World, s: System): System
    requires s.agent.uid in s.sessions
  {
    var a, session := s.agent, s.sessions[s.agent.uid];
    Send(s, EventsMessage(w, a), a.(batch := []), a.uid, session.(batches := session.batches + [a.batch]))
  }

  // The process leaves its cycle: to start another one, or because it died.
  function Stopped(s: System, phase: Phase, sequence: nat): System {
    s.(agent := s.agent.(phase := phase, waiting := None, sequence := sequence))
  }

  ghost function Act(w: World, s: System, action: Action): System
    requires CanAct(w, s, action)
    requires s.agent.phase.Listing? || s.agent.phase.Watching? ==> s.agent.uid in s.sessions
  {
    match action
    case ChangeCluster(kind, change) => s.(logs := s.logs[kind := LogOf(s.logs, kind) + [change]])
    case DeliverCopy(m, now, visit) => Delivered(s, m, Handle(s.server, w.cfg, m, now, visit))
    case DeliverForeign(m, now, visit) =>
      var (after, outcome) := Handle(s.server, w.cfg, m, now, visit);
      s.(server := after, demands := s.demands + Demands(m, outcome))
    case CommitDemand(agent, discard) => s.(server := Demand(s.server, agent, discard))
    case Housekeep(e) => s.(server := Perform(s.server, w.cfg, e))
    case Supersede(agent) => s.(server := Enroll(s.server, agent))
    case StartCycle(uid) => Started(w, s, uid)
    case ListCollection(kind, version, items) => Listed(s, kind, version, items)
    case SendPage(size) => Paged(w, s, size)
    case SendComplete => Completed(w, s)
    case ReceiveAck(persisted) => Acknowledged(s, persisted)
    case WatchPush(kind, at) => Pushed(s, kind, at)
    case WatchStop(kind) => s.(agent := s.agent.(watchers := s.agent.watchers - {kind}))
    case Take => Batched(s)
    case Flush => Flushed(w, s)
    case Fail => Stopped(s, Idle, s.agent.sequence)
    case Crash => Stopped(s, Down, s.agent.sequence)
    case Restart => Stopped(s, Idle, s.agent.stored)
  }
}
