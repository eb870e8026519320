/** The ingest side of one cluster as a value: one function per database transaction.
    A refused transaction rolls back, so its function returns the state it was given;
    the demand that follows a refusal is a transaction of its own. */
module Server {
  import opened Inventory
  import opened Projection

  const MAX_SNAPSHOT_RESOURCES: nat := 500000

  datatype InventoryState = Empty | Reconciling | Fresh | ReconcileRequired

  datatype AgentRow = AgentRow(lastSequence: nat, inventory: InventoryState)

  datatype Status = Pending | Finished | Discarded

  // A row of inventory_snapshots with its pages and its staged resources.
  datatype Snapshot = Snapshot(
    id: SnapshotId,
    agent: AgentId,
    status: Status,
    generation: nat,
    startedAt: int,
    receivedPages: nat,
    resourceCount: nat,
    pages: map<nat, seq<Resource>>,
    staging: map<Uid, Resource>)

  // (cluster, snapshot uid) is a unique key, so the rows are indexed by it.
  type Snapshots = map<SnapshotUid, Snapshot>

  datatype State = State(
    active: Option<AgentId>,
    currentGeneration: nat,
    appliedGeneration: nat,
    applied: Option<SnapshotId>,
    pending: Option<SnapshotId>,
    agents: map<AgentId, AgentRow>,
    snapshots: Snapshots,
    store: Store,
    kept: set<nat>,          // the entries of store.log that retention has not removed
    nextId: SnapshotId)

  datatype Config = Config(
    derive: Derive,
    ttl: nat,
    maxPending: nat,
    historyLimit: nat,
    retention: nat,
    rowLimit: nat,
    batch: nat)

  datatype Outcome =
    | Accepted | Duplicate | Stale | Applied | Ok
    | Forbidden                          // 403
    | Failed                             // 500: a constraint or a lookup failed
    | Gap                                // 409 and a demand
    | StaleSnapshot                      // 409 and a demand
    | Torn(snapshot: SnapshotId)         // 409 and a demand that discards the snapshot
    | NotFresh                           // 409 only
  {
    predicate Acknowledged() {
      Accepted? || Duplicate? || Stale? || Applied? || Ok?
    }
  }

  // The orders in which SQL happens to return the staged and the flipped rows.
  datatype Visit = Visit(staged: seq<Uid>, absent: seq<Uid>)

  datatype Gate = Pass | Replay | Hole | NoAgent

  function SequenceGate(s: State, agent: AgentId, sequence: nat): Gate {
    if agent !in s.agents then NoAgent
    else
      var last := s.agents[agent].lastSequence;
      if sequence <= last then Replay
      else if sequence > last + 1 then Hole
      else Pass
  }

  function Advance(agents: map<AgentId, AgentRow>, agent: AgentId, sequence: nat): map<AgentId, AgentRow>
    requires agent in agents
  {
    agents[agent := agents[agent].(lastSequence := sequence)]
  }

  function SetInventory(agents: map<AgentId, AgentRow>, agent: AgentId,
                        inventory: InventoryState): map<AgentId, AgentRow> {
    if agent in agents then agents[agent := agents[agent].(inventory := inventory)] else agents
  }

  // ---- snapshot_begin ------------------------------------------------------

  function DiscardPending(snapshots: Snapshots, pending: Option<SnapshotId>): Snapshots {
    map u | u in snapshots ::
      if pending == Some(snapshots[u].id) && snapshots[u].status.Pending?
      then snapshots[u].(status := Discarded)
      else snapshots[u]
  }

  function Opened(s: State, m: Message, now: int): Snapshot
    requires m.Begin?
  {
    Snapshot(s.nextId, m.agent, Pending, s.currentGeneration + 1, now, 0, 0, map[], map[])
  }

  function BeginTxn(s: State, m: Message, now: int): (State, Outcome)
    requires m.Begin?
  {
    if s.active != Some(m.agent) then (s, Forbidden)
    else if m.uid in s.snapshots then (s, Duplicate)
    else if m.agent !in s.agents then (s, Failed)
    else if m.sequence <= s.agents[m.agent].lastSequence then (s, Stale)
    else
      (s.(currentGeneration := s.currentGeneration + 1,
          pending := Some(s.nextId),
          nextId := s.nextId + 1,
          snapshots := DiscardPending(s.snapshots, s.pending)[m.uid := Opened(s, m, now)],
          agents := s.agents[m.agent := AgentRow(m.sequence, Reconciling)]),
       Accepted)
  }

  // ---- snapshot_page -------------------------------------------------------

  // ON CONFLICT (snapshot_id, uid) DO NOTHING: the first copy of a uid stays.
  function Stage(staging: map<Uid, Resource>, resources: seq<Resource>): map<Uid, Resource> {
    if resources == [] then staging
    else
      var before := Stage(staging, resources[..|resources| - 1]);
      var r := resources[|resources| - 1];
      if r.entity.uid in before then before else before[r.entity.uid := r]
  }

  function AddPage(snapshot: Snapshot, number: nat, resources: seq<Resource>): Snapshot {
    snapshot.(pages := snapshot.pages[number := resources],
              staging := Stage(snapshot.staging, resources),
              receivedPages := snapshot.receivedPages + 1,
              resourceCount := snapshot.resourceCount + |resources|)
  }

  function PageTxn(s: State, m: Message): (State, Outcome)
    requires m.Page?
  {
    if s.active != Some(m.agent) then (s, Forbidden)
    else if m.uid !in s.snapshots || s.snapshots[m.uid].status.Discarded? then (s, StaleSnapshot)
    else
      var row := s.snapshots[m.uid];
      if row.status.Finished? then (s, Duplicate)
      else
        match SequenceGate(s, m.agent, m.sequence)
        case NoAgent => (s, Forbidden)
        case Hole => (s, Gap)
        case Replay =>
          if m.number in row.pages && row.pages[m.number] != m.resources then (s, Torn(row.id)) else (s, Duplicate)
        case Pass =>
          var agents := Advance(s.agents, m.agent, m.sequence);
          if m.number in row.pages then
            // The sequence advance commits with the duplicate answer and rolls back with the torn one.
            if row.pages[m.number] != m.resources then (s, Torn(row.id)) else (s.(agents := agents), Duplicate)
          else if row.resourceCount + |m.resources| > MAX_SNAPSHOT_RESOURCES then (s, Failed)
          else
            (s.(agents := agents, snapshots := s.snapshots[m.uid := AddPage(row, m.number, m.resources)]), Accepted)
  }

  // ---- snapshot_complete ---------------------------------------------------

  function Interval(low: nat, high: nat): (r: set<nat>)
    ensures forall i :: i in r <==> low <= i < high
    decreases high
  {
    if high <= low then {} else Interval(low, high - 1) + {high - 1}
  }

  function Expired(row: Snapshot, now: int, ttl: nat): bool {
    row.startedAt < now - ttl
  }

  predicate Continuous(row: Snapshot, totalPages: nat, totalResources: nat) {
    && row.pages.Keys == Interval(1, totalPages + 1)
    && |row.staging| == totalResources
    && row.receivedPages == totalPages
    && row.resourceCount == totalResources
  }

  ghost predicate ValidVisit(s: State, m: Message, visit: Visit) {
    m.Complete? && m.uid in s.snapshots ==>
      && IsListing(visit.staged, s.snapshots[m.uid].staging.Keys)
      && IsListing(visit.absent, Absent(s.store.table, s.snapshots[m.uid].staging.Keys))
  }

  // Everything `snapshot_complete` would reject before it looks at the staged pages.
  function CompleteCheck(s: State, m: Message, now: int, ttl: nat): Option<Outcome>
    requires m.Complete?
  {
    if s.active != Some(m.agent) then Some(Forbidden)
    else if m.uid !in s.snapshots || s.snapshots[m.uid].status.Discarded? then Some(StaleSnapshot)
    else
      var row := s.snapshots[m.uid];
      if row.status.Finished? then Some(Duplicate)
      else if row.generation <= s.appliedGeneration then Some(Torn(row.id))
      else if Expired(row, now, ttl) then Some(Torn(row.id))
      else
        match SequenceGate(s, m.agent, m.sequence)
        case NoAgent => Some(Forbidden)
        case Hole => Some(Gap)
        case Replay => Some(Duplicate)
        case Pass => if Continuous(row, m.totalPages, m.totalResources) then None else Some(Torn(row.id))
  }

  // The log entries from |before| on were just inserted, so retention still has them.
  function Keep(kept: set<nat>, before: nat, after: nat): set<nat> {
    kept + Interval(before, after)
  }

  function Commit(s: State, cfg: Config, m: Message, now: int, visit: Visit): State
    requires m.Complete? && CompleteCheck(s, m, now, cfg.ttl).None?
    requires forall u :: u in visit.staged ==> u in s.snapshots[m.uid].staging
    requires forall u :: u in visit.absent ==> u in s.store.table
  {
    var row := s.snapshots[m.uid];
    var store := ApplySnapshot(s.store, cfg.derive, now, row.id, row.staging, visit.staged, visit.absent);
    s.(store := store,
       kept := Keep(s.kept, |s.store.log|, |store.log|),
       snapshots := s.snapshots[m.uid := row.(status := Finished, staging := map[])],
       agents := SetInventory(Advance(s.agents, m.agent, m.sequence), m.agent, Fresh),
       appliedGeneration := row.generation,
       applied := Some(row.id),
       pending := None)
  }

  function CompleteTxn(s: State, cfg: Config, m: Message, now: int, visit: Visit): (State, Outcome)
    requires m.Complete?
    requires CompleteCheck(s, m, now, cfg.ttl).None? ==>
      && (forall u :: u in visit.staged ==> u in s.snapshots[m.uid].staging)
      && (forall u :: u in visit.absent ==> u in s.store.table)
  {
    match CompleteCheck(s, m, now, cfg.ttl)
    case Some(outcome) => (s, outcome)
    case None => (Commit(s, cfg, m, now, visit), Applied)
  }

  // ---- watch_events --------------------------------------------------------

  function EventsCheck(s: State, m: Message): Option<Outcome>
    requires m.Events?
  {
    if s.active != Some(m.agent) then Some(Forbidden)
    else if s.applied.None? || s.pending.Some? then Some(NotFresh)
    else if m.agent !in s.agents then Some(Forbidden)
    else if !s.agents[m.agent].inventory.Fresh? then Some(NotFresh)
    else
      match SequenceGate(s, m.agent, m.sequence)
      case NoAgent => Some(Forbidden)
      case Hole => Some(Gap)
      case Replay => Some(Duplicate)
      case Pass => None
  }

  function EventsTxn(s: State, cfg: Config, m: Message, now: int): (State, Outcome)
    requires m.Events?
  {
    match EventsCheck(s, m)
    case Some(outcome) => (s, outcome)
    case None =>
      var store := ApplyEvents(s.store, cfg.derive, now, m.events);
      (s.(store := store,
          kept := Keep(s.kept, |s.store.log|, |store.log|),
          agents := Advance(s.agents, m.agent, m.sequence)),
       Applied)
  }

  // ---- One entry point, and the steps that are not messages ----------------

  function Handle(s: State, cfg: Config, m: Message, now: int, visit: Visit): (State, Outcome)
    requires m.Complete? && CompleteCheck(s, m, now, cfg.ttl).None? ==>
      && (forall u :: u in visit.staged ==> u in s.snapshots[m.uid].staging)
      && (forall u :: u in visit.absent ==> u in s.store.table)
  {
    match m
    case Begin(_, _, _, _) => BeginTxn(s, m, now)
    case Page(_, _, _, _, _, _) => PageTxn(s, m)
    case Complete(_, _, _, _, _, _) => CompleteTxn(s, cfg, m, now, visit)
    case Events(_, _, _, _) => EventsTxn(s, cfg, m, now)
    case Heartbeat(_, _, _) => (s, Ok)
  }

  // `_demand_reconcile`: the discard is unconditional and leaves s.pending alone.
  function DiscardRow(snapshots: Snapshots, id: Option<SnapshotId>): Snapshots {
    map u | u in snapshots :: if id == Some(snapshots[u].id) then snapshots[u].(status := Discarded) else snapshots[u]
  }

  function Demand(s: State, agent: AgentId, discard: Option<SnapshotId>): State {
    s.(snapshots := DiscardRow(s.snapshots, discard),
       agents := SetInventory(s.agents, agent, ReconcileRequired))
  }

  // The state once the demand that a refusal calls for has committed.
  function Demanded(s: State, m: Message, outcome: Outcome): State {
    match outcome
    case Gap => Demand(s, m.agent, None)
    case StaleSnapshot => Demand(s, m.agent, None)
    case Torn(id) => Demand(s, m.agent, Some(id))
    case _ => s
  }

  // Enrollment makes a never-used agent the writer.
  function Enroll(s: State, agent: AgentId): State
    requires agent !in s.agents
  {
    s.(active := Some(agent), agents := s.agents[agent := AgentRow(0, Empty)])
  }

  // ---- Maintenance, one function per committed transaction -----------------

  function ExpiredPending(s: State, now: int, ttl: nat): set<SnapshotUid> {
    set u | u in s.snapshots && s.snapshots[u].status.Pending? && Expired(s.snapshots[u], now, ttl)
  }

  function Discard(snapshots: Snapshots, victims: set<SnapshotUid>): Snapshots {
    map u | u in snapshots :: if u in victims then snapshots[u].(status := Discarded) else snapshots[u]
  }

  function DiscardExpired(s: State, now: int, ttl: nat): State {
    var victims := ExpiredPending(s, now, ttl);
    s.(snapshots := Discard(s.snapshots, victims),
       pending := if exists u | u in victims :: s.pending == Some(s.snapshots[u].id) then None else s.pending)
  }

  function PendingRows(s: State): set<SnapshotUid> {
    set u | u in s.snapshots && s.snapshots[u].status.Pending?
  }

  // The cap discards rows and, unlike expiry, never touches the writer row.
  function DiscardCapped(s: State, victims: set<SnapshotUid>): State {
    s.(snapshots := Discard(s.snapshots, victims))
  }

  function DeadStaging(s: State): set<(SnapshotUid, Uid)> {
    set u, r | u in s.snapshots && !s.snapshots[u].status.Pending? && r in s.snapshots[u].staging :: (u, r)
  }

  function DrainStaging(s: State, victims: set<(SnapshotUid, Uid)>): State {
    s.(snapshots :=
      map u | u in s.snapshots ::
        s.snapshots[u].(staging := map r | r in s.snapshots[u].staging
          && (u, r) !in victims :: s.snapshots[u].staging[r]))
  }

  function Prunable(s: State): set<SnapshotUid> {
    set u | u in s.snapshots && !s.snapshots[u].status.Pending? && s.applied != Some(s.snapshots[u].id)
  }

  function Prune(s: State, victims: set<SnapshotUid>): State {
    s.(snapshots := s.snapshots - victims)
  }

  function Forget(s: State, victims: set<nat>): State {
    s.(kept := s.kept - victims)
  }

  // ---- Runs ----------------------------------------------------------------

  datatype Event =
    | Deliver(message: Message, now: int, visit: Visit)
    | DemandReconcile(agent: AgentId, discard: Option<SnapshotId>)
    | EnrollAgent(agent: AgentId)
    | ExpireSnapshots(now: int)
    | CapSnapshots(snapshots: set<SnapshotUid>)
    | DrainBatch(rows: set<(SnapshotUid, Uid)>)
    | PruneHistory(snapshots: set<SnapshotUid>)
    | ForgetChanges(entries: set<nat>)

  /** Maintenance may pick any victims its WHERE clause admits: LIMIT, OFFSET and ties only narrow this. */
  ghost predicate Enabled(s: State, e: Event) {
    match e
    case Deliver(m, now, visit) => ValidVisit(s, m, visit)
    case DemandReconcile(_, _) => true
    case EnrollAgent(agent) => agent !in s.agents
    case ExpireSnapshots(_) => true
    case CapSnapshots(victims) => victims <= PendingRows(s)
    case DrainBatch(victims) => victims <= DeadStaging(s)
    case PruneHistory(victims) => victims <= Prunable(s)
    case ForgetChanges(victims) => true
  }

  ghost function Perform(s: State, cfg: Config, e: Event): State
    requires Enabled(s, e)
  {
    match e
    case Deliver(m, now, visit) => Handle(s, cfg, m, now, visit).0
    case DemandReconcile(agent, discard) => Demand(s, agent, discard)
    case EnrollAgent(agent) => Enroll(s, agent)
    case ExpireSnapshots(now) => DiscardExpired(s, now, cfg.ttl)
    case CapSnapshots(victims) => DiscardCapped(s, victims)
    case DrainBatch(victims) => DrainStaging(s, victims)
    case PruneHistory(victims) => Prune(s, victims)
    case ForgetChanges(victims) => Forget(s, victims)
  }

  ghost function ReplyTo(s: State, cfg: Config, e: Event): Outcome
    requires e.Deliver? && Enabled(s, e)
  {
    Handle(s, cfg, e.message, e.now, e.visit).1
  }

  /** `states` is a run of the server under `events`. */
  ghost predicate IsRunOf(states: seq<State>, events: seq<Event>, cfg: Config) {
    && |states| == |events| + 1
    && forall i {:trigger events[i]} :: 0 <= i < |events| ==>
         Enabled(states[i], events[i]) && states[i + 1] == Perform(states[i], cfg, events[i])
  }

  const NEW_CLUSTER := State(None, 0, 0, None, None, map[], map[], Store(map[], []), {}, 0)
}
