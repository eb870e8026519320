/** The ingest endpoints as transactions on the tables. Writes that a later check may roll back
    are kept in locals until the transaction commits. */
module Ingest {
  import opened Inventory
  import opened Projection
  import opened Server
  import opened ServerInvariants
  import opened Database

  method SnapshotBegin(db: Tables, m: Message, now: int) returns (outcome: Outcome)
    requires m.Begin?
    modifies db
    ensures (db.Contents(), outcome) == BeginTxn(old(db.Contents()), m, now)
  {
    if db.active != Some(m.agent) { return Forbidden; }
    if m.uid in db.snapshots { return Duplicate; }
    if m.agent !in db.agents { return Failed; }
    if m.sequence <= db.agents[m.agent].lastSequence { return Stale; }
    var generation := db.currentGeneration + 1;
    var id := db.nextId;
    var row := Snapshot(id, m.agent, Pending, generation, now, 0, 0, map[], map[]);
    db.snapshots := DiscardPending(db.snapshots, db.pending)[m.uid := row];
    db.nextId := id + 1;
    db.currentGeneration := generation;
    db.pending := Some(id);
    db.agents := db.agents[m.agent := AgentRow(m.sequence, Reconciling)];
    outcome := Accepted;
  }

  method StagePage(staged: map<Uid, Resource>, resources: seq<Resource>) returns (staging: map<Uid, Resource>)
    ensures staging == Stage(staged, resources)
  {
    staging := staged;
    for i := 0 to |resources|
      invariant staging == Stage(staged, resources[..i])
    {
      var r := resources[i];
      assert resources[..i + 1][..i] == resources[..i];
      if r.entity.uid !in staging {
        staging := staging[r.entity.uid := r];
      }
    }
    assert resources[..|resources|] == resources;
  }

  method SnapshotPage(db: Tables, m: Message) returns (outcome: Outcome)
    requires m.Page?
    modifies db
    ensures (db.Contents(), outcome) == PageTxn(old(db.Contents()), m)
  {
    if db.active != Some(m.agent) { return Forbidden; }
    if m.uid !in db.snapshots || db.snapshots[m.uid].status.Discarded? { return StaleSnapshot; }
    var row := db.snapshots[m.uid];
    if row.status.Finished? { return Duplicate; }
    var gate := SequenceGate(db.Contents(), m.agent, m.sequence);
    match gate {
      case NoAgent => return Forbidden;
      case Hole => return Gap;
      case Replay =>
        if m.number in row.pages && row.pages[m.number] != m.resources { return Torn(row.id); }
        return Duplicate;
      case Pass =>
    }
    var agents := Advance(db.agents, m.agent, m.sequence);
    if m.number in row.pages {
      if row.pages[m.number] != m.resources { return Torn(row.id); }
      db.agents := agents;
      return Duplicate;
    }
    var staging := StagePage(row.staging, m.resources);
    if row.resourceCount + |m.resources| > MAX_SNAPSHOT_RESOURCES { return Failed; }
    db.agents := agents;
    db.snapshots := db.snapshots[m.uid :=
      row.(pages := row.pages[m.number := m.resources], staging := staging,
           receivedPages := row.receivedPages + 1, resourceCount := row.resourceCount + |m.resources|)];
    outcome := Accepted;
  }

  /** Upserts every staged row, in whatever order the rows come, and reports the order. */
  method UpsertStaged(table: Table, log: seq<Change>, derive: Derive, now: int, snapshot: SnapshotId,
                      staged: map<Uid, Resource>)
    returns (table': Table, log': seq<Change>, order: seq<Uid>)
    requires KeyedStaging(staged)
    ensures IsListing(order, staged.Keys)
    ensures Store(table', log') == UpsertAll(Store(table, log), derive, now, snapshot, staged, order)
  {
    table', log', order := table, log, [];
    var todo := staged.Keys;
    while todo != {}
      invariant todo <= staged.Keys
      invariant forall u :: u in order <==> u in staged && u !in todo
      invariant forall i, j :: 0 <= i < j < |order| ==> order[i] != order[j]
      invariant Store(table', log') == UpsertAll(Store(table, log), derive, now, snapshot, staged, order)
      decreases |todo|
    {
      var u :| u in todo;
      var r := staged[u];
      var health := derive(r.entity.ident.kind, r.entity.payload, now);
      if u !in table' {
        log' := log' + [Entry(r.entity, Added, now)];
      } else if table'[u].lifecycle.Gone? {
        log' := log' + [Entry(r.entity, Restored, now)];
      }
      table' := table'[u := Row(r.entity, r.observedAt, health, Active, now, Some(snapshot))];
      assert (order + [u])[..|order|] == order;
      order := order + [u];
      todo := todo - {u};
    }
  }

  /** Logs one missing entry for every flipped row, in whatever order they are returned. */
  method LogMissing(table: Table, log: seq<Change>, gone: set<Uid>, now: int)
    returns (log': seq<Change>, order: seq<Uid>)
    requires gone <= table.Keys
    ensures IsListing(order, gone)
    ensures log' == log + MissingEntries(table, order, now)
  {
    log', order := log, [];
    var todo := gone;
    while todo != {}
      invariant todo <= gone
      invariant forall u :: u in order <==> u in gone && u !in todo
      invariant forall i, j :: 0 <= i < j < |order| ==> order[i] != order[j]
      invariant log' == log + MissingEntries(table, order, now)
      decreases |todo|
    {
      var u :| u in todo;
      MissingEntriesOn(table, log, order, u, now);
      log' := log' + [Entry(table[u].entity, Missing, now)];
      order := order + [u];
      todo := todo - {u};
    }
  }

  lemma UpsertedAbsent(s: Store, derive: Derive, now: int, snapshot: SnapshotId, staged: map<Uid, Resource>,
                       order: seq<Uid>)
    requires Keyed(s.table) && KeyedStaging(staged) && IsListing(order, staged.Keys)
    ensures Absent(UpsertAll(s, derive, now, snapshot, staged, order).table, staged.Keys)
        == Absent(s.table, staged.Keys)
  {
    UpsertAllIsOverlay(s, derive, now, snapshot, staged, order);
    assert (set u | u in order) == staged.Keys;
    OverlayAbsent(s.table, derive, now, snapshot, staged);
  }

  /** `_apply_snapshot` on the projection: upserts the staged rows, then flips the rows they leave out. */
  method ApplyStaged(table: Table, log: seq<Change>, derive: Derive, now: int, snapshot: SnapshotId,
                     staged: map<Uid, Resource>)
    returns (table': Table, log': seq<Change>, ghost visit: Visit)
    requires Keyed(table) && KeyedStaging(staged)
    ensures IsListing(visit.staged, staged.Keys) && IsListing(visit.absent, Absent(table, staged.Keys))
    ensures Store(table', log')
        == ApplySnapshot(Store(table, log), derive, now, snapshot, staged, visit.staged, visit.absent)
  {
    var order, absent;
    table', log', order := UpsertStaged(table, log, derive, now, snapshot, staged);
    UpsertedAbsent(Store(table, log), derive, now, snapshot, staged, order);
    log', absent := LogMissing(table', log', Absent(table', staged.Keys), now);
    table' := FlipRows(table', staged.Keys);
    visit := Visit(order, absent);
  }

  /** The rows that change with the projection: the snapshot, its agent and the writer row. */
  method Settle(db: Tables, m: Message, table: Table, log: seq<Change>)
    requires m.Complete? && m.uid in db.snapshots && m.agent in db.agents
    modifies db
    ensures
      var s := old(db.Contents());
      var row := s.snapshots[m.uid];
      db.Contents() == s.(
        store := Store(table, log),
        kept := Keep(s.kept, |s.store.log|, |log|),
        snapshots := s.snapshots[m.uid := row.(status := Finished, staging := map[])],
        agents := SetInventory(Advance(s.agents, m.agent, m.sequence), m.agent, Fresh),
        appliedGeneration := row.generation,
        applied := Some(row.id),
        pending := None)
  {
    var row := db.snapshots[m.uid];
    db.kept := Keep(db.kept, |db.log|, |log|);
    db.table := table;
    db.log := log;
    db.snapshots := db.snapshots[m.uid := row.(status := Finished, staging := map[])];
    db.agents := SetInventory(Advance(db.agents, m.agent, m.sequence), m.agent, Fresh);
    db.appliedGeneration := row.generation;
    db.applied := Some(row.id);
    db.pending := None;
  }

  method Apply(db: Tables, cfg: Config, m: Message, now: int) returns (ghost visit: Visit)
    requires m.Complete? && CompleteCheck(db.Contents(), m, now, cfg.ttl).None?
    requires Keyed(db.table) && KeyedStaging(db.snapshots[m.uid].staging)
    modifies db
    ensures ValidVisit(old(db.Contents()), m, visit)
    ensures db.Contents() == Commit(old(db.Contents()), cfg, m, now, visit)
  {
    var row := db.snapshots[m.uid];
    var table, log;
    table, log, visit := ApplyStaged(db.table, db.log, cfg.derive, now, row.id, row.staging);
    Settle(db, m, table, log);
  }

  method SnapshotComplete(db: Tables, cfg: Config, m: Message, now: int) returns (outcome: Outcome, ghost visit: Visit)
    requires m.Complete? && db.Valid()
    modifies db
    ensures ValidVisit(old(db.Contents()), m, visit)
    ensures (db.Contents(), outcome) == CompleteTxn(old(db.Contents()), cfg, m, now, visit)
  {
    var check := CompleteCheck(db.Contents(), m, now, cfg.ttl);
    if check.Some? {
      visit := AnyVisit(db.Contents(), m);
      return check.value, visit;
    }
    assert RowOk(db.snapshots[m.uid]);
    visit := Apply(db, cfg, m, now);
    outcome := Applied;
  }

  ghost function Listing<T(!new)>(items: set<T>): (order: seq<T>)
    ensures IsListing(order, items)
    decreases |items|
  {
    if items == {} then []
    else
      var x :| x in items;
      assert items == (items - {x}) + {x};
      Listing(items - {x}) + [x]
  }

  // A refused complete visits nothing; any listing will do.
  ghost function AnyVisit(s: State, m: Message): (visit: Visit)
    requires m.Complete?
    ensures ValidVisit(s, m, visit)
  {
    if m.uid in s.snapshots then
      var keys := s.snapshots[m.uid].staging.Keys;
      Visit(Listing(keys), Listing(Absent(s.store.table, keys)))
    else Visit([], [])
  }

  method WatchEvents(db: Tables, cfg: Config, m: Message, now: int) returns (outcome: Outcome)
    requires m.Events?
    modifies db
    ensures (db.Contents(), outcome) == EventsTxn(old(db.Contents()), cfg, m, now)
  {
    ghost var before := db.Contents();
    var check := EventsCheck(db.Contents(), m);
    if check.Some? { return check.value; }
    var table, log := db.table, db.log;
    for i := 0 to |m.events|
      invariant Store(table, log) == ApplyEvents(before.store, cfg.derive, now, m.events[..i])
      invariant db.Contents() == before
    {
      var e := m.events[i];
      var o := e.resource.entity;
      assert m.events[..i + 1][..i] == m.events[..i];
      if e.change.WatchDeleted? {
        if o.uid in table && table[o.uid].lifecycle.Active? {
          table := table[o.uid := table[o.uid].(lifecycle := Gone, health := RESOURCE_DELETED, lastSeen := now)];
          log := log + [Entry(o, Missing, now)];
        }
      } else {
        var health := cfg.derive(o.ident.kind, o.payload, now);
        if o.uid !in table {
          table := table[o.uid := Row(o, e.resource.observedAt, health, Active, now, None)];
          log := log + [Entry(o, Added, now)];
        } else {
          var row := table[o.uid];
          table := table[o.uid := Row(o.(ident := row.entity.ident), e.resource.observedAt, health, Active, now,
                                      row.snapshot)];
          log := log + [Entry(o, if row.lifecycle.Gone? then Restored else Updated, now)];
        }
      }
    }
    assert m.events[..|m.events|] == m.events;
    db.kept := Keep(db.kept, |db.log|, |log|);
    db.table := table;
    db.log := log;
    db.agents := Advance(db.agents, m.agent, m.sequence);
    outcome := Applied;
  }

  method DemandReconcile(db: Tables, agent: AgentId, discard: Option<SnapshotId>)
    modifies db
    ensures db.Contents() == Demand(old(db.Contents()), agent, discard)
  {
    db.snapshots := DiscardRow(db.snapshots, discard);
    db.agents := SetInventory(db.agents, agent, ReconcileRequired);
  }

  lemma DemandedInv(s: State, m: Message, outcome: Outcome)
    requires Inv(s)
    ensures Inv(Demanded(s, m, outcome))
  {
    match outcome
    case Gap => DemandInv(s, m.agent, None);
    case StaleSnapshot => DemandInv(s, m.agent, None);
    case Torn(id) => DemandInv(s, m.agent, Some(id));
    case _ =>
  }

  method Transact(db: Tables, cfg: Config, m: Message, now: int) returns (outcome: Outcome, ghost visit: Visit)
    requires db.Valid()
    modifies db
    ensures ValidVisit(old(db.Contents()), m, visit)
    ensures (db.Contents(), outcome) == Handle(old(db.Contents()), cfg, m, now, visit)
  {
    visit := Visit([], []);
    match m {
      case Begin(_, _, _, _) => outcome := SnapshotBegin(db, m, now);
      case Page(_, _, _, _, _, _) => outcome := SnapshotPage(db, m);
      case Complete(_, _, _, _, _, _) => outcome, visit := SnapshotComplete(db, cfg, m, now);
      case Events(_, _, _, _) => outcome := WatchEvents(db, cfg, m, now);
      case Heartbeat(_, _, _) => outcome := Ok;
    }
  }

  method CommitRefusal(db: Tables, m: Message, outcome: Outcome)
    modifies db
    ensures db.Contents() == Demanded(old(db.Contents()), m, outcome)
  {
    match outcome {
      case Gap => DemandReconcile(db, m.agent, None);
      case StaleSnapshot => DemandReconcile(db, m.agent, None);
      case Torn(id) => DemandReconcile(db, m.agent, Some(id));
      case _ =>
    }
  }

  /** The endpoints: the transaction, then, in a second transaction, the demand its refusal calls for. */
  method Endpoint(db: Tables, cfg: Config, m: Message, now: int) returns (outcome: Outcome, ghost visit: Visit)
    requires db.Valid()
    modifies db
    ensures ValidVisit(old(db.Contents()), m, visit)
    ensures
      var reply := Handle(old(db.Contents()), cfg, m, now, visit);
      outcome == reply.1 && db.Contents() == Demanded(reply.0, m, outcome)
    ensures db.Valid()
  {
    ghost var before := db.Contents();
    outcome, visit := Transact(db, cfg, m, now);
    HandleInv(before, cfg, m, now, visit);
    DemandedInv(db.Contents(), m, outcome);
    CommitRefusal(db, m, outcome);
  }
}
