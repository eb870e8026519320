/** What every server transaction keeps, whatever messages arrive, from whom and in what order. */
module ServerInvariants {
  import opened Inventory
  import opened Projection
  import opened Server
  import opened Accounting

  ghost predicate Ids(snapshots: Snapshots, nextId: SnapshotId) {
    && (forall u :: u in snapshots ==> snapshots[u].id < nextId)
    && (forall u, v :: u in snapshots && v in snapshots && snapshots[u].id == snapshots[v].id ==> u == v)
  }

  ghost predicate HasRow(snapshots: Snapshots, id: Option<SnapshotId>) {
    id.Some? ==> exists u :: u in snapshots && snapshots[u].id == id.value
  }

  /** At most one snapshot is open, the writer row names it, and its generation is the newest
      and not yet applied. */
  ghost predicate Generations(snapshots: Snapshots, pending: Option<SnapshotId>, current: nat, applied: nat) {
    && applied <= current
    && (forall u :: u in snapshots ==> snapshots[u].generation <= current)
    && (forall u :: u in snapshots && snapshots[u].status.Pending? ==>
          pending == Some(snapshots[u].id) && snapshots[u].generation == current && applied < current)
  }

  ghost predicate RowOk(row: Snapshot) {
    && row.receivedPages == |row.pages|
    && KeyedStaging(row.staging)
    && (row.status.Pending? ==> Accounted(row.pages, row.staging, row.resourceCount))
  }

  ghost predicate Rows(snapshots: Snapshots) {
    forall u :: u in snapshots ==> RowOk(snapshots[u])
  }

  ghost predicate Projected(store: Store, kept: set<nat>) {
    && Keyed(store.table)
    && Explained(store)
    && (forall i :: i in kept ==> i < |store.log|)
  }

  ghost predicate Inv(s: State) {
    && Ids(s.snapshots, s.nextId)
    && HasRow(s.snapshots, s.applied)
    && (s.pending.Some? ==> s.pending.value < s.nextId)
    && Generations(s.snapshots, s.pending, s.currentGeneration, s.appliedGeneration)
    && Rows(s.snapshots)
    && Projected(s.store, s.kept)
    && (s.active.Some? ==> s.active.value in s.agents)
  }

  lemma NewClusterInv()
    ensures Inv(NEW_CLUSTER)
  {
  }

  // Rows that differ at most by being discarded.
  ghost predicate OnlyDiscards(before: Snapshots, after: Snapshots) {
    && before.Keys == after.Keys
    && forall u :: u in before ==> after[u] == before[u] || after[u] == before[u].(status := Discarded)
  }

  lemma DiscardedOk(row: Snapshot)
    requires RowOk(row)
    ensures RowOk(row.(status := Discarded))
  {
  }

  lemma DiscardsKeep(before: Snapshots, after: Snapshots, nextId: SnapshotId, applied: Option<SnapshotId>)
    requires OnlyDiscards(before, after)
    requires Ids(before, nextId) && HasRow(before, applied) && Rows(before)
    ensures Ids(after, nextId) && HasRow(after, applied) && Rows(after)
  {
    DiscardsKeepIds(before, after, nextId);
    forall u | u in after ensures RowOk(after[u]) {
      DiscardedOk(before[u]);
    }
    if applied.Some? {
      var u :| u in before && before[u].id == applied.value;
      assert u in after && after[u].id == applied.value;
    }
  }

  lemma DiscardsKeepIds(before: Snapshots, after: Snapshots, nextId: SnapshotId)
    requires OnlyDiscards(before, after) && Ids(before, nextId)
    ensures Ids(after, nextId) && forall u :: u in after ==> after[u].id == before[u].id
  {
  }

  // ---- Messages ------------------------------------------------------------

  lemma OpenedIsOk(s: State, m: Message, now: int)
    requires m.Begin?
    ensures
      var row := Opened(s, m, now);
      RowOk(row) && row.id == s.nextId && row.status.Pending? && row.generation == s.currentGeneration + 1
  {
  }

  lemma BeginInv(s: State, m: Message, now: int)
    requires Inv(s) && m.Begin?
    ensures Inv(BeginTxn(s, m, now).0)
  {
    hide DiscardPending, Ids, HasRow, Rows, RowOk, Opened;
    OpenedIsOk(s, m, now);
    var (after, outcome) := BeginTxn(s, m, now);
    if outcome.Accepted? {
      SupersedeKeeps(s.snapshots, s.pending, s.nextId, s.applied, m.uid, Opened(s, m, now));
      OpenGenerations(s.snapshots, s.pending, s.currentGeneration, s.appliedGeneration, m.uid, Opened(s, m, now));
    }
  }

  // A new row takes the place of the pending one.
  lemma SupersedeKeeps(snapshots: Snapshots, pending: Option<SnapshotId>, nextId: SnapshotId,
                       applied: Option<SnapshotId>, uid: SnapshotUid, row: Snapshot)
    requires Ids(snapshots, nextId) && HasRow(snapshots, applied) && Rows(snapshots)
    requires uid !in snapshots && row.id == nextId && RowOk(row)
    ensures
      var after := DiscardPending(snapshots, pending)[uid := row];
      Ids(after, nextId + 1) && HasRow(after, applied) && Rows(after)
  {
    var closed := DiscardPending(snapshots, pending);
    DiscardsKeep(snapshots, closed, nextId, applied);
    OpenKeeps(closed, nextId, applied, uid, row);
  }

  lemma OpenKeeps(snapshots: Snapshots, nextId: SnapshotId, applied: Option<SnapshotId>, uid: SnapshotUid,
                  row: Snapshot)
    requires Ids(snapshots, nextId) && HasRow(snapshots, applied) && Rows(snapshots)
    requires uid !in snapshots && row.id == nextId && RowOk(row)
    ensures Ids(snapshots[uid := row], nextId + 1) && HasRow(snapshots[uid := row], applied)
        && Rows(snapshots[uid := row])
  {
    if applied.Some? {
      var u :| u in snapshots && snapshots[u].id == applied.value;
      assert u in snapshots[uid := row] && snapshots[uid := row][u].id == applied.value;
    }
  }

  lemma OpenGenerations(snapshots: Snapshots, pending: Option<SnapshotId>, current: nat, applied: nat,
                        uid: SnapshotUid, row: Snapshot)
    requires Generations(snapshots, pending, current, applied)
    requires row.generation == current + 1
    ensures Generations(DiscardPending(snapshots, pending)[uid := row], Some(row.id), current + 1, applied)
  {
  }

  // Rewriting one row in place.
  lemma ReplaceKeeps(snapshots: Snapshots, nextId: SnapshotId, applied: Option<SnapshotId>, uid: SnapshotUid,
                     row: Snapshot)
    requires Ids(snapshots, nextId) && HasRow(snapshots, applied) && Rows(snapshots)
    requires uid in snapshots && row.id == snapshots[uid].id && RowOk(row)
    ensures Ids(snapshots[uid := row], nextId) && HasRow(snapshots[uid := row], applied) && Rows(snapshots[uid := row])
  {
    if applied.Some? {
      var u :| u in snapshots && snapshots[u].id == applied.value;
      assert u in snapshots[uid := row] && snapshots[uid := row][u].id == applied.value;
    }
  }

  lemma PageCount(pages: map<nat, seq<Resource>>, number: nat, resources: seq<Resource>)
    requires number !in pages
    ensures |pages[number := resources]| == |pages| + 1
  {
    assert pages[number := resources].Keys == pages.Keys + {number};
  }

  lemma AddedOk(row: Snapshot, number: nat, resources: seq<Resource>)
    requires row.receivedPages == |row.pages| && number !in row.pages
    requires Accounted(row.pages, row.staging, row.resourceCount)
    ensures RowOk(AddPage(row, number, resources))
  {
    PageCount(row.pages, number, resources);
    PageAccounted(row.pages, row.staging, row.resourceCount, number, resources);
  }

  lemma PageInv(s: State, m: Message)
    requires Inv(s) && m.Page?
    ensures Inv(PageTxn(s, m).0)
  {
    var (after, outcome) := PageTxn(s, m);
    if outcome.Accepted? {
      var row := s.snapshots[m.uid];
      AddedOk(row, m.number, m.resources);
      var added := AddPage(row, m.number, m.resources);
      ReplaceKeeps(s.snapshots, s.nextId, s.applied, m.uid, added);
      assert after == s.(agents := after.agents, snapshots := s.snapshots[m.uid := added]);
    }
  }

  lemma CommitInv(s: State, cfg: Config, m: Message, now: int, visit: Visit)
    requires Inv(s) && m.Complete? && ValidVisit(s, m, visit) && CompleteCheck(s, m, now, cfg.ttl).None?
    ensures Inv(Commit(s, cfg, m, now, visit))
  {
    var row := s.snapshots[m.uid];
    assert RowOk(row);
    var closed := row.(status := Finished, staging := map[]);
    assert RowOk(closed);
    ReplaceKeeps(s.snapshots, s.nextId, s.applied, m.uid, closed);
    assert s.snapshots[m.uid := closed][m.uid].id == row.id;
    CommitProjected(s.store, s.kept, cfg.derive, now, row.id, row.staging, visit);
    FinishGenerations(s.snapshots, s.pending, s.currentGeneration, s.appliedGeneration, m.uid, closed);
  }

  lemma CommitProjected(s: Store, kept: set<nat>, derive: Derive, now: int, id: SnapshotId,
                        staging: map<Uid, Resource>, visit: Visit)
    requires Projected(s, kept) && KeyedStaging(staging)
    requires IsListing(visit.staged, staging.Keys) && IsListing(visit.absent, Absent(s.table, staging.Keys))
    ensures
      var after := ApplySnapshot(s, derive, now, id, staging, visit.staged, visit.absent);
      Projected(after, Keep(kept, |s.log|, |after.log|))
  {
    SnapshotReplacesMap(s, derive, now, id, staging, visit.staged, visit.absent);
    SnapshotExplained(s, derive, now, id, staging, visit.staged, visit.absent);
    SnapshotLogGrows(s, derive, now, id, staging, visit.staged, visit.absent);
    FlippedKeyed(s.table, derive, now, id, staging);
  }

  lemma FinishGenerations(snapshots: Snapshots, pending: Option<SnapshotId>, current: nat, applied: nat,
                          uid: SnapshotUid, closed: Snapshot)
    requires Generations(snapshots, pending, current, applied) && exists next :: Ids(snapshots, next)
    requires uid in snapshots && snapshots[uid].status.Pending?
    requires closed == snapshots[uid].(status := Finished, staging := closed.staging)
    ensures Generations(snapshots[uid := closed], None, current, closed.generation)
  {
  }

  lemma FlippedKeyed(table: Table, derive: Derive, now: int, snapshot: SnapshotId, staged: map<Uid, Resource>)
    requires Keyed(table) && KeyedStaging(staged)
    ensures Keyed(FlipRows(Overlay(table, derive, now, snapshot, staged, staged.Keys), staged.Keys))
  {
  }

  lemma SnapshotLogGrows(s: Store, derive: Derive, now: int, snapshot: SnapshotId,
                         staged: map<Uid, Resource>, order: seq<Uid>, absent: seq<Uid>)
    requires forall u :: u in order ==> u in staged
    requires forall u :: u in absent ==> u in s.table
    ensures s.log <= ApplySnapshot(s, derive, now, snapshot, staged, order, absent).log
  {
    UpsertLogGrows(s, derive, now, snapshot, staged, order);
  }

  lemma {:induction false} UpsertLogGrows(s: Store, derive: Derive, now: int, snapshot: SnapshotId,
                                          staged: map<Uid, Resource>, order: seq<Uid>)
    requires forall u :: u in order ==> u in staged
    ensures s.log <= UpsertAll(s, derive, now, snapshot, staged, order).log
    decreases |order|
  {
    if order != [] {
      UpsertLogGrows(s, derive, now, snapshot, staged, order[..|order| - 1]);
    }
  }

  lemma {:induction false} EventsKeyed(s: Store, derive: Derive, now: int, events: seq<WatchEvent>)
    requires Keyed(s.table)
    ensures Keyed(ApplyEvents(s, derive, now, events).table)
    ensures s.log <= ApplyEvents(s, derive, now, events).log
    ensures s.table.Keys <= ApplyEvents(s, derive, now, events).table.Keys
    decreases |events|
  {
    if events != [] {
      EventsKeyed(s, derive, now, events[..|events| - 1]);
    }
  }

  lemma EventsInv(s: State, cfg: Config, m: Message, now: int)
    requires Inv(s) && m.Events?
    ensures Inv(EventsTxn(s, cfg, m, now).0)
  {
    if EventsCheck(s, m).None? {
      EventsExplained(s.store, cfg.derive, now, m.events);
      EventsKeyed(s.store, cfg.derive, now, m.events);
    }
  }

  lemma HandleInv(s: State, cfg: Config, m: Message, now: int, visit: Visit)
    requires Inv(s) && ValidVisit(s, m, visit)
    ensures Inv(Handle(s, cfg, m, now, visit).0)
  {
    match m
    case Begin(_, _, _, _) => BeginInv(s, m, now);
    case Page(_, _, _, _, _, _) => PageInv(s, m);
    case Complete(_, _, _, _, _, _) => if CompleteCheck(s, m, now, cfg.ttl).None? { CommitInv(s, cfg, m, now, visit); }
    case Events(_, _, _, _) => EventsInv(s, cfg, m, now);
    case Heartbeat(_, _, _) =>
  }

  // ---- Steps that only discard ---------------------------------------------

  lemma DiscardsInv(s: State, after: State)
    requires Inv(s) && OnlyDiscards(s.snapshots, after.snapshots)
    requires after == s.(snapshots := after.snapshots, pending := after.pending, agents := after.agents)
    requires s.agents.Keys <= after.agents.Keys
    requires after.pending == s.pending
          || (after.pending.None? && forall u :: u in after.snapshots ==> !after.snapshots[u].status.Pending?)
    ensures Inv(after)
  {
    hide Ids, HasRow, Rows;
    DiscardsKeep(s.snapshots, after.snapshots, s.nextId, s.applied);
  }

  lemma DemandInv(s: State, agent: AgentId, discard: Option<SnapshotId>)
    requires Inv(s)
    ensures Inv(Demand(s, agent, discard))
  {
    DiscardsInv(s, Demand(s, agent, discard));
  }

  lemma ExpireInv(s: State, now: int, ttl: nat)
    requires Inv(s)
    ensures Inv(DiscardExpired(s, now, ttl))
  {
    var after := DiscardExpired(s, now, ttl);
    DiscardsInv(s, after);
  }

  lemma CapInv(s: State, victims: set<SnapshotUid>)
    requires Inv(s)
    ensures Inv(DiscardCapped(s, victims))
  {
    DiscardsInv(s, DiscardCapped(s, victims));
  }

  lemma DrainInv(s: State, victims: set<(SnapshotUid, Uid)>)
    requires Inv(s) && victims <= DeadStaging(s)
    ensures Inv(DrainStaging(s, victims))
    ensures forall u :: u in s.snapshots && s.snapshots[u].status.Pending? ==>
        DrainStaging(s, victims).snapshots[u] == s.snapshots[u]
  {
    var after := DrainStaging(s, victims);
    forall u | u in s.snapshots
      ensures RowOk(after.snapshots[u])
      ensures s.snapshots[u].status.Pending? ==> after.snapshots[u] == s.snapshots[u]
    {
      assert RowOk(s.snapshots[u]);
      if s.snapshots[u].status.Pending? {
        forall r | r in s.snapshots[u].staging ensures (u, r) !in victims {
          assert (u, r) !in DeadStaging(s);
        }
        assert after.snapshots[u].staging == s.snapshots[u].staging;
      }
    }
  }

  lemma PruneInv(s: State, victims: set<SnapshotUid>)
    requires Inv(s) && victims <= Prunable(s)
    ensures Inv(Prune(s, victims))
  {
    var after := Prune(s, victims);
    assert forall u :: u in after.snapshots ==> RowOk(s.snapshots[u]);
    if s.applied.Some? {
      var u :| u in s.snapshots && s.snapshots[u].id == s.applied.value;
      assert u !in Prunable(s);
      assert u in after.snapshots && after.snapshots[u].id == s.applied.value;
    }
  }

  lemma PerformInv(s: State, cfg: Config, e: Event)
    requires Inv(s) && Enabled(s, e)
    ensures Inv(Perform(s, cfg, e))
  {
    match e
    case Deliver(m, now, visit) => HandleInv(s, cfg, m, now, visit);
    case DemandReconcile(agent, discard) => DemandInv(s, agent, discard);
    case EnrollAgent(agent) =>
    case ExpireSnapshots(now) => ExpireInv(s, now, cfg.ttl);
    case CapSnapshots(victims) => CapInv(s, victims);
    case DrainBatch(victims) => DrainInv(s, victims);
    case PruneHistory(victims) => PruneInv(s, victims);
    case ForgetChanges(victims) =>
  }

  /** Generation discipline, page accounting and log soundness in every reachable state. */
  lemma {:induction false} RunInv(states: seq<State>, events: seq<Event>, cfg: Config, i: nat)
    requires IsRunOf(states, events, cfg) && Inv(states[0]) && i < |states|
    ensures Inv(states[i])
  {
    if i > 0 {
      RunInv(states, events, cfg, i - 1);
      assert Enabled(states[i - 1], events[i - 1]) && states[i - 1 + 1] == Perform(states[i - 1], cfg, events[i - 1]);
      PerformInv(states[i - 1], cfg, events[i - 1]);
    }
  }
}
