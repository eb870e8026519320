/** What one snapshot and one event write, column by column: the rows of the projection and the entries of the log. */
module Effects {
  import opened Inventory
  import opened Projection
  import opened Server
  import opened ServerInvariants

  /** The row holds what was shipped, judged and seen at that instant. */
  ghost predicate Holds(row: Row, entity: Entity, observedAt: int, derive: Derive, at: int,
                        snapshot: Option<SnapshotId>) {
    && row.entity == entity && row.observedAt == observedAt && row.lifecycle.Active? && row.lastSeen == at
    && row.snapshot == snapshot && row.health == derive(entity.ident.kind, entity.payload, at)
  }

  ghost predicate Records(c: Change, entity: Entity, at: int) {
    && c.uid == entity.uid && c.kind == entity.ident.kind && c.namespace == entity.ident.namespace
    && c.name == entity.ident.name && c.at == at
  }

  // ---- A snapshot ----------------------------------------------------------------

  /** Every listed object is written whole; every other active row is marked missing and keeps its other columns. */
  lemma SnapshotWrites(s: Store, derive: Derive, now: int, snapshot: SnapshotId, staged: map<Uid, Resource>,
                       order: seq<Uid>, absent: seq<Uid>)
    requires KeyedStaging(staged)
    requires IsListing(order, staged.Keys) && forall u :: u in absent ==> u in s.table
    ensures
      var after := ApplySnapshot(s, derive, now, snapshot, staged, order, absent).table;
      && after.Keys == s.table.Keys + staged.Keys
      && (forall u :: u in staged ==>
           Holds(after[u], staged[u].entity, staged[u].observedAt, derive, now, Some(snapshot)))
      && (forall u :: u in s.table && u !in staged ==>
           after[u] == if s.table[u].lifecycle.Gone? then s.table[u]
                       else s.table[u].(lifecycle := Gone,
                                        health := Verdict(Unknown, ["resource_missing_from_snapshot"])))
  {
    SnapshotReplacesMap(s, derive, now, snapshot, staged, order, absent);
    hide ApplySnapshot;
  }

  lemma {:induction false} OnlyAppend(log: seq<Change>, more: seq<Change>, u: Uid)
    ensures Only(log + more, u) == Only(log, u) + Only(more, u)
    decreases |more|
  {
    if more == [] {
      assert log + more == log;
    } else {
      assert (log + more)[..|log + more| - 1] == log + more[..|more| - 1];
      OnlyAppend(log, more[..|more| - 1], u);
    }
  }

  // What a listed uid logs: nothing when its row was active.
  ghost function Entering(table: Table, u: Uid): seq<ChangeType> {
    if u !in table then [Added] else if table[u].lifecycle.Gone? then [Restored] else []
  }

  lemma UpsertLogged(s: Store, derive: Derive, now: int, snapshot: SnapshotId, r: Resource) returns (entry: seq<Change>)
    ensures Upsert(s, derive, now, snapshot, r).log == s.log + entry
    ensures forall v :: Only(entry, v) == if v == r.entity.uid then Entering(s.table, v) else []
    ensures forall c :: c in entry ==> c.uid == r.entity.uid && Records(c, r.entity, now)
  {
    entry := if r.entity.uid !in s.table then [Entry(r.entity, Added, now)]
             else if s.table[r.entity.uid].lifecycle.Gone? then [Entry(r.entity, Restored, now)] else [];
  }

  lemma WordsAppend(log: seq<Change>, more: seq<Change>)
    ensures forall u :: Only(log + more, u) == Only(log, u) + Only(more, u)
  {
    forall u ensures Only(log + more, u) == Only(log, u) + Only(more, u) { OnlyAppend(log, more, u); }
  }

  lemma EnteringAfter(s: Store, derive: Derive, now: int, snapshot: SnapshotId, staged: map<Uid, Resource>,
                      front: seq<Uid>, u: Uid)
    requires KeyedStaging(staged) && (forall v :: v in front ==> v in staged) && u !in front
    ensures Entering(UpsertAll(s, derive, now, snapshot, staged, front).table, u) == Entering(s.table, u)
  {
    UpsertAllIsOverlay(s, derive, now, snapshot, staged, front);
  }

  lemma {:induction false} UpsertsLogged(s: Store, derive: Derive, now: int, snapshot: SnapshotId,
                                         staged: map<Uid, Resource>, order: seq<Uid>) returns (more: seq<Change>)
    requires KeyedStaging(staged) && forall u :: u in order ==> u in staged
    requires forall i, j :: 0 <= i < j < |order| ==> order[i] != order[j]
    ensures UpsertAll(s, derive, now, snapshot, staged, order).log == s.log + more
    ensures forall u :: Only(more, u) == if u in order then Entering(s.table, u) else []
    ensures forall c :: c in more ==> c.uid in staged && Records(c, staged[c.uid].entity, now)
    decreases |order|
  {
    more := [];
    if order != [] {
      var front, u := order[..|order| - 1], order[|order| - 1];
      more := UpsertsLogged(s, derive, now, snapshot, staged, front);
      assert order == front + [u] && u !in front;
      EnteringAfter(s, derive, now, snapshot, staged, front, u);
      var entry := UpsertLogged(UpsertAll(s, derive, now, snapshot, staged, front), derive, now, snapshot, staged[u]);
      hide Upsert, Only, Entering, Records;
      WordsAppend(more, entry);
      Associative(s.log, more, entry);
      more := more + entry;
    }
  }

  lemma EntryLogged(entity: Entity, change: ChangeType, now: int)
    ensures forall v :: Only([Entry(entity, change, now)], v) == if v == entity.uid then [change] else []
    ensures Entry(entity, change, now).uid == entity.uid && Records(Entry(entity, change, now), entity, now)
  {
  }

  lemma {:induction false} MissingLogged(table: Table, absent: seq<Uid>, now: int)
    requires Keyed(table) && forall u :: u in absent ==> u in table
    requires forall i, j :: 0 <= i < j < |absent| ==> absent[i] != absent[j]
    ensures forall u :: Only(MissingEntries(table, absent, now), u) == if u in absent then [Missing] else []
    ensures forall c :: c in MissingEntries(table, absent, now) ==>
        c.uid in absent && Records(c, table[c.uid].entity, now)
    decreases |absent|
  {
    hide Only, Records, Entry;
    if absent == [] {
      NothingLogged();
    } else {
      var front, u := absent[..|absent| - 1], absent[|absent| - 1];
      MissingLogged(table, front, now);
      assert absent == front + [u];
      EntryLogged(table[u].entity, Missing, now);
      WordsAppend(MissingEntries(table, front, now), [Entry(table[u].entity, Missing, now)]);
    }
  }

  lemma NothingLogged()
    ensures forall u :: Only([], u) == []
  {
  }

  /** The entries of a snapshot: per uid, one that says it was added, restored or went missing, and none for an
      object that was there and still is; all of that instant and under the names the row carries. */
  lemma SnapshotLogs(s: Store, derive: Derive, now: int, snapshot: SnapshotId, staged: map<Uid, Resource>,
                     order: seq<Uid>, absent: seq<Uid>) returns (more: seq<Change>)
    requires Keyed(s.table) && KeyedStaging(staged)
    requires IsListing(order, staged.Keys) && IsListing(absent, Absent(s.table, staged.Keys))
    ensures ApplySnapshot(s, derive, now, snapshot, staged, order, absent).log == s.log + more
    ensures forall u ::
        Only(more, u) == (if u in staged then Entering(s.table, u)
                          else if u in s.table && s.table[u].lifecycle.Active? then [Missing] else [])
    ensures forall c :: c in more ==>
        if c.uid in staged then Records(c, staged[c.uid].entity, now)
        else c.uid in s.table && Records(c, s.table[c.uid].entity, now)
  {
    hide Only, Entering, Records;
    more := UpsertsLogged(s, derive, now, snapshot, staged, order);
    var missing := AbsentLogged(s, derive, now, snapshot, staged, order, absent);
    WordsAppend(more, missing);
    Associative(s.log, more, missing);
    more := more + missing;
  }

  lemma AbsentLogged(s: Store, derive: Derive, now: int, snapshot: SnapshotId, staged: map<Uid, Resource>,
                     order: seq<Uid>, absent: seq<Uid>) returns (missing: seq<Change>)
    requires Keyed(s.table) && KeyedStaging(staged)
    requires IsListing(order, staged.Keys) && IsListing(absent, Absent(s.table, staged.Keys))
    ensures ApplySnapshot(s, derive, now, snapshot, staged, order, absent).log
        == UpsertAll(s, derive, now, snapshot, staged, order).log + missing
    ensures forall u :: Only(missing, u) == if u in absent then [Missing] else []
    ensures forall c :: c in missing ==> c.uid in absent && Records(c, s.table[c.uid].entity, now)
  {
    hide Only, Records;
    var upserted := UpsertAll(s, derive, now, snapshot, staged, order).table;
    UpsertAllIsOverlay(s, derive, now, snapshot, staged, order);
    assert (set u | u in order) == staged.Keys;
    OverlayAbsent(s.table, derive, now, snapshot, staged);
    MissingLogged(upserted, absent, now);
    missing := MissingEntries(upserted, absent, now);
  }

  // ---- An event --------------------------------------------------------------------

  /** A deletion marks an active row, logs it and otherwise does nothing. Any other event writes the row, under the
      identity stored first and without touching the snapshot that wrote it last, and logs what that meant. */
  lemma EventWrites(s: Store, derive: Derive, now: int, e: WatchEvent)
    ensures
      var after, o, u := ApplyEvent(s, derive, now, e), e.resource.entity, e.resource.entity.uid;
      var there := u in s.table && s.table[u].lifecycle.Active?;
      if e.change.WatchDeleted? && !there then after == s
      else
        && after.table.Keys == s.table.Keys + {u}
        && (forall v :: v in s.table && v != u ==> after.table[v] == s.table[v])
        && |after.log| == |s.log| + 1 && s.log <= after.log
        && Records(after.log[|s.log|], o, now)
        && (if e.change.WatchDeleted? then
              && after.log[|s.log|].change == Missing
              && after.table[u] == s.table[u].(lifecycle := Gone, health := Verdict(Unknown, ["resource_deleted"]),
                                               lastSeen := now)
            else if u in s.table then
              && after.log[|s.log|].change == (if there then Updated else Restored)
              && Holds(after.table[u], o.(ident := s.table[u].entity.ident), e.resource.observedAt,
                       (kind, payload, at) => derive(o.ident.kind, payload, at), now, s.table[u].snapshot)
            else
              && after.log[|s.log|].change == Added
              && Holds(after.table[u], o, e.resource.observedAt, derive, now, None))
  {
  }

  /** A batch is its events one after the other. */
  lemma {:induction false} BatchInOrder(s: Store, derive: Derive, now: int, events: seq<WatchEvent>)
    ensures ApplyEvents(s, derive, now, []) == s
    ensures events != [] ==>
        ApplyEvents(s, derive, now, events)
          == ApplyEvents(ApplyEvent(s, derive, now, events[0]), derive, now, events[1..])
    decreases |events|
  {
    if |events| > 1 {
      var front := events[..|events| - 1];
      BatchInOrder(s, derive, now, front);
      assert front[1..] == events[1..][..|events[1..]| - 1];
    }
  }

  // ---- Every entry of the log ------------------------------------------------------

  lemma {:induction false} BatchLogs(s: Store, derive: Derive, now: int, events: seq<WatchEvent>)
    ensures s.log <= ApplyEvents(s, derive, now, events).log
    ensures forall n :: |s.log| <= n < |ApplyEvents(s, derive, now, events).log| ==>
        ApplyEvents(s, derive, now, events).log[n].at == now
    decreases |events|
  {
    if events != [] { BatchLogs(s, derive, now, events[..|events| - 1]); }
  }

  lemma SnapshotIsOfNow(s: Store, derive: Derive, now: int, snapshot: SnapshotId, staged: map<Uid, Resource>,
                        visit: Visit)
    requires Keyed(s.table) && KeyedStaging(staged)
    requires IsListing(visit.staged, staged.Keys) && IsListing(visit.absent, Absent(s.table, staged.Keys))
    ensures
      var after := ApplySnapshot(s, derive, now, snapshot, staged, visit.staged, visit.absent);
      && s.log <= after.log
      && forall n :: |s.log| <= n < |after.log| ==> after.log[n].at == now
  {
    var more := SnapshotLogs(s, derive, now, snapshot, staged, visit.staged, visit.absent);
    hide ApplySnapshot;
    assert forall n :: 0 <= n < |more| ==> more[n] in more;
  }

  lemma CommitLogs(s: State, cfg: Config, m: Message, now: int, visit: Visit)
    requires m.Complete? && Inv(s) && ValidVisit(s, m, visit) && CompleteCheck(s, m, now, cfg.ttl).None?
    ensures
      var after := Commit(s, cfg, m, now, visit);
      && s.store.log <= after.store.log
      && forall n :: |s.store.log| <= n < |after.store.log| ==> after.store.log[n].at == now
  {
    hide ApplySnapshot;
    var row := s.snapshots[m.uid];
    assert RowOk(row);
    SnapshotIsOfNow(s.store, cfg.derive, now, row.id, row.staging, visit);
  }

  lemma StepLogs(s: State, cfg: Config, e: Event)
    requires Inv(s) && Enabled(s, e)
    ensures s.store.log <= Perform(s, cfg, e).store.log
    ensures forall n :: |s.store.log| <= n < |Perform(s, cfg, e).store.log| ==>
        e.Deliver? && Perform(s, cfg, e).store.log[n].at == e.now
  {
    hide Commit, ApplyEvents, CompleteCheck, EventsCheck, Stage, Inv;
    if e.Deliver? && e.message.Complete? && CompleteCheck(s, e.message, e.now, cfg.ttl).None? {
      CommitLogs(s, cfg, e.message, e.now, e.visit);
    }
    if e.Deliver? && e.message.Events? { BatchLogs(s.store, cfg.derive, e.now, e.message.events); }
  }

  /** Every entry of the log was written by one delivery and carries its instant. */
  lemma {:induction false} LoggedBy(states: seq<State>, events: seq<Event>, cfg: Config, i: nat, n: nat)
    returns (k: nat)
    requires IsRunOf(states, events, cfg) && Inv(states[0]) && states[0].store.log == []
    requires i < |states| && n < |states[i].store.log|
    ensures k < i && events[k].Deliver? && |states[k].store.log| <= n < |states[k + 1].store.log|
    ensures states[i].store.log[n].at == events[k].now
    decreases i
  {
    hide Perform, Enabled, Inv;
    RunInv(states, events, cfg, i - 1);
    var s, e := states[i - 1], events[i - 1];
    assert Enabled(s, e) && states[i - 1 + 1] == Perform(s, cfg, e);
    StepLogs(s, cfg, e);
    if n < |s.store.log| {
      k := LoggedBy(states, events, cfg, i - 1, n);
    } else {
      k := i - 1;
      assert Perform(s, cfg, e).store.log[n].at == e.now;
    }
  }
}
