/** The inventory projection and its change log: the table that snapshot
    completion and watch events write, and that nothing else writes. */
module Projection {
  import opened Inventory

  datatype Lifecycle = Active | Gone

  datatype Row = Row(
    entity: Entity,
    observedAt: int,
    health: Verdict,
    lifecycle: Lifecycle,
    lastSeen: int,
    snapshot: Option<SnapshotId>)

  type Table = map<Uid, Row>

  datatype ChangeType = Added | Updated | Missing | Restored

  datatype Change = Change(
    uid: Uid,
    kind: Kind,
    namespace: Option<string>,
    name: string,
    change: ChangeType,
    at: int)

  // The log is never shortened here: see Server.State.kept for retention.
  datatype Store = Store(table: Table, log: seq<Change>)

  const MISSING_FROM_SNAPSHOT := Verdict(Unknown, ["resource_missing_from_snapshot"])
  const RESOURCE_DELETED := Verdict(Unknown, ["resource_deleted"])

  function Entry(entity: Entity, change: ChangeType, at: int): Change {
    Change(entity.uid, entity.ident.kind, entity.ident.namespace, entity.ident.name, change, at)
  }

  // ---- Snapshot application ------------------------------------------------

  function StagedRow(derive: Derive, now: int, snapshot: SnapshotId, r: Resource): Row {
    Row(r.entity, r.observedAt, derive(r.entity.ident.kind, r.entity.payload, now), Active, now, Some(snapshot))
  }

  function Upsert(s: Store, derive: Derive, now: int, snapshot: SnapshotId, r: Resource): Store {
    var uid := r.entity.uid;
    Store(
      s.table[uid := StagedRow(derive, now, snapshot, r)],
      if uid !in s.table then s.log + [Entry(r.entity, Added, now)]
      else if s.table[uid].lifecycle.Gone? then s.log + [Entry(r.entity, Restored, now)]
      else s.log)
  }

  function UpsertAll(s: Store, derive: Derive, now: int, snapshot: SnapshotId,
                     staged: map<Uid, Resource>, order: seq<Uid>): Store
    requires forall u :: u in order ==> u in staged
  {
    if order == [] then s
    else
      var last := |order| - 1;
      Upsert(UpsertAll(s, derive, now, snapshot, staged, order[..last]), derive, now, snapshot, staged[order[last]])
  }

  // The rows a snapshot did not list.
  function Absent(table: Table, seen: set<Uid>): set<Uid> {
    set u | u in table && table[u].lifecycle.Active? && u !in seen
  }

  function FlipRows(table: Table, seen: set<Uid>): Table {
    map u | u in table ::
      if table[u].lifecycle.Active? && u !in seen
      then table[u].(lifecycle := Gone, health := MISSING_FROM_SNAPSHOT)
      else table[u]
  }

  function MissingEntries(table: Table, order: seq<Uid>, now: int): seq<Change>
    requires forall u :: u in order ==> u in table
  {
    if order == [] then []
    else
      var last := |order| - 1;
      MissingEntries(table, order[..last], now) + [Entry(table[order[last]].entity, Missing, now)]
  }

  /** The whole of `_apply_snapshot` on the projection. SQL fixes no visiting order, so both
      orders are inputs: `order` lists the staged rows, `absent` the rows that flip. */
  function ApplySnapshot(s: Store, derive: Derive, now: int, snapshot: SnapshotId,
                         staged: map<Uid, Resource>, order: seq<Uid>, absent: seq<Uid>): Store
    requires forall u :: u in order ==> u in staged
    requires forall u :: u in absent ==> u in s.table
  {
    var upserted := UpsertAll(s, derive, now, snapshot, staged, order);
    UpsertKeys(s, derive, now, snapshot, staged, order);
    Store(
      FlipRows(upserted.table, staged.Keys),
      upserted.log + MissingEntries(upserted.table, absent, now))
  }

  lemma UpsertKeys(s: Store, derive: Derive, now: int, snapshot: SnapshotId,
                   staged: map<Uid, Resource>, order: seq<Uid>)
    requires forall u :: u in order ==> u in staged
    ensures s.table.Keys <= UpsertAll(s, derive, now, snapshot, staged, order).table.Keys
  {
  }

  // ---- Watch events --------------------------------------------------------

  function ApplyEvent(s: Store, derive: Derive, now: int, e: WatchEvent): Store {
    var o := e.resource.entity;
    if e.change.WatchDeleted? then
      if o.uid in s.table && s.table[o.uid].lifecycle.Active? then
        Store(
          s.table[o.uid := s.table[o.uid].(lifecycle := Gone, health := RESOURCE_DELETED, lastSeen := now)],
          s.log + [Entry(o, Missing, now)])
      else s
    else
      var health := derive(o.ident.kind, o.payload, now);
      if o.uid !in s.table then
        Store(
          s.table[o.uid := Row(o, e.resource.observedAt, health, Active, now, None)],
          s.log + [Entry(o, Added, now)])
      else
        // The conflict clause rewrites neither the identity columns nor last_snapshot_id.
        var stored := s.table[o.uid];
        Store(
          s.table[o.uid := Row(o.(ident := stored.entity.ident), e.resource.observedAt, health, Active, now,
                               stored.snapshot)],
          s.log + [Entry(o, if stored.lifecycle.Gone? then Restored else Updated, now)])
  }

  function ApplyEvents(s: Store, derive: Derive, now: int, events: seq<WatchEvent>): Store {
    if events == [] then s
    else
      var last := |events| - 1;
      ApplyEvent(ApplyEvents(s, derive, now, events[..last]), derive, now, events[last])
  }

  // ---- The plain map the table refines -------------------------------------

  type EntityMap = map<Uid, Entity>

  function View(table: Table): EntityMap {
    map u | u in table && table[u].lifecycle.Active? :: table[u].entity
  }

  function Step(entities: EntityMap, e: WatchEvent): EntityMap {
    if e.change.WatchDeleted? then entities - {e.resource.entity.uid}
    else entities[e.resource.entity.uid := e.resource.entity]
  }

  function Fold(entities: EntityMap, events: seq<WatchEvent>): EntityMap {
    if events == [] then entities
    else Step(Fold(entities, events[..|events| - 1]), events[|events| - 1])
  }

  lemma {:induction false} FoldAppend(entities: EntityMap, xs: seq<WatchEvent>, ys: seq<WatchEvent>)
    ensures Fold(entities, xs + ys) == Fold(Fold(entities, xs), ys)
    decreases |ys|
  {
    if ys == [] {
      assert xs + ys == xs;
    } else {
      var last := |ys| - 1;
      assert (xs + ys)[..|xs + ys| - 1] == xs + ys[..last];
      FoldAppend(entities, xs, ys[..last]);
    }
  }

  ghost predicate Keyed(table: Table) {
    forall u :: u in table ==> table[u].entity.uid == u
  }

  /** One event moves the view as the map operation of the same name does, exactly when it
      does not try to rename the entity: the conflict clause keeps the stored identity. */
  lemma EventRefinesMap(s: Store, derive: Derive, now: int, e: WatchEvent)
    requires Keyed(s.table)
    ensures
      var o := e.resource.entity;
      View(ApplyEvent(s, derive, now, e).table) == Step(View(s.table), e)
      <==> (e.change.WatchDeleted? || o.uid !in s.table || s.table[o.uid].entity.ident == o.ident)
  {
    var o := e.resource.entity;
    var after := ApplyEvent(s, derive, now, e).table;
    if e.change.WatchDeleted? || o.uid !in s.table || s.table[o.uid].entity.ident == o.ident {
      assert View(after) == Step(View(s.table), e);
    } else {
      assert View(after)[o.uid].ident != Step(View(s.table), e)[o.uid].ident;
    }
  }

  // An entity's identity columns are a function of its uid, as in Kubernetes.
  ghost predicate Named(identity: Uid -> Ident, o: Entity) {
    o.ident == identity(o.uid)
  }

  ghost predicate NamedTable(identity: Uid -> Ident, table: Table) {
    forall u :: u in table ==> table[u].entity.uid == u && Named(identity, table[u].entity)
  }

  ghost predicate NamedEvents(identity: Uid -> Ident, events: seq<WatchEvent>) {
    forall i :: 0 <= i < |events| ==> Named(identity, events[i].resource.entity)
  }

  lemma {:induction false} EventsRefineMap(s: Store, derive: Derive, now: int, events: seq<WatchEvent>,
                                           identity: Uid -> Ident)
    requires NamedTable(identity, s.table) && NamedEvents(identity, events)
    ensures View(ApplyEvents(s, derive, now, events).table) == Fold(View(s.table), events)
    ensures NamedTable(identity, ApplyEvents(s, derive, now, events).table)
    decreases |events|
  {
    if events != [] {
      var last := |events| - 1;
      EventsRefineMap(s, derive, now, events[..last], identity);
      var before := ApplyEvents(s, derive, now, events[..last]);
      assert Named(identity, events[last].resource.entity);
      EventRefinesMap(before, derive, now, events[last]);
    }
  }

  ghost predicate KeyedStaging(staged: map<Uid, Resource>) {
    forall u :: u in staged ==> staged[u].entity.uid == u
  }

  function Entities(staged: map<Uid, Resource>): EntityMap {
    map u | u in staged :: staged[u].entity
  }

  // The table after the staged rows listed in `done` were upserted.
  function Overlay(table: Table, derive: Derive, now: int, snapshot: SnapshotId,
                   staged: map<Uid, Resource>, done: set<Uid>): Table
    requires done <= staged.Keys
  {
    map u | u in table.Keys + done :: if u in done then StagedRow(derive, now, snapshot, staged[u]) else table[u]
  }

  lemma OverlayGrows(table: Table, derive: Derive, now: int, snapshot: SnapshotId,
                     staged: map<Uid, Resource>, done: set<Uid>, u: Uid)
    requires done <= staged.Keys && u in staged
    ensures Overlay(table, derive, now, snapshot, staged, done + {u})
         == Overlay(table, derive, now, snapshot, staged, done)[u := StagedRow(derive, now, snapshot, staged[u])]
  {
  }

  lemma {:induction false} UpsertAllIsOverlay(s: Store, derive: Derive, now: int, snapshot: SnapshotId,
                                              staged: map<Uid, Resource>, order: seq<Uid>)
    requires forall u :: u in order ==> u in staged
    requires KeyedStaging(staged)
    ensures UpsertAll(s, derive, now, snapshot, staged, order).table
         == Overlay(s.table, derive, now, snapshot, staged, (set u | u in order))
    decreases |order|
  {
    if order == [] {
      assert Overlay(s.table, derive, now, snapshot, staged, {}) == s.table;
    } else {
      var last := |order| - 1;
      UpsertAllIsOverlay(s, derive, now, snapshot, staged, order[..last]);
      assert order == order[..last] + [order[last]];
      assert (set u | u in order) == (set u | u in order[..last]) + {order[last]};
      OverlayGrows(s.table, derive, now, snapshot, staged, (set u | u in order[..last]), order[last]);
    }
  }

  lemma FlipOverlay(table: Table, derive: Derive, now: int, snapshot: SnapshotId, staged: map<Uid, Resource>)
    requires KeyedStaging(staged)
    ensures
      var after := FlipRows(Overlay(table, derive, now, snapshot, staged, staged.Keys), staged.Keys);
      View(after) == Entities(staged) && after.Keys == table.Keys + staged.Keys
  {
  }

  /** Whole-map replacement, whatever the visiting order. */
  lemma SnapshotReplacesMap(s: Store, derive: Derive, now: int, snapshot: SnapshotId,
                            staged: map<Uid, Resource>, order: seq<Uid>, absent: seq<Uid>)
    requires KeyedStaging(staged)
    requires IsListing(order, staged.Keys) && forall u :: u in absent ==> u in s.table
    ensures
      var after := ApplySnapshot(s, derive, now, snapshot, staged, order, absent).table;
      && View(after) == Entities(staged)
      && after == FlipRows(Overlay(s.table, derive, now, snapshot, staged, staged.Keys), staged.Keys)
      && after.Keys == s.table.Keys + staged.Keys
  {
    UpsertAllIsOverlay(s, derive, now, snapshot, staged, order);
    assert (set u | u in order) == staged.Keys;
    FlipOverlay(s.table, derive, now, snapshot, staged);
  }

  // ---- The change log ------------------------------------------------------

  /** What the log alone says about the table: None when some entry cannot follow the ones before it. */
  function Explain(log: seq<Change>): Option<map<Uid, Lifecycle>> {
    if log == [] then Some(map[])
    else
      match Explain(log[..|log| - 1])
      case None => None
      case Some(m) => Follow(m, log[|log| - 1])
  }

  function Follow(m: map<Uid, Lifecycle>, c: Change): Option<map<Uid, Lifecycle>> {
    match c.change
    case Added => if c.uid in m then None else Some(m[c.uid := Active])
    case Updated => if c.uid in m && m[c.uid] == Active then Some(m) else None
    case Missing => if c.uid in m && m[c.uid] == Active then Some(m[c.uid := Gone]) else None
    case Restored => if c.uid in m && m[c.uid] == Gone then Some(m[c.uid := Active]) else None
  }

  function Lifecycles(table: Table): map<Uid, Lifecycle> {
    map u | u in table :: table[u].lifecycle
  }

  ghost predicate Explained(s: Store) {
    Explain(s.log) == Some(Lifecycles(s.table))
  }

  lemma ExplainAppend(log: seq<Change>, c: Change)
    requires Explain(log).Some?
    ensures Explain(log + [c]) == Follow(Explain(log).value, c)
  {
    assert (log + [c])[..|log|] == log;
  }

  lemma GrownExplained(s: Store, after: Store, c: Change)
    requires Explained(s) && after.log == s.log + [c]
    requires Follow(Lifecycles(s.table), c) == Some(Lifecycles(after.table))
    ensures Explained(after)
  {
    ExplainAppend(s.log, c);
  }

  lemma LifecycleOf(table: Table, uid: Uid, row: Row)
    ensures Lifecycles(table[uid := row]) == Lifecycles(table)[uid := row.lifecycle]
    ensures uid in table && table[uid].lifecycle == row.lifecycle ==> Lifecycles(table[uid := row]) == Lifecycles(table)
  {
  }

  lemma UpsertExplained(s: Store, derive: Derive, now: int, snapshot: SnapshotId, r: Resource)
    requires Explained(s)
    ensures Explained(Upsert(s, derive, now, snapshot, r))
  {
    var uid := r.entity.uid;
    var after := Upsert(s, derive, now, snapshot, r);
    LifecycleOf(s.table, uid, StagedRow(derive, now, snapshot, r));
    if uid !in s.table {
      GrownExplained(s, after, Entry(r.entity, Added, now));
    } else if s.table[uid].lifecycle.Gone? {
      GrownExplained(s, after, Entry(r.entity, Restored, now));
    }
  }

  lemma DeletionExplained(s: Store, derive: Derive, now: int, e: WatchEvent)
    requires Explained(s) && e.change.WatchDeleted?
    ensures Explained(ApplyEvent(s, derive, now, e))
  {
    var after := ApplyEvent(s, derive, now, e);
    var uid := e.resource.entity.uid;
    if uid in s.table && s.table[uid].lifecycle.Active? {
      LifecycleOf(s.table, uid, after.table[uid]);
      GrownExplained(s, after, Entry(e.resource.entity, Missing, now));
    }
  }

  lemma WriteExplained(s: Store, derive: Derive, now: int, e: WatchEvent)
    requires Explained(s) && !e.change.WatchDeleted?
    ensures Explained(ApplyEvent(s, derive, now, e))
  {
    var after := ApplyEvent(s, derive, now, e);
    var uid := e.resource.entity.uid;
    LifecycleOf(s.table, uid, after.table[uid]);
    GrownExplained(s, after, after.log[|s.log|]);
  }

  lemma EventExplained(s: Store, derive: Derive, now: int, e: WatchEvent)
    requires Explained(s)
    ensures Explained(ApplyEvent(s, derive, now, e))
  {
    if e.change.WatchDeleted? { DeletionExplained(s, derive, now, e); } else { WriteExplained(s, derive, now, e); }
  }

  lemma {:induction false} EventsExplained(s: Store, derive: Derive, now: int, events: seq<WatchEvent>)
    requires Explained(s)
    ensures Explained(ApplyEvents(s, derive, now, events))
    decreases |events|
  {
    if events != [] {
      EventsExplained(s, derive, now, events[..|events| - 1]);
      EventExplained(ApplyEvents(s, derive, now, events[..|events| - 1]), derive, now, events[|events| - 1]);
    }
  }

  lemma {:induction false} UpsertAllExplained(s: Store, derive: Derive, now: int, snapshot: SnapshotId,
                                              staged: map<Uid, Resource>, order: seq<Uid>)
    requires Explained(s)
    requires forall u :: u in order ==> u in staged
    ensures Explained(UpsertAll(s, derive, now, snapshot, staged, order))
    decreases |order|
  {
    if order != [] {
      var last := |order| - 1;
      UpsertAllExplained(s, derive, now, snapshot, staged, order[..last]);
      UpsertExplained(UpsertAll(s, derive, now, snapshot, staged, order[..last]), derive, now, snapshot,
                      staged[order[last]]);
    }
  }

  // The lifecycles once the rows in `gone` have been marked missing.
  function MarkGone(m: map<Uid, Lifecycle>, gone: seq<Uid>): map<Uid, Lifecycle> {
    map u | u in m :: if u in gone then Gone else m[u]
  }

  lemma MarkGoneOn(m: map<Uid, Lifecycle>, gone: seq<Uid>, u: Uid)
    requires u in m
    ensures MarkGone(m, gone + [u]) == MarkGone(m, gone)[u := Gone]
  {
  }

  lemma MissingEntriesOn(table: Table, log: seq<Change>, front: seq<Uid>, u: Uid, now: int)
    requires (forall x :: x in front ==> x in table) && u in table
    ensures forall x :: x in front + [u] ==> x in table
    ensures log + MissingEntries(table, front + [u], now)
         == log + MissingEntries(table, front, now) + [Entry(table[u].entity, Missing, now)]
  {
    assert (front + [u])[..|front|] == front;
    Associative(log, MissingEntries(table, front, now), [Entry(table[u].entity, Missing, now)]);
  }

  lemma {:induction false} MissingExplained(table: Table, log: seq<Change>, order: seq<Uid>, now: int)
    requires Keyed(table) && Explain(log) == Some(Lifecycles(table))
    requires forall u :: u in order ==> u in table && table[u].lifecycle.Active?
    requires forall i, j :: 0 <= i < j < |order| ==> order[i] != order[j]
    ensures Explain(log + MissingEntries(table, order, now)) == Some(MarkGone(Lifecycles(table), order))
    decreases |order|
  {
    if order == [] {
      assert log + MissingEntries(table, order, now) == log;
      assert MarkGone(Lifecycles(table), order) == Lifecycles(table);
    } else {
      var last := |order| - 1;
      var front, u := order[..last], order[last];
      assert order == front + [u] && u !in front;
      MissingExplained(table, log, front, now);
      MissingEntriesOn(table, log, front, u, now);
      ExplainAppend(log + MissingEntries(table, front, now), Entry(table[u].entity, Missing, now));
      MarkGoneOn(Lifecycles(table), front, u);
    }
  }

  lemma SnapshotExplained(s: Store, derive: Derive, now: int, snapshot: SnapshotId,
                          staged: map<Uid, Resource>, order: seq<Uid>, absent: seq<Uid>)
    requires Explained(s) && Keyed(s.table) && KeyedStaging(staged)
    requires IsListing(order, staged.Keys) && IsListing(absent, Absent(s.table, staged.Keys))
    ensures Explained(ApplySnapshot(s, derive, now, snapshot, staged, order, absent))
  {
    var upserted := UpsertAll(s, derive, now, snapshot, staged, order);
    UpsertAllExplained(s, derive, now, snapshot, staged, order);
    UpsertAllIsOverlay(s, derive, now, snapshot, staged, order);
    assert (set u | u in order) == staged.Keys;
    OverlayAbsent(s.table, derive, now, snapshot, staged);
    MissingExplained(upserted.table, upserted.log, absent, now);
    MarkGoneIsFlip(upserted.table, staged.Keys, absent);
  }

  lemma OverlayAbsent(table: Table, derive: Derive, now: int, snapshot: SnapshotId, staged: map<Uid, Resource>)
    requires Keyed(table) && KeyedStaging(staged)
    ensures
      var upserted := Overlay(table, derive, now, snapshot, staged, staged.Keys);
      Keyed(upserted) && Absent(upserted, staged.Keys) == Absent(table, staged.Keys)
  {
  }

  lemma MarkGoneIsFlip(table: Table, seen: set<Uid>, absent: seq<Uid>)
    requires IsListing(absent, Absent(table, seen))
    ensures MarkGone(Lifecycles(table), absent) == Lifecycles(FlipRows(table, seen))
  {
  }

  // ---- The log of one uid is a run of a four-letter automaton --------------

  function Only(log: seq<Change>, uid: Uid): seq<ChangeType> {
    if log == [] then []
    else
      var front := Only(log[..|log| - 1], uid);
      if log[|log| - 1].uid == uid then front + [log[|log| - 1].change] else front
  }

  // Added first; Updated or Missing only after Added, Updated or Restored; Restored only after Missing.
  predicate CanFollow(word: seq<ChangeType>, c: ChangeType) {
    match c
    case Added => word == []
    case Restored => word != [] && word[|word| - 1] == Missing
    case _ => word != [] && word[|word| - 1] != Missing
  }

  predicate IsRun(word: seq<ChangeType>) {
    forall i :: 0 <= i < |word| ==> CanFollow(word[..i], word[i])
  }

  lemma RunOn(word: seq<ChangeType>, c: ChangeType)
    requires IsRun(word) && CanFollow(word, c)
    ensures IsRun(word + [c])
  {
    var longer := word + [c];
    forall i | 0 <= i < |longer| ensures CanFollow(longer[..i], longer[i]) {
      if i < |word| { assert longer[..i] == word[..i]; } else { assert longer[..i] == word; }
    }
  }

  /** Added comes first and only there; restored comes right after missing and nothing else does. */
  ghost predicate Alternates(word: seq<ChangeType>) {
    forall k :: 0 <= k < |word| ==>
      (word[k] == Added <==> k == 0) && (word[k] == Restored <==> k > 0 && word[k - 1] == Missing)
  }

  lemma RunAlternates(word: seq<ChangeType>)
    requires IsRun(word)
    ensures Alternates(word)
  {
    assert forall k :: 0 <= k < |word| ==> CanFollow(word[..k], word[k]);
  }

  lemma {:induction false} ExplainedLogIsRuns(log: seq<Change>, uid: Uid)
    requires Explain(log).Some?
    ensures
      var word := Only(log, uid);
      && IsRun(word)
      && (uid in Explain(log).value <==> word != [])
      && (word != [] ==> (Explain(log).value[uid] == Gone <==> word[|word| - 1] == Missing))
    decreases |log|
  {
    if log != [] {
      var front, c := log[..|log| - 1], log[|log| - 1];
      ExplainedLogIsRuns(front, uid);
      if c.uid == uid { RunOn(Only(front, uid), c.change); }
    }
  }
}
