/** The housekeeping pass over the tables of one cluster: five steps, each a loop of small
    committed transactions. Every transaction is one of the server's own events, so a pass is a
    run of the server, and whatever holds of runs holds of it with anything else interleaved. */
module Maintenance {
  import opened Inventory
  import opened Server
  import opened ServerInvariants
  import opened ServerTheorems
  import opened Database

  // ---- Runs of events ------------------------------------------------------

  ghost predicate Leads(s: State, events: seq<Event>, cfg: Config, t: State) {
    exists states :: IsRunOf(states, events, cfg) && states[0] == s && states[|events|] == t
  }

  lemma LeadsNowhere(s: State, cfg: Config)
    ensures Leads(s, [], cfg, s)
  {
    assert IsRunOf([s], [], cfg);
  }

  lemma LeadsOn(s: State, events: seq<Event>, cfg: Config, t: State, e: Event)
    requires Leads(s, events, cfg, t) && Enabled(t, e)
    ensures Leads(s, events + [e], cfg, Perform(t, cfg, e))
  {
    var states :| IsRunOf(states, events, cfg) && states[0] == s && states[|events|] == t;
    var longer := states + [Perform(t, cfg, e)];
    assert IsRunOf(longer, events + [e], cfg);
  }

  lemma {:induction false} LeadsThrough(s: State, first: seq<Event>, t: State, second: seq<Event>, u: State,
                                        cfg: Config)
    requires Leads(s, first, cfg, t) && Leads(t, second, cfg, u)
    ensures Leads(s, first + second, cfg, u)
    decreases |second|
  {
    var states :| IsRunOf(states, second, cfg) && states[0] == t && states[|second|] == u;
    if second == [] {
      assert first + second == first;
    } else {
      var n := |second| - 1;
      assert IsRunOf(states[..n + 1], second[..n], cfg);
      LeadsThrough(s, first, t, second[..n], states[n], cfg);
      LeadsOn(s, first + second[..n], cfg, states[n], second[n]);
      assert first + second == first + second[..n] + [second[n]];
      assert u == Perform(states[n], cfg, second[n]);
    }
  }

  lemma LeadsInv(s: State, events: seq<Event>, cfg: Config, t: State)
    requires Leads(s, events, cfg, t) && Inv(s)
    ensures Inv(t)
  {
    var states :| IsRunOf(states, events, cfg) && states[0] == s && states[|events|] == t;
    RunInv(states, events, cfg, |events|);
  }

  // ---- ORDER BY ... DESC OFFSET, and LIMIT ---------------------------------

  ghost predicate Below<T(!new)>(rows: map<T, int>, low: set<T>, high: set<T>) {
    forall x, y :: x in low && y in high && x in rows && y in rows ==> rows[x] <= rows[y]
  }

  /** `rest` is what OFFSET `keep` leaves once the rows are sorted newest first, ties in any order. */
  ghost predicate IsOffset<T(!new)>(rows: map<T, int>, keep: nat, rest: set<T>) {
    && rest <= rows.Keys
    && |rest| == (if |rows.Keys| <= keep then 0 else |rows.Keys| - keep)
    && Below(rows, rest, rows.Keys - rest)
  }

  method Newest<T(==)>(rows: map<T, int>, among: set<T>) returns (newest: T)
    requires among <= rows.Keys && among != {}
    ensures newest in among && forall x :: x in among ==> rows[x] <= rows[newest]
  {
    newest :| newest in among;
    var rest := among - {newest};
    while rest != {}
      invariant newest in among && rest <= among
      invariant forall x :: x in among && x !in rest ==> rows[x] <= rows[newest]
    {
      var x :| x in rest;
      if rows[newest] < rows[x] { newest := x; }
      rest := rest - {x};
    }
  }

  method Offset<T(==,!new)>(rows: map<T, int>, keep: nat) returns (rest: set<T>)
    ensures IsOffset(rows, keep, rest)
  {
    rest := rows.Keys;
    var kept := 0;
    while kept < keep && rest != {}
      invariant rest <= rows.Keys && |rest| + kept == |rows.Keys| && kept <= keep
      invariant forall x, y :: x in rest && y in rows && y !in rest ==> rows[x] <= rows[y]
      decreases keep - kept
    {
      var newest := Newest(rows, rest);
      rest := rest - {newest};
      kept := kept + 1;
    }
  }

  method Limit<T(==)>(rows: set<T>, limit: nat) returns (batch: set<T>)
    ensures batch <= rows && |batch| == (if |rows| <= limit then |rows| else limit)
  {
    batch := {};
    var rest := rows;
    while |batch| < limit && rest != {}
      invariant rest + batch == rows && rest !! batch && |rest| + |batch| == |rows|
      invariant |batch| <= limit
      decreases rest
    {
      var x :| x in rest;
      batch := batch + {x};
      rest := rest - {x};
    }
  }

  // ---- The steps -----------------------------------------------------------

  method DiscardExpiredPending(db: Tables, cfg: Config, now: int) returns (count: nat, ghost events: seq<Event>)
    modifies db
    ensures db.Contents() == DiscardExpired(old(db.Contents()), now, cfg.ttl)
    ensures count == |ExpiredPending(old(db.Contents()), now, cfg.ttl)|
    ensures Leads(old(db.Contents()), events, cfg, db.Contents())
  {
    ghost var before := db.Contents();
    var expired := ExpiredPending(db.Contents(), now, cfg.ttl);
    if expired != {} {
      if exists u | u in expired :: db.pending == Some(db.snapshots[u].id) {
        db.pending := None;
      }
      db.snapshots := Discard(db.snapshots, expired);
    }
    assert Discard(before.snapshots, {}) == before.snapshots;
    count := |expired|;
    events := [] + [ExpireSnapshots(now)];
    LeadsNowhere(before, cfg);
    LeadsOn(before, [], cfg, before, ExpireSnapshots(now));
  }

  function StartedAt(s: State, rows: set<SnapshotUid>): map<SnapshotUid, int>
    requires rows <= s.snapshots.Keys
  {
    map u | u in rows :: s.snapshots[u].startedAt
  }

  lemma NothingToCap(s: State, cap: nat, victims: set<SnapshotUid>)
    requires Inv(s) && IsOffset(StartedAt(s, PendingRows(s)), cap, victims)
    ensures victims <= PendingRows(s)
    ensures cap >= 1 ==> victims == {} && DiscardCapped(s, victims) == s
  {
    AtMostOneOpen(s);
    assert StartedAt(s, PendingRows(s)).Keys == PendingRows(s);
    assert Discard(s.snapshots, {}) == s.snapshots;
  }

  /** Unreachable work: a cap of at least one has nothing to discard, since one snapshot at most is open. */
  method CapPendingSnapshots(db: Tables, cfg: Config)
    returns (count: nat, ghost victims: set<SnapshotUid>, ghost events: seq<Event>)
    requires db.Valid()
    modifies db
    ensures IsOffset(StartedAt(old(db.Contents()), PendingRows(old(db.Contents()))), cfg.maxPending, victims)
    ensures db.Contents() == DiscardCapped(old(db.Contents()), victims) && count == |victims|
    ensures cfg.maxPending >= 1 ==> count == 0 && db.Contents() == old(db.Contents())
    ensures Leads(old(db.Contents()), events, cfg, db.Contents())
  {
    ghost var before := db.Contents();
    var rows := StartedAt(db.Contents(), PendingRows(db.Contents()));
    var capped := Offset(rows, cfg.maxPending);
    db.snapshots := Discard(db.snapshots, capped);
    count, victims := |capped|, capped;
    NothingToCap(before, cfg.maxPending, victims);
    events := [] + [CapSnapshots(victims)];
    LeadsNowhere(before, cfg);
    LeadsOn(before, [], cfg, before, CapSnapshots(victims));
  }

  lemma DrainLeaves(s: State, batch: set<(SnapshotUid, Uid)>)
    requires batch <= DeadStaging(s)
    ensures DeadStaging(DrainStaging(s, batch)) == DeadStaging(s) - batch
  {
  }

  lemma DrainTwice(s: State, first: set<(SnapshotUid, Uid)>, second: set<(SnapshotUid, Uid)>)
    ensures DrainStaging(DrainStaging(s, first), second) == DrainStaging(s, first + second)
  {
    var once, twice := DrainStaging(s, first), DrainStaging(DrainStaging(s, first), second);
    forall u | u in s.snapshots ensures twice.snapshots[u] == DrainStaging(s, first + second).snapshots[u] {
      assert once.snapshots[u].staging.Keys == set r | r in s.snapshots[u].staging && (u, r) !in first;
      assert twice.snapshots[u].staging == DrainStaging(s, first + second).snapshots[u].staging;
    }
  }

  lemma DrainNothing(s: State)
    ensures DrainStaging(s, {}) == s
  {
    forall u | u in s.snapshots ensures DrainStaging(s, {}).snapshots[u] == s.snapshots[u] {
      assert DrainStaging(s, {}).snapshots[u].staging == s.snapshots[u].staging;
    }
  }

  lemma Within<T>(gone: set<T>, batch: set<T>, whole: set<T>)
    requires gone <= whole && batch <= whole - gone
    ensures gone + batch <= whole && |gone + batch| == |gone| + |batch| <= |whole|
  {
    assert |whole| == |gone + batch| + |whole - (gone + batch)|;
  }

  method DrainOneBatch(db: Tables, cfg: Config) returns (count: nat, ghost batch: set<(SnapshotUid, Uid)>)
    modifies db
    ensures batch <= DeadStaging(old(db.Contents())) && count == |batch| <= cfg.batch
    ensures count < cfg.batch ==> batch == DeadStaging(old(db.Contents()))
    ensures db.Contents() == DrainStaging(old(db.Contents()), batch)
    // A batch size of 0: the turn does nothing, and the loop's exit test never succeeds.
    ensures cfg.batch == 0 ==> count == 0 && db.Contents() == old(db.Contents()) && !(count < cfg.batch)
  {
    DrainNothing(db.Contents());
    var rows := Limit(DeadStaging(db.Contents()), cfg.batch);
    if |rows| < cfg.batch { Filled(rows, DeadStaging(db.Contents())); }
    db.snapshots := DrainStaging(db.Contents(), rows).snapshots;
    count, batch := |rows|, rows;
  }

  ghost predicate Drained(s: State, gone: set<(SnapshotUid, Uid)>, t: State) {
    gone <= DeadStaging(s) && t == DrainStaging(s, gone)
  }

  lemma DrainedOn(s: State, gone: set<(SnapshotUid, Uid)>, t: State, batch: set<(SnapshotUid, Uid)>)
    requires Drained(s, gone, t) && batch <= DeadStaging(t)
    ensures Drained(s, gone + batch, DrainStaging(t, batch))
    ensures |gone + batch| == |gone| + |batch| <= |DeadStaging(s)|
    ensures batch == DeadStaging(t) ==> gone + batch == DeadStaging(s)
  {
    DrainLeaves(s, gone);
    DrainTwice(s, gone, batch);
    Within(gone, batch, DeadStaging(s));
  }

  method DrainDeadStaging(db: Tables, cfg: Config) returns (removed: nat, ghost events: seq<Event>)
    requires cfg.batch >= 1
    modifies db
    ensures db.Contents() == DrainStaging(old(db.Contents()), DeadStaging(old(db.Contents())))
    ensures removed == |DeadStaging(old(db.Contents()))|
    ensures Leads(old(db.Contents()), events, cfg, db.Contents())
  {
    ghost var before := db.Contents();
    ghost var gone: set<(SnapshotUid, Uid)> := {};
    removed, events := 0, [];
    DrainNothing(before);
    LeadsNowhere(before, cfg);
    hide Leads, DeadStaging, DrainStaging;
    while true
      invariant Drained(before, gone, db.Contents())
      invariant removed == |gone| <= |DeadStaging(before)|
      invariant Leads(before, events, cfg, db.Contents())
      decreases |DeadStaging(before)| - removed
    {
      ghost var s := db.Contents();
      ghost var batch;
      var count;
      count, batch := DrainOneBatch(db, cfg);
      DrainedOn(before, gone, s, batch);
      LeadsOn(before, events, cfg, s, DrainBatch(batch));
      events := events + [DrainBatch(batch)];
      gone := gone + batch;
      removed := removed + count;
      if count < cfg.batch { return; }
    }
  }

  method PruneSnapshotHistory(db: Tables, cfg: Config)
    returns (count: nat, ghost victims: set<SnapshotUid>, ghost events: seq<Event>)
    modifies db
    ensures IsOffset(StartedAt(old(db.Contents()), Prunable(old(db.Contents()))), cfg.historyLimit, victims)
    ensures db.Contents() == Prune(old(db.Contents()), victims) && count == |victims|
    ensures Leads(old(db.Contents()), events, cfg, db.Contents())
  {
    ghost var before := db.Contents();
    var rows := StartedAt(db.Contents(), Prunable(db.Contents()));
    var pruned := Offset(rows, cfg.historyLimit);
    db.snapshots := db.snapshots - pruned;
    count, victims := |pruned|, pruned;
    events := [] + [Event.PruneHistory(victims)];
    LeadsNowhere(before, cfg);
    LeadsOn(before, [], cfg, before, Event.PruneHistory(victims));
  }

  // ---- The change log ------------------------------------------------------

  function Times(s: State): map<nat, int> {
    map i | i in s.kept && i < |s.store.log| :: s.store.log[i].at
  }

  function Aged(s: State, now: int, retention: nat): set<nat> {
    set i | i in s.kept && i < |s.store.log| && s.store.log[i].at < now - retention
  }

  lemma ForgetOn(s: State, gone: set<nat>, batch: set<nat>)
    ensures Forget(Forget(s, gone), batch) == Forget(s, gone + batch)
    ensures Times(Forget(s, gone)) == Times(s) - gone
  {
  }

  method ForgetUpTo(db: Tables, cfg: Config, entries: set<nat>, ghost since: State, ghost past: seq<Event>)
    returns (count: nat, ghost batch: set<nat>, ghost events: seq<Event>)
    requires Leads(since, past, cfg, db.Contents())
    modifies db
    ensures batch <= entries && count == |batch| <= cfg.batch
    ensures count < cfg.batch ==> batch == entries
    ensures db.Contents() == Forget(old(db.Contents()), batch)
    ensures cfg.batch == 0 ==> count == 0 && db.Contents() == old(db.Contents()) && !(count < cfg.batch)
    ensures Leads(since, events, cfg, db.Contents())
  {
    var rows := Limit(entries, cfg.batch);
    if |rows| < cfg.batch { Filled(rows, entries); }
    LeadsOn(since, past, cfg, db.Contents(), ForgetChanges(rows));
    db.kept := db.kept - rows;
    count, batch, events := |rows|, rows, past + [ForgetChanges(rows)];
  }

  method ForgetAged(db: Tables, cfg: Config, now: int) returns (removed: nat, ghost events: seq<Event>)
    requires cfg.batch >= 1
    modifies db
    ensures db.Contents() == Forget(old(db.Contents()), Aged(old(db.Contents()), now, cfg.retention))
    ensures removed == |Aged(old(db.Contents()), now, cfg.retention)|
    ensures Leads(old(db.Contents()), events, cfg, db.Contents())
  {
    ghost var before := db.Contents();
    ghost var aged := Aged(before, now, cfg.retention);
    ghost var gone: set<nat> := {};
    removed, events := 0, [];
    LeadsNowhere(before, cfg);
    while true
      invariant gone <= aged && removed == |gone| <= |aged|
      invariant db.Contents() == Forget(before, gone)
      invariant Leads(before, events, cfg, db.Contents())
      decreases |aged| - removed
    {
      ghost var batch;
      var count;
      assert Aged(db.Contents(), now, cfg.retention) == aged - gone;
      count, batch, events := ForgetUpTo(db, cfg, Aged(db.Contents(), now, cfg.retention), before, events);
      ForgetOn(before, gone, batch);
      Within(gone, batch, aged);
      gone := gone + batch;
      removed := removed + count;
      if count < cfg.batch {
        assert gone == aged;
        return;
      }
    }
  }

  /** `keep` of the rows that remain are no older than any row already removed. */
  ghost predicate Spared<T(!new)>(rows: map<T, int>, keep: nat, gone: set<T>, spared: set<T>) {
    && gone <= rows.Keys && spared <= rows.Keys - gone
    && (gone != {} ==> |spared| == keep)
    && Below(rows, gone, spared)
  }

  lemma Subset<T>(part: set<T>, whole: set<T>)
    requires part <= whole
    ensures |part| + |whole - part| == |whole|
  {
    assert whole == part + (whole - part);
  }

  // The newest rows that remain beat everything removed before, whichever way ties were broken then.
  lemma NewestBeat<T(!new)>(rows: map<T, int>, keep: nat, gone: set<T>, spared: set<T>, rest: set<T>)
    requires Spared(rows, keep, gone, spared) && gone != {} && |rows.Keys - gone - rest| == keep
    requires Below(rows, rest, rows.Keys - gone - rest)
    ensures Below(rows, gone, rows.Keys - gone - rest)
  {
    var newest := rows.Keys - gone - rest;
    forall x, y | x in gone && y in newest ensures rows[x] <= rows[y] {
      if rows[y] < rows[x] {
        forall z | z in spared ensures z in newest {
        }
        Filled(spared, newest);
        assert false;
      }
    }
  }

  lemma NewestCount<T(!new)>(rows: map<T, int>, keep: nat, gone: set<T>, spared: set<T>, rest: set<T>)
    requires Spared(rows, keep, gone, spared) && IsOffset(rows - gone, keep, rest)
    ensures gone + rest != {} ==> |rows.Keys - gone - rest| == keep
    ensures |gone + rest| + |rows.Keys - gone - rest| == |rows.Keys|
    ensures gone + rest == {} ==> |rows.Keys| <= keep
  {
    assert (rows - gone).Keys == rows.Keys - gone;
    Subset(rest, rows.Keys - gone);
    Subset(spared, rows.Keys - gone);
    Subset(gone + rest, rows.Keys);
    assert rows.Keys - (gone + rest) == rows.Keys - gone - rest;
  }

  lemma RestBelow<T(!new)>(rows: map<T, int>, keep: nat, gone: set<T>, rest: set<T>)
    requires IsOffset(rows - gone, keep, rest)
    ensures rest <= rows.Keys - gone && Below(rows, rest, rows.Keys - gone - rest)
  {
    assert (rows - gone).Keys == rows.Keys - gone;
  }

  lemma SparedOn<T(!new)>(rows: map<T, int>, keep: nat, gone: set<T>, spared: set<T>, rest: set<T>, batch: set<T>)
    requires Spared(rows, keep, gone, spared) && IsOffset(rows - gone, keep, rest) && batch <= rest
    ensures Spared(rows, keep, gone + batch, rows.Keys - gone - rest)
  {
    NewestCount(rows, keep, gone, spared, rest);
    RestBelow(rows, keep, gone, rest);
    if gone != {} { NewestBeat(rows, keep, gone, spared, rest); }
  }

  lemma SparedSize<T(!new)>(rows: map<T, int>, keep: nat, gone: set<T>, spared: set<T>, rest: set<T>)
    requires Spared(rows, keep, gone, spared) && IsOffset(rows - gone, keep, rest)
    ensures |gone + rest| == (if |rows.Keys| <= keep then 0 else |rows.Keys| - keep)
  {
    NewestCount(rows, keep, gone, spared, rest);
  }

  lemma Minus<T>(whole: set<T>, gone: set<T>, rest: set<T>)
    ensures whole - gone - rest == whole - (gone + rest)
  {
  }

  lemma SparedToTheEnd<T(!new)>(rows: map<T, int>, keep: nat, gone: set<T>, spared: set<T>, rest: set<T>)
    requires Spared(rows, keep, gone, spared) && IsOffset(rows - gone, keep, rest)
    ensures IsOffset(rows, keep, gone + rest)
  {
    SparedSize(rows, keep, gone, spared, rest);
    SparedOn(rows, keep, gone, spared, rest, rest);
    Minus(rows.Keys, gone, rest);
  }

  lemma ExcessOn(s: State, keep: nat, gone: set<nat>, spared: set<nat>, over: set<nat>, batch: set<nat>)
    requires Spared(Times(s), keep, gone, spared) && IsOffset(Times(Forget(s, gone)), keep, over) && batch <= over
    ensures Spared(Times(s), keep, gone + batch, Times(s).Keys - gone - over)
    ensures Forget(Forget(s, gone), batch) == Forget(s, gone + batch)
    ensures |gone + batch| == |gone| + |batch| <= |Times(s).Keys|
    ensures batch == over ==> IsOffset(Times(s), keep, gone + batch)
  {
    ForgetOn(s, gone, batch);
    SparedOn(Times(s), keep, gone, spared, over, batch);
    RestBelow(Times(s), keep, gone, over);
    Within(gone, batch, Times(s).Keys);
    if batch == over { SparedToTheEnd(Times(s), keep, gone, spared, over); }
  }

  /** The excess removed so far, and the rows it spared. */
  ghost predicate Forgotten(s: State, keep: nat, gone: set<nat>, spared: set<nat>, t: State) {
    Spared(Times(s), keep, gone, spared) && t == Forget(s, gone)
  }

  method ForgetOneExcess(db: Tables, cfg: Config, ghost since: State, ghost gone: set<nat>,
                         ghost spared: set<nat>, ghost past: seq<Event>)
    returns (count: nat, ghost further: set<nat>, ghost newest: set<nat>, ghost events: seq<Event>)
    requires Forgotten(since, cfg.rowLimit, gone, spared, db.Contents()) && Leads(since, past, cfg, db.Contents())
    modifies db
    ensures Forgotten(since, cfg.rowLimit, further, newest, db.Contents()) && Leads(since, events, cfg, db.Contents())
    ensures |further| == |gone| + count <= |Times(since).Keys|
    ensures count < cfg.batch ==> IsOffset(Times(since), cfg.rowLimit, further)
  {
    ghost var batch;
    var over := Offset(Times(db.Contents()), cfg.rowLimit);
    count, batch, events := ForgetUpTo(db, cfg, over, since, past);
    ExcessOn(since, cfg.rowLimit, gone, spared, over, batch);
    further, newest := gone + batch, Times(since).Keys - gone - over;
  }

  method ForgetExcess(db: Tables, cfg: Config) returns (removed: nat, ghost victims: set<nat>, ghost events: seq<Event>)
    requires cfg.batch >= 1
    modifies db
    ensures IsOffset(Times(old(db.Contents())), cfg.rowLimit, victims)
    ensures db.Contents() == Forget(old(db.Contents()), victims) && removed == |victims|
    ensures Leads(old(db.Contents()), events, cfg, db.Contents())
  {
    ghost var before := db.Contents();
    ghost var spared: set<nat> := {};
    removed, victims, events := 0, {}, [];
    LeadsNowhere(before, cfg);
    while true
      invariant Forgotten(before, cfg.rowLimit, victims, spared, db.Contents())
      invariant removed == |victims| <= |Times(before).Keys|
      invariant Leads(before, events, cfg, db.Contents())
      decreases |Times(before).Keys| - removed
    {
      var count;
      count, victims, spared, events := ForgetOneExcess(db, cfg, before, victims, spared, events);
      removed := removed + count;
      if count < cfg.batch { return; }
    }
  }

  /** Age first, then the row bound: what stays is young enough, no more than the limit, and the newest. */
  method BoundChangeEvents(db: Tables, cfg: Config, now: int)
    returns (removed: nat, ghost victims: set<nat>, ghost events: seq<Event>)
    requires cfg.batch >= 1
    modifies db
    ensures
      var young := Forget(old(db.Contents()), Aged(old(db.Contents()), now, cfg.retention));
      IsOffset(Times(young), cfg.rowLimit, victims) && db.Contents() == Forget(young, victims)
    ensures Leads(old(db.Contents()), events, cfg, db.Contents())
  {
    ghost var before := db.Contents();
    var aged, over;
    ghost var later;
    aged, events := ForgetAged(db, cfg, now);
    ghost var middle := db.Contents();
    over, victims, later := ForgetExcess(db, cfg);
    LeadsThrough(before, events, middle, later, db.Contents(), cfg);
    events := events + later;
    removed := aged + over;
  }

  // ---- One pass ------------------------------------------------------------

  // ---- What a pass does, over the columns ------------------------------------

  /** The row is closed, or the pass closes it: it is older than the time to live, or no open row is allowed. */
  ghost predicate Ends(row: Snapshot, cfg: Config, now: int) {
    !row.status.Pending? || row.startedAt < now - cfg.ttl || cfg.maxPending == 0
  }

  /** A row that goes on is left as it is. One that ends is discarded if it was open, loses what it staged, keeps every
      other column, and may be pruned. */
  ghost predicate RowsTidied(s: State, t: State, cfg: Config, now: int) {
    && t.snapshots.Keys <= s.snapshots.Keys
    && forall u :: u in s.snapshots ==>
         if Ends(s.snapshots[u], cfg, now) then
           u in t.snapshots ==>
             t.snapshots[u]
               == s.snapshots[u].(status := if s.snapshots[u].status.Finished? then Finished else Discarded,
                                               staging := map[])
         else u in t.snapshots && t.snapshots[u] == s.snapshots[u]
  }

  /** The writer row forgets an expired snapshot that it pointed at, and no other. */
  ghost predicate PendingTidied(s: State, t: State, cfg: Config, now: int) {
    t.pending == if exists u :: u in s.snapshots && s.snapshots[u].status.Pending?
                                && s.snapshots[u].startedAt < now - cfg.ttl && s.pending == Some(s.snapshots[u].id)
                 then None else s.pending
  }

  /** As many as the limit allows are left, and none that started before one that is not. */
  ghost predicate NewestLeft(rows: Snapshots, ended: set<SnapshotUid>, limit: nat, left: set<SnapshotUid>) {
    && left <= ended <= rows.Keys
    && |left| == (if |ended| <= limit then |ended| else limit)
    && forall u, v :: u in ended && u !in left && v in left ==> rows[u].startedAt <= rows[v].startedAt
  }

  /** Only rows that end are pruned, never the applied one, and the newest of them are left. */
  ghost predicate HistoryTidied(s: State, t: State, cfg: Config, now: int) {
    var ended := set u | u in s.snapshots && Ends(s.snapshots[u], cfg, now) && s.applied != Some(s.snapshots[u].id);
    && (forall u :: u in s.snapshots && u !in t.snapshots ==> u in ended)
    && NewestLeft(s.snapshots, ended, cfg.historyLimit, ended * t.snapshots.Keys)
  }

  /** Of the retained entries that are not too old, the pass keeps as many as the row limit allows, and none older than
      one it drops. */
  ghost predicate LogTidied(s: State, t: State, cfg: Config, now: int) {
    var young := set n | n in s.kept && n < |s.store.log| && s.store.log[n].at >= now - cfg.retention;
    && t.kept <= young
    && |t.kept| == (if |young| <= cfg.rowLimit then |young| else cfg.rowLimit)
    && forall m, n :: m in young && m !in t.kept && n in t.kept ==> s.store.log[m].at <= s.store.log[n].at
  }

  /** Nothing for a pass at this clock to do. */
  ghost predicate Clean(s: State, cfg: Config, now: int) {
    && (forall u :: u in s.snapshots && s.snapshots[u].status.Pending? ==> s.snapshots[u].startedAt >= now - cfg.ttl)
    && |set u | u in s.snapshots && s.snapshots[u].status.Pending?| <= cfg.maxPending
    && (forall u :: u in s.snapshots && !s.snapshots[u].status.Pending? ==> s.snapshots[u].staging == map[])
    && |set u | u in s.snapshots && !s.snapshots[u].status.Pending? && s.applied != Some(s.snapshots[u].id)|
        <= cfg.historyLimit
    && (forall n :: n in s.kept ==> n < |s.store.log| && s.store.log[n].at >= now - cfg.retention)
    && |s.kept| <= cfg.rowLimit
  }

  // The same in terms of the steps.
  ghost predicate NothingLeft(s: State, cfg: Config, now: int) {
    && ExpiredPending(s, now, cfg.ttl) == {}
    && |PendingRows(s)| <= cfg.maxPending
    && DeadStaging(s) == {}
    && |Prunable(s)| <= cfg.historyLimit
    && Aged(s, now, cfg.retention) == {}
    && |Times(s)| <= cfg.rowLimit
  }

  lemma NoneExpired(s: State, now: int, ttl: nat)
    ensures ExpiredPending(s, now, ttl) == {} <==>
        forall u :: u in s.snapshots && s.snapshots[u].status.Pending? ==> s.snapshots[u].startedAt >= now - ttl
  {
    forall u | u in s.snapshots && s.snapshots[u].status.Pending? && s.snapshots[u].startedAt < now - ttl
      ensures u in ExpiredPending(s, now, ttl)
    {
    }
  }

  lemma NoneStaged(s: State)
    ensures DeadStaging(s) == {} <==>
        forall u :: u in s.snapshots && !s.snapshots[u].status.Pending? ==> s.snapshots[u].staging == map[]
  {
    forall u | u in s.snapshots && !s.snapshots[u].status.Pending? && s.snapshots[u].staging != map[]
      ensures DeadStaging(s) != {}
    {
      var r :| r in s.snapshots[u].staging;
      assert (u, r) in DeadStaging(s);
    }
  }

  lemma NoneAged(s: State, now: int, retention: nat)
    requires Inv(s)
    ensures Times(s).Keys == s.kept
    ensures Aged(s, now, retention) == {} <==>
        forall n :: n in s.kept ==> n < |s.store.log| && s.store.log[n].at >= now - retention
  {
    forall n | n in s.kept && s.store.log[n].at < now - retention ensures n in Aged(s, now, retention) {
    }
  }

  lemma CleanAs(s: State, cfg: Config, now: int)
    requires Inv(s)
    ensures Clean(s, cfg, now) <==> NothingLeft(s, cfg, now)
  {
    NoneExpired(s, now, cfg.ttl);
    NoneStaged(s);
    NoneAged(s, now, cfg.retention);
    hide Inv, ExpiredPending, DeadStaging, Aged;
    assert PendingRows(s) == set u | u in s.snapshots && s.snapshots[u].status.Pending?;
    assert Prunable(s)
        == set u | u in s.snapshots && !s.snapshots[u].status.Pending? && s.applied != Some(s.snapshots[u].id);
    assert |Times(s)| == |Times(s).Keys|;
  }

  /** Housekeeping only: no field of an open snapshot changes, the applied snapshot keeps its row, and the
      projection, the change log, the agents, the writer and the generations stay as they were. */
  ghost predicate OnlyTidied(s: State, t: State) {
    && t == s.(snapshots := t.snapshots, pending := t.pending, kept := t.kept)
    && (t.pending == s.pending || t.pending.None?)
    && t.kept <= s.kept
    && t.snapshots.Keys <= s.snapshots.Keys
    && (forall u :: u in t.snapshots && t.snapshots[u].status.Pending? ==> t.snapshots[u] == s.snapshots[u])
    && (forall u :: u in s.snapshots && s.applied == Some(s.snapshots[u].id) ==>
        u in t.snapshots && t.snapshots[u].id == s.snapshots[u].id)
  }

  lemma TidiedThrough(s: State, t: State, u: State)
    requires OnlyTidied(s, t) && OnlyTidied(t, u)
    ensures OnlyTidied(s, u)
  {
  }

  lemma NothingBeyond<T(!new)>(rows: map<T, int>, keep: nat, rest: set<T>)
    requires IsOffset(rows, keep, rest)
    ensures |rows.Keys - rest| <= keep
    ensures |rows.Keys| <= keep ==> rest == {}
  {
    Subset(rest, rows.Keys);
  }

  lemma ExpireCleans(s: State, now: int, ttl: nat)
    ensures var t := DiscardExpired(s, now, ttl); OnlyTidied(s, t) && ExpiredPending(t, now, ttl) == {}
    ensures ExpiredPending(s, now, ttl) == {} ==> DiscardExpired(s, now, ttl) == s
  {
    if ExpiredPending(s, now, ttl) == {} { assert Discard(s.snapshots, {}) == s.snapshots; }
  }

  lemma CapCleans(s: State, now: int, ttl: nat, cap: nat, victims: set<SnapshotUid>)
    requires IsOffset(StartedAt(s, PendingRows(s)), cap, victims)
    ensures
      var t := DiscardCapped(s, victims);
      OnlyTidied(s, t) && |PendingRows(t)| <= cap && ExpiredPending(t, now, ttl) <= ExpiredPending(s, now, ttl)
    ensures |PendingRows(s)| <= cap ==> DiscardCapped(s, victims) == s
  {
    NothingBeyond(StartedAt(s, PendingRows(s)), cap, victims);
    assert StartedAt(s, PendingRows(s)).Keys == PendingRows(s);
    assert PendingRows(DiscardCapped(s, victims)) == PendingRows(s) - victims;
    if |PendingRows(s)| <= cap { assert Discard(s.snapshots, {}) == s.snapshots; }
  }

  lemma DrainCleans(s: State, now: int, ttl: nat)
    ensures
      var t := DrainStaging(s, DeadStaging(s));
      && OnlyTidied(s, t) && DeadStaging(t) == {}
      && PendingRows(t) == PendingRows(s) && ExpiredPending(t, now, ttl) == ExpiredPending(s, now, ttl)
    ensures DeadStaging(s) == {} ==> DrainStaging(s, DeadStaging(s)) == s
  {
    var t := DrainStaging(s, DeadStaging(s));
    DrainLeaves(s, DeadStaging(s));
    if DeadStaging(s) == {} { DrainNothing(s); }
    forall u | u in t.snapshots && t.snapshots[u].status.Pending? ensures t.snapshots[u] == s.snapshots[u] {
      assert t.snapshots[u].staging == s.snapshots[u].staging;
    }
  }

  lemma PruneCleans(s: State, now: int, ttl: nat, keep: nat, victims: set<SnapshotUid>)
    requires IsOffset(StartedAt(s, Prunable(s)), keep, victims)
    ensures
      var t := Prune(s, victims);
      && OnlyTidied(s, t) && |Prunable(t)| <= keep && DeadStaging(t) <= DeadStaging(s)
      && PendingRows(t) == PendingRows(s) && ExpiredPending(t, now, ttl) == ExpiredPending(s, now, ttl)
    ensures |Prunable(s)| <= keep ==> Prune(s, victims) == s
  {
    NothingBeyond(StartedAt(s, Prunable(s)), keep, victims);
    assert StartedAt(s, Prunable(s)).Keys == Prunable(s);
    assert Prunable(Prune(s, victims)) == Prunable(s) - victims;
    if |Prunable(s)| <= keep { assert s.snapshots - {} == s.snapshots; }
  }

  lemma BoundCleans(s: State, now: int, retention: nat, limit: nat, victims: set<nat>)
    requires IsOffset(Times(Forget(s, Aged(s, now, retention))), limit, victims)
    ensures
      var t := Forget(Forget(s, Aged(s, now, retention)), victims);
      OnlyTidied(s, t) && Aged(t, now, retention) == {} && |Times(t)| <= limit
    ensures Aged(s, now, retention) == {} && |Times(s)| <= limit ==>
        Forget(Forget(s, Aged(s, now, retention)), victims) == s
  {
    var young := Forget(s, Aged(s, now, retention));
    var t := Forget(young, victims);
    NothingBeyond(Times(young), limit, victims);
    assert |Times(t)| == |Times(t).Keys| && |Times(s)| == |Times(s).Keys|;
    assert Times(t).Keys == Times(young).Keys - victims;
    if Aged(s, now, retention) == {} { assert young == s; }
  }

  lemma SameRows(s: State, t: State, now: int, ttl: nat)
    requires t.snapshots == s.snapshots && t.applied == s.applied
    ensures ExpiredPending(t, now, ttl) == ExpiredPending(s, now, ttl) && PendingRows(t) == PendingRows(s)
    ensures DeadStaging(t) == DeadStaging(s) && Prunable(t) == Prunable(s)
  {
  }

  // ---- The steps, over the columns ---------------------------------------------

  // The rows after the two steps that discard.
  ghost predicate Closed(s: State, t: State, cfg: Config, now: int) {
    && t == s.(snapshots := t.snapshots, pending := t.pending)
    && PendingTidied(s, t, cfg, now)
    && t.snapshots.Keys == s.snapshots.Keys
    && forall u :: u in s.snapshots ==>
         t.snapshots[u] == if s.snapshots[u].status.Pending? && Ends(s.snapshots[u], cfg, now)
                           then s.snapshots[u].(status := Discarded) else s.snapshots[u]
  }

  lemma ExpiryDiscards(s: State, cfg: Config, now: int)
    ensures
      var t := DiscardExpired(s, now, cfg.ttl);
      && t == s.(snapshots := t.snapshots, pending := t.pending) && PendingTidied(s, t, cfg, now)
      && t.snapshots.Keys == s.snapshots.Keys
      && forall u :: u in s.snapshots ==>
           t.snapshots[u] == if s.snapshots[u].status.Pending? && s.snapshots[u].startedAt < now - cfg.ttl
                             then s.snapshots[u].(status := Discarded) else s.snapshots[u]
  {
    var expired := ExpiredPending(s, now, cfg.ttl);
    assert (exists u | u in expired :: s.pending == Some(s.snapshots[u].id))
      <==> exists u :: u in s.snapshots && s.snapshots[u].status.Pending? && s.snapshots[u].startedAt < now - cfg.ttl
             && s.pending == Some(s.snapshots[u].id);
  }

  lemma CapDiscards(s: State, cap: nat, victims: set<SnapshotUid>)
    requires Inv(s) && IsOffset(StartedAt(s, PendingRows(s)), cap, victims)
    ensures
      var t := DiscardCapped(s, victims);
      && t == s.(snapshots := t.snapshots) && t.snapshots.Keys == s.snapshots.Keys
      && forall u :: u in s.snapshots ==>
           t.snapshots[u] == if s.snapshots[u].status.Pending? && cap == 0
                             then s.snapshots[u].(status := Discarded) else s.snapshots[u]
  {
    NothingToCap(s, cap, victims);
    assert StartedAt(s, PendingRows(s)).Keys == PendingRows(s);
    if cap == 0 { Filled(victims, PendingRows(s)); }
    hide Inv, IsOffset, StartedAt;
  }

  lemma OpenTidied(s: State, cfg: Config, now: int, victims: set<SnapshotUid>)
    requires
      var a := DiscardExpired(s, now, cfg.ttl);
      Inv(s) && Inv(a) && IsOffset(StartedAt(a, PendingRows(a)), cfg.maxPending, victims)
    ensures Closed(s, DiscardCapped(DiscardExpired(s, now, cfg.ttl), victims), cfg, now)
  {
    ExpiryDiscards(s, cfg, now);
    CapDiscards(DiscardExpired(s, now, cfg.ttl), cfg.maxPending, victims);
    hide DiscardExpired, DiscardCapped, Inv, IsOffset;
  }

  // The rows after the two steps that remove.
  ghost predicate Removed(s: State, t: State, cfg: Config, gone: set<SnapshotUid>) {
    && t == s.(snapshots := t.snapshots) && t.snapshots.Keys == s.snapshots.Keys - gone && gone <= Prunable(s)
    && (forall u :: u in t.snapshots ==>
         t.snapshots[u] == if s.snapshots[u].status.Pending? then s.snapshots[u] else s.snapshots[u].(staging := map[]))
    && NewestLeft(s.snapshots, Prunable(s), cfg.historyLimit, Prunable(s) - gone)
  }

  lemma DrainEmpties(s: State)
    ensures
      var t := DrainStaging(s, DeadStaging(s));
      && t == s.(snapshots := t.snapshots) && t.snapshots.Keys == s.snapshots.Keys
      && forall u :: u in s.snapshots ==>
           t.snapshots[u] == if s.snapshots[u].status.Pending? then s.snapshots[u]
                             else s.snapshots[u].(staging := map[])
  {
    var t := DrainStaging(s, DeadStaging(s));
    forall u | u in s.snapshots
      ensures t.snapshots[u].staging == if s.snapshots[u].status.Pending? then s.snapshots[u].staging else map[]
    {
      forall r | r in s.snapshots[u].staging
        ensures (u, r) in DeadStaging(s) <==> !s.snapshots[u].status.Pending?
      {
      }
    }
  }

  lemma OffsetLeaves<T(!new)>(rows: map<T, int>, keep: nat, rest: set<T>)
    requires IsOffset(rows, keep, rest)
    ensures |rows.Keys - rest| == if |rows.Keys| <= keep then |rows.Keys| else keep
  {
    Subset(rest, rows.Keys);
  }

  lemma PruneLeaves(s: State, closed: set<SnapshotUid>, limit: nat, victims: set<SnapshotUid>)
    requires closed <= s.snapshots.Keys && IsOffset(StartedAt(s, closed), limit, victims)
    ensures victims <= closed && NewestLeft(s.snapshots, closed, limit, closed - victims)
  {
    assert StartedAt(s, closed).Keys == closed;
    OffsetLeaves(StartedAt(s, closed), limit, victims);
  }

  lemma ClosedTidied(s: State, cfg: Config, victims: set<SnapshotUid>)
    requires
      var drained := DrainStaging(s, DeadStaging(s));
      IsOffset(StartedAt(drained, Prunable(drained)), cfg.historyLimit, victims)
    ensures Removed(s, Prune(DrainStaging(s, DeadStaging(s)), victims), cfg, victims)
  {
    DrainEmpties(s);
    var drained := DrainStaging(s, DeadStaging(s));
    assert Prunable(drained) == Prunable(s);
    hide DrainStaging, DeadStaging, IsOffset, StartedAt, Prunable;
    PruneLeaves(drained, Prunable(s), cfg.historyLimit, victims);
    SameStarts(s.snapshots, drained.snapshots, Prunable(s), cfg.historyLimit, Prunable(s) - victims);
    hide NewestLeft;
  }

  lemma SameStarts(rows: Snapshots, others: Snapshots, ended: set<SnapshotUid>, limit: nat, left: set<SnapshotUid>)
    requires rows.Keys == others.Keys && forall u :: u in rows ==> rows[u].startedAt == others[u].startedAt
    ensures NewestLeft(rows, ended, limit, left) <==> NewestLeft(others, ended, limit, left)
  {
  }

  lemma RowsOfPass(s: State, middle: State, t: State, cfg: Config, now: int, gone: set<SnapshotUid>)
    requires Closed(s, middle, cfg, now) && Removed(middle, t, cfg, gone)
    ensures RowsTidied(s, t, cfg, now) && PendingTidied(s, t, cfg, now)
  {
    hide NewestLeft;
  }

  lemma HistoryOfPass(s: State, middle: State, t: State, cfg: Config, now: int, gone: set<SnapshotUid>)
    requires Closed(s, middle, cfg, now) && Removed(middle, t, cfg, gone)
    ensures HistoryTidied(s, t, cfg, now)
  {
    hide NewestLeft, PendingTidied;
    var ended := set u | u in s.snapshots && Ends(s.snapshots[u], cfg, now) && s.applied != Some(s.snapshots[u].id);
    assert Prunable(middle) == ended;
    assert ended - gone == ended * t.snapshots.Keys;
    SameStarts(s.snapshots, middle.snapshots, ended, cfg.historyLimit, ended - gone);
  }

  lemma LogOfPass(s: State, cfg: Config, now: int, victims: set<nat>)
    requires Inv(s) && IsOffset(Times(Forget(s, Aged(s, now, cfg.retention))), cfg.rowLimit, victims)
    ensures LogTidied(s, Forget(Forget(s, Aged(s, now, cfg.retention)), victims), cfg, now)
  {
    var recent := Forget(s, Aged(s, now, cfg.retention));
    var young := set n | n in s.kept && n < |s.store.log| && s.store.log[n].at >= now - cfg.retention;
    assert young == recent.kept == Times(recent).Keys;
    OffsetLeaves(Times(recent), cfg.rowLimit, victims);
  }

  // What the two steps that discard leave to do.
  ghost predicate OpenClean(s: State, cfg: Config, now: int) {
    ExpiredPending(s, now, cfg.ttl) == {} && |PendingRows(s)| <= cfg.maxPending
  }

  ghost predicate ClosedClean(s: State, cfg: Config) {
    DeadStaging(s) == {} && |Prunable(s)| <= cfg.historyLimit
  }

  /** The two steps that discard open snapshots. */
  method TidyOpen(db: Tables, cfg: Config, now: int) returns (expired: nat, capped: nat, ghost events: seq<Event>)
    requires db.Valid()
    modifies db
    ensures OnlyTidied(old(db.Contents()), db.Contents()) && Closed(old(db.Contents()), db.Contents(), cfg, now)
    ensures OpenClean(db.Contents(), cfg, now)
    ensures OpenClean(old(db.Contents()), cfg, now) ==> db.Contents() == old(db.Contents())
    ensures Leads(old(db.Contents()), events, cfg, db.Contents())
  {
    hide Closed, Inv, OnlyTidied, Leads, IsOffset, StartedAt, PendingRows, ExpiredPending;
    ghost var before, more := db.Contents(), [];
    expired, events := DiscardExpiredPending(db, cfg, now);
    ghost var middle := db.Contents();
    ExpireCleans(before, now, cfg.ttl);
    LeadsInv(before, events, cfg, middle);
    ghost var victims;
    capped, victims, more := CapPendingSnapshots(db, cfg);
    CapCleans(middle, now, cfg.ttl, cfg.maxPending, victims);
    OpenTidied(before, cfg, now, victims);
    TidiedThrough(before, middle, db.Contents());
    LeadsThrough(before, events, middle, more, db.Contents(), cfg);
    events := events + more;
  }

  /** The two steps that remove what closed snapshots left behind. */
  method TidyClosed(db: Tables, cfg: Config, ghost now: int)
    returns (drained: nat, pruned: nat, ghost gone: set<SnapshotUid>, ghost events: seq<Event>)
    requires cfg.batch >= 1
    modifies db
    ensures OnlyTidied(old(db.Contents()), db.Contents()) && Removed(old(db.Contents()), db.Contents(), cfg, gone)
    ensures OpenClean(old(db.Contents()), cfg, now) ==> OpenClean(db.Contents(), cfg, now)
    ensures ClosedClean(db.Contents(), cfg)
    ensures ClosedClean(old(db.Contents()), cfg) ==> db.Contents() == old(db.Contents())
    ensures Leads(old(db.Contents()), events, cfg, db.Contents())
  {
    hide Removed, OnlyTidied, Leads, IsOffset, StartedAt;
    ghost var before, more := db.Contents(), [];
    drained, events := DrainDeadStaging(db, cfg);
    ghost var middle := db.Contents();
    DrainCleans(before, now, cfg.ttl);
    pruned, gone, more := PruneSnapshotHistory(db, cfg);
    ClosedTidied(before, cfg, gone);
    PruneCleans(middle, now, cfg.ttl, cfg.historyLimit, gone);
    TidiedThrough(before, middle, db.Contents());
    LeadsThrough(before, events, middle, more, db.Contents(), cfg);
    events := events + more;
  }

  /** What one pass does to every row of every table. */
  ghost predicate PassDone(s: State, t: State, cfg: Config, now: int) {
    && t == s.(snapshots := t.snapshots, pending := t.pending, kept := t.kept)
    && RowsTidied(s, t, cfg, now) && PendingTidied(s, t, cfg, now) && HistoryTidied(s, t, cfg, now)
    && LogTidied(s, t, cfg, now)
  }

  lemma SameRowsTidied(s: State, tidy: State, t: State, cfg: Config, now: int)
    requires t.snapshots == tidy.snapshots && t.pending == tidy.pending
    requires RowsTidied(s, tidy, cfg, now) && PendingTidied(s, tidy, cfg, now) && HistoryTidied(s, tidy, cfg, now)
    ensures RowsTidied(s, t, cfg, now) && PendingTidied(s, t, cfg, now) && HistoryTidied(s, t, cfg, now)
  {
    hide NewestLeft, Ends;
  }

  lemma SameLogTidied(s: State, tidy: State, t: State, cfg: Config, now: int)
    requires s.kept == tidy.kept && s.store == tidy.store && LogTidied(tidy, t, cfg, now)
    ensures LogTidied(s, t, cfg, now)
  {
    assert (set n | n in s.kept && n < |s.store.log| && s.store.log[n].at >= now - cfg.retention)
        == (set n | n in tidy.kept && n < |tidy.store.log| && tidy.store.log[n].at >= now - cfg.retention);
  }

  lemma PassIsDone(s: State, open: State, tidy: State, cfg: Config, now: int, gone: set<SnapshotUid>,
                   victims: set<nat>)
    requires Closed(s, open, cfg, now) && Removed(open, tidy, cfg, gone) && Inv(tidy)
    requires IsOffset(Times(Forget(tidy, Aged(tidy, now, cfg.retention))), cfg.rowLimit, victims)
    ensures PassDone(s, Forget(Forget(tidy, Aged(tidy, now, cfg.retention)), victims), cfg, now)
  {
    RowsOfPass(s, open, tidy, cfg, now, gone);
    HistoryOfPass(s, open, tidy, cfg, now, gone);
    LogOfPass(tidy, cfg, now, victims);
    hide IsOffset, Aged, Inv, Times, RowsTidied, PendingTidied, HistoryTidied, LogTidied;
    var t := Forget(Forget(tidy, Aged(tidy, now, cfg.retention)), victims);
    SameRowsTidied(s, tidy, t, cfg, now);
    SameLogTidied(s, tidy, t, cfg, now);
    hide Removed, Closed;
  }

  lemma PassCleans(s: State, open: State, tidy: State, t: State, cfg: Config, now: int)
    requires Inv(s) && Inv(t) && OnlyTidied(s, open) && OnlyTidied(open, tidy) && OnlyTidied(tidy, t)
    requires OpenClean(tidy, cfg, now) && ClosedClean(tidy, cfg) && t.snapshots == tidy.snapshots
    requires OpenClean(s, cfg, now) ==> open == s
    requires ClosedClean(open, cfg) ==> tidy == open
    requires Aged(tidy, now, cfg.retention) == {} && |Times(tidy)| <= cfg.rowLimit ==> t == tidy
    requires Aged(t, now, cfg.retention) == {} && |Times(t)| <= cfg.rowLimit
    ensures OnlyTidied(s, t) && Clean(t, cfg, now)
    ensures Clean(s, cfg, now) ==> t == s
  {
    TidiedThrough(s, open, tidy);
    TidiedThrough(s, tidy, t);
    SameRows(tidy, t, now, cfg.ttl);
    CleanAs(t, cfg, now);
    CleanAs(s, cfg, now);
    hide Inv, Clean, ExpiredPending, PendingRows, DeadStaging, Prunable, Aged, Times;
  }

  /** One pass, from any state the server can be in: it does to every row exactly what its columns call for, it is a
      run of the server, it leaves nothing to do at the same clock, and where there was nothing to do it changes
      nothing. */
  method RunInventoryMaintenance(db: Tables, cfg: Config, now: int) returns (counts: seq<nat>, ghost events: seq<Event>)
    requires cfg.batch >= 1 && db.Valid()
    modifies db
    ensures db.Valid()
    ensures PassDone(old(db.Contents()), db.Contents(), cfg, now)
    ensures OnlyTidied(old(db.Contents()), db.Contents())
    ensures Clean(db.Contents(), cfg, now)
    ensures Clean(old(db.Contents()), cfg, now) ==> db.Contents() == old(db.Contents())
    ensures Leads(old(db.Contents()), events, cfg, db.Contents())
  {
    hide PassDone, Closed, Removed, OnlyTidied, OpenClean, ClosedClean, Clean, Leads, Inv, Times, Aged, IsOffset;
    ghost var before := db.Contents();
    ghost var more, gone, victims;
    var expired, capped, drained, pruned, removed;
    expired, capped, events := TidyOpen(db, cfg, now);
    ghost var open := db.Contents();
    drained, pruned, gone, more := TidyClosed(db, cfg, now);
    ghost var tidy := db.Contents();
    LeadsThrough(before, events, open, more, tidy, cfg);
    events := events + more;
    LeadsInv(before, events, cfg, tidy);
    removed, victims, more := BoundChangeEvents(db, cfg, now);
    LeadsThrough(before, events, tidy, more, db.Contents(), cfg);
    events := events + more;
    LeadsInv(before, events, cfg, db.Contents());
    BoundCleans(tidy, now, cfg.retention, cfg.rowLimit, victims);
    PassIsDone(before, open, tidy, cfg, now, gone, victims);
    PassCleans(before, open, tidy, db.Contents(), cfg, now);
    counts := [expired, capped, drained, pruned, removed];
  }
}
