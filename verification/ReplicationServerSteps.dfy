/** Every server step keeps the inductive facts: deliveries of any copy of our messages, foreign
    messages, late demands, maintenance, and our own supersession. */
module ReplicationServerSteps {
  import opened Inventory
  import opened Projection
  import opened Server
  import opened Accounting
  import opened ServerInvariants
  import opened ServerTheorems
  import opened Replication
  import opened ReplicationInvariants

  // ---- An acknowledgement that changes no table ----------------------------

  ghost predicate AckFits(s: System, m: Message) {
    InCycle(s.agent) && s.agent.waiting == Some(m) && s.agent.uid in s.sessions ==>
      && (m.Complete? ==> s.mirrored == Some(s.agent.uid))
      && (m.Events? ==>
            && |s.sessions[s.agent.uid].batches| <= s.mirroredBatches
            && (Newest(s.openings).Some? && Newest(s.openings) != Some(s.agent.uid)
                && Newest(s.openings).value in s.sessions ==>
                  Top(s.sessions[s.agent.uid]) < s.sessions[Newest(s.openings).value].begin))
  }

  lemma AckKeeps(w: World, s: System, m: Message)
    requires SharedInv(w, s) && CycleInv(w, s)
    requires m in s.sent && m.sequence <= Last(w, s) && AckFits(s, m)
    ensures SharedInv(w, s.(acked := s.acked + {m})) && CycleInv(w, s.(acked := s.acked + {m}))
  {
  }

  // ---- The sequence counter of our row moves forward -----------------------

  lemma LastGrows(w: World, s: System, last: nat)
    requires SharedInv(w, s) && CycleInv(w, s) && Last(w, s) <= last
    ensures Messages(w.me, s.sent, s.acked, s.sessions, last, s.agent.requests)
    ensures SessionsOk(s.sessions, last)
    ensures CurrentOk(s.agent, s.sessions, s.sent, last)
    ensures Mirrors(s.server.store.table, s.sessions, s.mirrored, s.mirroredBatches, last)
  {
    forall u | u in s.sessions ensures SessionOk(s.sessions[u], last) {
      assert SessionOk(s.sessions[u], Last(w, s));
    }
  }

  // ---- Begin ---------------------------------------------------------------

  lemma OpenedRows(snapshots: Snapshots, pending: Option<SnapshotId>, sessions: Sessions, last: nat,
                   u: SnapshotUid, row: Snapshot, current: nat, applied: nat)
    requires OwnRows(snapshots, sessions, last) && Generations(snapshots, pending, current, applied)
    requires u in sessions && last < sessions[u].begin
    requires row.status.Pending? && row.receivedPages == 0 && row.pages == map[]
    ensures OwnRows(DiscardPending(snapshots, pending)[u := row], sessions, sessions[u].begin)
  {
    var after := DiscardPending(snapshots, pending)[u := row];
    forall v | v in after && v in sessions ensures OwnRow(after[v], sessions[v], sessions[u].begin) {
      if v != u { assert OwnRow(snapshots[v], sessions[v], last); }
    }
  }

  lemma OpenedOpenings(openings: seq<SnapshotUid>, snapshots: Snapshots, pending: Option<SnapshotId>,
                       sessions: Sessions, last: nat, u: SnapshotUid, row: Snapshot, current: nat, applied: nat)
    requires Openings(openings, snapshots, sessions, last) && SessionsOk(sessions, last)
    requires Generations(snapshots, pending, current, applied)
    requires u in sessions && last < sessions[u].begin
    ensures Openings(openings + [u], DiscardPending(snapshots, pending)[u := row], sessions, sessions[u].begin)
  {
    forall v | v in sessions && sessions[v].batches != [] && v != u
      ensures Top(sessions[v]) <= sessions[u].begin
    {
      assert SessionOk(sessions[v], last);
    }
  }

  lemma OpenedCycle(w: World, s: System, u: SnapshotUid, row: Snapshot)
    requires SharedInv(w, s) && CycleInv(w, s)
    requires u in s.sessions && Last(w, s) < s.sessions[u].begin && row.status.Pending?
    ensures CycleMirrored(s.agent, s.acked, DiscardPending(s.server.snapshots, s.server.pending)[u := row], s.sessions,
                          s.openings + [u], s.mirrored, s.mirroredBatches)
  {
    assert SessionOk(s.sessions[u], Last(w, s));
    if InCycle(s.agent) && s.agent.uid in s.sessions {
      assert SessionOk(s.sessions[s.agent.uid], Last(w, s));
      assert Newest(s.openings + [u]) == Some(u);
    }
  }

  lemma BeginAccepted(w: World, s: System, m: Message, now: int)
    requires Running(w, s) && m in s.sent && m.Begin?
    requires Generations(s.server.snapshots, s.server.pending, s.server.currentGeneration, s.server.appliedGeneration)
    requires BeginTxn(s.server, m, now).1.Accepted?
    ensures Running(w, Delivered(s, m, BeginTxn(s.server, m, now)))
  {
    assert m.uid in s.sessions && s.sessions[m.uid].begin == m.sequence;
    var row := Opened(s.server, m, now);
    var mid := s.(server := BeginTxn(s.server, m, now).0, openings := s.openings + [m.uid]);
    LastGrows(w, s, m.sequence);
    OpenedRows(s.server.snapshots, s.server.pending, s.sessions, Last(w, s), m.uid, row,
               s.server.currentGeneration, s.server.appliedGeneration);
    OpenedOpenings(s.openings, s.server.snapshots, s.server.pending, s.sessions, Last(w, s), m.uid, row,
                   s.server.currentGeneration, s.server.appliedGeneration);
    OpenedCycle(w, s, m.uid, row);
    assert SharedInv(w, mid) && CycleInv(w, mid);
    AckKeeps(w, mid, m);
  }

  // ---- Page ----------------------------------------------------------------

  lemma StoredRows(snapshots: Snapshots, sessions: Sessions, last: nat, u: SnapshotUid, number: nat,
                   resources: seq<Resource>,
                   pending: Option<SnapshotId>, current: nat, applied: nat, nextId: SnapshotId)
    requires OwnRows(snapshots, sessions, last)
    requires Generations(snapshots, pending, current, applied) && Ids(snapshots, nextId)
    requires u in sessions && u in snapshots && snapshots[u].status.Pending?
    requires number == snapshots[u].receivedPages + 1 <= |sessions[u].pages|
        && resources == sessions[u].pages[number - 1]
    ensures OwnRows(snapshots[u := AddPage(snapshots[u], number, resources)], sessions, last + 1)
  {
    var after := snapshots[u := AddPage(snapshots[u], number, resources)];
    forall v | v in after && v in sessions ensures OwnRow(after[v], sessions[v], last + 1) {
      assert OwnRow(snapshots[v], sessions[v], last);
    }
  }

  // An accepted page is the next of the session opened last.
  lemma PageIsNext(w: World, s: System, m: Message)
    requires Running(w, s) && m in s.sent && m.Page?
    requires Ids(s.server.snapshots, s.server.nextId)
    requires Generations(s.server.snapshots, s.server.pending, s.server.currentGeneration, s.server.appliedGeneration)
    requires PageTxn(s.server, m).1.Accepted?
    ensures m.sequence == Last(w, s) + 1 && m.uid in s.sessions && m.uid in s.server.snapshots
        && Newest(s.openings) == Some(m.uid)
    ensures s.sessions[m.uid].begin + s.server.snapshots[m.uid].receivedPages == Last(w, s)
    ensures OwnRows(PageTxn(s.server, m).0.snapshots, s.sessions, m.sequence)
  {
    assert Recorded(s.sessions, m);
    assert OwnRow(s.server.snapshots[m.uid], s.sessions[m.uid], Last(w, s));
    StoredRows(s.server.snapshots, s.sessions, Last(w, s), m.uid, m.number, m.resources,
               s.server.pending, s.server.currentGeneration, s.server.appliedGeneration, s.server.nextId);
  }

  lemma PageAccepted(w: World, s: System, m: Message)
    requires Running(w, s) && m in s.sent && m.Page?
    requires Ids(s.server.snapshots, s.server.nextId)
    requires Generations(s.server.snapshots, s.server.pending, s.server.currentGeneration, s.server.appliedGeneration)
    requires PageTxn(s.server, m).1.Accepted?
    ensures Running(w, Delivered(s, m, PageTxn(s.server, m)))
  {
    hide Messages, SessionsOk, CurrentOk, OwnRows, Openings, Mirrors, FreshOk, NamedTable, NamedSessions,
      CycleMirrored, AgentHolds;
    PageIsNext(w, s, m);
    LastGrows(w, s, Last(w, s) + 1);
    var mid := s.(server := PageTxn(s.server, m).0);
    PageAcceptedShared(w, s, m);
    AckKeeps(w, mid, m);
  }

  lemma PageAcceptedShared(w: World, s: System, m: Message)
    requires SharedInv(w, s) && CycleInv(w, s) && m.Page? && PageTxn(s.server, m).1.Accepted? && m.agent == w.me
    requires m.sequence == Last(w, s) + 1
    requires Messages(w.me, s.sent, s.acked, s.sessions, m.sequence, s.agent.requests)
    requires SessionsOk(s.sessions, m.sequence) && CurrentOk(s.agent, s.sessions, s.sent, m.sequence)
    requires Mirrors(s.server.store.table, s.sessions, s.mirrored, s.mirroredBatches, m.sequence)
    requires OwnRows(PageTxn(s.server, m).0.snapshots, s.sessions, m.sequence)
    requires FreshOk(s.server.agents[w.me], s.sessions, s.openings, s.mirrored, s.mirroredBatches)
    requires m.uid in s.sessions && Newest(s.openings) == Some(m.uid)
    requires s.sessions[m.uid].begin + s.server.snapshots[m.uid].receivedPages == Last(w, s)
    ensures SharedInv(w, s.(server := PageTxn(s.server, m).0)) && CycleInv(w, s.(server := PageTxn(s.server, m).0))
  {
    hide NamedTable, NamedSessions, AgentHolds, Stage;
  }

  /** In a live system a page is never a gap and never torn, and an acknowledged page is behind the server. */
  lemma PageReplies(w: World, s: System, m: Message)
    requires Running(w, s) && m in s.sent && m.Page?
    ensures
      var (after, outcome) := PageTxn(s.server, m);
      && !outcome.Gap? && !outcome.Torn?
      && (!outcome.Accepted? ==> after == s.server)
      && (outcome.Acknowledged() && !outcome.Accepted? ==> m.sequence <= Last(w, s))
  {
    assert Recorded(s.sessions, m);
    var t := s.sessions[m.uid];
    assert SessionOk(t, Last(w, s));
    if m.uid in s.server.snapshots {
      assert OwnRow(s.server.snapshots[m.uid], t, Last(w, s));
    }
  }

  // ---- Complete ------------------------------------------------------------

  lemma {:induction false} OwnPagesInOrder(pages: map<nat, seq<Resource>>, parts: seq<seq<Resource>>, n: nat)
    requires n <= |parts| && forall p :: 1 <= p <= n ==> p in pages && pages[p] == parts[p - 1]
    ensures InOrder(pages, n) == Concat(parts[..n])
  {
    if n > 0 {
      OwnPagesInOrder(pages, parts, n - 1);
      assert parts[..n] == parts[..n - 1] + [parts[n - 1]];
      ConcatAppend(parts[..n - 1], parts[n - 1]);
    }
  }

  /** A complete of a live system is never a gap; if it passes the gate, every page of its session has been stored. */
  lemma CompleteReplies(w: World, s: System, m: Message, now: int)
    requires Running(w, s) && m in s.sent && m.Complete?
    requires Generations(s.server.snapshots, s.server.pending, s.server.currentGeneration, s.server.appliedGeneration)
    ensures
      var check := CompleteCheck(s.server, m, now, w.cfg.ttl);
      && check != Some(Gap)
      && (check.Some? && check.value.Acknowledged() ==>
            m.uid in s.server.snapshots && s.server.snapshots[m.uid].status.Finished? && m.sequence <= Last(w, s))
      && (check.None? ==> m.sequence == Last(w, s) + 1 && m.sequence == CompleteAt(s.sessions[m.uid]))
  {
    assert Recorded(s.sessions, m);
    var t := s.sessions[m.uid];
    assert SessionOk(t, Last(w, s));
    if m.uid in s.server.snapshots {
      assert OwnRow(s.server.snapshots[m.uid], t, Last(w, s));
    }
  }

  lemma CompletedView(s: State, cfg: Config, m: Message, now: int, visit: Visit, t: Session, last: nat)
    requires m.Complete? && ValidVisit(s, m, visit) && CompleteCheck(s, m, now, cfg.ttl).None?
    requires RowOk(s.snapshots[m.uid])
    requires InSession(m, m.uid, t) && OwnRow(s.snapshots[m.uid], t, last)
    ensures View(Commit(s, cfg, m, now, visit).store.table) == Snapshotted(t)
  {
    hide Commit, View, Collect, RowOk, ApplySnapshot;
    CommitView(s, cfg, m, now, visit);
    OwnPagesInOrder(s.snapshots[m.uid].pages, t.pages, m.totalPages);
    assert t.pages[..m.totalPages] == t.pages;
  }

  lemma {:induction false} StagedFromPages(pages: map<nat, seq<Resource>>, parts: seq<seq<Resource>>,
                                           identity: Uid -> Ident, p: nat, i: nat)
    requires NamedResources(identity, Concat(parts))
    requires p < |parts| && i < |parts[p]|
    ensures Named(identity, parts[p][i].entity)
    decreases |parts|
  {
    var last := |parts| - 1;
    var front := Concat(parts[..last]);
    assert Concat(parts) == front + parts[last];
    if p == last {
      assert Concat(parts)[|front| + i] == parts[p][i];
    } else {
      assert NamedResources(identity, front) by {
        forall j | 0 <= j < |front| ensures Named(identity, front[j].entity) { assert Concat(parts)[j] == front[j]; }
      }
      StagedFromPages(pages, parts[..last], identity, p, i);
    }
  }

  lemma StagingNamed(row: Snapshot, t: Session, last: nat, identity: Uid -> Ident)
    requires row.status.Pending? && RowOk(row) && OwnRow(row, t, last) && NamedSession(identity, t)
    ensures NamedStaging(identity, row.staging)
  {
    hide Stage;
    forall r | r in row.staging ensures row.staging[r].entity.uid == r && Named(identity, row.staging[r].entity) {
      var p: nat, i: nat :| On(row.pages, p, i) && row.pages[p][i] == row.staging[r];
      StagedFromPages(row.pages, t.pages, identity, p - 1, i);
    }
  }

  lemma FinishedRows(snapshots: Snapshots, sessions: Sessions, last: nat, u: SnapshotUid,
                     pending: Option<SnapshotId>, current: nat, applied: nat, nextId: SnapshotId)
    requires OwnRows(snapshots, sessions, last)
    requires Generations(snapshots, pending, current, applied) && Ids(snapshots, nextId)
    requires u in sessions && u in snapshots && snapshots[u].status.Pending?
    requires sessions[u].closed && last + 1 == CompleteAt(sessions[u])
    ensures OwnRows(snapshots[u := snapshots[u].(status := Finished, staging := map[])], sessions, last + 1)
  {
    var after := snapshots[u := snapshots[u].(status := Finished, staging := map[])];
    forall v | v in after && v in sessions ensures OwnRow(after[v], sessions[v], last + 1) {
      assert OwnRow(snapshots[v], sessions[v], last);
    }
  }

  // Only the session opened last can finish, and the running cycle's snapshot stays mirrored unless it is that one.
  lemma FinishedCycle(w: World, s: System, u: SnapshotUid)
    requires SharedInv(w, s) && CycleInv(w, s)
    requires u in s.sessions && u in s.server.snapshots && Newest(s.openings) == Some(u)
    requires s.sessions[u].closed && Last(w, s) + 1 == CompleteAt(s.sessions[u])
    ensures
      var after := s.server.snapshots[u := s.server.snapshots[u].(status := Finished, staging := map[])];
      CycleMirrored(s.agent, s.acked, after, s.sessions, s.openings, Some(u), 0)
  {
    if InCycle(s.agent) && s.agent.uid in s.sessions {
      var t := s.sessions[s.agent.uid];
      assert SessionOk(t, Last(w, s)) && SessionOk(s.sessions[u], Last(w, s));
    }
  }

  lemma CompleteTable(w: World, s: System, m: Message, now: int, visit: Visit)
    requires SystemInv(w, s) && Live(w, s) && m in s.sent && m.Complete? && ValidVisit(s.server, m, visit)
    requires CompleteCheck(s.server, m, now, w.cfg.ttl).None?
    ensures m.uid in s.sessions
    ensures
      var table := Commit(s.server, w.cfg, m, now, visit).store.table;
      View(table) == Snapshotted(s.sessions[m.uid]) && NamedTable(w.identity, table)
  {
    assert Recorded(s.sessions, m);
    var row, t := s.server.snapshots[m.uid], s.sessions[m.uid];
    assert RowOk(row) && OwnRow(row, t, Last(w, s)) && NamedSession(w.identity, t);
    CompletedView(s.server, w.cfg, m, now, visit, t, Last(w, s));
    StagingNamed(row, t, Last(w, s), w.identity);
    CommitTable(s.server, w.cfg, m, now, visit);
    SnapshotNamed(s.server.store.table, w.cfg.derive, now, row.id, row.staging, w.identity);
  }

  // An applied complete is the next message of the session opened last.
  lemma CompleteIsNext(w: World, s: System, m: Message, now: int)
    requires Running(w, s) && m in s.sent && m.Complete? && m.uid in s.sessions
    requires Ids(s.server.snapshots, s.server.nextId)
    requires Generations(s.server.snapshots, s.server.pending, s.server.currentGeneration, s.server.appliedGeneration)
    requires CompleteCheck(s.server, m, now, w.cfg.ttl).None?
    ensures s.sessions[m.uid].closed && m.sequence == CompleteAt(s.sessions[m.uid]) == Last(w, s) + 1
    ensures Newest(s.openings) == Some(m.uid)
    ensures
      var after := s.server.snapshots[m.uid := s.server.snapshots[m.uid].(status := Finished, staging := map[])];
      OwnRows(after, s.sessions, m.sequence)
        && CycleMirrored(s.agent, s.acked, after, s.sessions, s.openings, Some(m.uid), 0)
  {
    CompleteReplies(w, s, m, now);
    assert Recorded(s.sessions, m);
    FinishedRows(s.server.snapshots, s.sessions, Last(w, s), m.uid, s.server.pending,
                 s.server.currentGeneration, s.server.appliedGeneration, s.server.nextId);
    FinishedCycle(w, s, m.uid);
  }

  lemma CompleteApplied(w: World, s: System, m: Message, now: int, visit: Visit)
    requires Running(w, s) && m in s.sent && m.Complete? && m.uid in s.sessions && ValidVisit(s.server, m, visit)
    requires Ids(s.server.snapshots, s.server.nextId)
    requires Generations(s.server.snapshots, s.server.pending, s.server.currentGeneration, s.server.appliedGeneration)
    requires CompleteCheck(s.server, m, now, w.cfg.ttl).None?
    requires
      var table := Commit(s.server, w.cfg, m, now, visit).store.table;
      View(table) == Snapshotted(s.sessions[m.uid]) && NamedTable(w.identity, table)
    ensures Running(w, Delivered(s, m, CompleteTxn(s.server, w.cfg, m, now, visit)))
  {
    CompleteIsNext(w, s, m, now);
    LastGrows(w, s, Last(w, s) + 1);
    var mid := s.(server := Commit(s.server, w.cfg, m, now, visit), mirrored := Some(m.uid), mirroredBatches := 0);
    CompleteAppliedShared(w, s, m, mid);
    AckKeeps(w, mid, m);
  }

  lemma CompleteAppliedShared(w: World, s: System, m: Message, mid: System)
    requires SharedInv(w, s) && CycleInv(w, s) && m.Complete? && m.agent == w.me
    requires w.me in mid.server.agents && mid.server.agents[w.me] == AgentRow(m.sequence, Fresh)
    requires mid == s.(server := mid.server, mirrored := Some(m.uid), mirroredBatches := 0)
    requires m.uid in s.sessions && s.sessions[m.uid].closed
        && m.sequence == CompleteAt(s.sessions[m.uid]) == Last(w, s) + 1
    requires m.uid in s.server.snapshots && Newest(s.openings) == Some(m.uid)
    requires mid.server.snapshots
        == s.server.snapshots[m.uid := s.server.snapshots[m.uid].(status := Finished, staging := map[])]
    requires Messages(w.me, s.sent, s.acked, s.sessions, m.sequence, s.agent.requests)
    requires SessionsOk(s.sessions, m.sequence) && CurrentOk(s.agent, s.sessions, s.sent, m.sequence)
    requires OwnRows(mid.server.snapshots, s.sessions, m.sequence)
    requires CycleMirrored(s.agent, s.acked, mid.server.snapshots, s.sessions, s.openings, Some(m.uid), 0)
    requires View(mid.server.store.table) == Snapshotted(s.sessions[m.uid])
        && NamedTable(w.identity, mid.server.store.table)
    ensures SharedInv(w, mid) && CycleInv(w, mid)
  {
    assert s.sessions[m.uid].batches[..0] == [];
  }

  // ---- Events --------------------------------------------------------------

  /** A batch of a live system is never a gap; one that is not refused belongs to the mirrored session,
      or is already behind; one that passes the gate is the next batch of the mirrored session. */
  lemma EventsReplies(w: World, s: System, m: Message)
    requires Running(w, s) && m in s.sent && m.Events?
    ensures
      var check := EventsCheck(s.server, m);
      && check != Some(Gap)
      && (check.Some? && check.value.Acknowledged() ==> m.sequence <= Last(w, s) && AckFits(s, m))
      && (check.None? ==>
            && s.mirrored.Some? && s.mirrored.value in s.sessions && s.mirrored == Newest(s.openings)
            && var t := s.sessions[s.mirrored.value];
               && s.mirroredBatches < |t.batches| && m.events == t.batches[s.mirroredBatches]
               && m.sequence == Last(w, s) + 1 == CompleteAt(t) + s.mirroredBatches + 1)
  {
    hide AgentHolds, NamedTable, NamedSessions;
    assert Recorded(s.sessions, m);
    var u :| u in s.sessions && InSession(m, u, s.sessions[u]);
    assert SessionOk(s.sessions[u], Last(w, s));
  }

  lemma ExtendedMirror(w: World, s: System, m: Message, now: int)
    requires Running(w, s) && m in s.sent && m.Events? && EventsCheck(s.server, m).None?
    ensures
      var after := EventsTxn(s.server, w.cfg, m, now).0;
      && Mirrors(after.store.table, s.sessions, s.mirrored, s.mirroredBatches + 1, m.sequence)
      && NamedTable(w.identity, after.store.table)
  {
    EventsReplies(w, s, m);
    var t := s.sessions[s.mirrored.value];
    var k := s.mirroredBatches;
    assert NamedSession(w.identity, t) && NamedEvents(w.identity, t.batches[k]);
    EventsRefineMap(s.server.store, w.cfg.derive, now, m.events, w.identity);
    assert t.batches[..k + 1] == t.batches[..k] + [t.batches[k]];
    ConcatAppend(t.batches[..k], t.batches[k]);
    FoldAppend(Snapshotted(t), Concat(t.batches[..k]), t.batches[k]);
  }

  lemma EventsApplied(w: World, s: System, m: Message, now: int)
    requires Running(w, s) && m in s.sent && m.Events? && EventsCheck(s.server, m).None?
    ensures Running(w, Delivered(s, m, EventsTxn(s.server, w.cfg, m, now)))
  {
    hide Messages, SessionsOk, CurrentOk, OwnRows, Openings, Mirrors, FreshOk, NamedTable, NamedSessions,
      CycleMirrored, AgentHolds;
    EventsReplies(w, s, m);
    ExtendedMirror(w, s, m, now);
    LastGrows(w, s, Last(w, s) + 1);
    var mid := s.(server := EventsTxn(s.server, w.cfg, m, now).0, mirroredBatches := s.mirroredBatches + 1);
    EventsAppliedShared(w, s, m, mid);
    AckKeeps(w, mid, m);
  }

  lemma EventsAppliedShared(w: World, s: System, m: Message, mid: System)
    requires SharedInv(w, s) && CycleInv(w, s) && m.Events? && m.agent == w.me && m in s.sent
    requires s.server.agents[w.me].inventory.Fresh?
    requires mid.server.snapshots == s.server.snapshots
    requires w.me in mid.server.agents && mid.server.agents[w.me] == AgentRow(m.sequence, Fresh)
    requires mid == s.(server := mid.server, mirroredBatches := s.mirroredBatches + 1)
    requires s.mirrored.Some? && s.mirrored.value in s.sessions && m.sequence == Last(w, s) + 1
    requires s.mirroredBatches < |s.sessions[s.mirrored.value].batches|
    requires Messages(w.me, s.sent, s.acked, s.sessions, m.sequence, s.agent.requests)
    requires SessionsOk(s.sessions, m.sequence) && CurrentOk(s.agent, s.sessions, s.sent, m.sequence)
    requires Mirrors(mid.server.store.table, s.sessions, s.mirrored, mid.mirroredBatches, m.sequence)
    requires NamedTable(w.identity, mid.server.store.table)
    ensures SharedInv(w, mid) && CycleInv(w, mid) && AckFits(mid, m)
  {
    assert OwnRows(s.server.snapshots, s.sessions, m.sequence) by {
      forall v | v in s.server.snapshots
        && v in s.sessions ensures OwnRow(s.server.snapshots[v], s.sessions[v], m.sequence) {
        assert OwnRow(s.server.snapshots[v], s.sessions[v], Last(w, s));
      }
    }
  }

  // ---- Any delivery --------------------------------------------------------

  lemma BeginReplies(w: World, s: System, m: Message, now: int)
    requires Running(w, s) && m in s.sent && m.Begin?
    ensures
      var (after, outcome) := BeginTxn(s.server, m, now);
      && (!outcome.Accepted? ==> after == s.server)
      && (outcome.Acknowledged() && !outcome.Accepted? ==> m.sequence <= Last(w, s))
  {
    assert Recorded(s.sessions, m);
    if m.uid in s.server.snapshots {
      assert OwnRow(s.server.snapshots[m.uid], s.sessions[m.uid], Last(w, s));
    }
  }

  lemma AckedInv(w: World, s: System, m: Message, outcome: Outcome)
    requires Running(w, s) && m in s.sent
    requires !outcome.Accepted? && !outcome.Applied?
    requires outcome.Acknowledged() ==> m.sequence <= Last(w, s) && AckFits(s, m)
    ensures Running(w, Delivered(s, m, (s.server, outcome)))
  {
    if outcome.Acknowledged() {
      AckKeeps(w, s, m);
    }
  }

  lemma DeliverBegin(w: World, s: System, m: Message, now: int)
    requires Running(w, s) && Inv(s.server) && m in s.sent && m.Begin?
    ensures Running(w, Delivered(s, m, BeginTxn(s.server, m, now)))
  {
    var reply := BeginTxn(s.server, m, now);
    BeginReplies(w, s, m, now);
    if reply.1.Accepted? {
      BeginAccepted(w, s, m, now);
    } else {
      assert reply == (s.server, reply.1);
      AckedInv(w, s, m, reply.1);
    }
  }

  lemma DeliverPage(w: World, s: System, m: Message)
    requires Running(w, s) && Inv(s.server) && m in s.sent && m.Page?
    ensures Running(w, Delivered(s, m, PageTxn(s.server, m)))
  {
    var reply := PageTxn(s.server, m);
    PageReplies(w, s, m);
    if reply.1.Accepted? {
      PageAccepted(w, s, m);
    } else {
      assert reply == (s.server, reply.1);
      AckedInv(w, s, m, reply.1);
    }
  }

  lemma DeliverComplete(w: World, s: System, m: Message, now: int, visit: Visit)
    requires SystemInv(w, s) && Live(w, s) && m in s.sent && m.Complete? && ValidVisit(s.server, m, visit)
    ensures Running(w, Delivered(s, m, CompleteTxn(s.server, w.cfg, m, now, visit)))
  {
    CompleteReplies(w, s, m, now);
    match CompleteCheck(s.server, m, now, w.cfg.ttl)
    case None =>
      CompleteTable(w, s, m, now, visit);
      CompleteApplied(w, s, m, now, visit);
    case Some(outcome) => AckedInv(w, s, m, outcome);
  }

  lemma DeliverEvents(w: World, s: System, m: Message, now: int)
    requires Running(w, s) && m in s.sent && m.Events?
    ensures Running(w, Delivered(s, m, EventsTxn(s.server, w.cfg, m, now)))
  {
    EventsReplies(w, s, m);
    match EventsCheck(s.server, m)
    case None => EventsApplied(w, s, m, now);
    case Some(outcome) => AckedInv(w, s, m, outcome);
  }

  lemma DeliverLive(w: World, s: System, m: Message, now: int, visit: Visit)
    requires SystemInv(w, s) && Live(w, s) && m in s.sent && ValidVisit(s.server, m, visit)
    ensures Running(w, Delivered(s, m, Handle(s.server, w.cfg, m, now, visit)))
  {
    assert Recorded(s.sessions, m);
    match m
    case Begin(_, _, _, _) => DeliverBegin(w, s, m, now);
    case Page(_, _, _, _, _, _) => DeliverPage(w, s, m);
    case Complete(_, _, _, _, _, _) => DeliverComplete(w, s, m, now, visit);
    case Events(_, _, _, _) => DeliverEvents(w, s, m, now);
  }

  lemma DeliverCopyInv(w: World, s: System, m: Message, now: int, visit: Visit)
    requires SystemInv(w, s) && m in s.sent && ValidVisit(s.server, m, visit)
    ensures SystemInv(w, Delivered(s, m, Handle(s.server, w.cfg, m, now, visit)))
  {
    HandleInv(s.server, w.cfg, m, now, visit);
    HandleKeepsWriter(s.server, w.cfg, m, now, visit);
    DeliveredFrame(s, m, Handle(s.server, w.cfg, m, now, visit));
    if Live(w, s) { DeliverLive(w, s, m, now, visit); }
  }

  lemma DeliveredFrame(s: System, m: Message, reply: (State, Outcome))
    ensures
      var t := Delivered(s, m, reply);
      t.server == reply.0 && t.agent == s.agent && t.sessions == s.sessions && t.logs == s.logs && t.sent == s.sent
  {
  }

  lemma HandleKeepsWriter(s: State, cfg: Config, m: Message, now: int, visit: Visit)
    requires ValidVisit(s, m, visit)
    ensures
      var after := Handle(s, cfg, m, now, visit).0;
      && after.active == s.active && s.agents.Keys <= after.agents.Keys
      && (s.active != Some(m.agent) ==> after == s)
  {
  }

  // ---- Steps of the rest of the world --------------------------------------

  // Rows may be discarded, pruned or lose dead staging; nothing else about them changes.
  ghost predicate Weakens(before: Snapshots, after: Snapshots) {
    forall u :: u in after ==>
      && u in before
      && after[u].receivedPages == before[u].receivedPages
      && after[u].pages == before[u].pages
      && (after[u].status == before[u].status || after[u].status.Discarded?)
  }

  lemma WeakensRows(before: Snapshots, after: Snapshots, sessions: Sessions, last: nat, openings: seq<SnapshotUid>)
    requires Weakens(before, after) && OwnRows(before, sessions, last) && Openings(openings, before, sessions, last)
    ensures OwnRows(after, sessions, last) && Openings(openings, after, sessions, last)
  {
    forall u | u in after && u in sessions ensures OwnRow(after[u], sessions[u], last) {
      assert OwnRow(before[u], sessions[u], last);
    }
  }

  lemma WeakensCycle(before: Snapshots, after: Snapshots, a: Agent, acked: set<Message>, sessions: Sessions,
                     openings: seq<SnapshotUid>, mirrored: Option<SnapshotUid>, count: nat)
    requires Weakens(before, after) && CycleMirrored(a, acked, before, sessions, openings, mirrored, count)
    ensures CycleMirrored(a, acked, after, sessions, openings, mirrored, count)
  {
  }

  lemma WeakensKeeps(w: World, s: System, after: State)
    requires SystemInv(w, s) && Live(w, s) && Inv(after)
    requires after.active == s.server.active && after.store.table == s.server.store.table
    requires w.me in after.agents && after.agents[w.me].lastSequence == Last(w, s)
    requires after.agents[w.me].inventory == s.server.agents[w.me].inventory || !after.agents[w.me].inventory.Fresh?
    requires Weakens(s.server.snapshots, after.snapshots)
    ensures SystemInv(w, s.(server := after))
  {
    WeakensRows(s.server.snapshots, after.snapshots, s.sessions, Last(w, s), s.openings);
    WeakensCycle(s.server.snapshots, after.snapshots, s.agent, s.acked, s.sessions, s.openings, s.mirrored,
                 s.mirroredBatches);
  }

  lemma CommitDemandInv(w: World, s: System, agent: AgentId, discard: Option<SnapshotId>)
    requires SystemInv(w, s)
    ensures SystemInv(w, s.(server := Demand(s.server, agent, discard)))
  {
    hide Inv, SharedInv, CycleInv, LogsOk;
    DemandInv(s.server, agent, discard);
    if Live(w, s) { WeakensKeeps(w, s, Demand(s.server, agent, discard)); }
  }

  lemma HousekeepingWeakens(s: State, cfg: Config, e: Event)
    requires IsHousekeeping(e) && Enabled(s, e)
    ensures
      var after := Perform(s, cfg, e);
      && Weakens(s.snapshots, after.snapshots)
      && after.agents == s.agents && after.store == s.store && after.active == s.active
  {
    match e
    case ExpireSnapshots(now) =>
    case CapSnapshots(victims) =>
    case DrainBatch(victims) =>
    case PruneHistory(victims) =>
    case ForgetChanges(victims) =>
  }

  lemma HousekeepInv(w: World, s: System, e: Event)
    requires SystemInv(w, s) && IsHousekeeping(e) && Enabled(s.server, e)
    ensures SystemInv(w, s.(server := Perform(s.server, w.cfg, e)))
  {
    PerformInv(s.server, w.cfg, e);
    HousekeepingWeakens(s.server, w.cfg, e);
    if Live(w, s) { WeakensKeeps(w, s, Perform(s.server, w.cfg, e)); }
  }

  lemma ForeignInv(w: World, s: System, m: Message, now: int, visit: Visit)
    requires SystemInv(w, s) && (m.agent != w.me || m.Heartbeat?) && ValidVisit(s.server, m, visit)
    ensures
      var (after, outcome) := Handle(s.server, w.cfg, m, now, visit);
      SystemInv(w, s.(server := after, demands := s.demands + Demands(m, outcome)))
  {
    HandleInv(s.server, w.cfg, m, now, visit);
    HandleKeepsWriter(s.server, w.cfg, m, now, visit);
    var after := Handle(s.server, w.cfg, m, now, visit).0;
    if Live(w, s) { assert after == s.server; }
  }

  lemma SupersedeInv(w: World, s: System, agent: AgentId)
    requires SystemInv(w, s) && agent !in s.server.agents
    ensures SystemInv(w, s.(server := Enroll(s.server, agent)))
    ensures !Live(w, s.(server := Enroll(s.server, agent)))
  {
    PerformInv(s.server, w.cfg, EnrollAgent(agent));
  }

  /** Once another agent is the writer, every inventory message of ours is refused without effect. */
  lemma SupersededIsRefused(w: World, s: System, m: Message, now: int, visit: Visit)
    requires !Live(w, s) && m.agent == w.me && !m.Heartbeat? && ValidVisit(s.server, m, visit)
    ensures Handle(s.server, w.cfg, m, now, visit) == (s.server, Forbidden)
  {
  }
}
