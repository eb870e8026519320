/** The agent's own steps keep the inductive facts. */
module ReplicationAgentSteps {
  import opened Inventory
  import opened Projection
  import opened Server
  import opened Accounting
  import opened Replication
  import opened ReplicationInvariants

  // ---- Sessions only grow --------------------------------------------------

  ghost predicate Grows(t: Session, t': Session) {
    && t'.begin == t.begin
    && t.pages <= t'.pages
    && (t.closed ==> t'.closed && t'.pages == t.pages)
    && t.batches <= t'.batches
  }

  lemma GrowsInSession(m: Message, u: SnapshotUid, t: Session, t': Session)
    requires InSession(m, u, t) && Grows(t, t')
    ensures InSession(m, u, t')
  {
  }

  lemma GrowsRecorded(m: Message, sessions: Sessions, u: SnapshotUid, t': Session)
    requires Recorded(sessions, m)
    requires u in sessions ==> Grows(sessions[u], t')
    ensures Recorded(sessions[u := t'], m)
  {
    var v: SnapshotUid;
    if m.Events? {
      v :| v in sessions && InSession(m, v, sessions[v]);
    } else {
      v := m.uid;
    }
    if v == u {
      GrowsInSession(m, v, sessions[v], t');
    }
    assert v in sessions[u := t'] && InSession(m, v, sessions[u := t'][v]);
  }

  lemma SentRecorded(me: AgentId, sent: set<Message>, acked: set<Message>, sessions: Sessions, last: nat, requests: nat,
                     m: Message, u: SnapshotUid, t': Session)
    requires Messages(me, sent, acked, sessions, last, requests)
    requires u in sessions ==> Grows(sessions[u], t')
    requires m.agent == me && m.request == requests && InSession(m, u, t')
    ensures Messages(me, sent + {m}, acked, sessions[u := t'], last, requests + 1)
    ensures m !in acked
  {
    forall k | k in sent + {m} ensures Recorded(sessions[u := t'], k) {
      if k in sent {
        GrowsRecorded(k, sessions, u, t');
      } else {
        assert u in sessions[u := t'] && InSession(m, u, sessions[u := t'][u]);
      }
    }
  }

  lemma GrowsOwnRows(snapshots: Snapshots, sessions: Sessions, last: nat, u: SnapshotUid, t': Session)
    requires OwnRows(snapshots, sessions, last)
    requires if u in sessions then Grows(sessions[u], t') else u !in snapshots
    ensures OwnRows(snapshots, sessions[u := t'], last)
  {
    forall v | v in snapshots && v in sessions[u := t'] ensures OwnRow(snapshots[v], sessions[u := t'][v], last) {
      assert OwnRow(snapshots[v], sessions[v], last);
    }
  }

  lemma GrowsOpenings(openings: seq<SnapshotUid>, snapshots: Snapshots, sessions: Sessions, last: nat,
                      u: SnapshotUid, t': Session)
    requires Openings(openings, snapshots, sessions, last)
    requires if u in sessions then Grows(sessions[u], t') else u !in snapshots
    requires
      t'.batches != [] && openings != [] && Newest(openings) != Some(u) && openings[|openings| - 1] in sessions ==>
        Top(t') <= sessions[openings[|openings| - 1]].begin
    ensures Openings(openings, snapshots, sessions[u := t'], last)
  {
    if openings != [] {
      assert openings[|openings| - 1] in sessions;
    }
  }

  lemma GrowsMirrors(table: Table, sessions: Sessions, mirrored: Option<SnapshotUid>, count: nat, last: nat,
                     u: SnapshotUid, t': Session)
    requires Mirrors(table, sessions, mirrored, count, last)
    requires u in sessions ==> Grows(sessions[u], t')
    ensures Mirrors(table, sessions[u := t'], mirrored, count, last)
  {
    if mirrored.Some? && mirrored.value == u {
      assert t'.batches[..count] == sessions[u].batches[..count];
    }
  }

  lemma GrowsSessions(sessions: Sessions, last: nat, u: SnapshotUid, t': Session, identity: Uid -> Ident)
    requires SessionsOk(sessions, last) && NamedSessions(identity, sessions)
    requires SessionOk(t', last) && NamedSession(identity, t')
    ensures SessionsOk(sessions[u := t'], last) && NamedSessions(identity, sessions[u := t'])
  {
  }

  lemma GrowsFresh(row: AgentRow, sessions: Sessions, openings: seq<SnapshotUid>, mirrored: Option<SnapshotUid>,
                   count: nat, table: Table, last: nat, u: SnapshotUid, t': Session)
    requires FreshOk(row, sessions, openings, mirrored, count)
    requires Mirrors(table, sessions, mirrored, count, last)
    requires u in sessions ==> Grows(sessions[u], t')
    ensures FreshOk(row, sessions[u := t'], openings, mirrored, count)
  {
  }

  /** Everything about a send except the running cycle itself. */
  lemma SendKeeps(w: World, s: System, m: Message, agent: Agent, u: SnapshotUid, t': Session)
    requires SharedInv(w, s)
    requires agent.stored == s.agent.stored && agent.requests == s.agent.requests
    requires if u in s.sessions then Grows(s.sessions[u], t') else u !in s.server.snapshots
    requires m.agent == w.me && m.request == s.agent.requests && InSession(m, u, t')
    requires SessionOk(t', Last(w, s)) && NamedSession(w.identity, t')
    requires t'.batches != [] && Newest(s.openings).Some? && Newest(s.openings) != Some(u)
             && Newest(s.openings).value in s.sessions ==>
               Top(t') <= s.sessions[Newest(s.openings).value].begin
    ensures SharedInv(w, Send(s, m, agent, u, t'))
    ensures m !in s.acked
  {
    var last := Last(w, s);
    SentRecorded(w.me, s.sent, s.acked, s.sessions, last, s.agent.requests, m, u, t');
    GrowsOwnRows(s.server.snapshots, s.sessions, last, u, t');
    GrowsOpenings(s.openings, s.server.snapshots, s.sessions, last, u, t');
    GrowsMirrors(s.server.store.table, s.sessions, s.mirrored, s.mirroredBatches, last, u, t');
    GrowsSessions(s.sessions, last, u, t', w.identity);
    GrowsFresh(s.server.agents[w.me], s.sessions, s.openings, s.mirrored, s.mirroredBatches,
               s.server.store.table, last, u, t');
  }

  // ---- StartCycle ----------------------------------------------------------

  lemma NothingHeld(logs: Logs, identity: Uid -> Ident)
    ensures Collect(Concat<Resource>([]) + []) == map[] && Held(map[], logs, map[], identity)
  {
    assert Concat<Resource>([]) + [] == [];
    forall kind ensures Part(map[], kind) == Seen(logs, map[], kind) {
    }
  }

  lemma NewSessionNamed(identity: Uid -> Ident, t: Session)
    requires t.pages == [] && t.batches == []
    ensures NamedSession(identity, t)
  {
  }

  lemma StartCycleInv(w: World, s: System, uid: SnapshotUid)
    requires Running(w, s) && uid !in s.sessions && uid !in s.server.snapshots
    ensures Running(w, Started(w, s, uid))
  {
    hide SharedInv, CycleInv, Held, NamedSession;
    var a := s.agent;
    var t := Session(a.sequence + 1, [], false, []);
    var agent := a.(phase := Listing, uid := uid, versions := map[], pending := [], pages := 0, total := 0,
                    watchers := {}, queue := [], batch := []);
    var m := BeginMessage(w, a, uid);
    NewSessionNamed(w.identity, t);
    SendKeeps(w, s, m, agent, uid, t);
    NothingHeld(s.logs, w.identity);
    StartedCycle(w, s, m, agent, uid, t);
  }

  lemma StartedCycle(w: World, s: System, m: Message, agent: Agent, uid: SnapshotUid, t: Session)
    requires SharedInv(w, s) && uid !in s.sessions && uid !in s.server.snapshots
    requires t == Session(m.sequence, [], false, []) && m == Begin(w.me, t.begin, m.request, uid)
    requires agent.phase.Listing? && agent.uid == uid && agent.versions == map[] && agent.pending == []
    requires agent.pages == 0 && agent.total == 0 && agent.queue == [] && agent.batch == []
    requires Collect(Concat<Resource>([]) + []) == map[] && Held(map[], s.logs, map[], w.identity)
    ensures CycleInv(w, Send(s, m, agent, uid, t))
  {
    var after := Send(s, m, agent, uid, t);
    assert after.sessions[uid] == t && s.mirrored != Some(uid);
    assert Concat<Resource>([]) == [];
  }

  // ---- SendPage ------------------------------------------------------------

  lemma NamedAppend(identity: Uid -> Ident, xs: seq<Resource>, ys: seq<Resource>)
    ensures NamedResources(identity, xs + ys) <==> NamedResources(identity, xs) && NamedResources(identity, ys)
  {
    if NamedResources(identity, xs + ys) {
      forall i | 0 <= i < |xs| ensures Named(identity, xs[i].entity) { assert (xs + ys)[i] == xs[i]; }
      forall i | 0 <= i < |ys| ensures Named(identity, ys[i].entity) { assert (xs + ys)[|xs| + i] == ys[i]; }
    }
  }

  lemma SendPageInv(w: World, s: System, size: nat)
    requires Running(w, s) && s.agent.phase.Listing? && s.agent.waiting.None? && 0 < size <= |s.agent.pending|
    ensures Running(w, Paged(w, s, size))
  {
    var a := s.agent;
    var t := s.sessions[a.uid];
    var t' := t.(pages := t.pages + [a.pending[..size]]);
    var agent := a.(pending := a.pending[size..], pages := a.pages + 1, total := a.total + size);
    PagedHolds(a, t, size, s.logs, w.identity);
    assert NamedSession(w.identity, t');
    SendKeeps(w, s, PageMessage(w, a, size), agent, a.uid, t');
    PagedCycle(w, s, size);
  }

  lemma PagedHolds(a: Agent, t: Session, size: nat, logs: Logs, identity: Uid -> Ident)
    requires a.phase.Listing? && size <= |a.pending| && Held(Taken(a, t), logs, a.versions, identity)
    requires NamedResources(identity, a.pending) && NamedResources(identity, Concat(t.pages))
    ensures
      var page := a.pending[..size];
      var t' := t.(pages := t.pages + [page]);
      && Held(Taken(a.(pending := a.pending[size..]), t'), logs, a.versions, identity)
      && NamedResources(identity, a.pending[size..]) && NamedResources(identity, Concat(t'.pages))
      && |Concat(t'.pages)| == |Concat(t.pages)| + size
  {
    var page, rest := a.pending[..size], a.pending[size..];
    ConcatAppend(t.pages, page);
    assert a.pending == page + rest;
    NamedAppend(identity, page, rest);
    NamedAppend(identity, Concat(t.pages), page);
    assert (Concat(t.pages) + page) + rest == Concat(t.pages) + a.pending;
  }

  lemma PagedCycle(w: World, s: System, size: nat)
    requires SharedInv(w, s) && CycleInv(w, s) && s.agent.uid in s.sessions
    requires s.agent.phase.Listing? && s.agent.waiting.None? && 0 < size <= |s.agent.pending|
    requires |Concat(s.sessions[s.agent.uid].pages + [s.agent.pending[..size]])| == s.agent.total + size
    ensures
      var after := Paged(w, s, size);
      && CurrentOk(after.agent, after.sessions, after.sent, Last(w, s))
      && CycleMirrored(after.agent, after.acked, after.server.snapshots, after.sessions, after.openings,
                       after.mirrored, after.mirroredBatches)
  {
  }

  // ---- SendComplete --------------------------------------------------------

  lemma SendCompleteInv(w: World, s: System)
    requires Running(w, s) && s.agent.phase.Listing? && s.agent.waiting.None? && s.agent.pending == []
    ensures Running(w, Completed(w, s))
  {
    var t' := s.sessions[s.agent.uid].(closed := true);
    assert NamedSession(w.identity, t');
    SendKeeps(w, s, CompleteMessage(w, s.agent), s.agent, s.agent.uid, t');
    assert Completed(w, s).sessions[s.agent.uid] == t';
  }

  // ---- ReceiveAck ----------------------------------------------------------

  lemma ReceiveAckInv(w: World, s: System, persisted: bool)
    requires Running(w, s) && InCycle(s.agent) && s.agent.waiting.Some? && s.agent.waiting.value in s.acked
    ensures Running(w, Acknowledged(s, persisted))
  {
    var a := s.agent;
    AckedShared(w, s, Acknowledged(s, persisted).agent);
    AckedCycle(w, s, persisted);
    AckedHolds(w, s, persisted);
  }

  lemma AckedShared(w: World, s: System, agent: Agent)
    requires SharedInv(w, s) && agent.requests == s.agent.requests && agent.stored <= Last(w, s)
    ensures SharedInv(w, s.(agent := agent))
  {
  }

  lemma AckedCycle(w: World, s: System, persisted: bool)
    requires SharedInv(w, s) && CycleInv(w, s) && InCycle(s.agent) && s.agent.uid in s.sessions
    requires s.agent.waiting.Some? && s.agent.waiting.value in s.acked
    ensures
      var agent := Acknowledged(s, persisted).agent;
      && CurrentOk(agent, s.sessions, s.sent, Last(w, s))
      && CycleMirrored(agent, s.acked, s.server.snapshots, s.sessions, s.openings, s.mirrored, s.mirroredBatches)
  {
  }

  lemma AckedHolds(w: World, s: System, persisted: bool)
    requires SharedInv(w, s) && CycleInv(w, s) && InCycle(s.agent) && s.agent.uid in s.sessions
    requires s.agent.waiting.Some?
    ensures AgentHolds(Acknowledged(s, persisted).agent, s.sessions, s.logs, w.identity)
  {
    var a := s.agent;
    var t := s.sessions[a.uid];
    if a.phase.Listing? && a.waiting.value.Complete? {
      assert Concat(t.pages) + a.pending == Concat(t.pages);
      assert Concat(t.batches) == [] && a.batch + a.queue == [];
    } else {
      assert Taken(Acknowledged(s, persisted).agent, t) == Taken(a, t);
    }
  }

  // ---- Flush ---------------------------------------------------------------

  lemma FlushInv(w: World, s: System)
    requires Running(w, s) && s.agent.phase.Watching? && s.agent.waiting.None?
    ensures Running(w, Flushed(w, s))
  {
    hide Held, Fold, Collect, Mirrors;
    var a := s.agent;
    var t := s.sessions[a.uid];
    var t' := t.(batches := t.batches + [a.batch]);
    NamedSplit(w.identity, a.batch, a.queue);
    assert NamedSession(w.identity, t');
    assert NamedEvents(w.identity, [] + a.queue) by { assert [] + a.queue == a.queue; }
    SendKeeps(w, s, EventsMessage(w, a), a.(batch := []), a.uid, t');
    FlushedHolds(a, t, s.logs, w.identity);
    FlushedCycle(w, s);
  }

  lemma FlushedCycle(w: World, s: System)
    requires SharedInv(w, s) && CycleInv(w, s) && s.agent.phase.Watching? && s.agent.waiting.None?
        && s.agent.uid in s.sessions
    requires EventsMessage(w, s.agent) !in s.acked
    ensures
      var after := Flushed(w, s);
      && CurrentOk(after.agent, after.sessions, after.sent, Last(w, s))
      && CycleMirrored(after.agent, after.acked, after.server.snapshots, after.sessions, after.openings,
                       after.mirrored, after.mirroredBatches)
  {
  }

  lemma FlushedHolds(a: Agent, t: Session, logs: Logs, identity: Uid -> Ident)
    requires a.phase.Watching? && Held(Taken(a, t), logs, a.versions, identity)
    ensures Held(Taken(a.(batch := []), t.(batches := t.batches + [a.batch])), logs, a.versions, identity)
  {
    ConcatAppend(t.batches, a.batch);
    FoldAppend(Snapshotted(t), Concat(t.batches), a.batch);
    FoldAppend(Fold(Snapshotted(t), Concat(t.batches)), a.batch, a.queue);
    assert [] + a.queue == a.queue;
  }

  lemma NamedSplit(identity: Uid -> Ident, xs: seq<WatchEvent>, ys: seq<WatchEvent>)
    ensures NamedEvents(identity, xs + ys) <==> NamedEvents(identity, xs) && NamedEvents(identity, ys)
  {
    if NamedEvents(identity, xs + ys) {
      forall i | 0 <= i < |xs| ensures Named(identity, xs[i].resource.entity) { assert (xs + ys)[i] == xs[i]; }
      forall i | 0 <= i < |ys| ensures Named(identity, ys[i].resource.entity) { assert (xs + ys)[|xs| + i] == ys[i]; }
    }
  }

  // ---- Take, WatchStop, Fail, Crash, Restart -------------------------------

  lemma TakeInv(w: World, s: System)
    requires Running(w, s) && s.agent.phase.Watching? && s.agent.queue != []
    ensures Running(w, Batched(s))
  {
    var a := s.agent;
    AckedShared(w, s, Batched(s).agent);
    assert (a.batch + [a.queue[0]]) + a.queue[1..] == a.batch + a.queue;
  }

  lemma WatchStopInv(w: World, s: System, kind: Kind)
    requires Running(w, s)
    ensures Running(w, s.(agent := s.agent.(watchers := s.agent.watchers - {kind})))
  {
    AckedShared(w, s, s.agent.(watchers := s.agent.watchers - {kind}));
  }

  lemma StopInv(w: World, s: System, phase: Phase, sequence: nat)
    requires Running(w, s) && (phase.Idle? || phase.Down?)
    ensures Running(w, Stopped(s, phase, sequence))
  {
    AckedShared(w, s, Stopped(s, phase, sequence).agent);
  }

  // ---- Listing and watching the cluster ------------------------------------

  lemma {:induction false} CollectAppend(xs: seq<Resource>, ys: seq<Resource>)
    ensures Collect(xs + ys) == Collect(xs) + Collect(ys)
    decreases |ys|
  {
    if ys == [] {
      assert xs + ys == xs;
    } else {
      assert (xs + ys)[..|xs + ys| - 1] == xs + ys[..|ys| - 1];
      CollectAppend(xs, ys[..|ys| - 1]);
    }
  }

  ghost predicate LogOk(identity: Uid -> Ident, log: seq<ClusterChange>, kind: Kind) {
    forall i :: 0 <= i < |log| ==> Named(identity, log[i].entity) && log[i].entity.ident.kind == kind
  }

  lemma {:induction false} CollectionOfKind(identity: Uid -> Ident, log: seq<ClusterChange>, kind: Kind)
    requires LogOk(identity, log, kind)
    ensures NamedMap(identity, Collection(log))
    ensures forall u :: u in Collection(log) ==> Collection(log)[u].ident.kind == kind
    decreases |log|
  {
    if log != [] {
      CollectionOfKind(identity, log[..|log| - 1], kind);
    }
  }

  lemma LogOkOf(identity: Uid -> Ident, logs: Logs, kind: Kind, n: nat)
    requires LogsOk(identity, logs) && n <= |LogOf(logs, kind)|
    ensures LogOk(identity, LogOf(logs, kind)[..n], kind)
  {
  }

  lemma NamedFromCollect(identity: Uid -> Ident, items: seq<Resource>)
    requires Distinct(items) && NamedMap(identity, Collect(items))
    ensures NamedResources(identity, items)
  {
    CollectDistinct(items);
    forall i | 0 <= i < |items| ensures Named(identity, items[i].entity) {
      assert items[i] in items;
    }
  }

  lemma ListHeld(m: EntityMap, logs: Logs, versions: map<Kind, nat>, identity: Uid -> Ident, kind: Kind, version: nat)
    requires Held(m, logs, versions, identity) && LogsOk(identity, logs)
    requires kind !in versions && version <= |LogOf(logs, kind)|
    ensures Held(m + Collection(LogOf(logs, kind)[..version]), logs, versions[kind := version], identity)
  {
    var listed := Collection(LogOf(logs, kind)[..version]);
    LogOkOf(identity, logs, kind, version);
    CollectionOfKind(identity, LogOf(logs, kind)[..version], kind);
    assert Part(m, kind) == map[];
    assert forall u :: u in m ==> u !in Part(m, kind);
    forall k ensures Part(m + listed, k) == Seen(logs, versions[kind := version], k) {
      if k == kind {
        assert Part(m + listed, k) == listed;
      } else {
        OtherPart(m, listed, identity, kind, k);
        assert Part(m, k) == Seen(logs, versions, k);
      }
    }
  }

  lemma OtherPart(m: EntityMap, listed: EntityMap, identity: Uid -> Ident, kind: Kind, other: Kind)
    requires NamedMap(identity, m) && NamedMap(identity, listed) && other != kind
    requires forall u :: u in listed ==> listed[u].ident.kind == kind
    ensures Part(m + listed, other) == Part(m, other)
  {
    forall u | u in listed ensures u !in m || m[u].ident.kind == kind {
      assert Named(identity, listed[u]);
    }
  }

  lemma ListCollectionInv(w: World, s: System, kind: Kind, version: nat, items: seq<Resource>)
    requires Running(w, s) && s.agent.phase.Listing? && s.agent.waiting.None? && kind !in s.agent.versions
    requires version <= |LogOf(s.logs, kind)| && IsListOf(items, Collection(LogOf(s.logs, kind)[..version]))
    ensures Running(w, Listed(s, kind, version, items))
  {
    var a := s.agent;
    ListedHolds(a, s.sessions[a.uid], s.logs, w.identity, kind, version, items);
    AckedShared(w, s, Listed(s, kind, version, items).agent);
  }

  lemma ListedHolds(a: Agent, t: Session, logs: Logs, identity: Uid -> Ident, kind: Kind, version: nat,
                    items: seq<Resource>)
    requires a.phase.Listing? && Held(Taken(a, t), logs, a.versions, identity) && LogsOk(identity, logs)
    requires NamedResources(identity, a.pending) && kind !in a.versions
    requires version <= |LogOf(logs, kind)| && IsListOf(items, Collection(LogOf(logs, kind)[..version]))
    ensures
      var b := a.(versions := a.versions[kind := version], pending := a.pending + items);
      Held(Taken(b, t), logs, b.versions, identity) && NamedResources(identity, b.pending)
  {
    LogOkOf(identity, logs, kind, version);
    CollectionOfKind(identity, LogOf(logs, kind)[..version], kind);
    NamedFromCollect(identity, items);
    NamedAppend(identity, a.pending, items);
    ListHeld(Taken(a, t), logs, a.versions, identity, kind, version);
    CollectAppend(Concat(t.pages) + a.pending, items);
    assert Concat(t.pages) + (a.pending + items) == (Concat(t.pages) + a.pending) + items;
  }

  // A change of one collection is a change of that part of the map and of no other.
  lemma StepPart(m: EntityMap, identity: Uid -> Ident, c: ClusterChange, at: int, kind: Kind)
    requires NamedMap(identity, m) && Named(identity, c.entity)
    ensures NamedMap(identity, Step(m, Stamp(c, at)))
    ensures Part(Step(m, Stamp(c, at)), kind)
         == if c.entity.ident.kind == kind then Step(Part(m, kind), Stamp(c, 0)) else Part(m, kind)
  {
    var u := c.entity.uid;
    assert u in m ==> Named(identity, m[u]);
  }

  lemma PushSeen(logs: Logs, versions: map<Kind, nat>, kind: Kind, k: Kind)
    requires kind in versions && versions[kind] < |LogOf(logs, kind)|
    ensures
      var c := LogOf(logs, kind)[versions[kind]];
      Seen(logs, versions[kind := versions[kind] + 1], k)
      == if k == kind then Step(Seen(logs, versions, kind), Stamp(c, 0)) else Seen(logs, versions, k)
  {
    var log, n := LogOf(logs, kind), versions[kind];
    assert log[..n + 1][..n] == log[..n];
  }

  lemma PushHeld(m: EntityMap, logs: Logs, versions: map<Kind, nat>, identity: Uid -> Ident, kind: Kind, at: int)
    requires Held(m, logs, versions, identity) && LogsOk(identity, logs)
    requires kind in versions && versions[kind] < |LogOf(logs, kind)|
    ensures Held(Step(m, Stamp(LogOf(logs, kind)[versions[kind]], at)), logs,
                 versions[kind := versions[kind] + 1], identity)
  {
    var c := LogOf(logs, kind)[versions[kind]];
    assert Named(identity, c.entity) && c.entity.ident.kind == kind;
    forall k ensures Part(Step(m, Stamp(c, at)), k) == Seen(logs, versions[kind := versions[kind] + 1], k) {
      StepPart(m, identity, c, at, k);
      PushSeen(logs, versions, kind, k);
    }
    StepPart(m, identity, c, at, kind);
  }

  // The queue, the positions and the watchers matter only to what the agent holds.
  lemma PushedCycle(w: World, s: System, queue: seq<WatchEvent>, versions: map<Kind, nat>)
    requires SharedInv(w, s) && CycleInv(w, s) && s.agent.phase.Watching? && s.agent.uid in s.sessions
    ensures
      var agent := s.agent.(queue := queue, versions := versions);
      && CurrentOk(agent, s.sessions, s.sent, Last(w, s))
      && CycleMirrored(agent, s.acked, s.server.snapshots, s.sessions, s.openings, s.mirrored, s.mirroredBatches)
  {
  }

  lemma PushedNamed(identity: Uid -> Ident, batch: seq<WatchEvent>, queue: seq<WatchEvent>, e: WatchEvent)
    requires NamedEvents(identity, batch + queue) && Named(identity, e.resource.entity)
    ensures NamedEvents(identity, batch + (queue + [e]))
  {
    NamedSplit(identity, batch + queue, [e]);
    Associative(batch, queue, [e]);
  }

  lemma PushedHolds(a: Agent, t: Session, logs: Logs, identity: Uid -> Ident, kind: Kind, at: int, b: Agent)
    requires a.phase.Watching? && Held(Taken(a, t), logs, a.versions, identity) && LogsOk(identity, logs)
    requires NamedEvents(identity, a.batch + a.queue)
    requires kind in a.versions && a.versions[kind] < |LogOf(logs, kind)|
    requires b == a.(queue := a.queue + [Stamp(LogOf(logs, kind)[a.versions[kind]], at)],
                     versions := a.versions[kind := a.versions[kind] + 1])
    ensures Held(Taken(b, t), logs, b.versions, identity) && NamedEvents(identity, b.batch + b.queue)
  {
    hide Held, NamedEvents, Fold, Snapshotted, Collect, Step;
    var c := LogOf(logs, kind)[a.versions[kind]];
    var e := Stamp(c, at);
    PushHeld(Taken(a, t), logs, a.versions, identity, kind, at);
    PushedTaken(a, t, e);
    assert Named(identity, c.entity);
    PushedNamed(identity, a.batch, a.queue, e);
    assert Taken(b, t) == Taken(a.(queue := a.queue + [e]), t);
  }

  lemma PushedHeldBy(a: Agent, sessions: Sessions, logs: Logs, identity: Uid -> Ident, kind: Kind, at: int, b: Agent)
    requires AgentHolds(a, sessions, logs, identity) && a.phase.Watching? && a.uid in sessions && LogsOk(identity, logs)
    requires kind in a.versions && a.versions[kind] < |LogOf(logs, kind)|
    requires b == a.(queue := a.queue + [Stamp(LogOf(logs, kind)[a.versions[kind]], at)],
                     versions := a.versions[kind := a.versions[kind] + 1])
    ensures AgentHolds(b, sessions, logs, identity)
  {
    PushedHolds(a, sessions[a.uid], logs, identity, kind, at, b);
  }

  lemma WatchPushInv(w: World, s: System, kind: Kind, at: int)
    requires Running(w, s) && s.agent.phase.Watching? && kind in s.agent.versions
    requires s.agent.versions[kind] < |LogOf(s.logs, kind)|
    ensures Running(w, Pushed(s, kind, at))
  {
    var agent := Pushed(s, kind, at).agent;
    PushedHeldBy(s.agent, s.sessions, s.logs, w.identity, kind, at, agent);
    PushedCycle(w, s, agent.queue, agent.versions);
    AckedShared(w, s, agent);
  }

  lemma PushedTaken(a: Agent, t: Session, e: WatchEvent)
    requires a.phase.Watching?
    ensures Taken(a.(queue := a.queue + [e]), t) == Step(Taken(a, t), e)
  {
    var waiting := a.batch + a.queue;
    Associative(a.batch, a.queue, [e]);
    assert (waiting + [e])[..|waiting|] == waiting;
  }

  lemma ChangeHeld(m: EntityMap, logs: Logs, logs': Logs, versions: map<Kind, nat>, identity: Uid -> Ident)
    requires Held(m, logs, versions, identity)
    requires forall kind :: LogOf(logs, kind) <= LogOf(logs', kind)
    ensures Held(m, logs', versions, identity)
  {
    forall kind ensures Seen(logs', versions, kind) == Seen(logs, versions, kind) {
      if kind in versions {
        assert LogOf(logs', kind)[..versions[kind]] == LogOf(logs, kind)[..versions[kind]];
      }
    }
  }

  lemma ChangeClusterInv(w: World, s: System, kind: Kind, change: ClusterChange)
    requires Running(w, s) && change.entity.ident.kind == kind && Named(w.identity, change.entity)
    ensures Running(w, s.(logs := s.logs[kind := LogOf(s.logs, kind) + [change]]))
  {
    var after := s.(logs := s.logs[kind := LogOf(s.logs, kind) + [change]]);
    assert SharedInv(w, after);
    assert CycleInv(w, after) by {
      if InCycle(s.agent) {
        ChangeHeld(Taken(s.agent, s.sessions[s.agent.uid]), s.logs, after.logs, s.agent.versions, w.identity);
      }
    }
  }
}
