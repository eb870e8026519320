/** What holds over whole runs of the server, for arbitrary messages from arbitrary agents. */
module ServerTheorems {
  import opened Inventory
  import opened Projection
  import opened Server
  import opened Accounting
  import opened ServerInvariants

  // ---- Snapshot atomicity --------------------------------------------------

  lemma CommitView(s: State, cfg: Config, m: Message, now: int, visit: Visit)
    requires m.Complete? && ValidVisit(s, m, visit) && CompleteCheck(s, m, now, cfg.ttl).None?
    requires RowOk(s.snapshots[m.uid])
    ensures forall p :: 1 <= p <= m.totalPages ==> p in s.snapshots[m.uid].pages
    ensures
      var content := InOrder(s.snapshots[m.uid].pages, m.totalPages);
      && Distinct(content) && |content| == m.totalResources
      && View(Commit(s, cfg, m, now, visit).store.table) == Collect(content)
  {
    var row := s.snapshots[m.uid];
    ContinuousIsExact(row, m.totalPages, m.totalResources);
    SnapshotReplacesMap(s.store, cfg.derive, now, row.id, row.staging, visit.staged, visit.absent);
  }

  lemma AppliedPassedTheCheck(s: State, cfg: Config, m: Message, now: int, visit: Visit)
    requires m.Complete? && ValidVisit(s, m, visit) && Handle(s, cfg, m, now, visit).1.Applied?
    ensures CompleteCheck(s, m, now, cfg.ttl).None? && Handle(s, cfg, m, now, visit).0 == Commit(s, cfg, m, now, visit)
    ensures s.snapshots[m.uid].pages.Keys == Interval(1, m.totalPages + 1)
    ensures s.appliedGeneration < s.snapshots[m.uid].generation == Commit(s, cfg, m, now, visit).appliedGeneration
  {
  }

  lemma OpenRow(s: State, uid: SnapshotUid)
    requires Inv(s) && uid in s.snapshots && s.snapshots[uid].status.Pending?
    ensures RowOk(s.snapshots[uid]) && s.snapshots[uid].generation == s.currentGeneration
  {
  }

  /** An applied complete: the pages are exactly 1..n, no uid repeats in them, the active
      projection becomes their union, and a strictly newer generation takes over. */
  lemma AppliedIsExact(s: State, cfg: Config, m: Message, now: int, visit: Visit)
    requires Inv(s) && m.Complete? && ValidVisit(s, m, visit)
    requires Handle(s, cfg, m, now, visit).1.Applied?
    ensures m.uid in s.snapshots && s.snapshots[m.uid].pages.Keys == Interval(1, m.totalPages + 1)
    ensures forall p :: 1 <= p <= m.totalPages ==> p in s.snapshots[m.uid].pages
    ensures
      var content := InOrder(s.snapshots[m.uid].pages, m.totalPages);
      var after := Handle(s, cfg, m, now, visit).0;
      && Distinct(content)
      && |content| == m.totalResources
      && View(after.store.table) == Collect(content)
      && s.appliedGeneration < after.appliedGeneration == after.currentGeneration == s.currentGeneration
  {
    AppliedPassedTheCheck(s, cfg, m, now, visit);
    OpenRow(s, m.uid);
    CommitView(s, cfg, m, now, visit);
  }

  /** Only an applied complete or an applied event batch moves the projection or the log:
      refused messages, begins, pages, heartbeats, demands, enrollment and maintenance do not. */
  lemma OnlyAppliedMoves(s: State, cfg: Config, e: Event)
    requires Enabled(s, e) && Perform(s, cfg, e).store != s.store
    ensures e.Deliver? && (e.message.Complete? || e.message.Events?) && ReplyTo(s, cfg, e).Applied?
  {
  }

  lemma AtMostOneOpen(s: State)
    requires Inv(s)
    ensures |PendingRows(s)| <= 1
    ensures forall u, v :: u in PendingRows(s) && v in PendingRows(s) ==> u == v
  {
    var open := PendingRows(s);
    if u :| u in open {
      assert open == {u};
    }
  }

  /** The two refusals that the generation discipline makes unreachable: a pending row is always
      newer than the applied one, and a cap of at least one never discards anything. */
  lemma GenerationRefusalsUnreachable(s: State, m: Message, now: int, ttl: nat, cap: nat)
    requires Inv(s) && m.Complete? && cap >= 1
    ensures m.uid in s.snapshots && s.snapshots[m.uid].status.Pending? ==>
        s.appliedGeneration < s.snapshots[m.uid].generation
    ensures CompleteCheck(s, m, now, ttl).Some? && CompleteCheck(s, m, now, ttl).value.Torn? ==>
              Expired(s.snapshots[m.uid], now, ttl) || !Continuous(s.snapshots[m.uid], m.totalPages, m.totalResources)
    ensures |PendingRows(s)| <= cap
  {
    AtMostOneOpen(s);
  }

  // ---- Monotonicity --------------------------------------------------------

  ghost predicate Later(s: State, t: State) {
    && s.currentGeneration <= t.currentGeneration
    && s.appliedGeneration <= t.appliedGeneration
    && s.nextId <= t.nextId
    && s.agents.Keys <= t.agents.Keys
    && (forall a :: a in s.agents ==> s.agents[a].lastSequence <= t.agents[a].lastSequence)
    && s.store.log <= t.store.log
    && s.store.table.Keys <= t.store.table.Keys
  }

  lemma CommitMonotone(s: State, cfg: Config, m: Message, now: int, visit: Visit)
    requires Inv(s) && m.Complete? && ValidVisit(s, m, visit) && CompleteCheck(s, m, now, cfg.ttl).None?
    ensures Later(s, Commit(s, cfg, m, now, visit))
  {
    var row := s.snapshots[m.uid];
    assert RowOk(row);
    SnapshotReplacesMap(s.store, cfg.derive, now, row.id, row.staging, visit.staged, visit.absent);
    SnapshotLogGrows(s.store, cfg.derive, now, row.id, row.staging, visit.staged, visit.absent);
  }

  lemma OpenMonotone(s: State, m: Message, now: int)
    requires m.Begin? || m.Page?
    ensures Later(s, if m.Begin? then BeginTxn(s, m, now).0 else PageTxn(s, m).0)
  {
  }

  lemma PerformMonotone(s: State, cfg: Config, e: Event)
    requires Inv(s) && Enabled(s, e)
    ensures Later(s, Perform(s, cfg, e))
  {
    hide Commit, Stage;
    match e
    case Deliver(m, now, visit) =>
      match m {
        case Begin(_, _, _, _) => OpenMonotone(s, m, now);
        case Page(_, _, _, _, _, _) => OpenMonotone(s, m, now);
        case Complete(_, _, _, _, _, _) =>
          if CompleteCheck(s, m, now, cfg.ttl).None? { CommitMonotone(s, cfg, m, now, visit); }
        case Events(_, _, _, _) => EventsKeyed(s.store, cfg.derive, now, m.events);
        case Heartbeat(_, _, _) =>
      }
    case _ =>
  }

  lemma MonotoneAt(states: seq<State>, events: seq<Event>, cfg: Config, i: nat)
    requires IsRunOf(states, events, cfg) && Inv(states[0]) && i < |events|
    ensures Later(states[i], states[i + 1])
  {
    RunInv(states, events, cfg, i);
    assert Enabled(states[i], events[i]);
    PerformMonotone(states[i], cfg, events[i]);
  }

  lemma LaterTransitive(s: State, t: State, u: State)
    requires Later(s, t) && Later(t, u)
    ensures Later(s, u)
  {
  }

  /** Sequences, generations, the log and the set of known uids only ever grow. */
  lemma {:induction false} RunMonotone(states: seq<State>, events: seq<Event>, cfg: Config, i: nat, j: nat)
    requires IsRunOf(states, events, cfg) && Inv(states[0]) && i <= j < |states|
    ensures Later(states[i], states[j])
    decreases j
  {
    if i < j {
      RunMonotone(states, events, cfg, i, j - 1);
      MonotoneAt(states, events, cfg, j - 1);
      LaterTransitive(states[i], states[j - 1], states[j]);
    }
  }

  /** In every reachable state the full log, restricted to any uid, begins with added and has no other; a restored
      comes right after a missing and nothing else does; and its last letter says whether the row is active. */
  lemma LogExplainsTable(states: seq<State>, events: seq<Event>, cfg: Config, i: nat, uid: Uid)
    requires IsRunOf(states, events, cfg) && Inv(states[0]) && i < |states|
    ensures
      var store := states[i].store;
      var word := Only(store.log, uid);
      && Alternates(word)
      && (uid in store.table <==> word != [])
      && (word != [] ==> (store.table[uid].lifecycle.Gone? <==> word[|word| - 1] == Missing))
  {
    RunInv(states, events, cfg, i);
    ExplainedLogIsRuns(states[i].store.log, uid);
    RunAlternates(Only(states[i].store.log, uid));
  }

  // ---- Replay --------------------------------------------------------------

  ghost predicate Spent(s: State, m: Message) {
    m.agent in s.agents && m.sequence <= s.agents[m.agent].lastSequence
  }

  /** The refusals and acknowledgements a replay may meet; none of them makes the handler discard a snapshot. */
  predicate Harmless(outcome: Outcome) {
    outcome.Duplicate? || outcome.Stale? || outcome.Forbidden? || outcome.StaleSnapshot? || outcome.NotFresh?
  }

  // What an accepted message leaves behind, for as long as its snapshot row lives.
  ghost predicate Remembered(s: State, m: Message) {
    && Spent(s, m)
    && (m.Page? && m.uid in s.snapshots ==>
          m.number in s.snapshots[m.uid].pages && s.snapshots[m.uid].pages[m.number] == m.resources)
    && (m.Complete? && m.uid in s.snapshots ==> !s.snapshots[m.uid].status.Pending?)
  }

  lemma RememberedIsHarmless(s: State, cfg: Config, m: Message, now: int, visit: Visit)
    requires Remembered(s, m) && !m.Heartbeat? && ValidVisit(s, m, visit)
    ensures Handle(s, cfg, m, now, visit).0 == s
    ensures Harmless(Handle(s, cfg, m, now, visit).1)
  {
  }

  /** Each snapshot uid is announced by one begin message (which may be delivered many times). */
  ghost predicate OneBeginEach(events: seq<Event>, beginOf: SnapshotUid -> Message) {
    forall i :: 0 <= i < |events| && events[i].Deliver? && events[i].message.Begin? ==>
      events[i].message == beginOf(events[i].message.uid)
  }

  ghost predicate Announced(s: State, beginOf: SnapshotUid -> Message) {
    forall u :: u in s.snapshots ==> Spent(s, beginOf(u))
  }

  lemma SpentStays(s: State, after: State, m: Message)
    requires Spent(s, m) && Later(s, after)
    ensures Spent(after, m)
  {
  }

  lemma OpenedIsSpent(s: State, cfg: Config, e: Event)
    requires Enabled(s, e) && e.Deliver? && e.message.Begin? && BeginTxn(s, e.message, e.now).1.Accepted?
    ensures Spent(Perform(s, cfg, e), e.message)
  {
  }

  lemma PerformAnnounced(s: State, cfg: Config, e: Event, beginOf: SnapshotUid -> Message)
    requires Inv(s) && Enabled(s, e) && Announced(s, beginOf)
    requires e.Deliver? && e.message.Begin? ==> e.message == beginOf(e.message.uid)
    ensures Announced(Perform(s, cfg, e), beginOf)
  {
    hide Perform, Enabled, Inv, Spent;
    PerformMonotone(s, cfg, e);
    PerformKeepsRows(s, cfg, e);
    var after := Perform(s, cfg, e);
    forall u | u in after.snapshots ensures Spent(after, beginOf(u)) {
      if u in s.snapshots {
        SpentStays(s, after, beginOf(u));
      } else {
        OpenedIsSpent(s, cfg, e);
      }
    }
  }

  lemma {:induction false} RunAnnounced(states: seq<State>, events: seq<Event>, cfg: Config, i: nat,
                                        beginOf: SnapshotUid -> Message)
    requires IsRunOf(states, events, cfg) && Inv(states[0]) && i < |states|
    requires OneBeginEach(events, beginOf) && Announced(states[0], beginOf)
    ensures Announced(states[i], beginOf)
  {
    if i > 0 {
      RunAnnounced(states, events, cfg, i - 1, beginOf);
      RunInv(states, events, cfg, i - 1);
      assert Enabled(states[i - 1], events[i - 1]) && states[i - 1 + 1] == Perform(states[i - 1], cfg, events[i - 1]);
      PerformAnnounced(states[i - 1], cfg, events[i - 1], beginOf);
    }
  }

  lemma OpenedIsRemembered(s: State, m: Message, now: int)
    requires Inv(s)
    ensures m.Begin? && BeginTxn(s, m, now).1.Accepted? ==> Remembered(BeginTxn(s, m, now).0, m)
    ensures m.Page? && PageTxn(s, m).1.Accepted? ==> Remembered(PageTxn(s, m).0, m)
  {
  }

  lemma AppliedIsRemembered(s: State, cfg: Config, m: Message, now: int, visit: Visit)
    requires Inv(s) && ValidVisit(s, m, visit)
    ensures m.Complete? && CompleteTxn(s, cfg, m, now, visit).1.Applied? ==>
        Remembered(CompleteTxn(s, cfg, m, now, visit).0, m)
    ensures m.Events? && EventsTxn(s, cfg, m, now).1.Applied? ==> Remembered(EventsTxn(s, cfg, m, now).0, m)
  {
  }

  lemma AcceptedIsRemembered(s: State, cfg: Config, e: Event)
    requires Inv(s) && Enabled(s, e) && e.Deliver? && !e.message.Heartbeat?
    requires ReplyTo(s, cfg, e).Accepted? || ReplyTo(s, cfg, e).Applied?
    ensures Remembered(Perform(s, cfg, e), e.message)
  {
    OpenedIsRemembered(s, e.message, e.now);
    AppliedIsRemembered(s, cfg, e.message, e.now, e.visit);
  }

  // A row that survives a step keeps its stored pages and, once closed, stays closed.
  ghost predicate RowKept(before: Snapshot, after: Snapshot) {
    && (forall n :: n in before.pages ==> n in after.pages && after.pages[n] == before.pages[n])
    && (!before.status.Pending? ==> !after.status.Pending?)
  }

  ghost predicate RowsKept(before: Snapshots, after: Snapshots) {
    forall u :: u in before && u in after ==> RowKept(before[u], after[u])
  }

  lemma HandleKeepsRows(s: State, cfg: Config, m: Message, now: int, visit: Visit)
    requires ValidVisit(s, m, visit)
    ensures RowsKept(s.snapshots, Handle(s, cfg, m, now, visit).0.snapshots)
    ensures forall u :: u in Handle(s, cfg, m, now, visit).0.snapshots && u !in s.snapshots ==>
              m.Begin? && m.uid == u && BeginTxn(s, m, now).1.Accepted?
  {
  }

  lemma PerformKeepsRows(s: State, cfg: Config, e: Event)
    requires Enabled(s, e)
    ensures RowsKept(s.snapshots, Perform(s, cfg, e).snapshots)
    ensures forall u :: u in Perform(s, cfg, e).snapshots && u !in s.snapshots ==>
              e.Deliver? && e.message.Begin? && e.message.uid == u && BeginTxn(s, e.message, e.now).1.Accepted?
  {
    match e
    case Deliver(m, now, visit) => HandleKeepsRows(s, cfg, m, now, visit);
    case DemandReconcile(_, _) =>
    case EnrollAgent(_) =>
    case ExpireSnapshots(_) =>
    case CapSnapshots(_) =>
    case DrainBatch(_) =>
    case PruneHistory(_) =>
    case ForgetChanges(_) =>
  }

  lemma RememberedByRows(s: State, after: State, m: Message)
    requires Remembered(s, m) && Later(s, after) && RowsKept(s.snapshots, after.snapshots)
    requires (m.Page? || m.Complete?) && m.uid in after.snapshots ==> m.uid in s.snapshots
    ensures Remembered(after, m)
  {
  }

  lemma RememberedStays(s: State, cfg: Config, e: Event, m: Message, beginOf: SnapshotUid -> Message)
    requires Inv(s) && Enabled(s, e) && Remembered(s, m)
    requires e.Deliver? && e.message.Begin? ==> e.message == beginOf(e.message.uid)
    requires m.Page? || m.Complete? ==> Spent(s, beginOf(m.uid))
    ensures Remembered(Perform(s, cfg, e), m)
  {
    PerformMonotone(s, cfg, e);
    PerformKeepsRows(s, cfg, e);
    if e.Deliver? && e.message.Begin? && (m.Page? || m.Complete?) && e.message.uid == m.uid {
      assert !BeginTxn(s, e.message, e.now).1.Accepted?;
    }
    RememberedByRows(s, Perform(s, cfg, e), m);
  }

  ghost predicate TakesEffect(s: State, cfg: Config, e: Event) {
    && Enabled(s, e) && e.Deliver? && !e.message.Heartbeat?
    && (ReplyTo(s, cfg, e).Accepted? || ReplyTo(s, cfg, e).Applied?)
  }

  lemma RememberedAt(states: seq<State>, events: seq<Event>, cfg: Config, i: nat, m: Message,
                     beginOf: SnapshotUid -> Message)
    requires IsRunOf(states, events, cfg) && Inv(states[0]) && i < |events|
    requires OneBeginEach(events, beginOf)
    requires (TakesEffect(states[i], cfg, events[i]) && m == events[i].message)
          || (Remembered(states[i], m) && (m.Page? || m.Complete? ==> Spent(states[i], beginOf(m.uid))))
    ensures Remembered(states[i + 1], m)
  {
    RunInv(states, events, cfg, i);
    assert Enabled(states[i], events[i]);
    if TakesEffect(states[i], cfg, events[i]) && m == events[i].message {
      AcceptedIsRemembered(states[i], cfg, events[i]);
    } else {
      RememberedStays(states[i], cfg, events[i], m, beginOf);
    }
  }

  // A page or a complete that took effect found its snapshot row, so the begin was accepted before it.
  lemma AnnouncedWhenTakingEffect(s: State, cfg: Config, e: Event, beginOf: SnapshotUid -> Message)
    requires Announced(s, beginOf) && TakesEffect(s, cfg, e) && (e.message.Page? || e.message.Complete?)
    ensures Spent(s, beginOf(e.message.uid))
  {
  }

  lemma {:induction false} StillRemembered(states: seq<State>, events: seq<Event>, cfg: Config, i: nat, j: nat,
                                           beginOf: SnapshotUid -> Message)
    requires IsRunOf(states, events, cfg) && Inv(states[0]) && i < j < |states|
    requires OneBeginEach(events, beginOf) && Announced(states[0], beginOf)
    requires TakesEffect(states[i], cfg, events[i])
    ensures Remembered(states[j], events[i].message)
    decreases j
  {
    hide Handle, Perform, Inv, Remembered, Announced, ReplyTo, Enabled;
    var m := events[i].message;
    if j > i + 1 {
      StillRemembered(states, events, cfg, i, j - 1, beginOf);
      if m.Page? || m.Complete? {
        RunAnnounced(states, events, cfg, i, beginOf);
        AnnouncedWhenTakingEffect(states[i], cfg, events[i], beginOf);
        RunMonotone(states, events, cfg, i, j - 1);
      }
    }
    RememberedAt(states, events, cfg, j - 1, m, beginOf);
  }

  /** A demand that names no snapshot only marks the agent. */
  lemma BareDemandMarks(s: State, agent: AgentId)
    ensures Demand(s, agent, None) == s.(agents := SetInventory(s.agents, agent, ReconcileRequired))
  {
    assert DiscardRow(s.snapshots, None) == s.snapshots;
  }

  /** The transaction of an accepted message that is delivered again, in any later state, changes nothing,
      and if its answer calls for a demand then for one that only marks the sender; in particular no
      snapshot is opened twice, even once maintenance has pruned its row. */
  lemma ReplayIsHarmless(states: seq<State>, events: seq<Event>, cfg: Config, i: nat, j: nat,
                         beginOf: SnapshotUid -> Message, now: int, visit: Visit)
    requires IsRunOf(states, events, cfg) && Inv(states[0]) && i < j < |states|
    requires OneBeginEach(events, beginOf) && Announced(states[0], beginOf)
    requires TakesEffect(states[i], cfg, events[i])
    requires ValidVisit(states[j], events[i].message, visit)
    ensures Handle(states[j], cfg, events[i].message, now, visit).0 == states[j]
    ensures Harmless(Handle(states[j], cfg, events[i].message, now, visit).1)
    ensures
      var agent := events[i].message.agent;
      Demand(states[j], agent, None) == states[j].(agents := SetInventory(states[j].agents, agent, ReconcileRequired))
  {
    BareDemandMarks(states[j], events[i].message.agent);
    StillRemembered(states, events, cfg, i, j, beginOf);
    RememberedIsHarmless(states[j], cfg, events[i].message, now, visit);
  }

  // ---- Writer handover -----------------------------------------------------

  ghost predicate Completes(s: State, cfg: Config, e: Event) {
    Enabled(s, e) && e.Deliver? && e.message.Complete? && ReplyTo(s, cfg, e).Applied?
  }

  /** The agent whose complete was applied last before states[i]. */
  ghost function Completer(states: seq<State>, events: seq<Event>, cfg: Config, i: nat): Option<AgentId>
    requires i <= |events| < |states|
  {
    if i == 0 then None
    else if Completes(states[i - 1], cfg, events[i - 1]) then Some(events[i - 1].message.agent)
    else Completer(states, events, cfg, i - 1)
  }

  ghost predicate IsFresh(s: State, agent: AgentId) {
    agent in s.agents && s.agents[agent].inventory.Fresh?
  }

  lemma OnlyCompleteFreshens(s: State, cfg: Config, e: Event, agent: AgentId)
    requires Enabled(s, e) && !IsFresh(s, agent) && IsFresh(Perform(s, cfg, e), agent)
    ensures Completes(s, cfg, e) && e.message.agent == agent
  {
  }

  lemma {:induction false} FreshWriterCompleted(states: seq<State>, events: seq<Event>, cfg: Config, i: nat,
                                                agent: AgentId)
    requires IsRunOf(states, events, cfg) && states[0] == NEW_CLUSTER && i < |states|
    requires states[i].active == Some(agent) && IsFresh(states[i], agent)
    ensures Completer(states, events, cfg, i) == Some(agent)
  {
    if i > 0 {
      var s, e := states[i - 1], events[i - 1];
      assert Enabled(s, e) && states[i - 1 + 1] == Perform(s, cfg, e);
      if Completes(s, cfg, e) {
        CompleterIsWriter(s, cfg, e);
      } else {
        StillActiveAndFresh(s, cfg, e, agent);
        FreshWriterCompleted(states, events, cfg, i - 1, agent);
      }
    }
  }

  lemma CompleterIsWriter(s: State, cfg: Config, e: Event)
    requires Completes(s, cfg, e)
    ensures Perform(s, cfg, e).active == Some(e.message.agent)
  {
  }

  lemma StillActiveAndFresh(s: State, cfg: Config, e: Event, agent: AgentId)
    requires Enabled(s, e) && !Completes(s, cfg, e)
    requires Perform(s, cfg, e).active == Some(agent) && IsFresh(Perform(s, cfg, e), agent)
    ensures s.active == Some(agent) && IsFresh(s, agent)
  {
    if !IsFresh(s, agent) { OnlyCompleteFreshens(s, cfg, e, agent); }
  }

  /** A batch moves the projection only for the active writer that itself completed the
      currently applied snapshot, and only while no snapshot is open. */
  lemma EventsNeedTheCompleter(states: seq<State>, events: seq<Event>, cfg: Config, i: nat)
    requires IsRunOf(states, events, cfg) && states[0] == NEW_CLUSTER && i < |events|
    requires events[i].Deliver? && events[i].message.Events?
    requires states[i + 1] != states[i]
    ensures
      var agent := events[i].message.agent;
      && states[i].active == Some(agent)
      && Completer(states, events, cfg, i) == Some(agent)
      && states[i].applied.Some? && states[i].pending.None?
  {
    assert Enabled(states[i], events[i]) && states[i + 1] == Perform(states[i], cfg, events[i]);
    FreshWriterCompleted(states, events, cfg, i, events[i].message.agent);
  }

  lemma DemandUnfreshens(s: State, agent: AgentId, discard: Option<SnapshotId>)
    ensures !IsFresh(Demand(s, agent, discard), agent)
  {
  }

  lemma PerformsDemand(states: seq<State>, events: seq<Event>, cfg: Config, i: nat)
    requires IsRunOf(states, events, cfg) && i < |events| && events[i].DemandReconcile?
    ensures states[i + 1] == Demand(states[i], events[i].agent, events[i].discard)
  {
    hide Handle, Enabled;
  }

  ghost predicate NoneCompletedBy(states: seq<State>, events: seq<Event>, cfg: Config, i: nat, j: nat, agent: AgentId)
    requires j <= |events| <= |states|
  {
    forall k :: i <= k < j && Completes(states[k], cfg, events[k]) ==> events[k].message.agent != agent
  }

  lemma {:induction false} StaysUnfresh(states: seq<State>, events: seq<Event>, cfg: Config, i: nat, j: nat,
                                        agent: AgentId)
    requires IsRunOf(states, events, cfg) && i <= j < |states| && !IsFresh(states[i], agent)
    requires NoneCompletedBy(states, events, cfg, i, j, agent)
    ensures !IsFresh(states[j], agent)
    decreases j
  {
    hide Handle, Perform, Enabled, Completes, IsFresh;
    if i < j {
      var s, e := states[j - 1], events[j - 1];
      assert Enabled(s, e) && states[j - 1 + 1] == Perform(s, cfg, e);
      StaysUnfresh(states, events, cfg, i, j - 1, agent);
      if IsFresh(states[j], agent) { OnlyCompleteFreshens(s, cfg, e, agent); }
    }
  }

  lemma UnfreshIsRefused(s: State, cfg: Config, e: Event)
    requires Enabled(s, e) && e.Deliver? && e.message.Events? && !IsFresh(s, e.message.agent)
    ensures Perform(s, cfg, e) == s && (ReplyTo(s, cfg, e).NotFresh? || ReplyTo(s, cfg, e).Forbidden?)
  {
  }

  /** After a demand, that agent's batches are refused until a complete of its own is applied. */
  lemma DemandHoldsUntilComplete(states: seq<State>, events: seq<Event>, cfg: Config, i: nat, j: nat)
    requires IsRunOf(states, events, cfg) && i < j < |events|
    requires events[i].DemandReconcile? && Enabled(states[j], events[j])
    requires events[j].Deliver? && events[j].message.Events? && events[j].message.agent == events[i].agent
    requires NoneCompletedBy(states, events, cfg, i + 1, j, events[i].agent)
    ensures states[j + 1] == states[j]
    ensures var reply := ReplyTo(states[j], cfg, events[j]); reply.NotFresh? || reply.Forbidden?
  {
    PerformsDemand(states, events, cfg, i);
    DemandUnfreshens(states[i], events[i].agent, events[i].discard);
    StaysUnfresh(states, events, cfg, i + 1, j, events[i].agent);
    UnfreshIsRefused(states[j], cfg, events[j]);
    assert states[j + 1] == Perform(states[j], cfg, events[j]);
  }

  // ---- Refusals that leave no mark -------------------------------------------

  /** A refused batch is a lasting demand for a reconcile, once what it calls for has committed, unless it was
      merely not fresh: then the agent's row says so only if it did before. */
  lemma RefusalIsDurableIff(s: State, m: Message, outcome: Outcome)
    requires outcome.Gap? || outcome.StaleSnapshot? || outcome.Torn? || outcome.NotFresh?
    requires m.agent in s.agents
    ensures m.agent in Demanded(s, m, outcome).agents
    ensures Demanded(s, m, outcome).agents[m.agent].inventory.ReconcileRequired?
            <==> !outcome.NotFresh? || s.agents[m.agent].inventory.ReconcileRequired?
  {
  }

  /** A batch that comes while its sender's snapshot is open: refused as not fresh, and nothing remembers it. */
  lemma NotFreshLeavesNoMark(agent: AgentId, uid: SnapshotUid, request: nat, cfg: Config, now: int)
    ensures
      var begun := BeginTxn(Enroll(NEW_CLUSTER, agent), Begin(agent, 1, request, uid), now).0;
      var batch := Events(agent, 2, request + 1, []);
      && EventsTxn(begun, cfg, batch, now) == (begun, NotFresh)
      && Demanded(begun, batch, NotFresh) == begun && begun.agents[agent].inventory.Reconciling?
  {
  }

  // A writer counts as fresh only while a snapshot is applied and none is pending.
  ghost predicate FreshMeansApplied(s: State) {
    forall agent :: s.active == Some(agent) && IsFresh(s, agent) ==> s.applied.Some? && s.pending.None?
  }

  lemma CompletedIsReady(s: State, cfg: Config, e: Event)
    requires Completes(s, cfg, e)
    ensures Perform(s, cfg, e).applied.Some? && Perform(s, cfg, e).pending.None?
  {
    hide ApplySnapshot;
  }

  lemma StaysReady(s: State, cfg: Config, e: Event, agent: AgentId)
    requires Enabled(s, e) && s.active == Some(agent) && IsFresh(s, agent) && s.applied.Some? && s.pending.None?
    requires Perform(s, cfg, e).active == Some(agent) && IsFresh(Perform(s, cfg, e), agent)
    ensures Perform(s, cfg, e).applied.Some? && Perform(s, cfg, e).pending.None?
  {
    hide ApplySnapshot, ApplyEvents, Stage;
  }

  lemma PerformFreshMeansApplied(s: State, cfg: Config, e: Event)
    requires Enabled(s, e) && FreshMeansApplied(s)
    ensures FreshMeansApplied(Perform(s, cfg, e))
  {
    hide Perform, Enabled, Completes, IsFresh;
    var after := Perform(s, cfg, e);
    forall agent | after.active == Some(agent) && IsFresh(after, agent)
      ensures after.applied.Some? && after.pending.None?
    {
      if Completes(s, cfg, e) {
        CompletedIsReady(s, cfg, e);
      } else {
        StillActiveAndFresh(s, cfg, e, agent);
        StaysReady(s, cfg, e, agent);
      }
    }
  }

  lemma {:induction false} RunFreshMeansApplied(states: seq<State>, events: seq<Event>, cfg: Config, i: nat)
    requires IsRunOf(states, events, cfg) && states[0] == NEW_CLUSTER && i < |states|
    ensures FreshMeansApplied(states[i])
  {
    hide Perform, Enabled;
    if i > 0 {
      RunFreshMeansApplied(states, events, cfg, i - 1);
      assert Enabled(states[i - 1], events[i - 1]) && states[i - 1 + 1] == Perform(states[i - 1], cfg, events[i - 1]);
      PerformFreshMeansApplied(states[i - 1], cfg, events[i - 1]);
    }
  }

  /** The writer's batch is refused as not fresh exactly when its own row is not fresh: that no snapshot is applied,
      or that one is pending, never decides alone. */
  lemma NotFreshIff(states: seq<State>, events: seq<Event>, cfg: Config, i: nat, m: Message)
    requires IsRunOf(states, events, cfg) && states[0] == NEW_CLUSTER && i < |states|
    requires m.Events? && states[i].active == Some(m.agent) && m.agent in states[i].agents
    ensures EventsCheck(states[i], m) == Some(NotFresh) <==> !IsFresh(states[i], m.agent)
  {
    RunFreshMeansApplied(states, events, cfg, i);
  }

  /** Although nothing remembers such a refusal, it lasts: until a complete of its own is applied, no batch of that
      agent changes anything. */
  lemma NotFreshHoldsUntilComplete(states: seq<State>, events: seq<Event>, cfg: Config, i: nat, j: nat)
    requires IsRunOf(states, events, cfg) && states[0] == NEW_CLUSTER && i < j < |events|
    requires Enabled(states[i], events[i]) && events[i].Deliver? && events[i].message.Events?
    requires ReplyTo(states[i], cfg, events[i]).NotFresh?
    requires Enabled(states[j], events[j]) && events[j].Deliver? && events[j].message.Events?
    requires events[j].message.agent == events[i].message.agent
    requires NoneCompletedBy(states, events, cfg, i + 1, j, events[i].message.agent)
    ensures states[j + 1] == states[j]
    ensures var reply := ReplyTo(states[j], cfg, events[j]); reply.NotFresh? || reply.Forbidden?
  {
    var agent := events[i].message.agent;
    RefusedWasUnfresh(states, events, cfg, i);
    StaysUnfresh(states, events, cfg, i + 1, j, agent);
    UnfreshIsRefused(states[j], cfg, events[j]);
    assert states[j + 1] == Perform(states[j], cfg, events[j]);
  }

  lemma RefusedWasUnfresh(states: seq<State>, events: seq<Event>, cfg: Config, i: nat)
    requires IsRunOf(states, events, cfg) && states[0] == NEW_CLUSTER && i < |events|
    requires Enabled(states[i], events[i]) && events[i].Deliver? && events[i].message.Events?
    requires ReplyTo(states[i], cfg, events[i]).NotFresh?
    ensures !IsFresh(states[i + 1], events[i].message.agent)
  {
    var m := events[i].message;
    if m.agent in states[i].agents { NotFreshIff(states, events, cfg, i, m); }
    assert states[i + 1] == Perform(states[i], cfg, events[i]);
  }

  /** "Begun by the writer" is not promised: pages and completes find the snapshot by its uid, so a
      newly enrolled agent may complete what its predecessor began. */
  lemma CompletedByASuccessor(first: AgentId, second: AgentId, uid: SnapshotUid, cfg: Config)
    requires first != second
    ensures
      var begun := BeginTxn(Enroll(NEW_CLUSTER, first), Begin(first, 1, 0, uid), 0).0;
      var handed := Enroll(begun, second);
      && handed.snapshots[uid].agent == first
      && Handle(handed, cfg, Complete(second, 1, 0, uid, 0, 0), 0, Visit([], [])).1.Applied?
  {
    assert Interval(1, 0 + 1) == {};
  }

  // The begin of `uid` is accepted.
  ghost predicate Opens(s: State, cfg: Config, e: Event, uid: SnapshotUid) {
    TakesEffect(s, cfg, e) && e.message.Begin? && e.message.uid == uid
  }

  lemma PerformKeepsBeginners(s: State, cfg: Config, e: Event, uid: SnapshotUid)
    requires Enabled(s, e) && uid in Perform(s, cfg, e).snapshots && !Opens(s, cfg, e, uid)
    ensures uid in s.snapshots && Perform(s, cfg, e).snapshots[uid].agent == s.snapshots[uid].agent
  {
    PerformKeepsRows(s, cfg, e);
  }

  lemma OnlyEnrollmentHandsOver(s: State, cfg: Config, e: Event)
    requires Enabled(s, e)
    ensures s.agents.Keys <= Perform(s, cfg, e).agents.Keys
    ensures Perform(s, cfg, e).active == if e.EnrollAgent? then Some(e.agent) else s.active
    ensures e.EnrollAgent? ==> e.agent !in s.agents
  {
  }

  // What a begin of `agent` leaves behind for as long as `uid` is not begun anew.
  ghost predicate BegunBy(s: State, uid: SnapshotUid, agent: AgentId) {
    agent in s.agents && (uid in s.snapshots ==> s.snapshots[uid].agent == agent)
  }

  ghost predicate NobodyEnrolled(events: seq<Event>, i: nat, j: nat) {
    forall k :: i < k < j && k < |events| ==> !events[k].EnrollAgent?
  }

  lemma {:induction false} BeginnerStays(states: seq<State>, events: seq<Event>, cfg: Config, i: nat, j: nat,
                                         uid: SnapshotUid)
    requires IsRunOf(states, events, cfg) && i < j < |states|
    requires Opens(states[i], cfg, events[i], uid)
    requires forall k :: i < k < j ==> !Opens(states[k], cfg, events[k], uid)
    ensures BegunBy(states[j], uid, events[i].message.agent)
    ensures states[j].active == Some(events[i].message.agent) <==> NobodyEnrolled(events, i, j)
    decreases j
  {
    hide Perform, Opens;
    if j == i + 1 {
      OpenedBy(states, events, cfg, i, uid);
    } else {
      BeginnerStays(states, events, cfg, i, j - 1, uid);
      var s, e := states[j - 1], events[j - 1];
      assert Enabled(s, e) && states[j - 1 + 1] == Perform(s, cfg, e);
      if uid in states[j].snapshots { PerformKeepsBeginners(s, cfg, e, uid); }
      OnlyEnrollmentHandsOver(s, cfg, e);
    }
  }

  lemma OpenedBy(states: seq<State>, events: seq<Event>, cfg: Config, i: nat, uid: SnapshotUid)
    requires IsRunOf(states, events, cfg) && i < |events| && Opens(states[i], cfg, events[i], uid)
    ensures BegunBy(states[i + 1], uid, events[i].message.agent)
        && states[i + 1].active == Some(events[i].message.agent)
  {
    assert states[i + 1] == Perform(states[i], cfg, events[i]);
  }

  lemma CompletionFound(s: State, cfg: Config, e: Event)
    requires Completes(s, cfg, e)
    ensures e.message.uid in s.snapshots && s.active == Some(e.message.agent)
  {
  }

  /** When the agent that completes a snapshot is the one that began it: exactly when no agent was enrolled
      between the begin, the last one accepted for that uid, and the complete. */
  lemma CompletedByItsBeginnerIff(states: seq<State>, events: seq<Event>, cfg: Config, i: nat, j: nat, uid: SnapshotUid)
    requires IsRunOf(states, events, cfg) && i < j < |events|
    requires Opens(states[i], cfg, events[i], uid)
    requires forall k :: i < k < j ==> !Opens(states[k], cfg, events[k], uid)
    requires Completes(states[j], cfg, events[j]) && events[j].message.uid == uid
    ensures uid in states[j].snapshots && states[j].snapshots[uid].agent == events[i].message.agent
    ensures events[j].message.agent == events[i].message.agent <==> NobodyEnrolled(events, i, j)
  {
    hide Opens, Completes;
    CompletionFound(states[j], cfg, events[j]);
    BeginnerStays(states, events, cfg, i, j, uid);
  }

  /** Every complete that is applied in the life of a cluster has such a begin before it. */
  lemma {:induction false} BegunBefore(states: seq<State>, events: seq<Event>, cfg: Config, j: nat,
                                       uid: SnapshotUid) returns (i: nat)
    requires IsRunOf(states, events, cfg) && states[0].snapshots == map[] && j < |states| && uid in states[j].snapshots
    ensures i < j && Opens(states[i], cfg, events[i], uid)
    ensures forall k :: i < k < j ==> !Opens(states[k], cfg, events[k], uid)
    decreases j
  {
    hide Opens, Perform;
    var s, e := states[j - 1], events[j - 1];
    assert Enabled(s, e) && states[j - 1 + 1] == Perform(s, cfg, e);
    if Opens(s, cfg, e, uid) {
      i := j - 1;
    } else {
      PerformKeepsBeginners(s, cfg, e, uid);
      i := BegunBefore(states, events, cfg, j - 1, uid);
    }
  }

  // ---- The bound on a snapshot -------------------------------------------------

  ghost predicate Bounded(s: State) {
    forall u :: u in s.snapshots ==> s.snapshots[u].resourceCount <= MAX_SNAPSHOT_RESOURCES
  }

  lemma {:induction false} RunBounded(states: seq<State>, events: seq<Event>, cfg: Config, i: nat)
    requires IsRunOf(states, events, cfg) && states[0] == NEW_CLUSTER && i < |states|
    ensures Bounded(states[i])
  {
    if i > 0 {
      RunBounded(states, events, cfg, i - 1);
      assert Enabled(states[i - 1], events[i - 1]) && states[i - 1 + 1] == Perform(states[i - 1], cfg, events[i - 1]);
      PerformBounded(states[i - 1], cfg, events[i - 1]);
    }
  }

  lemma PerformBounded(s: State, cfg: Config, e: Event)
    requires Enabled(s, e) && Bounded(s)
    ensures Bounded(Perform(s, cfg, e))
  {
    hide ApplySnapshot, ApplyEvents, Stage;
  }

  /** No snapshot of more than 500000 resources is ever applied. */
  lemma AppliedIsBounded(states: seq<State>, events: seq<Event>, cfg: Config, i: nat)
    requires IsRunOf(states, events, cfg) && states[0] == NEW_CLUSTER && i < |events|
    requires Completes(states[i], cfg, events[i])
    ensures events[i].message.totalResources <= MAX_SNAPSHOT_RESOURCES
  {
    RunBounded(states, events, cfg, i);
  }

  // ---- Demands -------------------------------------------------------------

  /** The demand after a torn page discards the snapshot and still names it as the pending one: the writer row
      points at a discarded snapshot. */
  lemma DemandLeavesPendingDangling(agent: AgentId, uid: SnapshotUid, now: int)
    ensures
      var begun := BeginTxn(Enroll(NEW_CLUSTER, agent), Begin(agent, 1, 0, uid), now).0;
      var demanded := Demand(begun, agent, Some(begun.snapshots[uid].id));
      && demanded.pending == Some(demanded.snapshots[uid].id) && PendingRows(demanded) == {}
  {
  }

  /** The same without any demand: with a cap of 0 the housekeeping discards the open snapshot. */
  lemma CapLeavesPendingDangling(agent: AgentId, uid: SnapshotUid, now: int)
    ensures
      var begun := BeginTxn(Enroll(NEW_CLUSTER, agent), Begin(agent, 1, 0, uid), now).0;
      var capped := DiscardCapped(begun, {uid});
      && {uid} <= PendingRows(begun)
      && capped.pending == Some(capped.snapshots[uid].id) && PendingRows(capped) == {}
  {
  }

  ghost predicate Dangles(s: State, pending: Option<SnapshotId>, uid: SnapshotUid) {
    s.pending == pending && uid in s.snapshots && s.snapshots[uid].status.Discarded?
  }

  lemma NoMessageDangles(s: State, cfg: Config, m: Message, now: int, visit: Visit, uid: SnapshotUid)
    requires Inv(s) && ValidVisit(s, m, visit)
    requires uid in s.snapshots && s.snapshots[uid].status.Pending? && s.pending == Some(s.snapshots[uid].id)
    ensures !Dangles(Handle(s, cfg, m, now, visit).0, s.pending, uid)
  {
    hide ApplySnapshot, ApplyEvents, Stage, Continuous;
  }

  /** Of everything that can happen to an open snapshot, exactly two things leave the writer row pointing at it
      discarded: a demand that names it, and the cap. */
  lemma PendingDanglesIff(s: State, cfg: Config, e: Event, uid: SnapshotUid)
    requires Inv(s) && Enabled(s, e)
    requires uid in s.snapshots && s.snapshots[uid].status.Pending? && s.pending == Some(s.snapshots[uid].id)
    ensures Dangles(Perform(s, cfg, e), s.pending, uid)
            <==> (e.DemandReconcile? && e.discard == s.pending) || (e.CapSnapshots? && uid in e.snapshots)
  {
    hide Handle;
    if e.Deliver? { NoMessageDangles(s, cfg, e.message, e.now, e.visit, uid); }
  }

  // ---- Health --------------------------------------------------------------

  /** A missing row is unknown with a reason; an active row carries the verdict its own kind and
      payload had at its last write. */
  ghost predicate Coherent(derive: Derive, table: Table) {
    forall u :: u in table ==> CoherentRow(derive, table[u])
  }

  ghost predicate CoherentRow(derive: Derive, row: Row) {
    match row.lifecycle
    case Gone => row.health.level.Unknown? && row.health.reasons != []
    case Active => row.health == derive(row.entity.ident.kind, row.entity.payload, row.lastSeen)
  }

  lemma SnapshotCoherent(table: Table, derive: Derive, now: int, snapshot: SnapshotId, staged: map<Uid, Resource>)
    requires Coherent(derive, table)
    ensures Coherent(derive, FlipRows(Overlay(table, derive, now, snapshot, staged, staged.Keys), staged.Keys))
  {
    var upserted := Overlay(table, derive, now, snapshot, staged, staged.Keys);
    var after := FlipRows(upserted, staged.Keys);
    forall u | u in after ensures CoherentRow(derive, after[u]) {
      if u !in staged { assert CoherentRow(derive, table[u]); }
    }
  }

  lemma {:induction false} EventsCoherent(s: Store, derive: Derive, now: int, events: seq<WatchEvent>,
                                          identity: Uid -> Ident)
    requires Coherent(derive, s.table) && NamedTable(identity, s.table) && NamedEvents(identity, events)
    ensures Coherent(derive, ApplyEvents(s, derive, now, events).table)
    decreases |events|
  {
    if events != [] {
      var last := |events| - 1;
      var before := ApplyEvents(s, derive, now, events[..last]);
      EventsCoherent(s, derive, now, events[..last], identity);
      EventsRefineMap(s, derive, now, events[..last], identity);
      assert Named(identity, events[last].resource.entity);
      var after := ApplyEvent(before, derive, now, events[last]);
      forall u | u in after.table ensures CoherentRow(derive, after.table[u]) {
        if u in before.table { assert CoherentRow(derive, before.table[u]); }
      }
    }
  }

  ghost predicate NamedStaging(identity: Uid -> Ident, staging: map<Uid, Resource>) {
    forall u :: u in staging ==> staging[u].entity.uid == u && Named(identity, staging[u].entity)
  }

  ghost predicate NamedSnapshots(identity: Uid -> Ident, snapshots: Snapshots) {
    forall u :: u in snapshots ==> NamedStaging(identity, snapshots[u].staging)
  }

  ghost predicate NamedState(identity: Uid -> Ident, s: State) {
    NamedTable(identity, s.store.table) && NamedSnapshots(identity, s.snapshots)
  }

  ghost predicate NamedMessage(identity: Uid -> Ident, m: Message) {
    match m
    case Page(_, _, _, _, _, resources) => forall i :: 0 <= i < |resources| ==> Named(identity, resources[i].entity)
    case Events(_, _, _, events) => NamedEvents(identity, events)
    case _ => true
  }

  lemma {:induction false} StageNamed(identity: Uid -> Ident, staging: map<Uid, Resource>, resources: seq<Resource>)
    requires NamedStaging(identity, staging)
    requires forall i :: 0 <= i < |resources| ==> Named(identity, resources[i].entity)
    ensures NamedStaging(identity, Stage(staging, resources))
    decreases |resources|
  {
    if resources != [] {
      StageNamed(identity, staging, resources[..|resources| - 1]);
      assert Named(identity, resources[|resources| - 1].entity);
    }
  }

  lemma PageNamed(s: State, m: Message, identity: Uid -> Ident)
    requires m.Page? && NamedState(identity, s) && NamedMessage(identity, m)
    ensures NamedState(identity, PageTxn(s, m).0)
  {
    if PageTxn(s, m).1.Accepted? {
      StageNamed(identity, s.snapshots[m.uid].staging, m.resources);
    }
  }

  lemma CommitTable(s: State, cfg: Config, m: Message, now: int, visit: Visit)
    requires Inv(s) && m.Complete? && ValidVisit(s, m, visit) && CompleteCheck(s, m, now, cfg.ttl).None?
    ensures
      var row := s.snapshots[m.uid];
      Commit(s, cfg, m, now, visit).store.table
      == FlipRows(Overlay(s.store.table, cfg.derive, now, row.id, row.staging, row.staging.Keys), row.staging.Keys)
  {
    var row := s.snapshots[m.uid];
    assert RowOk(row);
    SnapshotReplacesMap(s.store, cfg.derive, now, row.id, row.staging, visit.staged, visit.absent);
  }

  lemma CommitCoherent(s: State, cfg: Config, m: Message, now: int, visit: Visit, identity: Uid -> Ident)
    requires Inv(s) && m.Complete? && ValidVisit(s, m, visit) && CompleteCheck(s, m, now, cfg.ttl).None?
    requires NamedState(identity, s) && Coherent(cfg.derive, s.store.table)
    ensures
      var after := Commit(s, cfg, m, now, visit);
      NamedState(identity, after) && Coherent(cfg.derive, after.store.table)
  {
    var row := s.snapshots[m.uid];
    CommitTable(s, cfg, m, now, visit);
    SnapshotCoherent(s.store.table, cfg.derive, now, row.id, row.staging);
    SnapshotNamed(s.store.table, cfg.derive, now, row.id, row.staging, identity);
    ClosedNamed(identity, s.snapshots, m.uid);
  }

  lemma ClosedNamed(identity: Uid -> Ident, snapshots: Snapshots, uid: SnapshotUid)
    requires NamedSnapshots(identity, snapshots) && uid in snapshots
    ensures NamedSnapshots(identity, snapshots[uid := snapshots[uid].(status := Finished, staging := map[])])
  {
  }

  lemma SnapshotNamed(table: Table, derive: Derive, now: int, snapshot: SnapshotId, staged: map<Uid, Resource>,
                      identity: Uid -> Ident)
    requires NamedTable(identity, table) && NamedStaging(identity, staged)
    ensures NamedTable(identity, FlipRows(Overlay(table, derive, now, snapshot, staged, staged.Keys), staged.Keys))
  {
  }

  lemma BeginNamed(s: State, m: Message, now: int, identity: Uid -> Ident)
    requires m.Begin? && NamedState(identity, s)
    ensures NamedState(identity, BeginTxn(s, m, now).0) && BeginTxn(s, m, now).0.store == s.store
  {
  }

  lemma BatchCoherent(s: State, cfg: Config, m: Message, now: int, identity: Uid -> Ident)
    requires m.Events? && NamedState(identity, s) && NamedMessage(identity, m) && Coherent(cfg.derive, s.store.table)
    ensures
      var after := EventsTxn(s, cfg, m, now).0;
      NamedState(identity, after) && Coherent(cfg.derive, after.store.table)
  {
    if EventsCheck(s, m).None? {
      EventsCoherent(s.store, cfg.derive, now, m.events, identity);
      EventsRefineMap(s.store, cfg.derive, now, m.events, identity);
    }
  }

  lemma HandleCoherent(s: State, cfg: Config, m: Message, now: int, visit: Visit, identity: Uid -> Ident)
    requires Inv(s) && ValidVisit(s, m, visit)
    requires NamedState(identity, s) && NamedMessage(identity, m) && Coherent(cfg.derive, s.store.table)
    ensures
      var after := Handle(s, cfg, m, now, visit).0;
      NamedState(identity, after) && Coherent(cfg.derive, after.store.table)
  {
    hide Commit, Inv, Coherent, Stage;
    match m
    case Begin(_, _, _, _) => BeginNamed(s, m, now, identity);
    case Page(_, _, _, _, _, _) => PageNamed(s, m, identity);
    case Complete(_, _, _, _, _, _) =>
      if CompleteCheck(s, m, now, cfg.ttl).None? { CommitCoherent(s, cfg, m, now, visit, identity); }
    case Events(_, _, _, _) => BatchCoherent(s, cfg, m, now, identity);
    case Heartbeat(_, _, _) =>
  }

  lemma PerformCoherent(s: State, cfg: Config, e: Event, identity: Uid -> Ident)
    requires Inv(s) && Enabled(s, e)
    requires NamedState(identity, s) && Coherent(cfg.derive, s.store.table)
    requires e.Deliver? ==> NamedMessage(identity, e.message)
    ensures NamedState(identity, Perform(s, cfg, e)) && Coherent(cfg.derive, Perform(s, cfg, e).store.table)
  {
    if e.Deliver? { HandleCoherent(s, cfg, e.message, e.now, e.visit, identity); }
  }

  /** Health coherence in every reachable state, for objects whose identity is fixed by their uid. */
  lemma {:induction false} RunCoherent(states: seq<State>, events: seq<Event>, cfg: Config, i: nat,
                                       identity: Uid -> Ident)
    requires IsRunOf(states, events, cfg) && Inv(states[0]) && i < |states|
    requires NamedState(identity, states[0]) && Coherent(cfg.derive, states[0].store.table)
    requires forall k :: 0 <= k < |events| && events[k].Deliver? ==> NamedMessage(identity, events[k].message)
    ensures NamedState(identity, states[i]) && Coherent(cfg.derive, states[i].store.table)
  {
    if i > 0 {
      RunCoherent(states, events, cfg, i - 1, identity);
      RunInv(states, events, cfg, i - 1);
      assert Enabled(states[i - 1], events[i - 1]) && states[i - 1 + 1] == Perform(states[i - 1], cfg, events[i - 1]);
      PerformCoherent(states[i - 1], cfg, events[i - 1], identity);
    }
  }
}
