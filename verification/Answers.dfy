/** Exactly what each message is answered, and what it writes when it takes effect: first for a message that already
    took effect and arrives again, then for any message, over the fields of the rows it meets. */
module Answers {
  import opened Inventory
  import opened Projection
  import opened Server
  import opened ServerInvariants
  import opened ServerTheorems

  /** The row of that snapshot has not been pruned, nor its snapshot discarded. */
  predicate Stands(s: State, uid: SnapshotUid) {
    uid in s.snapshots && !s.snapshots[uid].status.Discarded?
  }

  // ---- A message that took effect, delivered again -----------------------------

  /** The answer to the copy: duplicate while what the message wrote stands, and otherwise what says so. */
  ghost predicate AnsweredAgain(s: State, m: Message, outcome: Outcome) {
    if s.active != Some(m.agent) then outcome == Forbidden
    else
      match m
      case Begin(_, _, _, uid) => outcome == if uid in s.snapshots then Duplicate else Stale
      case Page(_, _, _, uid, _, _) => outcome == if Stands(s, uid) then Duplicate else StaleSnapshot
      case Complete(_, _, _, uid, _, _) => outcome == if Stands(s, uid) then Duplicate else StaleSnapshot
      case Events(_, _, _, _) => outcome == if IsFresh(s, m.agent) then Duplicate else NotFresh
      case Heartbeat(_, _, _) => outcome == Ok
  }

  lemma RememberedAnswer(s: State, cfg: Config, m: Message, now: int, visit: Visit)
    requires Remembered(s, m) && FreshMeansApplied(s) && ValidVisit(s, m, visit)
    requires m.Complete? ==> Inv(s)
    ensures m.Heartbeat? || AnsweredAgain(s, m, Handle(s, cfg, m, now, visit).1)
  {
  }

  /** Over whole runs: a message that took effect and is delivered again in any later state is answered exactly so.
      In particular its sender, while it is the writer, is not refused as long as the snapshot row stands, or, for a
      batch, as long as its own row is fresh. */
  lemma RedeliveredIsAnswered(states: seq<State>, events: seq<Event>, cfg: Config, i: nat, j: nat,
                              beginOf: SnapshotUid -> Message, now: int, visit: Visit)
    requires IsRunOf(states, events, cfg) && states[0] == NEW_CLUSTER && i < j < |states|
    requires OneBeginEach(events, beginOf) && TakesEffect(states[i], cfg, events[i])
    requires ValidVisit(states[j], events[i].message, visit)
    ensures
      var m, s := events[i].message, states[j];
      var outcome := Handle(s, cfg, m, now, visit).1;
      && AnsweredAgain(s, m, outcome)
      && (s.active == Some(m.agent) ==>
           (outcome.Acknowledged() <==>
             match m
             case Begin(_, _, _, _) => true
             case Events(_, _, _, _) => IsFresh(s, m.agent)
             case _ => Stands(s, m.uid)))
  {
    hide Inv, Remembered;
    NewClusterInv();
    StillRemembered(states, events, cfg, i, j, beginOf);
    RunFreshMeansApplied(states, events, cfg, j);
    RunInv(states, events, cfg, j);
    RememberedAnswer(states[j], cfg, events[i].message, now, visit);
    hide Handle;
  }

  lemma OpenedStands(s: State, cfg: Config, e: Event)
    requires TakesEffect(s, cfg, e)
    ensures Perform(s, cfg, e).active == Some(e.message.agent)
    ensures !e.message.Events? ==> Stands(Perform(s, cfg, e), e.message.uid)
    ensures e.message.Events? ==> IsFresh(Perform(s, cfg, e), e.message.agent)
  {
    hide ApplySnapshot, ApplyEvents, Stage;
  }

  /** A message whose answer was lost, delivered again before anything else happens: a duplicate, of every kind. */
  lemma AnsweredAtOnce(states: seq<State>, events: seq<Event>, cfg: Config, i: nat, beginOf: SnapshotUid -> Message,
                       now: int, visit: Visit)
    requires IsRunOf(states, events, cfg) && states[0] == NEW_CLUSTER && i < |events|
    requires OneBeginEach(events, beginOf) && TakesEffect(states[i], cfg, events[i])
    requires ValidVisit(states[i + 1], events[i].message, visit)
    ensures Handle(states[i + 1], cfg, events[i].message, now, visit) == (states[i + 1], Duplicate)
  {
    hide Handle, Perform, Inv, FreshMeansApplied;
    assert states[i + 1] == Perform(states[i], cfg, events[i]);
    RedeliveredIsAnswered(states, events, cfg, i, i + 1, beginOf, now, visit);
    NewClusterInv();
    ReplayIsHarmless(states, events, cfg, i, i + 1, beginOf, now, visit);
    OpenedStands(states[i], cfg, events[i]);
  }

  // ---- What each message is answered -------------------------------------------

  ghost predicate Behind(s: State, m: Message) {
    m.agent in s.agents && m.sequence <= s.agents[m.agent].lastSequence
  }

  ghost predicate Next(s: State, m: Message) {
    m.agent in s.agents && m.sequence == s.agents[m.agent].lastSequence + 1
  }

  ghost predicate Ahead(s: State, m: Message) {
    m.agent in s.agents && m.sequence > s.agents[m.agent].lastSequence + 1
  }

  ghost predicate Open(s: State, uid: SnapshotUid) {
    uid in s.snapshots && s.snapshots[uid].status.Pending?
  }

  /** A begin needs a new uid and a number above the last one, which may leave a hole. */
  lemma BeginAnswers(s: State, m: Message, now: int)
    requires m.Begin?
    ensures
      var outcome := BeginTxn(s, m, now).1;
      var writer := s.active == Some(m.agent);
      && (outcome.Forbidden? <==> !writer)
      && (outcome.Duplicate? <==> writer && m.uid in s.snapshots)
      && (outcome.Stale? <==> writer && m.uid !in s.snapshots && Behind(s, m))
      && (outcome.Accepted? <==> writer && m.uid !in s.snapshots && (Next(s, m) || Ahead(s, m)))
      && (outcome.Failed? <==> writer && m.uid !in s.snapshots && m.agent !in s.agents)
  {
  }

  /** The page of that number is stored with other resources, and the page is not from beyond a hole. */
  ghost predicate Conflicts(s: State, m: Message)
    requires m.Page?
  {
    && Open(s, m.uid) && (Behind(s, m) || Next(s, m))
    && m.number in s.snapshots[m.uid].pages && s.snapshots[m.uid].pages[m.number] != m.resources
  }

  lemma PageAnswers(s: State, m: Message)
    requires m.Page?
    ensures
      var outcome := PageTxn(s, m).1;
      var writer := s.active == Some(m.agent);
      && (outcome.Forbidden? <==> !writer || (Open(s, m.uid) && m.agent !in s.agents))
      && (outcome.StaleSnapshot? <==> writer && !Stands(s, m.uid))
      && (outcome.Gap? <==> writer && Open(s, m.uid) && Ahead(s, m))
      && (outcome.Torn? <==> writer && Conflicts(s, m))
      && (outcome.Torn? ==> outcome.snapshot == s.snapshots[m.uid].id)
      && (outcome.Accepted? <==>
          && writer && Open(s, m.uid) && Next(s, m) && m.number !in s.snapshots[m.uid].pages
          && s.snapshots[m.uid].resourceCount + |m.resources| <= 500000)
      && (outcome.Failed? <==>
          && writer && Open(s, m.uid) && Next(s, m) && m.number !in s.snapshots[m.uid].pages
          && s.snapshots[m.uid].resourceCount + |m.resources| > 500000)
      && (outcome.Duplicate? <==>
          && writer && Stands(s, m.uid) && !Conflicts(s, m)
          && (!Open(s, m.uid) || Behind(s, m) || (Next(s, m) && m.number in s.snapshots[m.uid].pages)))
  {
  }

  /** The pages are exactly those numbered 1 to n and what they staged adds up. */
  ghost predicate Whole(row: Snapshot, totalPages: nat, totalResources: nat) {
    && (forall p :: p in row.pages <==> 1 <= p <= totalPages)
    && row.receivedPages == totalPages
    && |row.staging| == totalResources == row.resourceCount
  }

  lemma WholeIff(row: Snapshot, totalPages: nat, totalResources: nat)
    ensures Whole(row, totalPages, totalResources) <==> Continuous(row, totalPages, totalResources)
  {
    assert (forall p :: p in row.pages.Keys <==> p in Interval(1, totalPages + 1))
      <==> row.pages.Keys == Interval(1, totalPages + 1);
  }

  lemma CompleteAnswers(s: State, cfg: Config, m: Message, now: int, visit: Visit)
    requires m.Complete? && ValidVisit(s, m, visit)
    requires Generations(s.snapshots, s.pending, s.currentGeneration, s.appliedGeneration)
    ensures
      var outcome := CompleteTxn(s, cfg, m, now, visit).1;
      var writer := s.active == Some(m.agent);
      && (outcome.Forbidden? <==>
          || !writer
          || (Open(s, m.uid) && now <= s.snapshots[m.uid].startedAt + cfg.ttl && m.agent !in s.agents))
      && (outcome.StaleSnapshot? <==> writer && !Stands(s, m.uid))
      && (outcome.Gap? <==> writer && Open(s, m.uid) && now <= s.snapshots[m.uid].startedAt + cfg.ttl && Ahead(s, m))
      && (outcome.Applied? <==>
          && writer && Open(s, m.uid) && now <= s.snapshots[m.uid].startedAt + cfg.ttl && Next(s, m)
          && Whole(s.snapshots[m.uid], m.totalPages, m.totalResources))
      && (outcome.Torn? <==>
          && writer && Open(s, m.uid)
          && (now > s.snapshots[m.uid].startedAt + cfg.ttl
              || (Next(s, m) && !Whole(s.snapshots[m.uid], m.totalPages, m.totalResources))))
      && (outcome.Torn? ==> outcome.snapshot == s.snapshots[m.uid].id)
      && (outcome.Duplicate? <==>
          && writer && Stands(s, m.uid)
          && (Open(s, m.uid) ==> now <= s.snapshots[m.uid].startedAt + cfg.ttl && Behind(s, m)))
  {
    if Open(s, m.uid) { WholeIff(s.snapshots[m.uid], m.totalPages, m.totalResources); }
    hide Commit, Continuous, Whole;
  }

  lemma EventsAnswers(s: State, cfg: Config, m: Message, now: int)
    requires m.Events? && FreshMeansApplied(s)
    ensures
      var outcome := EventsTxn(s, cfg, m, now).1;
      var writer, ready := s.active == Some(m.agent), IsFresh(s, m.agent);
      && (outcome.Forbidden? <==> !writer || (s.applied.Some? && s.pending.None? && m.agent !in s.agents))
      && (outcome.NotFresh? <==> writer && !ready && (m.agent in s.agents || s.applied.None? || s.pending.Some?))
      && (outcome.Gap? <==> writer && ready && Ahead(s, m))
      && (outcome.Duplicate? <==> writer && ready && Behind(s, m))
      && (outcome.Applied? <==> writer && ready && Next(s, m))
  {
    hide ApplyEvents;
  }

  // ---- What each message writes ------------------------------------------------

  /** Everything but the agents and the snapshot rows. */
  ghost predicate SameProjection(s: State, after: State) {
    && after.store == s.store && after.kept == s.kept && after.active == s.active
    && after.applied == s.applied && after.appliedGeneration == s.appliedGeneration
  }

  ghost predicate OthersSame(s: State, after: State, agent: AgentId) {
    && after.agents.Keys == s.agents.Keys + {agent}
    && forall a :: a in s.agents && a != agent ==> after.agents[a] == s.agents[a]
  }

  /** The new row is the only open one: an accepted begin discards the row that was open, and no other. */
  lemma BeginWrites(s: State, m: Message, now: int)
    requires m.Begin? && Inv(s) && BeginTxn(s, m, now).1.Accepted?
    ensures
      var after := BeginTxn(s, m, now).0;
      && SameProjection(s, after) && OthersSame(s, after, m.agent)
      && after.agents[m.agent] == AgentRow(m.sequence, Reconciling)
      && after.snapshots.Keys == s.snapshots.Keys + {m.uid}
      && (forall u :: u in s.snapshots ==>
           after.snapshots[u] == if Open(s, u) then s.snapshots[u].(status := Discarded) else s.snapshots[u])
      && var row := after.snapshots[m.uid];
      && row.status.Pending? && row.agent == m.agent && row.startedAt == now
      && row.receivedPages == 0 && row.resourceCount == 0 && row.pages == map[] && row.staging == map[]
      && row.generation == after.currentGeneration == s.currentGeneration + 1
      && after.pending == Some(row.id)
      && (forall u :: u in s.snapshots ==> s.snapshots[u].id != row.id)
  {
  }

  /** What was staged before stays staged, and nothing but the resources given is added. */
  lemma {:induction false} StagesNoOther(staging: map<Uid, Resource>, resources: seq<Resource>, u: Uid)
    ensures u in staging ==> u in Stage(staging, resources) && Stage(staging, resources)[u] == staging[u]
    ensures u !in staging && u in Stage(staging, resources) ==>
        Stage(staging, resources)[u] in resources && Stage(staging, resources)[u].entity.uid == u
  {
    if resources != [] {
      StagesNoOther(staging, resources[..|resources| - 1], u);
      assert resources[|resources| - 1] in resources;
    }
  }

  /** Of several resources with one uid the first is staged. */
  lemma {:induction false} StagesFirst(staging: map<Uid, Resource>, resources: seq<Resource>, k: nat)
    requires k < |resources| && resources[k].entity.uid !in staging
    requires forall j :: 0 <= j < k ==> resources[j].entity.uid != resources[k].entity.uid
    ensures resources[k].entity.uid in Stage(staging, resources)
    ensures Stage(staging, resources)[resources[k].entity.uid] == resources[k]
  {
    var front := resources[..|resources| - 1];
    if k < |front| {
      StagesFirst(staging, front, k);
    } else {
      StagesNoOther(staging, front, resources[k].entity.uid);
      assert forall r :: r in front ==> r.entity.uid != resources[k].entity.uid;
    }
  }

  /** An accepted page adds itself to its row, and nothing else is written but the number of its sender. */
  lemma PageWrites(s: State, m: Message)
    requires m.Page? && Inv(s) && PageTxn(s, m).1.Accepted?
    ensures
      var after := PageTxn(s, m).0;
      && SameProjection(s, after) && OthersSame(s, after, m.agent)
      && after.agents[m.agent] == AgentRow(m.sequence, s.agents[m.agent].inventory)
      && after.pending == s.pending && after.currentGeneration == s.currentGeneration
      && after.snapshots.Keys == s.snapshots.Keys
      && (forall u :: u in s.snapshots && u != m.uid ==> after.snapshots[u] == s.snapshots[u])
      && var before, row := s.snapshots[m.uid], after.snapshots[m.uid];
      && row.pages == before.pages[m.number := m.resources]
      && row.receivedPages == before.receivedPages + 1 == |row.pages|
      && row.resourceCount == before.resourceCount + |m.resources|
      && row == before.(pages := row.pages, receivedPages := row.receivedPages, staging := row.staging,
                        resourceCount := row.resourceCount)
  {
    PageCount(s.snapshots[m.uid].pages, m.number, m.resources);
    assert RowOk(s.snapshots[m.uid]);
    hide Inv, Stage, RowOk;
  }

  /** A page already stored, under a new number, is acknowledged and moves the number of its sender alone. */
  lemma RestoredPageWrites(s: State, m: Message)
    requires m.Page? && PageTxn(s, m).1.Duplicate?
    ensures
      var after := PageTxn(s, m).0;
      if Open(s, m.uid) && Next(s, m)
      then OthersSame(s, after, m.agent) && after == s.(agents := after.agents)
        && after.agents[m.agent] == AgentRow(m.sequence, s.agents[m.agent].inventory)
      else after == s
  {
  }

  lemma CompleteWrites(s: State, cfg: Config, m: Message, now: int, visit: Visit)
    requires m.Complete? && Inv(s) && ValidVisit(s, m, visit) && CompleteTxn(s, cfg, m, now, visit).1.Applied?
    ensures
      var after := CompleteTxn(s, cfg, m, now, visit).0;
      && OthersSame(s, after, m.agent) && after.agents[m.agent] == AgentRow(m.sequence, Fresh)
      && after.active == s.active && after.pending.None? && after.currentGeneration == s.currentGeneration
      && after.snapshots.Keys == s.snapshots.Keys
      && (forall u :: u in s.snapshots && u != m.uid ==> after.snapshots[u] == s.snapshots[u])
      && var before, row := s.snapshots[m.uid], after.snapshots[m.uid];
      && row == before.(status := Finished, staging := map[])
      && after.applied == Some(row.id) && after.appliedGeneration == row.generation == s.currentGeneration
  {
    hide ApplySnapshot;
  }

  lemma BatchWrites(s: State, cfg: Config, m: Message, now: int)
    requires m.Events? && EventsTxn(s, cfg, m, now).1.Applied?
    ensures
      var after := EventsTxn(s, cfg, m, now).0;
      && OthersSame(s, after, m.agent) && after.agents[m.agent] == AgentRow(m.sequence, Fresh)
      && after == s.(store := after.store, kept := after.kept, agents := after.agents)
  {
    hide ApplyEvents;
  }

  // ---- What a refusal writes -----------------------------------------------------

  // A refusal that calls for a demand changed nothing itself, and a torn snapshot is the open one it names.
  lemma PageRefused(s: State, m: Message)
    requires m.Page?
    ensures
      var (after, outcome) := PageTxn(s, m);
      outcome.Torn? || outcome.Gap? || outcome.StaleSnapshot? ==>
        after == s && (s.active == Some(m.agent) && (outcome.StaleSnapshot? || m.agent in s.agents))
        && (outcome.Torn? ==> Open(s, m.uid) && outcome.snapshot == s.snapshots[m.uid].id)
  {
    hide Stage;
  }

  lemma RefusalMeets(s: State, cfg: Config, m: Message, now: int, visit: Visit)
    requires Inv(s) && ValidVisit(s, m, visit)
    ensures
      var (after, outcome) := Handle(s, cfg, m, now, visit);
      outcome.Torn? || outcome.Gap? || outcome.StaleSnapshot? ==>
        && after == s && m.agent in s.agents
        && (outcome.Torn? ==>
            !m.Heartbeat? && !m.Events? && Open(s, m.uid) && outcome.snapshot == s.snapshots[m.uid].id)
  {
    hide Commit, ApplyEvents, Stage, Continuous, PageTxn, Rows, Projected, Generations, Ids;
    if m.Page? { PageRefused(s, m); }
  }

  lemma DemandWrites(s: State, m: Message, outcome: Outcome)
    requires Inv(s) && m.agent in s.agents
    requires outcome.Torn? || outcome.Gap? || outcome.StaleSnapshot?
    requires outcome.Torn? ==>
        !m.Heartbeat? && !m.Events? && m.uid in s.snapshots && outcome.snapshot == s.snapshots[m.uid].id
    ensures
      var after := Demanded(s, m, outcome);
      && SameProjection(s, after) && after.pending == s.pending && after.currentGeneration == s.currentGeneration
      && OthersSame(s, after, m.agent)
      && after.agents[m.agent] == AgentRow(s.agents[m.agent].lastSequence, ReconcileRequired)
      && after.snapshots.Keys == s.snapshots.Keys
      && (forall u :: u in s.snapshots ==>
           after.snapshots[u] == if outcome.Torn? && u == m.uid then s.snapshots[u].(status := Discarded)
                                 else s.snapshots[u])
  {
  }

  lemma OtherwiseNothing(s: State, m: Message, outcome: Outcome)
    requires !outcome.Torn? && !outcome.Gap? && !outcome.StaleSnapshot?
    ensures Demanded(s, m, outcome) == s
  {
  }

  /** A torn snapshot is discarded, it alone, and its sender marked; the other refusals of a snapshot only mark, and
      every other answer writes nothing more. */
  lemma RefusalWrites(s: State, cfg: Config, m: Message, now: int, visit: Visit)
    requires Inv(s) && ValidVisit(s, m, visit)
    ensures
      var outcome := Handle(s, cfg, m, now, visit).1;
      var after := Demanded(Handle(s, cfg, m, now, visit).0, m, outcome);
      if outcome.Torn? || outcome.Gap? || outcome.StaleSnapshot? then
        && SameProjection(s, after) && after.pending == s.pending && after.currentGeneration == s.currentGeneration
        && m.agent in s.agents && OthersSame(s, after, m.agent)
        && after.agents[m.agent] == AgentRow(s.agents[m.agent].lastSequence, ReconcileRequired)
        && after.snapshots.Keys == s.snapshots.Keys
        && (outcome.Torn? ==> Open(s, m.uid))
        && (forall u :: u in s.snapshots ==>
             after.snapshots[u] == if outcome.Torn? && u == m.uid then s.snapshots[u].(status := Discarded)
                                   else s.snapshots[u])
      else after == Handle(s, cfg, m, now, visit).0
  {
    RefusalMeets(s, cfg, m, now, visit);
    hide Handle, Demanded, OthersSame, SameProjection;
    var outcome := Handle(s, cfg, m, now, visit).1;
    if outcome.Torn? || outcome.Gap? || outcome.StaleSnapshot? {
      DemandWrites(s, m, outcome);
    } else {
      OtherwiseNothing(Handle(s, cfg, m, now, visit).0, m, outcome);
    }
  }

  lemma OneStep(s: State, cfg: Config, e: Event)
    requires Enabled(s, e)
    ensures IsRunOf([s, Perform(s, cfg, e)], [e], cfg)
  {
  }

  /** A request, whatever its answer, is a run of the server: its transaction, and then the demand it calls for. */
  lemma RequestIsARun(s: State, cfg: Config, m: Message, now: int, visit: Visit)
    returns (states: seq<State>, events: seq<Event>)
    requires ValidVisit(s, m, visit)
    ensures IsRunOf(states, events, cfg) && states[0] == s
    ensures
      var (after, outcome) := Handle(s, cfg, m, now, visit);
      && events == [Deliver(m, now, visit)] + (
           if outcome.Torn? then [DemandReconcile(m.agent, Some(outcome.snapshot))]
           else if outcome.Gap? || outcome.StaleSnapshot? then [DemandReconcile(m.agent, None)] else [])
      && states[|events|] == Demanded(after, m, outcome)
  {
    hide BeginTxn, PageTxn, CompleteTxn, EventsTxn;
    var (after, outcome) := Handle(s, cfg, m, now, visit);
    OneStep(s, cfg, Deliver(m, now, visit));
    hide Handle;
    states, events := [s, after], [Deliver(m, now, visit)];
    if outcome.Torn? || outcome.Gap? || outcome.StaleSnapshot? {
      var demand := DemandReconcile(m.agent, if outcome.Torn? then Some(outcome.snapshot) else None);
      states, events := states + [Perform(after, cfg, demand)], events + [demand];
    }
  }
}
