/** What the engine's methods do is what the replication model lets its agent do, step by step. An answer below 400 is
    taken to be the server's acknowledgement. */
module EngineSteps {
  import opened Inventory
  import opened Replication
  import opened ReplicationInvariants
  import opened Engine

  ghost predicate SameCounters(e: SyncEngine, w: World, a: Agent)
    reads e
  {
    e.me == w.me && e.sequence == a.sequence && e.requests == a.requests && e.stored == a.stored
  }

  // While a page is unanswered the engine has not added it to its total yet.
  ghost predicate SameCycle(e: SyncEngine, a: Agent)
    reads e
  {
    && e.uid == a.uid && e.pageNumber == a.pages && e.batch == a.batch && e.queue == a.queue
    && (a.waiting.None? ==> e.totalResources == a.total)
  }

  /** The engine within a collection. The model adds a collection to its pending resources at once, the engine one by
      one: `rest` is what the collection still has to yield. */
  ghost predicate MatchesWithin(e: SyncEngine, w: World, a: Agent, rest: seq<Resource>)
    reads e
  {
    SameCounters(e, w, a) && SameCycle(e, a) && e.pending + rest == a.pending
  }

  /** The engine between two collections. Out of a cycle only its counters matter. */
  ghost predicate Matches(e: SyncEngine, w: World, a: Agent)
    reads e
  {
    SameCounters(e, w, a) && (InCycle(a) ==> SameCycle(e, a) && e.pending == a.pending)
  }

  /** A post came back: with an answer below 400 it was acknowledged, and otherwise the cycle fails. */
  ghost function Answered(s: System, ok: bool, persisted: bool): System
    requires s.agent.waiting.Some?
  {
    if ok then Acknowledged(s, persisted) else Stopped(s, Idle, s.agent.sequence)
  }

  // In a cycle, with no request outstanding.
  ghost predicate Ready(s: System) {
    InCycle(s.agent) && s.agent.waiting.None? && s.agent.uid in s.sessions
  }

  /** Opening a cycle is StartCycle. */
  method BeginStep(e: SyncEngine, name: SnapshotUid, ghost w: World, ghost s: System)
    returns (ok: bool, ghost t: System, ghost persisted: bool)
    requires Matches(e, w, s.agent) && CanAct(w, s, StartCycle(name))
    modifies e, e.client
    ensures t == Act(w, s, StartCycle(name)) && t.agent.waiting.Some?
        && e.posted == old(e.posted) + [t.agent.waiting.value]
    ensures Matches(e, w, Answered(t, ok, persisted).agent)
  {
    ok := e.StreamBegin(name);
    t, persisted := Started(w, s, name), e.stored != s.agent.stored;
  }

  /** Posting the pending resources is SendPage of as many, wherever in a collection that is. */
  method PageStep(e: SyncEngine, ghost before: seq<Message>, ghost start: nat, ghost request: nat,
                  ghost pages: seq<seq<Resource>>, ghost rest: seq<Resource>, ghost w: World, ghost s: System)
    returns (ok: bool, ghost t: System, ghost persisted: bool)
    requires MatchesWithin(e, w, s.agent, rest) && Ready(s) && s.agent.phase.Listing?
    requires 0 < |e.pending| <= SNAPSHOT_PAGE_MAX
    requires e.Streamed(before, start, request, pages) && e.totalResources == |Concat(pages)|
    modifies e, e.client
    ensures CanAct(w, s, SendPage(|old(e.pending)|)) && t == Act(w, s, SendPage(|old(e.pending)|))
    ensures t.agent.waiting.Some? && e.posted == old(e.posted) + [t.agent.waiting.value]
    ensures ok ==> MatchesWithin(e, w, Answered(t, ok, persisted).agent, rest)
    ensures !ok ==> Matches(e, w, Answered(t, ok, persisted).agent)
  {
    hide Plan, Opening;
    ghost var size := |e.pending|;
    assert s.agent.pending[..size] == e.pending && s.agent.pending[size..] == rest;
    ConcatAppend(pages, e.pending);
    ghost var out;
    ok, out := e.FlushPage(before, start, request, pages);
    assert [] + rest == rest;
    t, persisted := Paged(w, s, size), e.stored != s.agent.stored;
  }

  /** Announcing the totals is SendComplete. */
  method CompleteStep(e: SyncEngine, ghost w: World, ghost s: System)
    returns (ok: bool, ghost t: System, ghost persisted: bool)
    requires Matches(e, w, s.agent) && Ready(s) && s.agent.phase.Listing? && e.pending == []
    modifies e, e.client
    ensures CanAct(w, s, SendComplete) && t == Act(w, s, SendComplete)
    ensures t.agent.waiting.Some? && e.posted == old(e.posted) + [t.agent.waiting.value]
    ensures Matches(e, w, Answered(t, ok, persisted).agent)
  {
    ok := e.PostComplete();
    t, persisted := Completed(w, s), e.stored != s.agent.stored;
  }

  /** Queueing the next change of a collection is WatchPush. When the queue is full the change is dropped, and
      that watcher stops. */
  method PushStep(e: SyncEngine, kind: Kind, at: int, event: WatchEvent, ghost w: World, ghost s: System)
    returns (ok: bool, ghost action: Action)
    requires Matches(e, w, s.agent) && Ready(s) && s.agent.phase.Watching?
    requires kind in s.agent.watchers && kind in s.agent.versions && s.agent.versions[kind] < |LogOf(s.logs, kind)|
    requires event == Stamp(LogOf(s.logs, kind)[s.agent.versions[kind]], at)
    modifies e
    ensures action == if ok then WatchPush(kind, at) else WatchStop(kind)
    ensures CanAct(w, s, action) && Matches(e, w, Act(w, s, action).agent)
    ensures !ok ==> e.overflow
  {
    ok := e.Enqueue(event);
    action := if ok then WatchPush(kind, at) else WatchStop(kind);
  }

  // The event of this turn is in hand: the model has it in the batch already.
  ghost predicate MatchesWith(e: SyncEngine, turn: Option<WatchEvent>, w: World, a: Agent)
    reads e
  {
    && SameCounters(e, w, a) && e.uid == a.uid && e.pending == a.pending && e.pageNumber == a.pages
    && e.totalResources == a.total && e.batch + One(turn) == a.batch && e.queue == a.queue
  }

  method TurnStep(e: SyncEngine, turn: Option<WatchEvent>, ghost w: World, ghost s: System)
    returns (ok: bool, ghost flushed: bool, ghost persisted: bool)
    requires MatchesWith(e, turn, w, s.agent) && Ready(s) && s.agent.phase.Watching? && |e.batch| < WATCH_BATCH_MAX
    modifies e`sequence, e`requests, e`posted, e`stored, e`batch, e.client
    ensures !flushed ==> ok && Matches(e, w, s.agent) && e.posted == old(e.posted)
    ensures flushed ==>
      && CanAct(w, s, Flush) && e.posted == old(e.posted) + [EventsMessage(w, s.agent)]
      && Matches(e, w, Answered(Flushed(w, s), ok, persisted).agent)
  {
    hide Shipped, AreBatches, One;
    ghost var out;
    ok, out := e.FlushTurn(turn);
    flushed, persisted := out != [], e.stored != s.agent.stored;
  }

  lemma InHand(s: System, turn: Option<WatchEvent>)
    requires Ready(s) && s.agent.phase.Watching?
        && (turn.Some? ==> s.agent.queue != [] && s.agent.queue[0] == turn.value)
    ensures
      var taken := if turn.Some? then Batched(s) else s;
      && Ready(taken) && taken.agent == s.agent.(batch := taken.agent.batch, queue := taken.agent.queue)
      && taken.agent.batch == s.agent.batch + One(turn)
      && taken.agent.queue == if turn.Some? then s.agent.queue[1..] else s.agent.queue
  {
    assert turn.None? ==> s.agent.batch + One(turn) == s.agent.batch;
  }

  /** One turn of the flush loop is a Take, a Flush, both, or nothing. */
  method FlushStep(e: SyncEngine, ghost w: World, ghost s: System)
    returns (ok: bool, ghost taken: System, ghost flushed: bool, ghost persisted: bool)
    requires Matches(e, w, s.agent) && Ready(s) && s.agent.phase.Watching? && |e.batch| < WATCH_BATCH_MAX
    modifies e, e.client
    ensures taken == s || (CanAct(w, s, Take) && taken == Act(w, s, Take))
    ensures Ready(taken) && (!flushed ==> ok && Matches(e, w, taken.agent) && e.posted == old(e.posted))
    ensures flushed ==>
      && CanAct(w, taken, Flush)
      && Act(w, taken, Flush).agent.waiting.Some?
          && e.posted == old(e.posted) + [Act(w, taken, Flush).agent.waiting.value]
      && Matches(e, w, Answered(Act(w, taken, Flush), ok, persisted).agent)
  {
    var turn := e.NextTurn();
    taken := if turn.Some? then Batched(s) else s;
    InHand(s, turn);
    ok, flushed, persisted := TurnStep(e, turn, w, taken);
  }
}
