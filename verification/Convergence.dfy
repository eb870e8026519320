/** Nothing wedges the system: wherever a live system has come to, however far its agent lags, there is a way on to a
    watch session in which the projection is the cluster. */
module Convergence {
  import opened Inventory
  import opened Projection
  import opened Server
  import opened Accounting
  import opened ServerInvariants
  import opened Replication
  import opened ReplicationInvariants
  import opened ReplicationAgentSteps
  import opened ReplicationTheorems
  import opened Recovery
  import opened SnapshotRoundTrip
  import opened Ingest

  // ---- Behaviours as they grow -----------------------------------------------

  datatype Trace = Trace(states: seq<System>, actions: seq<Action>)

  /** A behaviour; and a calm one without an accepted begin from `start` on, if `start` is given. */
  ghost predicate IsTrace(w: World, t: Trace, start: Option<nat>) {
    && |t.states| == |t.actions| + 1 && IsBehaviour(w, t.states, t.actions)
    && (start.Some? ==> Recovering(w, t.states, t.actions, start.value, |t.actions|))
  }

  function Latest(t: Trace): System
    requires t.states != []
  {
    t.states[|t.states| - 1]
  }

  function Longer(t: Trace, action: Action, s: System): Trace {
    Trace(t.states + [s], t.actions + [action])
  }

  predicate Extends(t: Trace, u: Trace) {
    t.states <= u.states && t.actions <= u.actions
  }

  lemma StillCalm(w: World, t: Trace, start: nat, action: Action, s: System, k: nat)
    requires k < |t.actions| && |t.states| == |t.actions| + 1 && Calm(w, t.states, t.actions, start, k)
    ensures Calm(w, Longer(t, action, s).states, Longer(t, action, s).actions, start, k)
  {
    var longer := Longer(t, action, s);
    assert longer.states[k] == t.states[k] && longer.actions[k] == t.actions[k];
    if t.actions[k].Fail? {
      var m := t.states[k].agent.waiting.value;
      var j :| start <= j < k && t.actions[j].DeliverCopy? && t.actions[j].message == m
        && CanAct(w, t.states[j], t.actions[j]) && !ReplyAt(w, t.states[j], t.actions[j]).Acknowledged();
      assert longer.states[j] == t.states[j] && longer.actions[j] == t.actions[j];
    }
  }

  lemma BehaviourOn(w: World, t: Trace, action: Action, s: System)
    requires IsBehaviour(w, t.states, t.actions) && IsStep(w, Latest(t), action, s)
    ensures IsBehaviour(w, Longer(t, action, s).states, Longer(t, action, s).actions) && |t.states| == |t.actions| + 1
  {
    hide IsStep, Enrolled;
    var states, actions := t.states + [s], t.actions + [action];
    forall k | 0 <= k < |actions| ensures IsStep(w, states[k], actions[k], states[k + 1]) {
      if k < |t.actions| { assert actions[k] == t.actions[k]; }
    }
    assert IsBehaviour(w, states, actions);
  }

  lemma CalmOn(w: World, t: Trace, start: nat, action: Action, s: System)
    requires IsTrace(w, t, Some(start)) && IsStep(w, Latest(t), action, s)
    requires Calm(w, Longer(t, action, s).states, Longer(t, action, s).actions, start, |t.actions|)
    requires !IsAccepted(w, Latest(t), action)
    ensures IsTrace(w, Longer(t, action, s), Some(start))
  {
    hide IsStep, IsAccepted, Calm, IsBehaviour;
    var longer := Longer(t, action, s);
    BehaviourOn(w, t, action, s);
    assert longer.states[start] == t.states[start];
    forall k | start <= k < |longer.actions| ensures CalmAt(w, longer.states, longer.actions, start, k) {
      if k < |t.actions| {
        assert CalmAt(w, t.states, t.actions, start, k);
        assert longer.actions[k] == t.actions[k] && longer.states[k] == t.states[k];
        StillCalm(w, t, start, action, s, k);
      }
    }
  }

  // Neither a failure nor anything that disturbs the process, and no delivery but that of the outstanding request.
  predicate IsRoutine(s: System, action: Action) {
    || action.StartCycle? || action.ListCollection? || action.SendPage? || action.SendComplete? || action.ReceiveAck?
    || (action.DeliverCopy? && s.agent.waiting == Some(action.message))
  }

  lemma StepOn(w: World, t: Trace, start: Option<nat>, action: Action, s: System) returns (u: Trace)
    requires IsTrace(w, t, start) && IsStep(w, Latest(t), action, s)
    requires start.Some? ==> IsRoutine(Latest(t), action) && !IsAccepted(w, Latest(t), action)
    ensures u == Longer(t, action, s) && IsTrace(w, u, start) && Extends(t, u) && Latest(u) == s
  {
    u := Longer(t, action, s);
    BehaviourOn(w, t, action, s);
    if start.Some? { CalmOn(w, t, start.value, action, s); }
  }

  // The outstanding request is refused, and the agent gives the cycle up.
  lemma GiveUp(w: World, t: Trace, start: nat, deliver: Action, refused: System) returns (u: Trace)
    requires IsTrace(w, t, Some(start)) && IsStep(w, Latest(t), deliver, refused)
    requires deliver.DeliverCopy? && Latest(t).agent.waiting == refused.agent.waiting == Some(deliver.message)
    requires !ReplyAt(w, Latest(t), deliver).Acknowledged() && InCycle(refused.agent)
        && refused.agent.uid in refused.sessions
    ensures IsTrace(w, u, Some(start)) && Extends(t, u) && Latest(u) == Stopped(refused, Idle, refused.agent.sequence)
  {
    hide Recovering, Act, Handle;
    var s, k := Stopped(refused, Idle, refused.agent.sequence), |t.actions|;
    var v := StepOn(w, t, Some(start), deliver, refused);
    FailIsStep(w, refused);
    u := Longer(v, Fail, s);
    StartsWithin(w, t, start);
    assert u.states[k] == Latest(t) && u.actions[k] == deliver && u.actions[k + 1] == Fail;
    assert Refused(w, u.states, u.actions, start, k + 1, deliver.message);
    CalmOn(w, v, start, Fail, s);
  }

  lemma StartsWithin(w: World, t: Trace, start: nat)
    requires IsTrace(w, t, Some(start))
    ensures start <= |t.actions|
  {
  }

  lemma LatestInv(w: World, t: Trace, start: Option<nat>)
    requires IsTrace(w, t, start)
    ensures SystemInv(w, Latest(t))
  {
    hide SystemInv;
    Reachable(w, t.states, t.actions, |t.actions|);
  }

  // ---- Listing everything ----------------------------------------------------

  /** The objects the cluster holds. */
  ghost function Objects(logs: Logs): set<Uid> {
    set kind, u | kind in logs && u in Collection(logs[kind]) :: u
  }

  lemma {:induction false} ListOf(m: EntityMap) returns (items: seq<Resource>)
    requires forall u :: u in m ==> m[u].uid == u
    ensures IsListOf(items, m)
    ensures forall i :: 0 <= i < |items| ==> items[i].entity.uid in m && m[items[i].entity.uid] == items[i].entity
    decreases |m|
  {
    if m == map[] { return []; }
    var u :| u in m;
    var front := ListOf(m - {u});
    var r := Resource(m[u], 0);
    items := front + [r];
    assert items[..|items| - 1] == front;
    assert Collect(items) == Collect(front)[u := m[u]];
  }

  /** What is listed so far: every collection at the head of its log, each object once. */
  ghost predicate Stocked(w: World, logs: Logs, versions: map<Kind, nat>, all: seq<Resource>) {
    && Distinct(all)
    && (forall i :: 0 <= i < |all| ==> OfCluster(w, logs, versions.Keys, all[i].entity))
    && (forall kind :: kind in versions ==> versions[kind] == |LogOf(logs, kind)|)
  }

  ghost predicate OfCluster(w: World, logs: Logs, kinds: set<Kind>, e: Entity) {
    Named(w.identity, e) && e.ident.kind in kinds && e.uid in Collection(LogOf(logs, e.ident.kind))
  }

  lemma StockOn(w: World, logs: Logs, versions: map<Kind, nat>, all: seq<Resource>, kind: Kind, items: seq<Resource>)
    requires Stocked(w, logs, versions, all) && kind !in versions && Distinct(items)
    requires forall i :: 0 <= i < |items| ==> OfCluster(w, logs, {kind}, items[i].entity)
    ensures Stocked(w, logs, versions[kind := |LogOf(logs, kind)|], all + items)
  {
    forall i, j | 0 <= i < |all| && 0 <= j < |items| ensures all[i].entity.uid != items[j].entity.uid {
      assert OfCluster(w, logs, versions.Keys, all[i].entity) && OfCluster(w, logs, {kind}, items[j].entity);
    }
  }

  lemma CollectionListed(w: World, logs: Logs, kind: Kind) returns (items: seq<Resource>)
    requires LogsOk(w.identity, logs)
    ensures IsListOf(items, Collection(LogOf(logs, kind)[..|LogOf(logs, kind)|]))
    ensures forall i :: 0 <= i < |items| ==> OfCluster(w, logs, {kind}, items[i].entity)
  {
    var log := LogOf(logs, kind);
    assert log[..|log|] == log;
    LogOkOf(w.identity, logs, kind, |log|);
    CollectionOfKind(w.identity, log, kind);
    items := ListOf(Collection(log));
  }

  ghost predicate InListing(s: System) {
    s.agent.phase.Listing? && s.agent.waiting.None? && s.agent.uid in s.sessions
  }

  // The same system, but for what the agent has listed.
  predicate ListedOn(s: System, t: System) {
    t == s.(agent := s.agent.(versions := t.agent.versions, pending := t.agent.pending))
  }

  lemma ListOne(w: World, t: Trace, start: Option<nat>, kind: Kind) returns (u: Trace)
    requires IsTrace(w, t, start) && InListing(Latest(t)) && kind !in Latest(t).agent.versions
    requires Stocked(w, Latest(t).logs, Latest(t).agent.versions, Latest(t).agent.pending)
    ensures IsTrace(w, u, start) && Extends(t, u) && ListedOn(Latest(t), Latest(u))
    ensures Latest(u).agent.versions.Keys == Latest(t).agent.versions.Keys + {kind}
    ensures Stocked(w, Latest(t).logs, Latest(u).agent.versions, Latest(u).agent.pending)
  {
    hide Recovering, IsBehaviour, IsStep, Stocked, IsListOf, OfCluster, IsAccepted;
    var s := Latest(t);
    LogsAreOk(w, t, start);
    var items := CollectionListed(w, s.logs, kind);
    var version, action := |LogOf(s.logs, kind)|, Action.ListCollection(kind, |LogOf(s.logs, kind)|, items);
    ListIsStep(w, s, kind, version, items);
    NoDelivery(w, s, action);
    u := StepOn(w, t, start, action, Replication.Listed(s, kind, version, items));
    ListIsDistinct(items, Collection(LogOf(s.logs, kind)[..version]));
    StockOn(w, s.logs, s.agent.versions, s.agent.pending, kind, items);
  }

  lemma Onward(t: Trace, u: Trace, v: Trace)
    requires Extends(t, u) && Extends(u, v)
    ensures Extends(t, v)
  {
  }

  lemma NotListedYet(t: Trace)
    requires t.states != []
    ensures Extends(t, t) && ListedOn(Latest(t), Latest(t))
  {
  }

  lemma ListedTwice(s: System, t: System, u: System)
    requires ListedOn(s, t) && (t == u || ListedOn(t, u))
    ensures ListedOn(s, u) && t.logs == s.logs && (InListing(s) ==> InListing(t))
  {
  }

  lemma Regrouped(listed: set<Kind>, kind: Kind, kinds: set<Kind>)
    requires kind in kinds && kinds !! listed
    ensures listed + {kind} + (kinds - {kind}) == listed + kinds && (kinds - {kind}) !! (listed + {kind})
  {
  }

  /** Every kind in `kinds` is listed at the head of its log; nothing else moves. */
  lemma {:induction false} ListAll(w: World, t: Trace, start: Option<nat>, kinds: set<Kind>) returns (u: Trace)
    requires IsTrace(w, t, start) && InListing(Latest(t)) && kinds !! Latest(t).agent.versions.Keys
    requires Stocked(w, Latest(t).logs, Latest(t).agent.versions, Latest(t).agent.pending)
    ensures IsTrace(w, u, start) && Extends(t, u) && ListedOn(Latest(t), Latest(u))
    ensures Latest(u).agent.versions.Keys == Latest(t).agent.versions.Keys + kinds
    ensures Stocked(w, Latest(t).logs, Latest(u).agent.versions, Latest(u).agent.pending)
    decreases |kinds|
  {
    hide Recovering, IsBehaviour, Stocked, ListedOn, Extends, InListing;
    u := t;
    NotListedYet(t);
    if kinds != {} {
      var kind :| kind in kinds;
      var v := ListOne(w, t, start, kind);
      ListedTwice(Latest(t), Latest(v), Latest(v));
      Regrouped(Latest(t).agent.versions.Keys, kind, kinds);
      u := ListAll(w, v, start, kinds - {kind});
      ListedTwice(Latest(t), Latest(v), Latest(u));
      Onward(t, v, u);
    }
  }

  lemma ListIsDistinct(items: seq<Resource>, collection: EntityMap)
    requires IsListOf(items, collection)
    ensures Distinct(items)
  {
  }

  lemma LogsAreOk(w: World, t: Trace, start: Option<nat>)
    requires IsTrace(w, t, start)
    ensures LogsOk(w.identity, Latest(t).logs)
  {
    LatestInv(w, t, start);
  }

  lemma NoDelivery(w: World, s: System, action: Action)
    requires !action.DeliverCopy?
    ensures !IsAccepted(w, s, action)
  {
  }

  // ---- A stale cycle ---------------------------------------------------------

  // An idle agent, `behind` numbers behind the server; a negative number is ahead of it.
  ghost predicate IsBehind(w: World, s: System, behind: int) {
    && Live(w, s) && w.me in s.server.agents && s.agent.phase.Idle? && s.agent.waiting.None?
    && s.agent.sequence + behind == Last(w, s)
  }

  // In a cycle whose begin was stale.
  ghost predicate HasBegun(w: World, s: System, behind: int) {
    && Live(w, s) && w.me in s.server.agents && InListing(s) && s.agent.uid !in s.server.snapshots
    && s.agent.sequence + behind == Last(w, s)
  }

  lemma NothingStocked(w: World, logs: Logs)
    ensures Stocked(w, logs, map[], [])
  {
  }

  lemma StaleIsStep(w: World, now: int, s: System, m: Message)
    requires Live(w, s) && w.me in s.server.agents && m in s.sent && m.Begin? && m.agent == w.me
    requires m.uid !in s.server.snapshots && m.sequence <= Last(w, s)
        && (InCycle(s.agent) ==> s.agent.uid in s.sessions)
    ensures IsStep(w, s, DeliverCopy(m, now, Visit([], [])), Delivered(s, m, (s.server, Stale)))
    ensures !IsAccepted(w, s, DeliverCopy(m, now, Visit([], [])))
  {
  }

  lemma StaleBegin(w: World, now: int, t: Trace, start: nat, uid: SnapshotUid, behind: int) returns (u: Trace)
    requires IsTrace(w, t, Some(start)) && IsBehind(w, Latest(t), behind) && behind > 0
    requires uid !in Latest(t).sessions && uid !in Latest(t).server.snapshots
    ensures IsTrace(w, u, Some(start)) && Extends(t, u) && HasBegun(w, Latest(u), behind - 1)
    ensures Latest(u).agent.versions == map[] && Latest(u).agent.pending == [] && Latest(u).logs == Latest(t).logs
  {
    hide Recovering, IsStep, IsAccepted, CanAct;
    var s := Latest(t);
    var started, m := Started(w, s, uid), BeginMessage(w, s.agent, uid);
    StartIsStep(w, s, uid);
    NoDelivery(w, s, StartCycle(uid));
    u := StepOn(w, t, Some(start), StartCycle(uid), started);
    var deliver, stale := DeliverCopy(m, now, Visit([], [])), Delivered(started, m, (s.server, Stale));
    StaleIsStep(w, now, started, m);
    u := StepOn(w, u, Some(start), deliver, stale);
    AckIsStep(w, stale, true);
    NoDelivery(w, stale, ReceiveAck(true));
    u := StepOn(w, u, Some(start), ReceiveAck(true), Acknowledged(stale, true));
  }

  // What the agent sends next: a page, or the complete when nothing is pending.
  function NextSize(a: Agent): nat {
    if |a.pending| <= SNAPSHOT_PAGE_MAX then |a.pending| else SNAPSHOT_PAGE_MAX
  }

  function NextAction(a: Agent): Action {
    if a.pending == [] then SendComplete else SendPage(NextSize(a))
  }

  ghost function SentNext(w: World, s: System): System
    requires s.agent.uid in s.sessions
  {
    if s.agent.pending == [] then Completed(w, s) else Paged(w, s, NextSize(s.agent))
  }

  lemma NextIsStep(w: World, s: System)
    requires InListing(s)
    ensures IsStep(w, s, NextAction(s.agent), SentNext(w, s)) && !IsAccepted(w, s, NextAction(s.agent))
  {
    hide IsStep;
    NoDelivery(w, s, NextAction(s.agent));
    if s.agent.pending == [] { CompleteIsStep(w, s); } else { PageIsStep(w, s, NextSize(s.agent)); }
  }

  lemma RefusedIsStep(w: World, now: int, s: System, m: Message)
    requires Live(w, s) && m in s.sent && (m.Page? || m.Complete?) && m.agent == w.me && m.uid !in s.server.snapshots
    requires InCycle(s.agent) ==> s.agent.uid in s.sessions
    ensures IsStep(w, s, DeliverCopy(m, now, Visit([], [])), Delivered(s, m, (s.server, StaleSnapshot)))
    ensures CanAct(w, s, DeliverCopy(m, now, Visit([], [])))
    ensures ReplyAt(w, s, DeliverCopy(m, now, Visit([], []))) == StaleSnapshot
  {
  }

  lemma RefusedNext(w: World, now: int, t: Trace, start: nat, behind: int) returns (u: Trace)
    requires IsTrace(w, t, Some(start)) && HasBegun(w, Latest(t), behind)
    ensures IsTrace(w, u, Some(start)) && Extends(t, u) && IsBehind(w, Latest(u), behind - 1)
        && Latest(u).logs == Latest(t).logs
  {
    hide Recovering, IsStep, IsAccepted, CanAct, ReplyAt;
    var s, sent := Latest(t), SentNext(w, Latest(t));
    var m := sent.agent.waiting.value;
    NextIsStep(w, s);
    var v := StepOn(w, t, Some(start), NextAction(s.agent), sent);
    var deliver, refused := DeliverCopy(m, now, Visit([], [])), Delivered(sent, m, (s.server, StaleSnapshot));
    RefusedIsStep(w, now, sent, m);
    u := GiveUp(w, v, start, deliver, refused);
    Onward(t, v, u);
  }

  /** One cycle as the agent runs it: the begin is stale, everything is listed, and the first page is refused. */
  lemma StaleCycleIsPossible(w: World, now: int, t: Trace, start: nat, uid: SnapshotUid, behind: int) returns (u: Trace)
    requires IsTrace(w, t, Some(start)) && IsBehind(w, Latest(t), behind) && behind > 0
    requires uid !in Latest(t).sessions && uid !in Latest(t).server.snapshots
    ensures IsTrace(w, u, Some(start)) && Extends(t, u) && IsBehind(w, Latest(u), behind - 2)
        && Latest(u).logs == Latest(t).logs
  {
    hide Recovering, IsBehaviour, Stocked;
    var begun := StaleBegin(w, now, t, start, uid, behind);
    NothingStocked(w, Latest(t).logs);
    var listed := ListAll(w, begun, Some(start), Latest(t).logs.Keys);
    u := RefusedNext(w, now, listed, start, behind - 1);
    Onward(t, begun, listed);
    Onward(t, listed, u);
  }

  ghost function Longest(used: set<SnapshotUid>): (n: nat)
    ensures forall u :: u in used ==> |u.text| <= n
    decreases |used|
  {
    if used == {} then 0
    else
      var u :| u in used;
      var n := Longest(used - {u});
      if |u.text| <= n then n else |u.text|
  }

  lemma FreshUid(used: set<SnapshotUid>) returns (uid: SnapshotUid)
    ensures uid !in used
  {
    uid := SnapshotUid(seq(Longest(used) + 1, _ => 'x'));
  }

  // A begin is on its way that the server will accept.
  ghost predicate IsOpening(w: World, s: System, m: Message) {
    && Live(w, s) && w.me in s.server.agents && s.agent.phase.Listing? && s.agent.waiting == Some(m) && m in s.sent
    && s.agent.requests > 0 && m == Begin(w.me, s.agent.sequence, s.agent.requests - 1, s.agent.uid)
    && Last(w, s) < m.sequence && m.uid !in s.server.snapshots && m.uid in s.sessions
    && s.agent.versions == map[] && s.agent.pending == [] && s.agent.pages == 0 && s.agent.total == 0
    && s.agent.batch == [] && s.agent.queue == []
  }

  lemma OpeningIsAccepted(w: World, now: int, s: System, m: Message)
    requires IsOpening(w, s, m)
    ensures IsAccepted(w, s, DeliverCopy(m, now, Visit([], [])))
  {
  }

  /** However far behind, an agent that keeps trying opens a snapshot: from any calm stretch there is a further one
      at whose end a begin is accepted. */
  lemma {:induction false} RecoveryIsPossible(w: World, now: int, t: Trace, start: nat, behind: int)
    returns (u: Trace, m: Message)
    requires IsTrace(w, t, Some(start)) && IsBehind(w, Latest(t), behind)
    ensures IsTrace(w, u, Some(start)) && Extends(t, u) && Latest(u).logs == Latest(t).logs
    ensures IsOpening(w, Latest(u), m) && IsAccepted(w, Latest(u), DeliverCopy(m, now, Visit([], [])))
    decreases behind
  {
    hide Recovering, IsStep, IsAccepted, IsBehaviour;
    var s := Latest(t);
    var uid := FreshUid(s.sessions.Keys + s.server.snapshots.Keys);
    if behind > 0 {
      var v := StaleCycleIsPossible(w, now, t, start, uid, behind);
      u, m := RecoveryIsPossible(w, now, v, start, behind - 2);
      Onward(t, v, u);
    } else {
      m := BeginMessage(w, s.agent, uid);
      StartIsStep(w, s, uid);
      NoDelivery(w, s, StartCycle(uid));
      u := StepOn(w, t, Some(start), StartCycle(uid), Started(w, s, uid));
      OpeningIsAccepted(w, now, Latest(u), m);
    }
  }

  // ---- From the accepted begin to the watch session ----------------------------

  /** The begin, numbered `first` + 1, and `pages` have been accepted and acknowledged. */
  ghost predicate Loading(w: World, now: int, s: System, pages: seq<seq<Resource>>, first: nat) {
    && InListing(s) && Received(s.server, w.me, first, s.agent.uid, pages, |pages|, now)
    && s.agent.sequence == first + 1 + |pages| && s.agent.requests > |pages|
    && s.agent.pages == |pages| && s.agent.total == |Concat(pages)| && s.agent.batch == [] && s.agent.queue == []
  }

  lemma LoadingListed(w: World, now: int, s: System, t: System, first: nat)
    requires Loading(w, now, s, [], first) && ListedOn(s, t)
    ensures Loading(w, now, t, [], first)
  {
  }

  lemma AcceptIsStep(w: World, now: int, s: System, m: Message) returns (after: State)
    requires IsOpening(w, s, m)
    ensures IsStep(w, s, DeliverCopy(m, now, Visit([], [])), Delivered(s, m, (after, Accepted)))
    ensures m.sequence > 0 && Received(after, w.me, m.sequence - 1, m.uid, [], 0, now)
  {
    after := BeginTxn(s.server, m, now).0;
    BeginReceived(s.server, w.me, m.sequence - 1, m.request, m.uid, [], now);
  }

  lemma Accept(w: World, now: int, t: Trace, m: Message) returns (u: Trace)
    requires IsTrace(w, t, None) && IsOpening(w, Latest(t), m)
    ensures IsTrace(w, u, None) && Extends(t, u) && m.sequence > 0 && Loading(w, now, Latest(u), [], m.sequence - 1)
    ensures Latest(u).agent.versions == map[] && Latest(u).agent.pending == [] && Latest(u).logs == Latest(t).logs
  {
    hide IsBehaviour, IsStep;
    var s := Latest(t);
    var after := AcceptIsStep(w, now, s, m);
    var granted := Delivered(s, m, (after, Accepted));
    var v := StepOn(w, t, None, DeliverCopy(m, now, Visit([], [])), granted);
    AckIsStep(w, granted, true);
    u := StepOn(w, v, None, ReceiveAck(true), Acknowledged(granted, true));
    Onward(t, v, u);
    assert Concat<Resource>([]) == [];
  }

  lemma ReceivedSoFar(now: int, s: State, me: AgentId, first: nat, uid: SnapshotUid, pages: seq<seq<Resource>>,
                      page: seq<Resource>)
    requires Received(s, me, first, uid, pages, |pages|, now)
    ensures Received(s, me, first, uid, pages + [page], |pages|, now)
  {
    assert (pages + [page])[..|pages|] == pages[..|pages|];
  }

  lemma DeliverIsStep(w: World, now: int, s: System, m: Message, reply: (State, Outcome))
    requires m in s.sent && m.Page? && PageTxn(s.server, m) == reply && (InCycle(s.agent) ==> s.agent.uid in s.sessions)
    ensures IsStep(w, s, DeliverCopy(m, now, Visit([], [])), Delivered(s, m, reply))
  {
  }

  lemma PageIsNext(w: World, now: int, s: System, pages: seq<seq<Resource>>, first: nat) returns (part: Message)
    requires Loading(w, now, s, pages, first) && s.agent.pending != []
    ensures
      var page, sent := s.agent.pending[..NextSize(s.agent)], Paged(w, s, NextSize(s.agent));
      && s.agent.requests > |pages| && sent.agent.waiting == Some(part) && part in sent.sent
      && part == PagePart(w.me, first, s.agent.requests - |pages| - 1, s.agent.uid, pages + [page], |pages| + 1)
      && sent.server == s.server && sent.agent.uid in sent.sessions
  {
    part := PageMessage(w, s.agent, NextSize(s.agent));
  }

  lemma PageIsAccepted(w: World, now: int, s: System, sent: System, pages: seq<seq<Resource>>, first: nat)
    returns (after: State)
    requires Loading(w, now, s, pages, first) && s.agent.pending != [] && sent == Paged(w, s, NextSize(s.agent))
    requires |Concat(pages)| + |s.agent.pending| <= MAX_SNAPSHOT_RESOURCES
    ensures
      var m, page := sent.agent.waiting.value, s.agent.pending[..NextSize(s.agent)];
      && IsStep(w, sent, DeliverCopy(m, now, Visit([], [])), Delivered(sent, m, (after, Accepted)))
      && Received(after, w.me, first, s.agent.uid, pages + [page], |pages| + 1, now)
      && |Concat(pages + [page])| == |Concat(pages)| + |page|
  {
    var page := s.agent.pending[..NextSize(s.agent)];
    var more, n := pages + [page], |pages| + 1;
    hide IsStep, Received, PageTxn, Concat, PagePart, Paged, Delivered;
    var part := PageIsNext(w, now, s, pages, first);
    ConcatAppend(pages, page);
    assert more[..n] == more;
    ReceivedSoFar(now, s.server, w.me, first, s.agent.uid, pages, page);
    PageReceived(s.server, w.me, first, s.agent.requests - n, s.agent.uid, more, n, now);
    after := PageTxn(s.server, part).0;
    DeliverIsStep(w, now, sent, part, (after, Accepted));
  }

  lemma LoadPage(w: World, now: int, t: Trace, pages: seq<seq<Resource>>, first: nat)
    returns (u: Trace, more: seq<seq<Resource>>)
    requires IsTrace(w, t, None) && Loading(w, now, Latest(t), pages, first) && Latest(t).agent.pending != []
    requires |Concat(pages)| + |Latest(t).agent.pending| <= MAX_SNAPSHOT_RESOURCES
    ensures IsTrace(w, u, None) && Extends(t, u) && Loading(w, now, Latest(u), more, first)
    ensures Concat(more) + Latest(u).agent.pending == Concat(pages) + Latest(t).agent.pending
    ensures |Latest(u).agent.pending| < |Latest(t).agent.pending|
    ensures Latest(u).agent.versions == Latest(t).agent.versions && Latest(u).logs == Latest(t).logs
  {
    hide IsBehaviour, IsStep, Received, IsAccepted;
    var s := Latest(t);
    var size, sent := NextSize(s.agent), SentNext(w, s);
    more := pages + [s.agent.pending[..size]];
    NextIsStep(w, s);
    var v := StepOn(w, t, None, NextAction(s.agent), sent);
    var after := PageIsAccepted(w, now, s, sent, pages, first);
    var m := sent.agent.waiting.value;
    var accepted := Delivered(sent, m, (after, Accepted));
    var x := StepOn(w, v, None, DeliverCopy(m, now, Visit([], [])), accepted);
    AckIsStep(w, accepted, true);
    u := StepOn(w, x, None, ReceiveAck(true), Acknowledged(accepted, true));
    Onward(t, v, x);
    Onward(t, x, u);
    ConcatAppend(pages, s.agent.pending[..size]);
    Associative(Concat(pages), s.agent.pending[..size], s.agent.pending[size..]);
    assert s.agent.pending[..size] + s.agent.pending[size..] == s.agent.pending;
  }

  lemma {:induction false} LoadAll(w: World, now: int, t: Trace, pages: seq<seq<Resource>>, first: nat)
    returns (u: Trace, more: seq<seq<Resource>>)
    requires IsTrace(w, t, None) && Loading(w, now, Latest(t), pages, first)
    requires |Concat(pages)| + |Latest(t).agent.pending| <= MAX_SNAPSHOT_RESOURCES
    ensures IsTrace(w, u, None) && Extends(t, u) && Loading(w, now, Latest(u), more, first)
    ensures Latest(u).agent.pending == [] && Concat(more) == Concat(pages) + Latest(t).agent.pending
    ensures Latest(u).agent.versions == Latest(t).agent.versions && Latest(u).logs == Latest(t).logs
    decreases |Latest(t).agent.pending|
  {
    hide IsBehaviour, Loading, Extends, Concat;
    if Latest(t).agent.pending == [] {
      NotListedYet(t);
      u, more := t, pages;
      assert Concat(pages) + [] == Concat(pages);
    } else {
      var v, some := LoadPage(w, now, t, pages, first);
      assert |Concat(some)| + |Latest(v).agent.pending| == |Concat(some) + Latest(v).agent.pending|;
      u, more := LoadAll(w, now, v, some, first);
      Onward(t, v, u);
    }
  }

  lemma ReceivedIsOpen(s: State, me: AgentId, first: nat, uid: SnapshotUid, pages: seq<seq<Resource>>, begun: int)
    requires Received(s, me, first, uid, pages, |pages|, begun)
    ensures uid in s.snapshots && s.snapshots[uid].status.Pending?
  {
  }

  lemma CompletePasses(w: World, now: int, s: System, closed: System, pages: seq<seq<Resource>>, first: nat)
    requires Loading(w, now, s, pages, first) && s.agent.pending == [] && Distinct(Concat(pages)) && Inv(s.server)
    requires closed == Completed(w, s)
    ensures CompleteCheck(closed.server, closed.agent.waiting.value, now, w.cfg.ttl).None?
  {
    hide Received, Distinct, Inv, CompleteCheck;
    ReceivedIsOpen(s.server, w.me, first, s.agent.uid, pages, now);
    OpenRowIsNewer(s.server, s.agent.uid);
    ReceivedIsJudged(s.server, w.cfg, w.me, first, s.agent.requests - |pages| - 1, s.agent.uid, pages, now, now);
  }

  lemma ApplyIsStep(w: World, now: int, s: System, m: Message, visit: Visit) returns (after: State)
    requires m in s.sent && m.Complete? && ValidVisit(s.server, m, visit) && InCycle(s.agent)
        && s.agent.uid in s.sessions
    requires CompleteCheck(s.server, m, now, w.cfg.ttl).None? && Live(w, s)
    ensures IsStep(w, s, DeliverCopy(m, now, visit), Delivered(s, m, (after, Applied)))
        && after.active == s.server.active
  {
    after := Commit(s.server, w.cfg, m, now, visit);
  }

  // The complete is applied, and the agent watches.
  lemma Finish(w: World, now: int, t: Trace, pages: seq<seq<Resource>>, first: nat) returns (u: Trace)
    requires IsTrace(w, t, None) && Loading(w, now, Latest(t), pages, first)
    requires Latest(t).agent.pending == [] && Distinct(Concat(pages))
    ensures IsTrace(w, u, None) && Extends(t, u) && Live(w, Latest(u)) && Latest(u).logs == Latest(t).logs
    ensures
      var a := Latest(u).agent;
      && a.phase.Watching? && a.waiting.None? && a.batch == [] && a.queue == []
      && a.versions == Latest(t).agent.versions && a.watchers == a.versions.Keys
  {
    hide IsBehaviour, IsStep, Commit, Distinct, IsAccepted, CompleteCheck, ValidVisit, SystemInv;
    var s, closed := Latest(t), Completed(w, Latest(t));
    ServerIsSound(w, t);
    CompletePasses(w, now, s, closed, pages, first);
    NextIsStep(w, s);
    var v := StepOn(w, t, None, SendComplete, closed);
    var m := closed.agent.waiting.value;
    var visit := AnyVisit(closed.server, m);
    var after := ApplyIsStep(w, now, closed, m, visit);
    var applied := Delivered(closed, m, (after, Applied));
    var x := StepOn(w, v, None, DeliverCopy(m, now, visit), applied);
    AckIsStep(w, applied, true);
    u := StepOn(w, x, None, ReceiveAck(true), Acknowledged(applied, true));
    Onward(t, v, x);
    Onward(t, x, u);
  }

  lemma ServerIsSound(w: World, t: Trace)
    requires IsTrace(w, t, None)
    ensures Inv(Latest(t).server) && w.me in Latest(t).server.agents
    ensures Live(w, Latest(t)) ==> Latest(t).agent.stored <= Last(w, Latest(t))
  {
    LatestInv(w, t, None);
  }

  // ---- The result ----------------------------------------------------------

  /** The agent dies and starts again from its stored number: it is at rest, and not ahead of the server. */
  lemma StartAgain(w: World, t: Trace) returns (u: Trace)
    requires IsTrace(w, t, None) && Live(w, Latest(t))
    ensures IsTrace(w, u, Some(|u.actions|)) && Extends(t, u) && Latest(u).logs == Latest(t).logs
    ensures IsBehind(w, Latest(u), Last(w, Latest(u)) - Latest(u).agent.sequence) && w.me in Latest(u).server.agents
  {
    hide IsBehaviour, IsStep, IsAccepted;
    var s := Latest(t);
    ServerIsSound(w, t);
    CycleIsKnown(w, t);
    var down := Stopped(s, Down, s.agent.sequence);
    StopsAndStarts(w, s);
    var v := StepOn(w, t, None, Crash, down);
    u := StepOn(w, v, None, Restart, Stopped(down, Idle, s.agent.stored));
    Onward(t, v, u);
  }

  lemma StopsAndStarts(w: World, s: System)
    requires InCycle(s.agent) ==> s.agent.uid in s.sessions
    ensures
      var down := Stopped(s, Down, s.agent.sequence);
      IsStep(w, s, Crash, down) && IsStep(w, down, Restart, Stopped(down, Idle, s.agent.stored))
  {
  }

  lemma CycleIsKnown(w: World, t: Trace)
    requires IsTrace(w, t, None)
    ensures InCycle(Latest(t).agent) ==> Latest(t).agent.uid in Latest(t).sessions
  {
    LatestInv(w, t, None);
  }

  lemma AtMostTheObjects(w: World, logs: Logs, versions: map<Kind, nat>, all: seq<Resource>)
    requires Stocked(w, logs, versions, all) && versions.Keys <= logs.Keys
    ensures |all| <= |Objects(logs)|
  {
    CollectDistinct(all);
    CollectKeys(all);
    forall u | u in Uids(all) ensures u in Objects(logs) {
      var i :| 0 <= i < |all| && all[i].entity.uid == u;
      assert OfCluster(w, logs, versions.Keys, all[i].entity);
    }
    LargerSet(Uids(all), Objects(logs));
  }

  lemma Reopen(w: World, now: int, t: Trace) returns (u: Trace, first: nat)
    requires IsTrace(w, t, None) && Live(w, Latest(t))
    ensures IsTrace(w, u, None) && Extends(t, u) && Latest(u).logs == Latest(t).logs
    ensures Loading(w, now, Latest(u), [], first) && Latest(u).agent.versions == map[] && Latest(u).agent.pending == []
  {
    hide Recovering, IsBehaviour, Loading, IsAccepted, Extends;
    var rested := StartAgain(w, t);
    var behind := Last(w, Latest(rested)) - Latest(rested).agent.sequence;
    var opening, m := RecoveryIsPossible(w, now, rested, |rested.actions|, behind);
    u := Accept(w, now, opening, m);
    first := m.sequence - 1;
    Onward(t, rested, opening);
    Onward(t, opening, u);
  }

  lemma Stream(w: World, now: int, t: Trace, first: nat) returns (u: Trace)
    requires IsTrace(w, t, None) && Loading(w, now, Latest(t), [], first)
    requires Latest(t).agent.versions == map[] && Latest(t).agent.pending == []
    requires |Objects(Latest(t).logs)| <= MAX_SNAPSHOT_RESOURCES
    ensures IsTrace(w, u, None) && Extends(t, u) && Live(w, Latest(u)) && Drained(Latest(u))
    ensures Latest(u).logs == Latest(t).logs && Latest(u).agent.versions.Keys == Latest(t).logs.Keys
  {
    hide Recovering, IsBehaviour, Stocked, Loading, IsAccepted, Extends;
    var logs := Latest(t).logs;
    NothingStocked(w, logs);
    AtRest(w, now, Latest(t), first);
    var listed := ListAll(w, t, None, logs.Keys);
    LoadingListed(w, now, Latest(t), Latest(listed), first);
    AtMostTheObjects(w, logs, Latest(listed).agent.versions, Latest(listed).agent.pending);
    assert Concat<Resource>([]) + Latest(listed).agent.pending == Latest(listed).agent.pending;
    var loaded, pages := LoadAll(w, now, listed, [], first);
    StockIsDistinct(w, logs, Latest(listed).agent.versions, Latest(listed).agent.pending);
    u := Finish(w, now, loaded, pages, first);
    Onward(t, listed, loaded);
    Onward(t, loaded, u);
  }

  /** Nothing wedges a live system. From any state it can reach, while the cluster holds no more objects than a
      snapshot may, there is a way on to a watch session of every collection that is drained: the projection then is
      the cluster. The agent restarts from its stored number, runs as many stale cycles as it lags, and streams;
      the clock need not move. */
  lemma NothingWedges(w: World, now: int, t: Trace) returns (u: Trace)
    requires IsTrace(w, t, None) && Live(w, Latest(t)) && |Objects(Latest(t).logs)| <= MAX_SNAPSHOT_RESOURCES
    ensures IsTrace(w, u, None) && Extends(t, u) && Live(w, Latest(u)) && Drained(Latest(u))
    ensures Latest(u).logs == Latest(t).logs && Latest(u).agent.versions.Keys == Latest(t).logs.Keys
    ensures forall kind :: kind in Latest(t).logs ==>
              Part(View(Latest(u).server.store.table), kind) == Collection(LogOf(Latest(t).logs, kind))
  {
    hide Recovering, IsBehaviour, Loading, View, Extends;
    var begun, first := Reopen(w, now, t);
    u := Stream(w, now, begun, first);
    Onward(t, begun, u);
    forall kind | kind in Latest(t).logs
      ensures Part(View(Latest(u).server.store.table), kind) == Collection(LogOf(Latest(t).logs, kind))
    {
      DrainedMeansEqual(w, u.states, u.actions, |u.actions|, kind);
    }
  }

  lemma AtRest(w: World, now: int, s: System, first: nat)
    requires Loading(w, now, s, [], first)
    ensures InListing(s)
  {
  }

  lemma StockIsDistinct(w: World, logs: Logs, versions: map<Kind, nat>, all: seq<Resource>)
    requires Stocked(w, logs, versions, all)
    ensures Distinct(all) && forall kind :: kind in versions ==> versions[kind] == |LogOf(logs, kind)|
  {
  }
}
