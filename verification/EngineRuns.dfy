/** A whole snapshot of the engine is a path of the replication model's agent: whatever the API server lists and
    whatever answers come back, the messages posted are those the path sends, one for one, and the engine ends where
    the path ends. */
module EngineRuns {
  import opened Inventory
  import opened Replication
  import opened ReplicationInvariants
  import opened ReplicationTheorems
  import opened Engine
  import opened EngineSteps

  // ---- Paths -----------------------------------------------------------------

  ghost predicate LogsGrow(logs: Logs, later: Logs) {
    forall kind :: LogOf(logs, kind) <= LogOf(later, kind)
  }

  /** What happens elsewhere while the agent waits or lists: the cluster changes, and answers below 400 come in. */
  ghost predicate Elsewhere(s: System, t: System) {
    && t.agent == s.agent && t.sessions == s.sessions && t.sent == s.sent
    && s.acked <= t.acked <= s.acked + s.sent && LogsGrow(s.logs, t.logs)
  }

  ghost predicate Moves(w: World, s: System, t: System) {
    || Elsewhere(s, t)
    || exists action :: IsAgentStep(action) && IsStep(w, s, action, t)
  }

  ghost predicate IsPath(w: World, states: seq<System>) {
    forall i :: 0 <= i < |states| - 1 ==> Moves(w, states[i], states[i + 1])
  }

  ghost predicate Leads(w: World, s: System, t: System) {
    exists states :: states != [] && IsPath(w, states) && states[0] == s && states[|states| - 1] == t
  }

  lemma LeadsNowhere(w: World, s: System)
    ensures Leads(w, s, s)
  {
    assert IsPath(w, [s]);
  }

  lemma LeadsOn(w: World, s: System, t: System, u: System)
    requires Leads(w, s, t) && Moves(w, t, u)
    ensures Leads(w, s, u)
  {
    hide Moves;
    var states :| states != [] && IsPath(w, states) && states[0] == s && states[|states| - 1] == t;
    var longer := states + [u];
    forall i | 0 <= i < |longer| - 1 ensures Moves(w, longer[i], longer[i + 1]) {
      if i < |states| - 1 { assert longer[i] == states[i] && longer[i + 1] == states[i + 1]; }
    }
    assert IsPath(w, longer);
  }

  lemma ActsOn(w: World, s: System, t: System, action: Action, u: System)
    requires Leads(w, s, t) && IsAgentStep(action) && IsStep(w, t, action, u)
    ensures Leads(w, s, u)
  {
    LeadsOn(w, s, t, u);
  }

  lemma AnswerComesIn(t: System, m: Message)
    requires m in t.sent
    ensures Elsewhere(t, t.(acked := t.acked + {m}))
  {
  }

  lemma LogsChange(t: System, logs: Logs)
    requires LogsGrow(t.logs, logs)
    ensures Elsewhere(t, t.(logs := logs))
  {
  }

  // The answer to the outstanding request comes in, and the agent takes it.
  lemma AnsweredOn(w: World, s: System, t: System, m: Message, persisted: bool)
    requires Leads(w, s, t) && InCycle(t.agent) && t.agent.uid in t.sessions
    requires t.agent.waiting == Some(m) && m in t.sent
    ensures Leads(w, s, Acknowledged(t.(acked := t.acked + {m}), persisted))
  {
    hide Leads, IsStep, Elsewhere;
    var u := t.(acked := t.acked + {m});
    AnswerComesIn(t, m);
    LeadsOn(w, s, t, u);
    AckIsStep(w, u, persisted);
    ActsOn(w, s, u, ReceiveAck(persisted), Acknowledged(u, persisted));
  }

  // ---- A cycle under way -----------------------------------------------------

  function Posted(messages: seq<Message>): set<Message> {
    set m | m in messages
  }

  // What a cycle of an agent starts from.
  datatype Start = Start(s: System, me: AgentId, sequence: nat, request: nat, uid: SnapshotUid)

  ghost predicate IsStart(w: World, o: Start) {
    && o.s.agent.phase.Idle? && o.uid !in o.s.sessions && o.uid !in o.s.server.snapshots
    && o.me == w.me && o.sequence == o.s.agent.sequence && o.request == o.s.agent.requests
  }

  function Sent(o: Start, pages: seq<seq<Resource>>): seq<Message> {
    Opening(o.me, o.sequence, o.request, o.uid, pages)
  }

  /** The begin and `pages` were sent and answered, and `pending` is listed and not sent. */
  ghost predicate Streams(w: World, o: Start, t: System, pages: seq<seq<Resource>>, pending: seq<Resource>) {
    var a := t.agent;
    && Leads(w, o.s, t) && w.me == o.me
    && a.phase.Listing? && a.waiting.None? && a.uid == o.uid && a.uid in t.sessions
    && a.sequence == o.sequence + 1 + |pages| && a.requests == o.request + 1 + |pages|
    && a.pages == |pages| && a.total == |Concat(pages)| && a.pending == pending && a.batch == [] && a.queue == []
    && t.sent == o.s.sent + Posted(Sent(o, pages))
  }

  /** The cycle is over: `messages` were sent, and the agent rests. */
  ghost predicate Ends(w: World, o: Start, t: System, messages: seq<Message>) {
    && Leads(w, o.s, t) && t.agent.phase.Idle? && t.agent.waiting.None?
    && t.agent.sequence == o.sequence + |messages| && t.agent.requests == o.request + |messages|
    && t.sent == o.s.sent + Posted(messages)
  }

  lemma PostedOn(messages: seq<Message>, m: Message)
    ensures Posted(messages + [m]) == Posted(messages) + {m}
  {
  }

  lemma PageSent(o: Start, pages: seq<seq<Resource>>, page: seq<Resource>)
    ensures Sent(o, pages + [page]) ==
              Sent(o, pages) + [Page(o.me, o.sequence + |pages| + 2, o.request + |pages| + 1, o.uid, |pages| + 1, page)]
    ensures Posted(Sent(o, pages + [page])) ==
              Posted(Sent(o, pages))
                + {Page(o.me, o.sequence + |pages| + 2, o.request + |pages| + 1, o.uid, |pages| + 1, page)}
    ensures |Concat(pages + [page])| == |Concat(pages)| + |page| && |Sent(o, pages)| == |pages| + 1
  {
    OpeningOn(o.me, o.sequence, o.request, o.uid, pages, page);
    PostedOn(Sent(o, pages), Page(o.me, o.sequence + |pages| + 2, o.request + |pages| + 1, o.uid, |pages| + 1, page));
    ConcatAppend(pages, page);
  }

  // ---- Its steps -------------------------------------------------------------

  lemma Opens(w: World, o: Start) returns (t: System)
    requires IsStart(w, o)
    ensures Leads(w, o.s, t) && t == Started(w, o.s, o.uid) && t.sent == o.s.sent + Posted(Sent(o, []))
  {
    hide Leads, IsStep;
    LeadsNowhere(w, o.s);
    t := Started(w, o.s, o.uid);
    StartIsStep(w, o.s, o.uid);
    ActsOn(w, o.s, o.s, StartCycle(o.uid), t);
    assert Sent(o, []) == [BeginMessage(w, o.s.agent, o.uid)];
  }

  lemma BeginAnswered(w: World, o: Start, persisted: bool) returns (t: System)
    requires IsStart(w, o)
    ensures Streams(w, o, t, [], []) && t.agent.versions == map[] && t.logs == o.s.logs
    ensures t.agent.stored == if persisted then t.agent.sequence else o.s.agent.stored
  {
    var u := Opens(w, o);
    var m := BeginMessage(w, o.s.agent, o.uid);
    AnsweredOn(w, o.s, u, m, persisted);
    t := Acknowledged(u.(acked := u.acked + {m}), persisted);
    assert Concat<Resource>([]) == [];
  }

  lemma BeginFails(w: World, o: Start) returns (t: System)
    requires IsStart(w, o)
    ensures Ends(w, o, t, Sent(o, [])) && t.agent.stored == o.s.agent.stored
  {
    hide Leads, IsStep, Posted;
    var u := Opens(w, o);
    t := Stopped(u, Idle, u.agent.sequence);
    FailIsStep(w, u);
    ActsOn(w, o.s, u, Fail, t);
  }

  lemma Lists(w: World, o: Start, t: System, pages: seq<seq<Resource>>, pending: seq<Resource>,
              logs: Logs, kind: Kind, version: nat, items: seq<Resource>) returns (u: System)
    requires Streams(w, o, t, pages, pending) && LogsGrow(t.logs, logs) && kind !in t.agent.versions
    requires version <= |LogOf(logs, kind)| && IsListOf(items, Collection(LogOf(logs, kind)[..version]))
    ensures Streams(w, o, u, pages, pending + items) && u.logs == logs
    ensures u.agent.versions == t.agent.versions[kind := version] && u.agent.stored == t.agent.stored
  {
    hide Leads, IsStep, Elsewhere, IsListOf;
    var later := t.(logs := logs);
    LogsChange(t, logs);
    LeadsOn(w, o.s, t, later);
    u := Replication.Listed(later, kind, version, items);
    ListIsStep(w, later, kind, version, items);
    ActsOn(w, o.s, later, Action.ListCollection(kind, version, items), u);
  }

  // The next page goes out.
  lemma SendsPage(w: World, o: Start, t: System, pages: seq<seq<Resource>>, pending: seq<Resource>, page: seq<Resource>)
    returns (u: System)
    requires Streams(w, o, t, pages, pending) && 0 < |page| <= SNAPSHOT_PAGE_MAX && page <= pending
    ensures Leads(w, o.s, u) && u == Paged(w, t, |page|)
    ensures u.agent.waiting.Some? && u.agent.waiting.value in u.sent && InCycle(u.agent) && u.agent.uid in u.sessions
    ensures u.sent == o.s.sent + Posted(Sent(o, pages + [page]))
  {
    hide Leads, IsStep, Concat, Posted, Sent;
    u := Paged(w, t, |page|);
    assert pending[..|page|] == page;
    PageSent(o, pages, page);
    PageIsStep(w, t, |page|);
    ActsOn(w, o.s, t, SendPage(|page|), u);
  }

  lemma PageAnswered(w: World, o: Start, t: System, pages: seq<seq<Resource>>, pending: seq<Resource>,
                     page: seq<Resource>, persisted: bool) returns (u: System)
    requires Streams(w, o, t, pages, pending) && 0 < |page| <= SNAPSHOT_PAGE_MAX && page <= pending
    ensures Streams(w, o, u, pages + [page], pending[|page|..]) && u.agent.versions == t.agent.versions
        && u.logs == t.logs
    ensures u.agent.stored == if persisted then u.agent.sequence else t.agent.stored
  {
    hide Leads;
    var v := SendsPage(w, o, t, pages, pending, page);
    var m := v.agent.waiting.value;
    AnsweredOn(w, o.s, v, m, persisted);
    PageSent(o, pages, page);
    u := Acknowledged(v.(acked := v.acked + {m}), persisted);
  }

  lemma PageFails(w: World, o: Start, t: System, pages: seq<seq<Resource>>, pending: seq<Resource>, page: seq<Resource>)
    returns (u: System)
    requires Streams(w, o, t, pages, pending) && 0 < |page| <= SNAPSHOT_PAGE_MAX && page <= pending
    ensures Ends(w, o, u, Sent(o, pages + [page])) && u.agent.stored == t.agent.stored
  {
    hide Leads, IsStep, Concat, Posted, Sent;
    var v := SendsPage(w, o, t, pages, pending, page);
    PageSent(o, pages, page);
    u := Stopped(v, Idle, v.agent.sequence);
    FailIsStep(w, v);
    ActsOn(w, o.s, v, Fail, u);
  }

  lemma GivesUp(w: World, o: Start, t: System, pages: seq<seq<Resource>>, pending: seq<Resource>) returns (u: System)
    requires Streams(w, o, t, pages, pending)
    ensures Ends(w, o, u, Sent(o, pages)) && u.agent.stored == t.agent.stored
  {
    hide Leads, IsStep, Posted;
    u := Stopped(t, Idle, t.agent.sequence);
    FailIsStep(w, t);
    ActsOn(w, o.s, t, Fail, u);
  }

  // ---- Several pages ---------------------------------------------------------

  ghost predicate PageSizes(pages: seq<seq<Resource>>) {
    forall i :: 0 <= i < |pages| ==> 0 < |pages[i]| <= SNAPSHOT_PAGE_MAX
  }

  // `number` is what is on disk once messages `from` + 1 to `to` have been answered.
  predicate MayStore(was: nat, from: nat, to: nat, number: nat) {
    number == was || from < number <= to
  }

  lemma TakenOff(more: seq<seq<Resource>>, pending: seq<Resource>)
    requires more != [] && Concat(more) <= pending
    ensures
      var front, page := more[..|more| - 1], more[|more| - 1];
      && more == front + [page] && Concat(front) <= pending && page <= pending[|Concat(front)|..]
      && pending[|Concat(front)|..][|page|..] == pending[|Concat(more)|..]
  {
    var front, page := more[..|more| - 1], more[|more| - 1];
    assert more == front + [page];
    ConcatAppend(front, page);
    assert Concat(more) == pending[..|Concat(more)|];
  }

  lemma {:induction false} PagesAnswered(w: World, o: Start, t: System, pages: seq<seq<Resource>>,
                                         pending: seq<Resource>,
                                         more: seq<seq<Resource>>, number: nat) returns (u: System)
    requires Streams(w, o, t, pages, pending) && PageSizes(more) && Concat(more) <= pending
    requires MayStore(t.agent.stored, t.agent.sequence, t.agent.sequence + |more|, number)
    ensures Streams(w, o, u, pages + more, pending[|Concat(more)|..])
    ensures u.agent.versions == t.agent.versions && u.logs == t.logs && u.agent.stored == number
    decreases |more|
  {
    hide Leads, Streams;
    if more == [] {
      assert pages + more == pages && Concat(more) == [] && pending[0..] == pending;
      Counts(w, o, t, pages, pending);
      return t;
    }
    var last := |more| - 1;
    Counts(w, o, t, pages, pending);
    TakenOff(more, pending);
    var persisted := number == t.agent.sequence + |more| && number != t.agent.stored;
    u := PagesAnswered(w, o, t, pages, pending, more[..last], if persisted then t.agent.stored else number);
    Counts(w, o, u, pages + more[..last], pending[|Concat(more[..last])|..]);
    Associative(pages, more[..last], [more[last]]);
    u := PageAnswered(w, o, u, pages + more[..last], pending[|Concat(more[..last])|..], more[last], persisted);
    Counts(w, o, u, pages + more, pending[|Concat(more)|..]);
  }

  lemma Counts(w: World, o: Start, t: System, pages: seq<seq<Resource>>, pending: seq<Resource>)
    requires Streams(w, o, t, pages, pending)
    ensures t.agent.sequence == o.sequence + 1 + |pages| && w.me == o.me
  {
  }

  /** Wherever it failed: all pages were answered but the last, unless its number is on disk. */
  lemma PagesEnd(w: World, o: Start, t: System, pages: seq<seq<Resource>>, pending: seq<Resource>,
                 more: seq<seq<Resource>>, number: nat) returns (u: System)
    requires Streams(w, o, t, pages, pending) && PageSizes(more) && Concat(more) <= pending
    requires MayStore(t.agent.stored, t.agent.sequence, t.agent.sequence + |more|, number)
    ensures Ends(w, o, u, Sent(o, pages + more)) && u.agent.stored == number
  {
    hide Leads, Streams;
    Counts(w, o, t, pages, pending);
    if more == [] || (number == t.agent.sequence + |more| && number != t.agent.stored) {
      var v := PagesAnswered(w, o, t, pages, pending, more, number);
      u := GivesUp(w, o, v, pages + more, pending[|Concat(more)|..]);
    } else {
      var front, page := more[..|more| - 1], more[|more| - 1];
      TakenOff(more, pending);
      var v := PagesAnswered(w, o, t, pages, pending, front, number);
      u := PageFails(w, o, v, pages + front, pending[|Concat(front)|..], page);
      Associative(pages, front, [page]);
    }
  }

  // ---- The complete ----------------------------------------------------------

  function Whole(o: Start, pages: seq<seq<Resource>>): seq<Message> {
    Plan(o.me, o.sequence, o.request, o.uid, pages)
  }

  lemma SendsComplete(w: World, o: Start, t: System, pages: seq<seq<Resource>>) returns (u: System)
    requires Streams(w, o, t, pages, [])
    ensures Leads(w, o.s, u) && u == Completed(w, t) && |Whole(o, pages)| == |pages| + 2
    ensures u.sent == o.s.sent + Posted(Whole(o, pages))
  {
    hide Leads, IsStep, Posted;
    u := Completed(w, t);
    PostedOn(Sent(o, pages), CompleteMessage(w, t.agent));
    CompleteIsStep(w, t);
    ActsOn(w, o.s, t, SendComplete, u);
  }

  lemma CompleteAnswered(w: World, o: Start, t: System, pages: seq<seq<Resource>>, persisted: bool) returns (u: System)
    requires Streams(w, o, t, pages, [])
    ensures Leads(w, o.s, u) && u.agent.phase.Watching? && u.agent.waiting.None? && u.agent.uid == o.uid
    ensures u.agent.sequence == o.sequence + |Whole(o, pages)| && u.agent.requests == o.request + |Whole(o, pages)|
    ensures u.agent.pages == |pages| && u.agent.total == |Concat(pages)|
    ensures u.agent.pending == [] && u.agent.batch == [] && u.agent.queue == []
    ensures u.sent == o.s.sent + Posted(Whole(o, pages))
    ensures u.agent.versions == t.agent.versions && u.agent.watchers == t.agent.versions.Keys && u.logs == t.logs
    ensures u.agent.stored == if persisted then u.agent.sequence else t.agent.stored
  {
    var v := SendsComplete(w, o, t, pages);
    var m := CompleteMessage(w, t.agent);
    AnsweredOn(w, o.s, v, m, persisted);
    u := Acknowledged(v.(acked := v.acked + {m}), persisted);
  }

  lemma CompleteFails(w: World, o: Start, t: System, pages: seq<seq<Resource>>) returns (u: System)
    requires Streams(w, o, t, pages, [])
    ensures Ends(w, o, u, Whole(o, pages)) && u.agent.stored == t.agent.stored
  {
    hide Leads, IsStep, Posted, Plan;
    var v := SendsComplete(w, o, t, pages);
    u := Stopped(v, Idle, v.agent.sequence);
    FailIsStep(w, v);
    ActsOn(w, o.s, v, Fail, u);
  }

  // ---- The engine on that path -----------------------------------------------

  // What the API server showed of one collection, and the logs at that time.
  datatype View = View(logs: Logs, kind: Kind, version: nat, items: seq<Resource>)

  /** The chunks that came are a part of one list at one version, and all of it if the listing is complete. */
  ghost predicate IsViewOf(listing: Listing, view: View) {
    && Concat(listing.chunks) <= view.items && (listing.complete ==> Concat(listing.chunks) == view.items)
    && view.version <= |LogOf(view.logs, view.kind)|
    && IsListOf(view.items, Collection(LogOf(view.logs, view.kind)[..view.version]))
  }

  ghost predicate AreViews(logs: Logs, listings: seq<Listing>, views: seq<View>) {
    && |views| == |listings|
    && (forall i :: 0 <= i < |views| ==> IsViewOf(listings[i], views[i]) && LogsGrow(logs, views[i].logs))
    && (forall i, j :: 0 <= i < j < |views| ==>
          views[i].kind != views[j].kind && LogsGrow(views[i].logs, views[j].logs))
  }

  lemma {:induction false} ConcatJoins(first: seq<seq<Resource>>, second: seq<seq<Resource>>)
    ensures Concat(first + second) == Concat(first) + Concat(second)
    decreases |second|
  {
    if second == [] {
      assert first + second == first;
    } else {
      hide Concat;
      var front, part := second[..|second| - 1], second[|second| - 1];
      assert second == front + [part];
      ConcatJoins(first, front);
      Associative(first, front, [part]);
      ConcatAppend(first + front, part);
      ConcatAppend(front, part);
      Associative(Concat(first), Concat(front), part);
    }
  }

  // What was pending and what was listed, less what went out, is what is pending.
  lemma Remains(pages: seq<seq<Resource>>, out: seq<seq<Resource>>, was: seq<Resource>, came: seq<Resource>,
                items: seq<Resource>)
    requires pages <= out && Concat(pages) + was == items && Concat(out) <= items + came
    ensures Concat(out[|pages|..]) <= was + came
    ensures Concat(out) + (was + came)[|Concat(out[|pages|..])|..] == items + came
  {
    var more := out[|pages|..];
    assert out == pages + more;
    ConcatJoins(pages, more);
    Associative(Concat(pages), was, came);
    assert was + came == (items + came)[|Concat(pages)|..];
    assert Concat(out)[|Concat(pages)|..] == Concat(more);
    assert Concat(out) == (items + came)[..|Concat(out)|];
  }

  lemma Shorter(part: seq<Resource>, whole: seq<Resource>, was: seq<Resource>, all: seq<Resource>)
    requires part <= was + whole && whole <= all
    ensures part <= was + all
  {
  }

  lemma SameRest(front: seq<Resource>, a: seq<Resource>, b: seq<Resource>)
    requires front + a == front + b
    ensures a == b
  {
    assert (front + a)[|front|..] == a && (front + b)[|front|..] == b;
  }

  // The engine between two collections of the cycle that `o` starts.
  ghost predicate On(e: SyncEngine, w: World, o: Start, t: System, before: seq<Message>, pages: seq<seq<Resource>>,
                     items: seq<Resource>)
    reads e
  {
    && e.me == o.me && e.uid == o.uid && e.queue == [] && e.batch == []
    && e.Streaming(before, o.sequence, o.request, pages, items)
    && Streams(w, o, t, pages, e.pending) && t.agent.stored == e.stored
  }

  // The engine after a failed cycle.
  ghost predicate Failed(e: SyncEngine, w: World, o: Start, t: System, before: seq<Message>, messages: seq<Message>)
    reads e
  {
    && e.me == w.me && e.posted == before + messages && Ends(w, o, t, messages)
    && SameCounters(e, w, t.agent)
  }

  /** One collection: the model lists it, and sends every page that the engine filled. */
  method ListStep(e: SyncEngine, listing: Listing, ghost view: View, ghost before: seq<Message>,
                  ghost pages: seq<seq<Resource>>, ghost items: seq<Resource>, ghost w: World, ghost o: Start,
                    ghost t: System)
    returns (ok: bool, ghost out: seq<seq<Resource>>, ghost u: System)
    requires On(e, w, o, t, before, pages, items) && IsViewOf(listing, view)
    requires LogsGrow(t.logs, view.logs) && view.kind !in t.agent.versions
    modifies e, e.client
    ensures ok ==> listing.complete && On(e, w, o, u, before, out, items + Concat(listing.chunks))
    ensures ok ==> u.logs == view.logs && u.agent.versions == t.agent.versions[view.kind := view.version]
    ensures !ok ==> Failed(e, w, o, u, before, Sent(o, out))
  {
    hide Leads, Opening, IsListOf, LogsGrow, Streams, Posted, LogOf, Collection;
    ghost var was, came := e.pending, Concat(listing.chunks);
    Counts(w, o, t, pages, was);
    ok, out := e.ListCollection(listing, before, o.sequence, o.request, pages, items);
    ghost var more := out[|pages|..];
    assert out == pages + more;
    Remains(pages, out, was, came, items);
    Shorter(Concat(more), came, was, view.items);
    ghost var v := Lists(w, o, t, pages, was, view.logs, view.kind, view.version, view.items);
    Counts(w, o, v, pages, was + view.items);
    if ok {
      SameRest(Concat(out), e.pending, (was + came)[|Concat(more)|..]);
      u := PagesAnswered(w, o, v, pages, was + view.items, more, e.stored);
    } else {
      u := PagesEnd(w, o, v, pages, was + view.items, more, e.stored);
      SentCount(o, out);
    }
  }

  lemma SentCount(o: Start, pages: seq<seq<Resource>>)
    ensures |Sent(o, pages)| == |pages| + 1 && |Whole(o, pages)| == |pages| + 2
  {
  }

  lemma OnePage(page: seq<Resource>)
    ensures Concat([page]) == page && Concat<Resource>([]) == []
  {
    var none: seq<seq<Resource>> := [];
    assert none + [page] == [page];
    ConcatAppend(none, page);
    assert Concat(none) + page == page;
  }

  // The cycle came to its end: the agent watches what was listed.
  ghost predicate Watches(e: SyncEngine, w: World, o: Start, t: System, before: seq<Message>, pages: seq<seq<Resource>>)
    reads e
  {
    && e.posted == before + Whole(o, pages) && Leads(w, o.s, t) && Matches(e, w, t.agent)
    && t.agent.phase.Watching? && t.agent.waiting.None? && t.agent.watchers == t.agent.versions.Keys
    && t.sent == o.s.sent + Posted(Whole(o, pages))
  }

  /** The last page, if any, and the complete. */
  method FinishStep(e: SyncEngine, ghost before: seq<Message>, ghost pages: seq<seq<Resource>>,
                    ghost items: seq<Resource>, ghost w: World, ghost o: Start, ghost t: System)
    returns (ok: bool, ghost out: seq<seq<Resource>>, ghost u: System)
    requires On(e, w, o, t, before, pages, items)
    modifies e, e.client
    ensures Paging(out, items)
    ensures ok ==> Watches(e, w, o, u, before, out) && u.agent.versions == t.agent.versions
    ensures !ok ==> exists messages :: Failed(e, w, o, u, before, messages)
  {
    hide Leads, Opening, Plan;
    ghost var was, stored := e.pending, e.stored;
    Counts(w, o, t, pages, was);
    ok, out := e.Finish(before, o.sequence, o.request, pages, items);
    ghost var more := out[|pages|..];
    assert more == if was == [] then [] else [was];
    assert out == pages + more && was[|was|..] == [];
    OnePage(was);
    SentCount(o, out);
    if ok {
      ghost var persisted := e.stored == e.sequence && e.stored != stored;
      ghost var v := PagesAnswered(w, o, t, pages, was, more, if persisted then stored else e.stored);
      u := CompleteAnswered(w, o, v, out, persisted);
    } else if e.posted == before + Whole(o, out) {
      ghost var v := PagesAnswered(w, o, t, pages, was, more, e.stored);
      u := CompleteFails(w, o, v, out);
      assert Failed(e, w, o, u, before, Whole(o, out));
    } else {
      u := PagesEnd(w, o, t, pages, was, more, e.stored);
      assert Failed(e, w, o, u, before, Sent(o, out));
    }
  }

  /** The versions of the first `n` collections. */
  ghost predicate Noted(versions: map<Kind, nat>, views: seq<View>, n: nat)
    requires n <= |views|
  {
    && (forall i :: 0 <= i < n ==> views[i].kind in versions && versions[views[i].kind] == views[i].version)
    && (forall kind :: kind in versions ==> exists i :: 0 <= i < n && views[i].kind == kind)
  }

  lemma NotedOn(versions: map<Kind, nat>, listings: seq<Listing>, views: seq<View>, n: nat, logs: Logs)
    requires AreViews(logs, listings, views) && n < |views| && Noted(versions, views, n)
    ensures views[n].kind !in versions && Noted(versions[views[n].kind := views[n].version], views, n + 1)
  {
    hide IsViewOf, LogsGrow;
  }

  /** One whole snapshot. If it succeeds, the path lists every collection at its version, sends the plan for what
      was listed, message by message as the engine posts it, and ends watching from those versions; wherever it fails,
      the path has sent what the engine has posted, and gives up there. */
  method SnapshotRun(e: SyncEngine, name: SnapshotUid, listings: seq<Listing>, ghost views: seq<View>,
                     ghost w: World, ghost s: System)
    returns (ok: bool, ghost pages: seq<seq<Resource>>, ghost t: System)
    requires Matches(e, w, s.agent) && CanAct(w, s, StartCycle(name)) && AreViews(s.logs, listings, views)
    modifies e, e.client
    ensures Leads(w, s, t) && Matches(e, w, t.agent)
    ensures exists messages :: e.posted == old(e.posted) + messages && t.sent == s.sent + Posted(messages)
    ensures ok ==> t.agent.phase.Watching? && t.agent.waiting.None? && t.agent.watchers == t.agent.versions.Keys
    ensures ok ==> Noted(t.agent.versions, views, |views|) && (forall i :: 0 <= i < |listings| ==> listings[i].complete)
    ensures ok ==> Paging(pages, Items(listings))
    ensures ok ==> e.posted == old(e.posted) + Plan(e.me, s.agent.sequence, s.agent.requests, name, pages)
    ensures !ok ==> t.agent.phase.Idle?
  {
    hide Leads, Opening, Plan, IsViewOf, Streams, Items;
    ghost var o, before := Start(s, e.me, e.sequence, e.requests, name), e.posted;
    pages := [];
    ok, t := OpenStep(e, name, w, o);
    if !ok { return; }
    assert listings[..0] == [];
    for i := 0 to |listings|
      invariant ok && On(e, w, o, t, before, pages, Items(listings[..i])) && Noted(t.agent.versions, views, i)
      invariant forall k :: i <= k < |views| ==> LogsGrow(t.logs, views[k].logs)
      invariant forall k :: 0 <= k < i ==> listings[k].complete
    {
      NotedOn(t.agent.versions, listings, views, i, s.logs);
      ListingDone(listings, i);
      ok, pages, t := ListStep(e, listings[i], views[i], before, pages, Items(listings[..i]), w, o, t);
      if !ok { FailedEnds(e, w, o, t, before, Sent(o, pages)); return; }
    }
    assert listings[..|listings|] == listings;
    ok, pages, t := FinishStep(e, before, pages, Items(listings), w, o, t);
    if !ok {
      ghost var messages :| Failed(e, w, o, t, before, messages);
      FailedEnds(e, w, o, t, before, messages);
    }
  }

  lemma FailedEnds(e: SyncEngine, w: World, o: Start, t: System, before: seq<Message>, messages: seq<Message>)
    requires Failed(e, w, o, t, before, messages)
    ensures Leads(w, o.s, t) && Matches(e, w, t.agent) && t.agent.phase.Idle?
    ensures e.posted == before + messages && t.sent == o.s.sent + Posted(messages)
  {
  }

  method OpenStep(e: SyncEngine, name: SnapshotUid, ghost w: World, ghost o: Start) returns (ok: bool, ghost t: System)
    requires Matches(e, w, o.s.agent) && IsStart(w, o) && e.me == o.me && o.uid == name
    modifies e, e.client
    ensures ok ==> On(e, w, o, t, old(e.posted), [], Items([])) && Noted(t.agent.versions, [], 0) && t.logs == o.s.logs
    ensures !ok ==> Failed(e, w, o, t, old(e.posted), Sent(o, [])) && Leads(w, o.s, t) && t.agent.phase.Idle?
  {
    hide Leads, Opening;
    ghost var stored := e.stored;
    ok := e.StreamBegin(name);
    SentCount(o, []);
    if ok { t := BeginAnswered(w, o, e.stored != stored); } else { t := BeginFails(w, o); }
  }
}
