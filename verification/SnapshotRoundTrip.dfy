/** The engine's snapshot meets the server's endpoints: what the one streams is what the other applies. */
module SnapshotRoundTrip {
  import opened Inventory
  import opened Projection
  import opened Server
  import opened Accounting
  import opened ServerInvariants
  import opened Replication
  import opened ReplicationInvariants
  import opened ReplicationServerSteps
  import opened Engine

  /** Every message the engine streams for a snapshot is one the replication model lets a session send. */
  lemma PlanIsRecorded(me: AgentId, sequence: nat, request: nat, uid: SnapshotUid, pages: seq<seq<Resource>>, k: nat)
    requires k < |Plan(me, sequence, request, uid, pages)|
    ensures
      var m := Plan(me, sequence, request, uid, pages)[k];
      && m.agent == me && m.sequence == sequence + 1 + k && m.request == request + k
      && InSession(m, uid, Session(sequence + 1, pages, true, []))
  {
  }

  // ---- Staging page by page is staging everything ----------------------------

  lemma {:induction false} StageJoins(staging: map<Uid, Resource>, first: seq<Resource>, second: seq<Resource>)
    ensures Stage(Stage(staging, first), second) == Stage(staging, first + second)
    decreases |second|
  {
    if second == [] {
      assert first + second == first;
    } else {
      var last := |second| - 1;
      assert (first + second)[..|first| + last] == first + second[..last];
      StageJoins(staging, first, second[..last]);
    }
  }

  lemma {:induction false} StageKeys(resources: seq<Resource>)
    ensures Stage(map[], resources).Keys == Uids(resources)
    decreases |resources|
  {
    if resources != [] {
      var last := |resources| - 1;
      StageKeys(resources[..last]);
      assert resources == resources[..last] + [resources[last]];
      assert Uids(resources) == Uids(resources[..last]) + {resources[last].entity.uid};
    }
  }

  /** As many rows are staged as resources were listed exactly when no uid was listed twice. */
  lemma StageCount(resources: seq<Resource>)
    ensures |Stage(map[], resources)| == |resources| <==> Distinct(resources)
  {
    StageGrows(map[], resources);
    StageKeys(resources);
    CollectKeys(resources);
    assert |Stage(map[], resources)| == |Stage(map[], resources).Keys| == |Collect(resources).Keys|
        == |Collect(resources)|;
    if Distinct(resources) { CollectDistinct(resources); }
  }

  // ---- The server's row while the snapshot arrives ---------------------------

  ghost predicate HoldsPages(row: Snapshot, pages: seq<seq<Resource>>, n: nat, begun: int)
    requires n <= |pages|
  {
    && row.status.Pending? && row.startedAt == begun && row.receivedPages == n
    && (forall p :: p in row.pages <==> 1 <= p <= n) && (forall p :: p in row.pages ==> row.pages[p] == pages[p - 1])
    && row.staging == Stage(map[], Concat(pages[..n])) && row.resourceCount == |Concat(pages[..n])|
  }

  /** The begin and the first n pages have been accepted. */
  ghost predicate Received(s: State, me: AgentId, sequence: nat, uid: SnapshotUid, pages: seq<seq<Resource>>,
                           n: nat, begun: int)
    requires n <= |pages|
  {
    && s.active == Some(me) && me in s.agents && s.agents[me].lastSequence == sequence + 1 + n
    && uid in s.snapshots && HoldsPages(s.snapshots[uid], pages, n, begun)
  }

  lemma BeginReceived(s: State, me: AgentId, sequence: nat, request: nat, uid: SnapshotUid,
                      pages: seq<seq<Resource>>, now: int)
    requires s.active == Some(me) && me in s.agents && s.agents[me].lastSequence <= sequence && uid !in s.snapshots
    ensures
      var (after, outcome) := BeginTxn(s, Begin(me, sequence + 1, request, uid), now);
      outcome.Accepted? && Received(after, me, sequence, uid, pages, 0, now) && after.store == s.store
  {
  }

  lemma NextPageHeld(row: Snapshot, pages: seq<seq<Resource>>, n: nat, begun: int)
    requires n < |pages| && HoldsPages(row, pages, n, begun)
    ensures HoldsPages(AddPage(row, n + 1, pages[n]), pages, n + 1, begun)
    ensures row.resourceCount + |pages[n]| == |Concat(pages[..n + 1])| <= |Concat(pages)|
  {
    ChunkAdded(pages, n);
    ConcatPrefix(pages, n + 1);
    StageJoins(map[], Concat(pages[..n]), pages[n]);
  }

  // The n-th page of the plan.
  function PagePart(me: AgentId, sequence: nat, request: nat, uid: SnapshotUid, pages: seq<seq<Resource>>,
                    n: nat): (m: Message)
    requires 1 <= n <= |pages|
    ensures m.Page?
  {
    Page(me, sequence + 1 + n, request + n, uid, n, pages[n - 1])
  }

  /** After the first n-1 pages the n-th is accepted and held exactly when the snapshot stays within its bound;
      the table's check refuses it otherwise, and nothing changes. */
  lemma PageReceived(s: State, me: AgentId, sequence: nat, request: nat, uid: SnapshotUid, pages: seq<seq<Resource>>,
                     n: nat, begun: int)
    requires 1 <= n <= |pages| && Received(s, me, sequence, uid, pages, n - 1, begun)
    ensures
      var (after, outcome) := PageTxn(s, PagePart(me, sequence, request, uid, pages, n));
      && (outcome.Accepted? <==> |Concat(pages[..n])| <= MAX_SNAPSHOT_RESOURCES)
      && (outcome.Accepted? ==> Received(after, me, sequence, uid, pages, n, begun) && after.store == s.store)
      && (!outcome.Accepted? ==> outcome.Failed? && after == s)
  {
    NextPageHeld(s.snapshots[uid], pages, n - 1, begun);
  }

  // The last message of the plan.
  function Closing(me: AgentId, sequence: nat, request: nat, uid: SnapshotUid, pages: seq<seq<Resource>>): (m: Message)
    ensures m.Complete?
  {
    Complete(me, sequence + |pages| + 2, request + |pages| + 1, uid, |pages|, |Concat(pages)|)
  }

  /** The plan is the begin, these pages and this complete. */
  lemma PlanParts(me: AgentId, sequence: nat, request: nat, uid: SnapshotUid, pages: seq<seq<Resource>>, k: nat)
    requires k < |pages| + 2
    ensures |Plan(me, sequence, request, uid, pages)| == |pages| + 2
    ensures Plan(me, sequence, request, uid, pages)[k] ==
              if k == 0 then Begin(me, sequence + 1, request, uid)
              else if k <= |pages| then PagePart(me, sequence, request, uid, pages, k)
              else Closing(me, sequence, request, uid, pages)
  {
  }

  lemma HeldIsContinuous(row: Snapshot, pages: seq<seq<Resource>>, begun: int)
    requires HoldsPages(row, pages, |pages|, begun)
    ensures Continuous(row, |pages|, |Concat(pages)|) <==> Distinct(Concat(pages))
  {
    assert pages[..|pages|] == pages;
    StageCount(Concat(pages));
    assert row.pages.Keys == Interval(1, |pages| + 1);
  }

  lemma ReceivedIsJudged(s: State, cfg: Config, me: AgentId, sequence: nat, request: nat, uid: SnapshotUid,
                         pages: seq<seq<Resource>>, begun: int, now: int)
    requires Received(s, me, sequence, uid, pages, |pages|, begun) && s.appliedGeneration < s.snapshots[uid].generation
    ensures CompleteCheck(s, Closing(me, sequence, request, uid, pages), now, cfg.ttl) ==
              if begun < now - cfg.ttl || !Distinct(Concat(pages)) then Some(Torn(s.snapshots[uid].id)) else None
  {
    HeldIsContinuous(s.snapshots[uid], pages, begun);
  }

  lemma ReceivedIsOwn(s: State, me: AgentId, sequence: nat, request: nat, uid: SnapshotUid,
                      pages: seq<seq<Resource>>, begun: int)
    requires Received(s, me, sequence, uid, pages, |pages|, begun)
    ensures OwnRow(s.snapshots[uid], Session(sequence + 1, pages, true, []), sequence + 1 + |pages|)
    ensures InSession(Closing(me, sequence, request, uid, pages), uid, Session(sequence + 1, pages, true, []))
  {
  }

  // ---- The round trip ---------------------------------------------------------

  /** The server's state after the begin and the first n pages, all received at one time. */
  ghost function AfterPages(s: State, me: AgentId, sequence: nat, request: nat, uid: SnapshotUid,
                            pages: seq<seq<Resource>>, n: nat, now: int): State
    requires n <= |pages|
  {
    if n == 0 then BeginTxn(s, Begin(me, sequence + 1, request, uid), now).0
    else
      var before := AfterPages(s, me, sequence, request, uid, pages, n - 1, now);
      PageTxn(before, PagePart(me, sequence, request, uid, pages, n)).0
  }

  lemma {:induction false} PagesKeepInv(s: State, me: AgentId, sequence: nat, request: nat, uid: SnapshotUid,
                                        pages: seq<seq<Resource>>, n: nat, now: int)
    requires Inv(s) && n <= |pages|
    ensures Inv(AfterPages(s, me, sequence, request, uid, pages, n, now))
  {
    if n == 0 {
      BeginInv(s, Begin(me, sequence + 1, request, uid), now);
    } else {
      PagesKeepInv(s, me, sequence, request, uid, pages, n - 1, now);
      PageInv(AfterPages(s, me, sequence, request, uid, pages, n - 1, now),
              PagePart(me, sequence, request, uid, pages, n));
    }
  }

  lemma LaterPageIsAGap(s: State, me: AgentId, sequence: nat, request: nat, uid: SnapshotUid, pages: seq<seq<Resource>>,
                        held: nat, n: nat, begun: int)
    requires held + 1 < n <= |pages| && Received(s, me, sequence, uid, pages, held, begun)
    ensures PageTxn(s, PagePart(me, sequence, request, uid, pages, n)) == (s, Gap)
  {
  }

  /** All pages are held exactly when they stay within the bound; otherwise the server stops before the first that
      crosses it. */
  lemma {:induction false} PagesReceived(s: State, me: AgentId, sequence: nat, request: nat, uid: SnapshotUid,
                                         pages: seq<seq<Resource>>, n: nat, now: int) returns (held: nat)
    requires s.active == Some(me) && me in s.agents && s.agents[me].lastSequence <= sequence && uid !in s.snapshots
    requires n <= |pages|
    ensures held <= n && (held == n <==> |Concat(pages[..n])| <= MAX_SNAPSHOT_RESOURCES)
    ensures
      var after := AfterPages(s, me, sequence, request, uid, pages, n, now);
      Received(after, me, sequence, uid, pages, held, now) && after.store == s.store
  {
    if n == 0 {
      BeginReceived(s, me, sequence, request, uid, pages, now);
      held := 0;
    } else {
      hide Received, PageTxn;
      var before := AfterPages(s, me, sequence, request, uid, pages, n - 1, now);
      held := PagesReceived(s, me, sequence, request, uid, pages, n - 1, now);
      ChunkAdded(pages, n - 1);
      if held == n - 1 {
        PageReceived(before, me, sequence, request, uid, pages, n, now);
        if |Concat(pages[..n])| <= MAX_SNAPSHOT_RESOURCES { held := n; }
      } else {
        LaterPageIsAGap(before, me, sequence, request, uid, pages, held, n, now);
      }
    }
  }

  lemma OpenRowIsNewer(s: State, uid: SnapshotUid)
    requires Inv(s) && uid in s.snapshots && s.snapshots[uid].status.Pending?
    ensures RowOk(s.snapshots[uid]) && s.appliedGeneration < s.snapshots[uid].generation
  {
  }

  // Pages are missing: the complete comes too early, if it does not come too late.
  lemma IncompleteIsRefused(s: State, cfg: Config, me: AgentId, sequence: nat, request: nat, uid: SnapshotUid,
                            pages: seq<seq<Resource>>, held: nat, begun: int, now: int)
    requires held < |pages| && Received(s, me, sequence, uid, pages, held, begun)
    requires s.appliedGeneration < s.snapshots[uid].generation
    ensures CompleteCheck(s, Closing(me, sequence, request, uid, pages), now, cfg.ttl)
            == Some(if begun < now - cfg.ttl then Torn(s.snapshots[uid].id) else Gap)
  {
  }

  /** The engine's plan, delivered in order to the writer's own cluster with no other snapshot interfering: the
      complete is applied exactly when it is in time, no uid was listed twice and the snapshot keeps its bound. The
      projection then is the list, and otherwise it has not changed. */
  lemma PlanIsApplied(s: State, cfg: Config, me: AgentId, sequence: nat, request: nat, uid: SnapshotUid,
                      pages: seq<seq<Resource>>, begun: int, now: int, visit: Visit)
    requires Inv(s) && s.active == Some(me) && s.agents[me].lastSequence <= sequence && uid !in s.snapshots
    requires ValidVisit(AfterPages(s, me, sequence, request, uid, pages, |pages|, begun),
                        Closing(me, sequence, request, uid, pages), visit)
    ensures
      var (after, outcome) := CompleteTxn(AfterPages(s, me, sequence, request, uid, pages, |pages|, begun), cfg,
                                          Closing(me, sequence, request, uid, pages), now, visit);
      && (outcome.Applied? <==>
            begun >= now - cfg.ttl && Distinct(Concat(pages)) && |Concat(pages)| <= MAX_SNAPSHOT_RESOURCES)
      && (outcome.Applied? ==> View(after.store.table) == Collect(Concat(pages)))
      && (!outcome.Applied? ==> (outcome.Torn? || outcome.Gap?) && after.store == s.store)
      && (outcome.Gap? ==> |Concat(pages)| > MAX_SNAPSHOT_RESOURCES)
  {
    hide Continuous, Collect, Distinct, View, Commit, AddPage;
    var before := AfterPages(s, me, sequence, request, uid, pages, |pages|, begun);
    var m := Closing(me, sequence, request, uid, pages);
    PagesKeepInv(s, me, sequence, request, uid, pages, |pages|, begun);
    var held := PagesReceived(s, me, sequence, request, uid, pages, |pages|, begun);
    assert pages[..|pages|] == pages;
    OpenRowIsNewer(before, uid);
    if held < |pages| {
      IncompleteIsRefused(before, cfg, me, sequence, request, uid, pages, held, begun, now);
    } else {
      ReceivedIsJudged(before, cfg, me, sequence, request, uid, pages, begun, now);
      if begun >= now - cfg.ttl && Distinct(Concat(pages)) {
        ReceivedIsOwn(before, me, sequence, request, uid, pages, begun);
        CompletedView(before, cfg, m, now, visit, Session(sequence + 1, pages, true, []), sequence + 1 + |pages|);
      }
    }
  }
}
