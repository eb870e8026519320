/** The agent's sync engine: one object that hands out sequence numbers, streams a snapshot in pages of
    500 resources and ships watch events in batches of at most 500. */
module Engine {
  import opened Inventory
  import opened Server
  import opened Replication
  import opened Transport

  // ---- What a snapshot should look like on the wire --------------------------

  /** `pages` cut `resources` in order, every page full but the last, none empty. */
  ghost predicate Paging(pages: seq<seq<Resource>>, resources: seq<Resource>) {
    && Concat(pages) == resources
    && (forall i :: 0 <= i < |pages| ==> 0 < |pages[i]| <= SNAPSHOT_PAGE_MAX)
    && (forall i :: 0 <= i < |pages| - 1 ==> |pages[i]| == SNAPSHOT_PAGE_MAX)
  }

  ghost predicate AllFull(pages: seq<seq<Resource>>) {
    forall i :: 0 <= i < |pages| ==> |pages[i]| == SNAPSHOT_PAGE_MAX
  }

  function PagesFrom(me: AgentId, sequence: nat, request: nat, uid: SnapshotUid,
                     pages: seq<seq<Resource>>): seq<Message> {
    seq(|pages|, i requires 0 <= i < |pages| => Page(me, sequence + 1 + i, request + i, uid, i + 1, pages[i]))
  }

  /** A begin and its pages, numbered without a gap from `sequence` + 1. */
  function Opening(me: AgentId, sequence: nat, request: nat, uid: SnapshotUid,
                   pages: seq<seq<Resource>>): seq<Message> {
    [Begin(me, sequence + 1, request, uid)] + PagesFrom(me, sequence + 1, request + 1, uid, pages)
  }

  /** The whole snapshot: the complete announces as many pages and resources as went out. */
  function Plan(me: AgentId, sequence: nat, request: nat, uid: SnapshotUid, pages: seq<seq<Resource>>): seq<Message> {
    Opening(me, sequence, request, uid, pages)
    + [Complete(me, sequence + |pages| + 2, request + |pages| + 1, uid, |pages|, |Concat(pages)|)]
  }

  lemma OpeningOn(me: AgentId, sequence: nat, request: nat, uid: SnapshotUid, pages: seq<seq<Resource>>,
                  page: seq<Resource>)
    ensures Opening(me, sequence, request, uid, pages + [page])
         == Opening(me, sequence, request, uid, pages)
            + [Page(me, sequence + |pages| + 2, request + |pages| + 1, uid, |pages| + 1, page)]
  {
  }

  lemma PlanOn(before: seq<Message>, me: AgentId, sequence: nat, request: nat, uid: SnapshotUid,
               pages: seq<seq<Resource>>)
    ensures before + Plan(me, sequence, request, uid, pages)
         == before + Opening(me, sequence, request, uid, pages)
            + [Complete(me, sequence + |pages| + 2, request + |pages| + 1, uid, |pages|, |Concat(pages)|)]
    ensures |Opening(me, sequence, request, uid, pages)| == |pages| + 1
  {
    Associative(before, Opening(me, sequence, request, uid, pages),
                [Complete(me, sequence + |pages| + 2, request + |pages| + 1, uid, |pages|, |Concat(pages)|)]);
  }

  // One collection as the API server lists it: chunk by chunk, perhaps ending in an error.
  datatype Listing = Listing(chunks: seq<seq<Resource>>, complete: bool)

  function Items(listings: seq<Listing>): seq<Resource> {
    if listings == [] then [] else Items(listings[..|listings| - 1]) + Concat(listings[|listings| - 1].chunks)
  }

  // ---- What a watch session should look like on the wire --------------------------

  function Shipped(messages: seq<Message>): seq<WatchEvent> {
    if messages == [] then []
    else
      var last := messages[|messages| - 1];
      Shipped(messages[..|messages| - 1]) + if last.Events? then last.events else []
  }

  /** Event messages only, numbered without a gap from `sequence` + 1, none empty, none above the limit. */
  ghost predicate AreBatches(me: AgentId, sequence: nat, messages: seq<Message>) {
    forall i :: 0 <= i < |messages| ==>
      && messages[i].Events? && messages[i].agent == me && messages[i].sequence == sequence + 1 + i
      && 0 < |messages[i].events| <= WATCH_BATCH_MAX
  }

  // A turn of the loop takes an event from the queue or is the ticker's.
  function One(turn: Option<WatchEvent>): seq<WatchEvent> {
    if turn.Some? then [turn.value] else []
  }

  function Taken(turns: seq<Option<WatchEvent>>): seq<WatchEvent> {
    if turns == [] then []
    else
      var last := turns[|turns| - 1];
      Taken(turns[..|turns| - 1]) + One(last)
  }

  // ---- The engine --------------------------------------------------------------

  class SyncEngine {
    const me: AgentId
    const client: Client
    var sequence: nat                  // last number handed out
    var stored: nat                    // last acknowledged number written to disk
    var inventory: InventoryState
    var requests: nat                  // request ids handed out
    var posted: seq<Message>           // every inventory message posted, in order
    // The snapshot being streamed.
    var uid: SnapshotUid
    var pending: seq<Resource>
    var pageNumber: nat
    var totalResources: nat
    // Watch events: queued by the watchers, then batched by the flusher.
    var queue: seq<WatchEvent>
    var overflow: bool
    var batch: seq<WatchEvent>

    constructor (agent: AgentId, transport: Client, restored: nat)
      ensures me == agent && client == transport && sequence == restored && stored == restored && inventory.Empty?
      ensures posted == [] && requests == 0 && pending == [] && batch == [] && queue == []
    {
      me, client, sequence, stored, inventory := agent, transport, restored, restored, Empty;
      requests, posted, uid, pending, pageNumber, totalResources := 0, [], SnapshotUid(""), [], 0, 0;
      queue, overflow, batch := [], false, [];
    }

    method NextSequence() returns (next: nat)
      modifies `sequence
      ensures next == sequence == old(sequence) + 1
    {
      sequence := sequence + 1;
      next := sequence;
    }

    method NextRequest() returns (next: nat)
      modifies `requests
      ensures next == old(requests) && requests == old(requests) + 1
    {
      next := requests;
      requests := requests + 1;
    }

    // Storing may fail; the number on disk is then an older acknowledged one.
    method PersistAck(m: Message)
      modifies `stored
      ensures stored == old(stored) || (!m.Heartbeat? && stored == m.sequence)
    {
      var written: bool := *;
      if !m.Heartbeat? && written { stored := m.sequence; }
    }

    /** Posts one message. It counts as acknowledged when an answer below 400 came, and only then may its
        number be stored. */
    method Post(m: Message) returns (ok: bool, demanded: bool)
      modifies `posted, `stored, client
      ensures posted == old(posted) + [m]
      ensures client.replies != []
          && (ok <==> client.replies[|client.replies| - 1].Answer? && client.replies[|client.replies| - 1].status < 400)
      ensures stored == old(stored) || (ok && stored == m.sequence)
      ensures demanded ==> !ok
    {
      ghost var copies, answers;
      var result;
      result, copies, answers := client.Post(m);
      assert client.replies[|client.replies| - 1] == answers[|answers| - 1];
      posted := posted + [m];
      match result {
        case Status(status) =>
          if status >= 400 { return false, false; }
          PersistAck(m);
          return true, false;
        case ReconcileRequired => return false, true;
        case Cancelled => return false, false;
        case Exhausted => return false, false;
      }
    }

    // ---- Streaming a snapshot ------------------------------------------------

    /** So far this cycle, which started at `start` and `request`, has posted its begin and `pages`. */
    ghost predicate Streamed(before: seq<Message>, start: nat, request: nat, pages: seq<seq<Resource>>)
      reads this
    {
      && posted == before + Opening(me, start, request, uid, pages)
      && sequence == start + 1 + |pages| && requests == request + 1 + |pages| && pageNumber == |pages|
    }

    /** And everything in `items` is in those pages, all of them full, or waits for the next. */
    ghost predicate Streaming(before: seq<Message>, start: nat, request: nat, pages: seq<seq<Resource>>,
                              items: seq<Resource>)
      reads this
    {
      && Streamed(before, start, request, pages)
      && AllFull(pages) && |pending| < SNAPSHOT_PAGE_MAX
      && Concat(pages) + pending == items && totalResources == |Concat(pages)|
    }

    /** The number on disk is the one it was, or one handed out since. */
    ghost predicate StoredSince(was: nat, from: nat)
      reads this
    {
      from <= sequence && (stored == was || from < stored <= sequence)
    }

    method FlushPage(ghost before: seq<Message>, ghost start: nat, ghost request: nat, ghost pages: seq<seq<Resource>>)
      returns (ok: bool, ghost out: seq<seq<Resource>>)
      requires Streamed(before, start, request, pages) && totalResources == |Concat(pages)|
      modifies this, client
      ensures out == if old(pending) == [] then pages else pages + [old(pending)]
      ensures uid == old(uid) && Streamed(before, start, request, out) && pages <= out
      ensures ok ==> pending == [] && totalResources == |Concat(out)|
      ensures queue == old(queue) && batch == old(batch) && (stored == old(stored) || (ok && stored == sequence))
      ensures old(pending) == [] ==> stored == old(stored) && sequence == old(sequence)
      ensures old(pending) != [] ==>
          posted == old(posted) + [Page(me, sequence, old(requests), uid, pageNumber, old(pending))]
    {
      out := pages;
      if pending == [] { return true, pages; }
      pageNumber := pageNumber + 1;
      var next := NextSequence();
      var id := NextRequest();
      var page := Page(me, next, id, uid, pageNumber, pending);
      OpeningOn(me, start, request, uid, pages, pending);
      ConcatAppend(pages, pending);
      out := pages + [pending];
      var demanded;
      ok, demanded := Post(page);
      if !ok { return false, out; }
      totalResources := totalResources + |pending|;
      pending := [];
    }

    method Emit(resource: Resource, ghost before: seq<Message>, ghost start: nat, ghost request: nat,
                ghost pages: seq<seq<Resource>>, ghost items: seq<Resource>)
      returns (ok: bool, ghost out: seq<seq<Resource>>)
      requires Streaming(before, start, request, pages, items)
      modifies this, client
      ensures uid == old(uid) && queue == old(queue) && batch == old(batch) && pages <= out
      ensures StoredSince(old(stored), old(sequence))
      ensures ok ==> Streaming(before, start, request, out, items + [resource])
      ensures Streamed(before, start, request, out) && AllFull(out) && Concat(out) <= items + [resource]
    {
      pending := pending + [resource];
      assert Concat(pages) + pending == items + [resource];
      if |pending| >= SNAPSHOT_PAGE_MAX {
        ConcatAppend(pages, pending);
        ok, out := FlushPage(before, start, request, pages);
      } else {
        ok, out := true, pages;
      }
    }

    method EmitChunk(chunk: seq<Resource>, ghost before: seq<Message>, ghost start: nat, ghost request: nat,
                     ghost pages: seq<seq<Resource>>, ghost items: seq<Resource>)
      returns (ok: bool, ghost out: seq<seq<Resource>>)
      requires Streaming(before, start, request, pages, items)
      modifies this, client
      ensures uid == old(uid) && queue == old(queue) && batch == old(batch) && pages <= out
      ensures StoredSince(old(stored), old(sequence))
      ensures ok ==> Streaming(before, start, request, out, items + chunk)
      ensures Streamed(before, start, request, out) && AllFull(out) && Concat(out) <= items + chunk
    {
      out, ok := pages, true;
      assert items + chunk[..0] == items;
      for k := 0 to |chunk|
        invariant ok && uid == old(uid) && Streaming(before, start, request, out, items + chunk[..k])
        invariant queue == old(queue) && batch == old(batch) && pages <= out && StoredSince(old(stored), old(sequence))
      {
        assert items + chunk[..k] + [chunk[k]] == items + chunk[..k + 1];
        assert items + chunk[..k + 1] <= items + chunk;
        ok, out := Emit(chunk[k], before, start, request, out, items + chunk[..k]);
        if !ok { return; }
      }
      assert items + chunk[..|chunk|] == items + chunk;
    }

    /** Chunks of any size go in; the pages that come out do not show where a chunk ended. */
    method ListCollection(listing: Listing, ghost before: seq<Message>, ghost start: nat, ghost request: nat,
                          ghost pages: seq<seq<Resource>>, ghost items: seq<Resource>)
      returns (ok: bool, ghost out: seq<seq<Resource>>)
      requires Streaming(before, start, request, pages, items)
      modifies this, client
      ensures uid == old(uid) && queue == old(queue) && batch == old(batch) && pages <= out
      ensures StoredSince(old(stored), old(sequence))
      ensures ok ==> listing.complete && Streaming(before, start, request, out, items + Concat(listing.chunks))
      ensures Streamed(before, start, request, out) && AllFull(out) && Concat(out) <= items + Concat(listing.chunks)
    {
      out := pages;
      assert items + Concat(listing.chunks[..0]) == items;
      for i := 0 to |listing.chunks|
        invariant uid == old(uid) && Streaming(before, start, request, out, items + Concat(listing.chunks[..i]))
        invariant queue == old(queue) && batch == old(batch) && pages <= out && StoredSince(old(stored), old(sequence))
      {
        ChunkDone(items, listing.chunks, i);
        ok, out := EmitChunk(listing.chunks[i], before, start, request, out, items + Concat(listing.chunks[..i]));
        if !ok { return; }
      }
      assert listing.chunks[..|listing.chunks|] == listing.chunks;
      ok := listing.complete;
    }

    // A cycle starts with an empty queue and the begin.
    method StreamBegin(name: SnapshotUid) returns (ok: bool)
      modifies this, client
      ensures uid == name && Streaming(old(posted), old(sequence), old(requests), [], [])
      ensures posted == old(posted) + [Begin(me, sequence, old(requests), name)]
      ensures queue == [] && batch == [] && !overflow && (stored == old(stored) || (ok && stored == sequence))
    {
      queue, overflow, batch := [], false, [];
      uid, pending, pageNumber, totalResources := name, [], 0, 0;
      var next := NextSequence();
      var id := NextRequest();
      var demanded;
      ok, demanded := Post(Begin(me, next, id, uid));
    }

    /** The begin, then every collection in turn. */
    method StreamItems(name: SnapshotUid, listings: seq<Listing>) returns (ok: bool, ghost pages: seq<seq<Resource>>)
      modifies this, client
      ensures uid == name && AllFull(pages) && Concat(pages) <= Items(listings)
      ensures Streamed(old(posted), old(sequence), old(requests), pages)
      ensures ok ==> Streaming(old(posted), old(sequence), old(requests), pages, Items(listings))
      ensures ok ==> forall i :: 0 <= i < |listings| ==> listings[i].complete
    {
      ghost var before, start, request := posted, sequence, requests;
      pages := [];
      ok := StreamBegin(name);
      if !ok { return; }
      for i := 0 to |listings|
        invariant ok && uid == name && Streaming(before, start, request, pages, Items(listings[..i]))
        invariant forall k :: 0 <= k < i ==> listings[k].complete
      {
        ListingDone(listings, i);
        ok, pages := ListCollection(listings[i], before, start, request, pages, Items(listings[..i]));
        if !ok { return; }
      }
      assert listings[..|listings|] == listings;
    }

    method PostComplete() returns (ok: bool)
      modifies `sequence, `requests, `posted, `stored, client
      ensures sequence == old(sequence) + 1 && requests == old(requests) + 1
      ensures posted == old(posted) + [Complete(me, sequence, old(requests), uid, pageNumber, totalResources)]
      ensures stored == old(stored) || (ok && stored == sequence)
    {
      var next := NextSequence();
      var id := NextRequest();
      var demanded;
      ok, demanded := Post(Complete(me, next, id, uid, pageNumber, totalResources));
    }

    /** The last, partly filled page, then the complete. */
    method Finish(ghost before: seq<Message>, ghost start: nat, ghost request: nat,
                  ghost pages: seq<seq<Resource>>, ghost items: seq<Resource>)
      returns (ok: bool, ghost out: seq<seq<Resource>>)
      requires Streaming(before, start, request, pages, items)
      modifies this, client
      ensures uid == old(uid) && queue == old(queue) && batch == old(batch)
      ensures Paging(out, items) && out == pages + (if old(pending) == [] then [] else [old(pending)])
      ensures sequence == start + |posted| - |before| && requests == request + |posted| - |before|
      ensures StoredSince(old(stored), old(sequence)) && (!ok ==> stored == old(stored) || stored < sequence)
      ensures ok ==> pending == [] && pageNumber == |out| && totalResources == |Concat(out)|
      ensures ok ==> posted == before + Plan(me, start, request, uid, out)
      ensures posted == before + Plan(me, start, request, uid, out)
          || posted == before + Opening(me, start, request, uid, out)
    {
      hide Plan, Opening, Concat;
      LastPage(pages, pending, items);
      ok, out := FlushPage(before, start, request, pages);
      PlanOn(before, me, start, request, uid, out);
      if !ok { return; }
      ok := PostComplete();
    }

    /** One whole snapshot. If it succeeds, what went out is the plan for exactly the listed resources; wherever
        it fails, what went out is a beginning of such a plan, and the numbers used are the numbers sent. */
    method StreamSnapshot(name: SnapshotUid, listings: seq<Listing>) returns (ok: bool, ghost pages: seq<seq<Resource>>)
      modifies this, client
      ensures uid == name && sequence == old(sequence) + |posted| - |old(posted)| && Concat(pages) <= Items(listings)
      ensures ok ==> Paging(pages, Items(listings)) && (forall i :: 0 <= i < |listings| ==> listings[i].complete)
      ensures ok ==> posted == old(posted) + Plan(me, old(sequence), old(requests), uid, pages)
      ensures
        || posted == old(posted) + Opening(me, old(sequence), old(requests), uid, pages)
        || posted == old(posted) + Plan(me, old(sequence), old(requests), uid, pages)
    {
      ghost var before, start, request := posted, sequence, requests;
      ok, pages := StreamItems(name, listings);
      if !ok { return; }
      ok, pages := Finish(before, start, request, pages, Items(listings));
    }

    // ---- Watching --------------------------------------------------------------

    /** A full queue drops the event and raises the alarm: nothing is dropped silently. */
    method Enqueue(event: WatchEvent) returns (ok: bool)
      modifies `queue, `overflow
      ensures ok <==> |old(queue)| < QUEUE_CAPACITY
      ensures queue == (if ok then old(queue) + [event] else old(queue)) && overflow == (old(overflow) || !ok)
      ensures |old(queue)| <= QUEUE_CAPACITY ==> |queue| <= QUEUE_CAPACITY
    {
      ok := |queue| < QUEUE_CAPACITY;
      if ok { queue := queue + [event]; } else { overflow := true; }
    }

    method FlushBatch() returns (ok: bool)
      modifies `sequence, `requests, `posted, `stored, `batch, client
      ensures batch == [] && (stored == old(stored) || (ok && stored == sequence && old(batch) != []))
      ensures old(batch) == [] ==> ok && posted == old(posted) && sequence == old(sequence) && requests == old(requests)
      ensures old(batch) != [] ==>
        && sequence == old(sequence) + 1 && requests == old(requests) + 1
        && posted == old(posted) + [Events(me, sequence, old(requests), old(batch))]
    {
      if batch == [] { return true; }
      var next := NextSequence();
      var id := NextRequest();
      var events := batch;
      batch := [];
      var demanded;
      ok, demanded := Post(Events(me, next, id, events));
    }

    // What the loop's select yields: the event queued first, or the ticker.
    method NextTurn() returns (turn: Option<WatchEvent>)
      modifies `queue
      ensures turn.Some? ==> old(queue) != [] && turn.value == old(queue)[0] && queue == old(queue)[1..]
      ensures turn.None? ==> queue == old(queue)
    {
      turn := None;
      var ticked: bool := *;
      if queue != [] && !ticked { turn, queue := Some(queue[0]), queue[1..]; }
    }

    // One turn of the loop; it posts at most one message.
    method FlushTurn(turn: Option<WatchEvent>) returns (ok: bool, ghost out: seq<Message>)
      requires |batch| < WATCH_BATCH_MAX
      modifies `sequence, `requests, `posted, `stored, `batch, client
      ensures |batch| < WATCH_BATCH_MAX && |out| <= 1
      ensures posted == old(posted) + out && sequence == old(sequence) + |out| && AreBatches(me, old(sequence), out)
      ensures Shipped(out) + batch == old(batch) + One(turn)
      ensures
        var full := old(batch) + One(turn);
        if full != [] && (turn.None? || |full| >= WATCH_BATCH_MAX)
        then out == [Events(me, sequence, old(requests), full)] && batch == [] && requests == old(requests) + 1
        else out == [] && batch == full && requests == old(requests) && ok
      ensures stored == old(stored) || (ok && stored == sequence && out != [])
    {
      hide Shipped;
      if turn.Some? { batch := batch + [turn.value]; }
      ghost var full := batch;
      assert full == old(batch) + One(turn);
      ok, out := true, [];
      NothingShipped(full);
      if turn.None? || |batch| >= WATCH_BATCH_MAX {
        ghost var request := requests;
        ok := FlushBatch();
        if full != [] {
          out := [Events(me, sequence, request, full)];
          OneShipped(out[0]);
        }
      }
    }

    /** Until a post fails or the turns run out: what was shipped and what is still batched is what was batched
        before and everything taken since, in order, once each. */
    method FlushLoop(turns: seq<Option<WatchEvent>>) returns (ok: bool, done: nat, ghost shipped: seq<Message>)
      requires |batch| < WATCH_BATCH_MAX
      modifies `sequence, `requests, `posted, `stored, `batch, client
      ensures done <= |turns| && (ok ==> done == |turns|) && |batch| < WATCH_BATCH_MAX
      ensures posted == old(posted) + shipped && sequence == old(sequence) + |shipped|
      ensures AreBatches(me, old(sequence), shipped)
      ensures Shipped(shipped) + batch == old(batch) + Taken(turns[..done])
    {
      ok, done, shipped := true, 0, [];
      while done < |turns| && ok
        invariant done <= |turns| && |batch| < WATCH_BATCH_MAX
        invariant posted == old(posted) + shipped && sequence == old(sequence) + |shipped|
        invariant AreBatches(me, old(sequence), shipped)
        invariant Shipped(shipped) + batch == old(batch) + Taken(turns[..done])
        decreases |turns| - done
      {
        ghost var out, before := [], batch;
        ok, out := FlushTurn(turns[done]);
        TurnDone(shipped, out, old(batch), Taken(turns[..done]), before, One(turns[done]), batch);
        TakenOn(turns, done);
        shipped := shipped + out;
        done := done + 1;
      }
    }
  }

  lemma NothingShipped(batch: seq<WatchEvent>)
    ensures Shipped([]) + batch == batch
  {
  }

  lemma OneShipped(m: Message)
    requires m.Events?
    ensures Shipped([m]) + [] == m.events
  {
    assert [m][..0] == [];
  }

  lemma TurnDone(shipped: seq<Message>, out: seq<Message>, start: seq<WatchEvent>, taken: seq<WatchEvent>,
                 before: seq<WatchEvent>, one: seq<WatchEvent>, after: seq<WatchEvent>)
    requires |out| <= 1 && (forall i :: 0 <= i < |out| ==> out[i].Events?)
    requires Shipped(shipped) + before == start + taken && Shipped(out) + after == before + one
    ensures Shipped(shipped + out) + after == start + (taken + one)
  {
    ShippedJoins(shipped, out);
    Associative(Shipped(shipped), Shipped(out), after);
    Associative(Shipped(shipped), before, one);
    Associative(start, taken, one);
  }

  lemma ShippedJoins(shipped: seq<Message>, out: seq<Message>)
    requires |out| <= 1 && (forall i :: 0 <= i < |out| ==> out[i].Events?)
    ensures Shipped(shipped + out) == Shipped(shipped) + Shipped(out)
  {
    if out == [] {
      assert shipped + out == shipped;
    } else {
      assert out == [out[0]] && [] + out == out;
      ShippedOn([], out[0]);
      ShippedOn(shipped, out[0]);
    }
  }

  lemma TakenOn(turns: seq<Option<WatchEvent>>, n: nat)
    requires n < |turns|
    ensures Taken(turns[..n + 1]) == Taken(turns[..n]) + One(turns[n])
  {
    assert turns[..n + 1][..n] == turns[..n];
  }

  lemma ShippedOn(messages: seq<Message>, m: Message)
    requires m.Events?
    ensures Shipped(messages + [m]) == Shipped(messages) + m.events
  {
    assert (messages + [m])[..|messages|] == messages;
  }

  lemma Prefixed(items: seq<Resource>, part: seq<Resource>, whole: seq<Resource>)
    requires part <= whole
    ensures items + part <= items + whole
  {
  }

  lemma ChunkAdded(chunks: seq<seq<Resource>>, i: nat)
    requires i < |chunks|
    ensures Concat(chunks[..i + 1]) == Concat(chunks[..i]) + chunks[i]
  {
    ConcatAppend(chunks[..i], chunks[i]);
    assert chunks[..i + 1] == chunks[..i] + [chunks[i]];
  }

  lemma ChunkDone(items: seq<Resource>, chunks: seq<seq<Resource>>, i: nat)
    requires i < |chunks|
    ensures items + Concat(chunks[..i]) + chunks[i] == items + Concat(chunks[..i + 1])
    ensures items + Concat(chunks[..i + 1]) <= items + Concat(chunks)
  {
    ChunkAdded(chunks, i);
    ConcatPrefix(chunks, i + 1);
    Prefixed(items, Concat(chunks[..i + 1]), Concat(chunks));
    Associative(items, Concat(chunks[..i]), chunks[i]);
  }

  lemma LastPage(pages: seq<seq<Resource>>, pending: seq<Resource>, items: seq<Resource>)
    requires AllFull(pages) && |pending| < SNAPSHOT_PAGE_MAX && Concat(pages) + pending == items
    ensures Paging(if pending == [] then pages else pages + [pending], items)
  {
    ConcatAppend(pages, pending);
    if pending == [] { assert Concat(pages) + pending == Concat(pages); }
  }

  lemma ListingDone(listings: seq<Listing>, i: nat)
    requires i < |listings|
    ensures Items(listings[..i + 1]) == Items(listings[..i]) + Concat(listings[i].chunks) <= Items(listings)
  {
    assert listings[..i + 1][..i] == listings[..i];
    ItemsPrefix(listings, i + 1);
  }

  lemma {:induction false} ItemsPrefix(listings: seq<Listing>, n: nat)
    requires n <= |listings|
    ensures Items(listings[..n]) <= Items(listings)
    decreases |listings| - n
  {
    if n < |listings| {
      assert listings[..n + 1][..n] == listings[..n];
      ItemsPrefix(listings, n + 1);
    } else {
      assert listings[..n] == listings;
    }
  }

  lemma {:induction false} ConcatPrefix(parts: seq<seq<Resource>>, n: nat)
    requires n <= |parts|
    ensures Concat(parts[..n]) <= Concat(parts)
    decreases |parts| - n
  {
    if n < |parts| {
      assert parts[..n + 1] == parts[..n] + [parts[n]];
      ConcatAppend(parts[..n], parts[n]);
      ConcatPrefix(parts, n + 1);
    } else {
      assert parts[..n] == parts;
    }
  }
}
