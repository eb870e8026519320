/** The identity store on the agent's disk, one atomic file operation at a time. Every operation is written
    into `history` together with the server's row at that moment: a crash may freeze the disk at any entry. */
module IdentityStore {
  import opened Inventory
  import opened Text
  import opened StateDirectory
  import opened KeyServer
  import opened Pruning

  const MAX_KEPT_BUNDLES: nat := 4
  const DAY: nat := 86_400_000_000_000

  // `blind`: the marker could not be read before this prepare.
  datatype Request =
    | PrepareRequest(signer: Key, renewal: string, blind: bool)
    | ActivateRequest(signer: Key, renewal: string)

  // The disk and the server's row after one operation, and the request it put on the wire, if any.
  datatype Instant = Instant(disk: Disk, server: KeyRow, sent: Option<Request>)

  /** Both pointers name complete bundles. */
  ghost predicate Grounded(disk: Disk) {
    && (disk.current.Some? ==>
        TrimSpace(disk.current.value) in disk.bundles && IsComplete(disk.bundles[TrimSpace(disk.current.value)]))
    && (disk.current.None? ==> Load(disk.legacy).Some?)
    && (PendingRenewal(disk).Some? ==>
          PendingRenewal(disk).value.bundle in disk.bundles
            && IsComplete(disk.bundles[PendingRenewal(disk).value.bundle]))
  }

  predicate CurrentTrusted(disk: Disk, server: KeyRow) {
    LoadCurrent(disk).Some? && LoadCurrent(disk).value.key == server.trusted
  }

  ghost predicate PendingTrusted(disk: Disk, server: KeyRow) {
    && PendingRenewal(disk).Some?
    && (var m := PendingRenewal(disk).value;
        LoadBundle(disk, m.bundle).Some? && Promoted(server, m.renewal, LoadBundle(disk, m.bundle).value.key))
  }

  /** No lock-out: the key the server trusts is in the current bundle, or in the bundle the pending marker
      names, and then the server will acknowledge the marker's renewal id. */
  ghost predicate Held(disk: Disk, server: KeyRow) {
    CurrentTrusted(disk, server) || PendingTrusted(disk, server)
  }

  /** A prepare goes out signed with the current key, and only while no marker is on disk, so that the server trusts
      that key: unless a marker was there but could not be read. */
  ghost predicate Prudent(i: Instant) {
    i.sent.Some? && i.sent.value.PrepareRequest? ==>
      && LoadCurrent(i.disk).Some? && i.sent.value.signer == LoadCurrent(i.disk).value.key
      && (i.sent.value.blind || (PendingRenewal(i.disk).None? && i.sent.value.signer == i.server.trusted))
  }

  ghost predicate Sound(i: Instant, origins: map<string, Origin>) {
    && FromOrigins(i.disk, origins)
    && Grounded(i.disk)
    && Held(i.disk, i.server)
    && Prudent(i)
  }

  /** Where every history may start: an enrolled identity, in the flat files of its enrollment or in the bundle that
      is current, under the key the server trusts. */
  lemma EnrolledIsSound(id: Identity, ca: string, bundle: string, row: KeyRow)
    requires row.trusted == id.key && IsWord(bundle)
    ensures
      var files := NO_FILES.(key := Some(id.key), certificate := Some(id.certificate), agentId := Some(id.agentId),
                             ca := Some(ca));
      && Sound(Instant(Disk(map[], None, None, None, files), row, None), map[])
      && Sound(Instant(Disk(map[bundle := files], Some(bundle), None, None, NO_FILES), row, None),
               map[bundle := Origin(id, ca)])
  {
    TrimWord(bundle);
  }

  predicate Names(disk: Disk, bundle: string) {
    || (disk.current.Some? && TrimSpace(disk.current.value) == bundle)
    || (PendingRenewal(disk).Some? && PendingRenewal(disk).value.bundle == bundle)
  }

  /** `after` continues `before`, and throughout the new part the current identity was one of `current`. */
  ghost predicate Grew(before: seq<Instant>, after: seq<Instant>, current: set<Option<Identity>>) {
    && before <= after
    && forall i :: |before| <= i < |after| ==> LoadCurrent(after[i].disk) in current
  }

  lemma GrewOn(first: seq<Instant>, second: seq<Instant>, third: seq<Instant>, some: set<Option<Identity>>,
               more: set<Option<Identity>>)
    requires Grew(first, second, some) && Grew(second, third, more)
    ensures Grew(first, third, some + more)
  {
  }

  lemma GrewNothing(history: seq<Instant>, current: Option<Identity>)
    ensures Grew(history, history, {current})
  {
  }

  lemma GrewFurther(first: seq<Instant>, second: seq<Instant>, third: seq<Instant>, current: Option<Identity>)
    requires Grew(first, second, {current}) && Grew(second, third, {current})
    ensures Grew(first, third, {current})
  {
  }

  /** The pointers and every bundle of `before` are as they were. */
  ghost predicate Untouched(before: Disk, disk: Disk) {
    && disk == before.(bundles := disk.bundles)
    && forall b :: b in before.bundles ==> b in disk.bundles && disk.bundles[b] == before.bundles[b]
  }

  ghost predicate UntouchedSince(before: Disk, start: nat, history: seq<Instant>) {
    forall i :: start <= i < |history| ==> Untouched(before, history[i].disk)
  }

  lemma GrewByOne(before: seq<Instant>, after: seq<Instant>, current: Option<Identity>)
    requires |after| == |before| + 1 && before <= after && LoadCurrent(after[|before|].disk) == current
    ensures Grew(before, after, {current})
  {
  }

  /** Dropping the marker locks nobody out exactly when the current key is still the trusted one. */
  lemma DroppingIsSafeIff(disk: Disk, server: KeyRow)
    requires Held(disk, server)
    ensures Held(disk.(pending := None), server) <==> CurrentTrusted(disk, server)
  {
  }

  /** What pruning would cost if it removed bundles that a pointer names, as it could when the pointers cannot be
      read: nobody is locked out exactly when the bundle with the trusted key stays. */
  lemma PruningNamedBundlesIsSafeIff(disk: Disk, server: KeyRow, gone: set<string>)
    requires Held(disk, server)
    ensures Held(disk.(bundles := disk.bundles - gone), server) <==>
      || (CurrentTrusted(disk, server) && (disk.current.None? || TrimSpace(disk.current.value) !in gone))
      || (PendingTrusted(disk, server) && PendingRenewal(disk).value.bundle !in gone)
  {
  }

  // ---- What single file operations keep ------------------------------------

  lemma InertBundle(disk: Disk, server: KeyRow, origins: map<string, Origin>, bundle: string, files: Files)
    requires Sound(Instant(disk, server, None), origins) && !Names(disk, bundle)
    requires bundle in origins && PartOf(files, origins[bundle])
    ensures
      var after := disk.(bundles := disk.bundles[bundle := files]);
      && Sound(Instant(after, server, None), origins) && !Names(after, bundle)
      && LoadCurrent(after) == LoadCurrent(disk) && PendingRenewal(after) == PendingRenewal(disk)
  {
  }

  lemma SoundStill(i: Instant, origins: map<string, Origin>, bundle: string, origin: Origin)
    requires Sound(i, origins) && bundle !in origins
    ensures Sound(i, origins[bundle := origin]) && !Names(i.disk, bundle)
  {
  }

  lemma LeftIsPart(disk: Disk, server: KeyRow, origins: map<string, Origin>, bundle: string, left: Files)
    requires Sound(Instant(disk, server, None), origins) && bundle in disk.bundles
    requires left.key.Some? ==> left.key == disk.bundles[bundle].key
    requires left.certificate.Some? ==> left.certificate == disk.bundles[bundle].certificate
    requires left.agentId.Some? ==> left.agentId == disk.bundles[bundle].agentId
    requires left.ca.Some? ==> left.ca == disk.bundles[bundle].ca
    ensures bundle in origins && PartOf(left, origins[bundle])
  {
  }

  lemma InertRemoval(disk: Disk, server: KeyRow, origins: map<string, Origin>, bundle: string)
    requires Sound(Instant(disk, server, None), origins) && !Names(disk, bundle)
    ensures
      var after := disk.(bundles := disk.bundles - {bundle});
      && Sound(Instant(after, server, None), origins)
      && LoadCurrent(after) == LoadCurrent(disk) && PendingRenewal(after) == PendingRenewal(disk)
      && forall b :: Names(after, b) <==> Names(disk, b)
  {
  }

  ghost function Longest(used: set<string>): (n: nat)
    ensures forall s :: s in used ==> |s| <= n
    decreases |used|
  {
    if used == {} then 0
    else
      var s :| s in used;
      var n := Longest(used - {s});
      if |s| <= n then n else |s|
  }

  lemma FreshWordExists(used: set<string>)
    ensures exists w :: IsWord(w) && w !in used
  {
    var w: string := seq(Longest(used) + 1, _ => 'x');
    assert IsWord(w) && w !in used;
  }

  // The bundles no pointer names, with their modification times.
  function Ages(disk: Disk): map<string, int> {
    map b | b in disk.bundles && !Names(disk, b) :: disk.bundles[b].modified
  }

  function Excess(disk: Disk): nat {
    if |disk.bundles.Keys| <= MAX_KEPT_BUNDLES then 0 else |disk.bundles.Keys| - MAX_KEPT_BUNDLES
  }

  function NamedBundles(disk: Disk): (r: set<string>)
    ensures |r| <= 2 && forall b :: b in r <==> Names(disk, b)
  {
    var current := if disk.current.Some? then {TrimSpace(disk.current.value)} else {};
    var pending := if PendingRenewal(disk).Some? then {PendingRenewal(disk).value.bundle} else {};
    current + pending
  }

  lemma AgesAreTheRest(disk: Disk)
    ensures Ages(disk).Keys == disk.bundles.Keys - NamedBundles(disk)
  {
    hide NamedBundles, Names;
  }

  lemma RestCount<T>(all: set<T>, some: set<T>)
    ensures |all| - |some| <= |all - some| <= |all|
  {
    assert all == (all - some) + (all * some);
    LargerSet(all * some, some);
  }

  /** One current bundle and one pending: with more than four bundles there are two candidates more than turns. */
  lemma CandidatesOutnumberTurns(disk: Disk)
    ensures |disk.bundles.Keys| > MAX_KEPT_BUNDLES ==> |Ages(disk).Keys| >= Excess(disk) + 2
    ensures |Ages(disk).Keys| >= Excess(disk)
  {
    hide Names, NamedBundles;
    AgesAreTheRest(disk);
    RestCount(disk.bundles.Keys, NamedBundles(disk));
  }

  /** The marks of successive turns: a day ahead of a clock that started at `first` and does not go back. */
  ghost predicate AreMarks(marks: seq<int>, first: int) {
    && (forall k :: 0 <= k < |marks| ==> first + DAY <= marks[k])
    && (forall j, k :: 0 <= j <= k < |marks| ==> marks[j] <= marks[k])
  }

  // Some bundles are gone; neither pointer nor what they name has changed.
  ghost predicate Pruned(before: Disk, gone: set<string>, after: Disk) {
    && after == before.(bundles := before.bundles - gone)
    && LoadCurrent(after) == LoadCurrent(before) && PendingRenewal(after) == PendingRenewal(before)
    && (forall b :: Names(after, b) <==> Names(before, b))
  }

  lemma PrunedOn(before: Disk, gone: set<string>, middle: Disk, bundle: string, after: Disk)
    requires Pruned(before, gone, middle) && Pruned(middle, {bundle}, after)
    ensures Pruned(before, gone + {bundle}, after)
  {
    assert before.bundles - gone - {bundle} == before.bundles - (gone + {bundle});
  }

  lemma NothingPruned(disk: Disk)
    ensures Pruned(disk, {}, disk)
  {
    assert disk.bundles - {} == disk.bundles;
  }

  lemma CountPruned(ages: map<string, int>, names: seq<string>, marks: seq<int>, excess: nat, bound: int)
    requires IsListing(names, ages.Keys) && names != []
    requires forall k :: 0 <= k < |marks| ==> bound <= marks[k]
    requires |marks| == (if excess <= |names| then excess else |names|)
    ensures (forall b :: b in ages ==> ages[b] < bound) ==>
        OldestPruned(ages, excess, At(names, Pick(Ordered(ages, names), marks).picks))
    ensures At(names, Pick(Ordered(ages, names), marks).picks) <= ages.Keys
  {
    if forall b :: b in ages ==> ages[b] < bound { PrunedExactly(ages, names, marks, excess, bound); }
  }

  lemma PickedNothing(order: seq<int>)
    requires order != []
    ensures Pick(order, []) == Picked(order, [])
  {
  }

  lemma PickedOn(order: seq<int>, marks: seq<int>, before: Picked, mark: int)
    requires order != [] && Pick(order, marks) == before
    ensures Pick(order, marks + [mark])
        == Picked(before.times[Oldest(before.times) := mark], before.picks + [Oldest(before.times)])
  {
    assert (marks + [mark])[..|marks|] == marks;
  }

  class Host {
    var disk: Disk
    var server: KeyRow
    var history: seq<Instant>
    var origins: map<string, Origin>

    ghost predicate Valid()
      reads this
    {
      && history != []
      && history[|history| - 1].disk == disk && history[|history| - 1].server == server
      && (forall i :: 0 <= i < |history| ==> Sound(history[i], origins))
      && Sound(Instant(disk, server, None), origins)
    }

    constructor (start: Disk, row: KeyRow, saved: map<string, Origin>)
      requires Sound(Instant(start, row, None), saved)
      ensures Valid() && disk == start && server == row && history == [Instant(start, row, None)] && origins == saved
    {
      disk, server, history, origins := start, row, [Instant(start, row, None)], saved;
    }

    method Record(next: Disk, row: KeyRow, sent: Option<Request>)
      requires Valid() && Sound(Instant(next, row, sent), origins)
      modifies `disk, `server, `history
      ensures Valid() && disk == next && server == row && history == old(history) + [Instant(next, row, sent)]
    {
      disk, server, history := next, row, history + [Instant(next, row, sent)];
    }

    /** The process dies at that instant, and nothing later has happened. */
    method CrashAt(instant: nat)
      requires Valid() && instant < |history|
      modifies `disk, `server, `history
      ensures Valid() && history == old(history)[..instant + 1] && disk == old(history)[instant].disk
    {
      disk, server := history[instant].disk, history[instant].server;
      history := history[..instant + 1];
    }

    // ---- Saving a bundle ---------------------------------------------------

    // A new save: its id is a fresh uuid.
    method Announce(identity: Identity, ca: string) returns (bundle: string)
      requires Valid()
      modifies `origins
      ensures Valid() && IsWord(bundle) && bundle !in disk.bundles && !Names(disk, bundle)
      ensures bundle in origins && origins[bundle] == Origin(identity, ca)
    {
      var used := disk.bundles.Keys + origins.Keys;
      FreshWordExists(used);
      bundle :| IsWord(bundle) && bundle !in used;
      hide Sound, Names;
      forall i | 0 <= i < |history| ensures Sound(history[i], origins[bundle := Origin(identity, ca)]) {
        SoundStill(history[i], origins, bundle, Origin(identity, ca));
      }
      SoundStill(Instant(disk, server, None), origins, bundle, Origin(identity, ca));
      origins := origins[bundle := Origin(identity, ca)];
    }

    // atomicWrite of one file of a bundle that no pointer names. It may fail, and then nothing has changed.
    method WriteFile(bundle: string, files: Files) returns (ok: bool)
      requires Valid() && !Names(disk, bundle) && bundle in origins && PartOf(files, origins[bundle])
      modifies `disk, `server, `history
      ensures Valid() && server == old(server) && !Names(disk, bundle)
      ensures disk == if ok then old(disk).(bundles := old(disk.bundles)[bundle := files]) else old(disk)
      ensures LoadCurrent(disk) == LoadCurrent(old(disk)) && Grew(old(history), history, {LoadCurrent(disk)})
      ensures forall i :: |old(history)| <= i < |history| ==> history[i].disk == disk
    {
      ok := *;
      if ok {
        InertBundle(disk, server, origins, bundle, files);
        Record(disk.(bundles := disk.bundles[bundle := files]), server, None);
      }
    }

    // The directory after each file in turn: key, certificate, agent id, CA chain.
    static function Stages(origin: Origin, modified: int): (stages: seq<Files>)
      ensures |stages| == 4 && IsComplete(stages[3]) && Load(stages[3]) == Some(origin.identity)
      ensures forall i :: 0 <= i < 4 ==> PartOf(stages[i], origin)
    {
      var key := NO_FILES.(key := Some(origin.identity.key), modified := modified);
      var certificate := key.(certificate := Some(origin.identity.certificate));
      var agentId := certificate.(agentId := Some(origin.identity.agentId));
      [key, certificate, agentId, agentId.(ca := Some(origin.ca))]
    }

    /** Writes the four files of a bundle that no pointer names, and stops at the first that fails. */
    method Save(bundle: string) returns (ok: bool)
      requires Valid() && !Names(disk, bundle) && bundle in origins && bundle !in disk.bundles
      modifies `disk, `server, `history
      ensures Valid() && server == old(server)
      ensures disk == old(disk).(bundles := disk.bundles) && disk.bundles - {bundle} == old(disk.bundles)
      ensures LoadCurrent(disk) == LoadCurrent(old(disk)) && Grew(old(history), history, {LoadCurrent(disk)})
      ensures UntouchedSince(old(disk), |old(history)|, history)
      ensures ok ==> bundle in disk.bundles && IsComplete(disk.bundles[bundle])
      ensures ok ==> LoadBundle(disk, bundle) == Some(origins[bundle].identity)
    {
      hide Sound;
      ghost var before := disk;
      var modified: int := *;
      var stages := Stages(origins[bundle], modified);
      for i := 0 to 4
        invariant Valid() && server == old(server) && !Names(disk, bundle)
        invariant disk == if i == 0 then before else before.(bundles := before.bundles[bundle := stages[i - 1]])
        invariant LoadCurrent(disk) == LoadCurrent(before) && Grew(old(history), history, {LoadCurrent(before)})
        invariant UntouchedSince(before, |old(history)|, history)
      {
        ok := WriteFile(bundle, stages[i]);
        if !ok { return; }
        assert before.bundles[bundle := stages[if i == 0 then 0 else i - 1]][bundle := stages[i]]
            == before.bundles[bundle := stages[i]];
      }
      ok := true;
    }

    /** Saves under a fresh id. Whatever fails, at no instant has a pointer moved or another bundle changed; on
        success the bundle loads as exactly this identity. */
    method SaveBundle(identity: Identity, ca: string) returns (bundle: Option<string>)
      requires Valid()
      modifies this
      ensures Valid() && server == old(server)
      ensures Untouched(old(disk), disk) && UntouchedSince(old(disk), |old(history)|, history)
      ensures LoadCurrent(disk) == LoadCurrent(old(disk)) && Grew(old(history), history, {LoadCurrent(disk)})
      ensures bundle.Some? ==>
        && IsWord(bundle.value) && bundle.value !in old(disk.bundles)
        && bundle.value in disk.bundles && IsComplete(disk.bundles[bundle.value])
        && LoadBundle(disk, bundle.value) == Some(identity)
    {
      var name := Announce(identity, ca);
      var ok := Save(name);
      bundle := if ok then Some(name) else None;
    }

    // ---- The pointers ------------------------------------------------------

    /** Names a complete bundle and a renewal id in the marker, or fails and changes nothing. */
    method SetPending(bundle: string, renewal: string) returns (ok: bool)
      requires Valid() && CurrentTrusted(disk, server)
      requires IsWord(bundle) && IsWord(renewal) && bundle in disk.bundles && IsComplete(disk.bundles[bundle])
      modifies `disk, `server, `history
      ensures Valid() && server == old(server) && disk.bundles == old(disk.bundles)
      ensures PendingRenewal(disk) == if ok then Some(Marker(bundle, renewal)) else PendingRenewal(old(disk))
      ensures LoadCurrent(disk) == LoadCurrent(old(disk)) && Grew(old(history), history, {LoadCurrent(disk)})
    {
      ok := *;
      if ok {
        MarkerReadsBack(disk, bundle, renewal);
        Record(WriteMarker(disk, bundle, renewal), server, None);
      }
    }

    /** Removes the marker because the bundle it names could not be read. This is safe exactly when the server still
        trusts the current key: a promotion that has not been answered yet is forgotten here. */
    method DropPending()
      requires Valid() && PendingRenewal(disk).Some?
      modifies `disk, `server, `history
      ensures disk == old(disk).(pending := None) && server == old(server)
      ensures history == old(history) + [Instant(disk, server, None)]
      ensures Valid() <==> CurrentTrusted(old(disk), old(server))
      ensures Held(disk, server) <==> CurrentTrusted(old(disk), old(server))
    {
      DroppingIsSafeIff(disk, server);
      disk := disk.(pending := None);
      history := history + [Instant(disk, server, None)];
    }

    method ClearPending()
      requires Valid() && CurrentTrusted(disk, server)
      modifies `disk, `server, `history
      ensures Valid() && server == old(server) && disk == old(disk).(pending := None)
      ensures LoadCurrent(disk) == LoadCurrent(old(disk)) && Grew(old(history), history, {LoadCurrent(disk)})
    {
      Record(disk.(pending := None), server, None);
    }

    /** Points the current pointer at a bundle. At every instant the current identity is the whole old one or the
        whole new one; an unreadable bundle or a failed write leaves everything as it was. */
    method Promote(bundle: string) returns (ok: bool)
      requires Valid() && IsWord(bundle)
      requires LoadBundle(disk, bundle).Some? ==>
          IsComplete(disk.bundles[bundle]) && LoadBundle(disk, bundle).value.key == server.trusted
      modifies `disk, `server, `history
      ensures Valid() && server == old(server) && PendingRenewal(disk) == PendingRenewal(old(disk))
      ensures LoadCurrent(disk) == if ok then LoadBundle(old(disk), bundle) else LoadCurrent(old(disk))
      ensures LoadBundle(old(disk), bundle).None? ==> !ok
      ensures Grew(old(history), history, {LoadCurrent(old(disk)), LoadBundle(old(disk), bundle)})
    {
      if LoadBundle(disk, bundle).None? { return false; }
      ok := *;
      if ok {
        TrimWord(bundle);
        ghost var before := history;
        Record(disk.(current := Some(bundle)), server, None);
        ghost var middle := history;
        ghost var pruned, started, names, marks, ranking;
        pruned, started, names, marks, ranking := PruneBundles();
        GrewOn(before, middle, history, {LoadCurrent(disk)}, {LoadCurrent(disk)});
      }
    }

    /** Persists an acknowledged sequence number, or fails and keeps the one before. */
    method StoreSequence(value: int) returns (ok: bool)
      requires Valid()
      modifies `disk, `server, `history
      ensures Valid() && server == old(server) && disk == old(disk).(sequence := disk.sequence)
      ensures LoadSequence(disk)
          == if !ok then LoadSequence(old(disk)) else if 0 <= value <= MAX_INT64 then value else 0
      ensures Grew(old(history), history, {LoadCurrent(disk)})
    {
      ok := *;
      if ok {
        SequenceReadsBack(disk, value);
        Record(WriteSequence(disk, value), server, None);
      }
    }

    // ---- Pruning -----------------------------------------------------------

    // Some of its files are removed at once: which ones, and in how many steps, is left open.
    method RemoveFiles(bundle: string)
      requires Valid() && !Names(disk, bundle) && bundle in disk.bundles
      modifies `disk, `server, `history
      ensures Valid() && server == old(server) && !Names(disk, bundle) && bundle in disk.bundles
      ensures disk == old(disk).(bundles := old(disk.bundles)[bundle := disk.bundles[bundle]])
      ensures LoadCurrent(disk) == LoadCurrent(old(disk)) && PendingRenewal(disk) == PendingRenewal(old(disk))
      ensures Grew(old(history), history, {LoadCurrent(disk)})
    {
      hide Sound, TrimSpace, Fields;
      var files := disk.bundles[bundle];
      var key: bool, certificate: bool, agentId: bool, ca: bool := *, *, *, *;
      var left := files.(key := if key then files.key else None,
                         certificate := if certificate then files.certificate else None,
                         agentId := if agentId then files.agentId else None, ca := if ca then files.ca else None);
      LeftIsPart(disk, server, origins, bundle, left);
      InertBundle(disk, server, origins, bundle, left);
      Record(disk.(bundles := disk.bundles[bundle := left]), server, None);
    }

    // Its files go one by one, in any order, and the directory last; what is already gone is no error.
    method RemoveAll(bundle: string)
      requires Valid() && !Names(disk, bundle)
      modifies `disk, `server, `history
      ensures Valid() && server == old(server)
      ensures Pruned(old(disk), {bundle}, disk) && Grew(old(history), history, {LoadCurrent(disk)})
    {
      hide Sound, TrimSpace, Fields, Grew, LoadCurrent;
      ghost var before := disk;
      if bundle !in disk.bundles {
        assert disk.bundles - {bundle} == disk.bundles;
        GrewNothing(history, LoadCurrent(disk));
        return;
      }
      GrewNothing(history, LoadCurrent(disk));
      var steps: nat :| 0 <= steps;
      for step := 0 to steps
        invariant Valid() && server == old(server) && !Names(disk, bundle) && bundle in disk.bundles
        invariant disk == before.(bundles := before.bundles[bundle := disk.bundles[bundle]])
        invariant LoadCurrent(disk) == LoadCurrent(before) && PendingRenewal(disk) == PendingRenewal(before)
        invariant Grew(old(history), history, {LoadCurrent(before)})
      {
        ghost var middle := history;
        RemoveFiles(bundle);
        GrewFurther(old(history), middle, history, LoadCurrent(before));
      }
      InertRemoval(disk, server, origins, bundle);
      assert disk.bundles - {bundle} == before.bundles - {bundle};
      ghost var middle := history;
      Record(disk.(bundles := disk.bundles - {bundle}), server, None);
      GrewByOne(middle, history, LoadCurrent(before));
      GrewFurther(old(history), middle, history, LoadCurrent(before));
    }

    method ReadDir() returns (entries: seq<string>)
      ensures IsListing(entries, disk.bundles.Keys)
    {
      entries := [];
      var rest := disk.bundles.Keys;
      while rest != {}
        invariant rest <= disk.bundles.Keys
        invariant forall x :: x in entries <==> x in disk.bundles.Keys && x !in rest
        invariant forall i, j :: 0 <= i < j < |entries| ==> entries[i] != entries[j]
      {
        var name :| name in rest;
        entries := entries + [name];
        rest := rest - {name};
      }
    }

    method Candidates(entries: seq<string>) returns (names: seq<string>, times: array<int>)
      requires IsListing(entries, disk.bundles.Keys)
      ensures IsListing(names, Ages(disk).Keys)
      ensures fresh(times) && times[..] == Ordered(Ages(disk), names)
    {
      var ages := Ages(disk);
      var modified: seq<int> := [];
      names := [];
      for k := 0 to |entries|
        invariant forall x :: x in names <==> x in entries[..k] && x in ages
        invariant forall i, j :: 0 <= i < j < |names| ==> names[i] != names[j]
        invariant modified == Ordered(ages, names)
      {
        assert entries[k] !in entries[..k];
        if !Names(disk, entries[k]) {
          names := names + [entries[k]];
          modified := modified + [disk.bundles[entries[k]].modified];
        }
      }
      assert entries[..|entries|] == entries;
      times := new int[|modified|](k requires 0 <= k < |modified| => modified[k]);
      assert times[..] == modified;
    }

    /** Removes unnamed bundles while there are more than four in all. The two pointers keep theirs. Exactly the
        oldest ones go, as many as exceed the limit, if and only if the youngest of them precedes the marks that
        the turns before its own left: which it does when no candidate is dated a day or more ahead. */
    method PruneBundles() returns (ghost pruned: set<string>, ghost started: int, ghost names: seq<string>,
                                   ghost marks: seq<int>, ghost ranking: seq<nat>)
      requires Valid()
      modifies `disk, `server, `history
      ensures Valid() && server == old(server)
      ensures disk == old(disk).(bundles := old(disk.bundles) - pruned) && pruned <= Ages(old(disk)).Keys
      ensures LoadCurrent(disk) == LoadCurrent(old(disk)) && PendingRenewal(disk) == PendingRenewal(old(disk))
      ensures Grew(old(history), history, {LoadCurrent(disk)})
      ensures |marks| == |ranking| == Excess(old(disk)) && AreMarks(marks, started)
      ensures IsListing(names, Ages(old(disk)).Keys) && IsRanking(Ordered(Ages(old(disk)), names), ranking)
      ensures OldestPruned(Ages(old(disk)), Excess(old(disk)), pruned) <==>
                OlderThanMarks(Ordered(Ages(old(disk)), names), ranking, marks)
      ensures (forall b :: b in Ages(old(disk)) ==> Ages(old(disk))[b] < started + DAY) ==>
                OldestPruned(Ages(old(disk)), Excess(old(disk)), pruned)
    {
      ghost var before, ages := disk, Ages(disk);
      var first: int := *;
      started, pruned, marks, ranking := first, {}, [], [];
      assert before.bundles - {} == before.bundles;
      CandidatesOutnumberTurns(disk);
      var entries := ReadDir();
      ListingCount(entries, disk.bundles.Keys);
      var found, times := Candidates(entries);
      names := found;
      ListingCount(names, ages.Keys);
      if |entries| <= MAX_KEPT_BUNDLES { return; }
      ghost var picks;
      marks, picks := RemoveOldest(found, times, |entries| - MAX_KEPT_BUNDLES, first);
      pruned := At(names, picks);
      ranking := RankingExists(Ordered(ages, names), |marks|);
      PrunedExactlyIff(ages, names, marks, Excess(before), ranking);
      CountPruned(ages, names, marks, Excess(before), started + DAY);
    }

    // The loop of pruneBundles. `marks` are the times it writes over the candidates it has removed.
    method RemoveOldest(names: seq<string>, times: array<int>, limit: nat, first: int)
      returns (ghost marks: seq<int>, ghost picks: seq<nat>)
      requires Valid() && IsListing(names, Ages(disk).Keys) && times.Length == |names| > 0
      modifies `disk, `server, `history, times
      ensures |marks| == (if limit <= |names| then limit else |names|) && AreMarks(marks, first)
      ensures picks == Pick(old(times[..]), marks).picks
      ensures forall k :: 0 <= k < |picks| ==> picks[k] < |names|
      ensures Valid() && server == old(server) && Pruned(old(disk), At(names, picks), disk)
      ensures Grew(old(history), history, {LoadCurrent(disk)})
    {
      hide Sound, Names, Grew, Pick, LoadCurrent, PendingRenewal, Ages;
      GrewNothing(history, LoadCurrent(disk));
      ghost var before := disk;
      ghost var order := times[..];
      NothingPruned(disk);
      assert At(names, []) == {};
      marks, picks := [], [];
      PickedNothing(order);
      var index, clock := 0, first;
      while index < |names| && index < limit
        invariant index <= |names| && index <= limit && |marks| == index
        invariant AreMarks(marks, first) && first <= clock && (forall k :: 0 <= k < |marks| ==> marks[k] <= clock + DAY)
        invariant Pick(order, marks) == Picked(times[..], picks)
        invariant Valid() && server == old(server) && Pruned(before, At(names, picks), disk)
        invariant Grew(old(history), history, {LoadCurrent(before)})
      {
        ghost var state, earlier := Picked(times[..], picks), history;
        clock, picks := RemoveOne(names, times, clock, before, picks);
        PickedOn(order, marks, state, clock + DAY);
        GrewFurther(old(history), earlier, history, LoadCurrent(before));
        marks := marks + [clock + DAY];
        index := index + 1;
      }
    }

    // One turn. The clock does not go back between turns.
    method RemoveOne(names: seq<string>, times: array<int>, earlier: int, ghost before: Disk, ghost past: seq<nat>)
      returns (now: int, ghost picks: seq<nat>)
      requires Valid() && IsListing(names, Ages(before).Keys) && times.Length == |names| > 0
      requires (forall k :: 0 <= k < |past| ==> past[k] < |names|) && Pruned(before, At(names, past), disk)
      modifies `disk, `server, `history, times
      ensures picks == past + [Oldest(old(times[..]))]
          && times[..] == old(times[..])[Oldest(old(times[..])) := now + DAY]
      ensures earlier <= now
      ensures Valid() && server == old(server) && Pruned(before, At(names, picks), disk)
      ensures Grew(old(history), history, {LoadCurrent(before)})
    {
      var oldest := FindOldest(times);
      assert names[oldest] in names;
      ghost var middle := disk;
      RemoveAll(names[oldest]);
      PrunedOn(before, At(names, past), middle, names[oldest], disk);
      assert At(names, past + [oldest]) == At(names, past) + {names[oldest]};
      now :| now >= earlier;
      times[oldest] := now + DAY;
      picks := past + [oldest];
    }
  }
}
