/** Two-phase certificate renewal, with a server that may lose any request or any answer and an agent that may
    crash between any two file operations. Host.Valid says of every instant so far: nobody is locked out, the
    pointers name complete bundles, and prepares went out only with no marker on disk. */
module Renewal {
  import opened Inventory
  import opened Text
  import opened StateDirectory
  import opened KeyServer
  import opened IdentityStore
  import opened Transport

  datatype Outcome = NoPending | PendingPromoted | PendingRefused | PendingAmbiguous

  // ---- One request, retried --------------------------------------------------

  /** A prepare signed with the current key locks nobody out, marker or no marker; and it is granted only while the
      server trusts that key. */
  lemma PrepareKeeps(disk: Disk, row: KeyRow, origins: map<string, Origin>, signer: Key, renewal: string, blind: bool,
                     key: Key, now: int, notAfter: int)
    requires Sound(Instant(disk, row, None), origins) && (blind || PendingRenewal(disk).None?)
    requires LoadCurrent(disk).Some? && LoadCurrent(disk).value.key == signer
    ensures
      var (after, reply) := Prepare(row, signer, renewal, key, now, notAfter);
      && Sound(Instant(disk, after, Some(PrepareRequest(signer, renewal, blind))), origins)
      && after.trusted == row.trusted
      && (reply.Some? ==> reply.value.key == key && CurrentTrusted(disk, after))
  {
  }

  /** What the marker says is right whichever way the server answers: yes means that the marked key is
      trusted now, and no means that the current one still is. */
  lemma ActivateKeeps(disk: Disk, row: KeyRow, origins: map<string, Origin>, m: Marker, now: int)
    requires Sound(Instant(disk, row, None), origins) && PendingRenewal(disk) == Some(m)
    ensures
      var key := LoadBundle(disk, m.bundle).value.key;
      var (after, ok) := Activate(row, key, m.renewal, now);
      && Sound(Instant(disk, after, Some(ActivateRequest(key, m.renewal))), origins)
      && (ok ==> after.trusted == key)
      && (!ok ==> CurrentTrusted(disk, after))
  {
    var key := LoadBundle(disk, m.bundle).value.key;
    if Promoted(row, m.renewal, key) { PromotedIsAcknowledged(row, m.renewal, key, now); }
  }

  /** Why no copy may take effect once its sender has given up: after a late prepare and a late activation of a
      renewal whose marker is gone, somebody holds the trusted key exactly if it is the key that was trusted before. */
  lemma LateCopiesLockOut(disk: Disk, row: KeyRow, renewal: string, key: Key, now: int, notAfter: int)
    requires Held(disk, row) && PendingRenewal(disk).None?
    requires row.notAfter >= now && row.renewal != Some(renewal)
    ensures
      var prepared := Prepare(row, row.trusted, renewal, key, now, notAfter).0;
      var after := Activate(prepared, key, renewal, now).0;
      after.trusted == key && (Held(disk, after) <==> key == row.trusted)
  {
  }

  /** None: no answer came through, and the request may have taken effect any number of times. */
  method PostPrepare(host: Host, signer: Key, renewal: string, blind: bool, key: Key)
    returns (reply: Option<Option<Certificate>>)
    requires host.Valid() && (blind || PendingRenewal(host.disk).None?)
    requires LoadCurrent(host.disk).Some? && LoadCurrent(host.disk).value.key == signer
    modifies host`disk, host`server, host`history
    ensures host.Valid() && host.disk == old(host.disk) && host.server.trusted == old(host.server.trusted)
    ensures reply.Some? && reply.value.Some? ==> reply.value.value.key == key && CurrentTrusted(host.disk, host.server)
    ensures Grew(old(host.history), host.history, {LoadCurrent(host.disk)})
  {
    for attempt := 0 to MAX_ATTEMPTS
      invariant host.Valid() && host.disk == old(host.disk) && host.server.trusted == old(host.server.trusted)
      invariant Grew(old(host.history), host.history, {LoadCurrent(host.disk)})
    {
      var arrives: bool, answered: bool, cancelled: bool := *, *, *;
      var now: int, notAfter: int := *, *;
      var (after, certificate) := Prepare(host.server, signer, renewal, key, now, notAfter);
      PrepareKeeps(host.disk, host.server, host.origins, signer, renewal, blind, key, now, notAfter);
      UnansweredKeeps(host.disk, host.server, host.origins, signer, renewal, blind);
      host.Record(host.disk, if arrives then after else host.server, Some(PrepareRequest(signer, renewal, blind)));
      if arrives && answered { return Some(certificate); }
      if cancelled { break; }
    }
    reply := None;
  }

  lemma UnansweredKeeps(disk: Disk, row: KeyRow, origins: map<string, Origin>, signer: Key, renewal: string,
                        blind: bool)
    requires Sound(Instant(disk, row, None), origins) && (blind || PendingRenewal(disk).None?)
    requires LoadCurrent(disk).Some? && LoadCurrent(disk).value.key == signer
    ensures Sound(Instant(disk, row, Some(PrepareRequest(signer, renewal, blind))), origins)
  {
  }

  method PostActivate(host: Host, m: Marker) returns (reply: Option<bool>)
    requires host.Valid() && PendingRenewal(host.disk) == Some(m)
    modifies host`disk, host`server, host`history
    ensures host.Valid() && host.disk == old(host.disk)
    ensures reply == Some(true) ==> host.server.trusted == LoadBundle(host.disk, m.bundle).value.key
    ensures reply == Some(false) ==> CurrentTrusted(host.disk, host.server)
    ensures Grew(old(host.history), host.history, {LoadCurrent(host.disk)})
  {
    var signer := LoadBundle(host.disk, m.bundle).value.key;
    for attempt := 0 to MAX_ATTEMPTS
      invariant host.Valid() && host.disk == old(host.disk)
      invariant Grew(old(host.history), host.history, {LoadCurrent(host.disk)})
    {
      var arrives: bool, answered: bool, cancelled: bool := *, *, *;
      var now: int := *;
      var (after, ok) := Activate(host.server, signer, m.renewal, now);
      ActivateKeeps(host.disk, host.server, host.origins, m, now);
      host.Record(host.disk, if arrives then after else host.server, Some(ActivateRequest(signer, m.renewal)));
      if arrives && answered { return Some(ok); }
      if cancelled { break; }
    }
    reply := None;
  }

  // ---- Settling a pending renewal --------------------------------------------

  // What became of one attempt. `blind`: the marker was there and could not be read. `dropped`: the bundle could not
  // be read and the marker was removed.
  datatype Attempt = Attempt(outcome: Outcome, blind: bool, dropped: bool)

  /** Activates with the key of the marked bundle, promotes it and clears the marker. */
  method ActivateMarked(host: Host, m: Marker) returns (settled: Option<Identity>, outcome: Outcome)
    requires host.Valid() && PendingRenewal(host.disk) == Some(m)
    modifies host`disk, host`server, host`history
    ensures host.Valid() && !outcome.NoPending?
    ensures outcome.PendingAmbiguous? <==> PendingRenewal(host.disk).Some?
    ensures outcome.PendingPromoted? <==> settled.Some?
    ensures LoadCurrent(host.disk) == if settled.Some? then settled else LoadCurrent(old(host.disk))
    ensures Grew(old(host.history), host.history, {LoadCurrent(old(host.disk)), LoadBundle(old(host.disk), m.bundle)})
  {
    MarkerWords(host.disk);
    var reply := PostActivate(host, m);
    if reply.None? { return None, PendingAmbiguous; }
    if !reply.value {
      host.ClearPending();
      return None, PendingRefused;
    }
    var pending := LoadBundle(host.disk, m.bundle);
    var ok := host.Promote(m.bundle);
    if !ok { return None, PendingAmbiguous; }
    host.ClearPending();
    return pending, PendingPromoted;
  }

  /** One attempt, in which reading the marker or its bundle may fail. A marker that cannot be read counts as none. A
      bundle that cannot be read costs the marker: that locks the agent out if and only if the server has promoted
      the marked key already, and `held` says that it has not. */
  method TryActivatePending(host: Host) returns (settled: Option<Identity>, attempt: Attempt, held: bool)
    requires host.Valid()
    modifies host`disk, host`server, host`history
    ensures held <==> host.Valid()
    ensures held <==> !attempt.dropped || CurrentTrusted(old(host.disk), old(host.server))
    ensures attempt.blind ==> attempt.outcome.NoPending? && host.disk == old(host.disk)
    ensures attempt.dropped ==>
      && attempt.outcome.PendingRefused? && PendingRenewal(old(host.disk)).Some? && host.server == old(host.server)
      && host.disk == old(host.disk).(pending := None)
      && host.history == old(host.history) + [Instant(host.disk, host.server, None)]
    ensures attempt.outcome.PendingAmbiguous? || attempt.blind <==> PendingRenewal(host.disk).Some?
    ensures attempt.outcome.PendingPromoted? <==> settled.Some?
    ensures LoadCurrent(host.disk) == if settled.Some? then settled else LoadCurrent(old(host.disk))
    ensures
      var m := PendingRenewal(old(host.disk));
      Grew(old(host.history), host.history,
           {LoadCurrent(old(host.disk))} + if m.None? then {} else {LoadBundle(old(host.disk), m.value.bundle)})
  {
    hide Sound, Fields;
    var marker := PendingRenewal(host.disk);
    if marker.None? { return None, Attempt(NoPending, false, false), true; }
    var markerFails: bool, bundleFails: bool := *, *;
    if markerFails { return None, Attempt(NoPending, true, false), true; }
    if bundleFails {
      held := CurrentTrusted(host.disk, host.server);
      host.DropPending();
      return None, Attempt(PendingRefused, false, true), held;
    }
    var outcome;
    settled, outcome := ActivateMarked(host, marker.value);
    attempt, held := Attempt(outcome, false, false), true;
  }

  lemma MarkerWords(disk: Disk)
    ensures PendingRenewal(disk).Some? ==>
        IsWord(PendingRenewal(disk).value.bundle) && IsWord(PendingRenewal(disk).value.renewal)
  {
    if disk.pending.Some? { FieldsAreWords(disk.pending.value); }
  }

  /** The history ends with the one instant at which somebody was locked out: a marker was dropped because its bundle
      could not be read, after the server had promoted the marked key. */
  ghost predicate LostAtLast(history: seq<Instant>) {
    && |history| > 1
    && (forall i :: 0 <= i < |history| - 1 ==> Kept(history[i]))
    && var before, last := history[|history| - 2], history[|history| - 1];
       && PendingRenewal(before.disk).Some? && PendingTrusted(before.disk, before.server)
       && !CurrentTrusted(before.disk, before.server)
       && last == Instant(before.disk.(pending := None), before.server, None) && !Held(last.disk, last.server)
  }

  /** What is promised of an instant. */
  ghost predicate Kept(i: Instant) {
    Held(i.disk, i.server) && Grounded(i.disk) && Prudent(i)
  }

  // What a call leaves: everything sound, or lost at the last instant.
  ghost predicate Outlived(host: Host, held: bool)
    reads host
  {
    (held <==> host.Valid()) && (!held ==> LostAtLast(host.history))
  }

  lemma LostHere(before: seq<Instant>, after: seq<Instant>, disk: Disk, server: KeyRow, origins: map<string, Origin>)
    requires before != [] && (forall i :: 0 <= i < |before| ==> Sound(before[i], origins))
    requires before[|before| - 1].disk == disk && before[|before| - 1].server == server
    requires PendingRenewal(disk).Some? && !CurrentTrusted(disk, server)
    requires after == before + [Instant(disk.(pending := None), server, None)]
    ensures LostAtLast(after)
  {
    DroppingIsSafeIff(disk, server);
    assert Sound(before[|before| - 1], origins);
  }

  // A disk after a prepare: the old bundle is current, and the marker names the new one.
  function AfterPrepare(former: Identity, latter: Identity): Disk {
    var files := NO_FILES.(key := Some(former.key), certificate := Some(former.certificate),
                           agentId := Some(former.agentId));
    var pending := NO_FILES.(key := Some(latter.key), certificate := Some(latter.certificate),
                             agentId := Some(latter.agentId));
    WriteMarker(Disk(map["old" := files, "new" := pending], Some("old"), None, None, NO_FILES), "new", "renewal")
  }

  /** The failing instant: the server has promoted the new key, the answer was lost, and the new bundle cannot be
      read at the next attempt. */
  lemma UnreadBundleLocksOut(former: Identity, latter: Identity, now: int, notAfter: int)
    requires former.key != latter.key && now <= notAfter
    ensures
      var disk, row := AfterPrepare(former, latter), KeyRow(former.key, notAfter, None, None, 0);
      var prepared := Prepare(row, former.key, "renewal", latter.key, now, notAfter).0;
      var (promoted, ok) := Activate(prepared, latter.key, "renewal", now);
      ok && Held(disk, promoted) && !Held(disk.(pending := None), promoted)
  {
    var disk := AfterPrepare(former, latter);
    assert IsWord("old") && IsWord("new") && IsWord("renewal");
    MarkerReadsBack(disk, "new", "renewal");
    TrimWord("old");
    assert PendingRenewal(disk) == Some(Marker("new", "renewal"));
    assert LoadCurrent(disk) == Some(former) && LoadBundle(disk, "new") == Some(latter);
  }

  /** And nobody gets back in: with the marker gone every further prepare is signed with a key the server does not
      trust, and refused. */
  lemma LostStaysLost(disk: Disk, row: KeyRow, signer: Key, renewal: string, key: Key, now: int, notAfter: int)
    requires !Held(disk, row) && LoadCurrent(disk).Some? && LoadCurrent(disk).value.key == signer
    ensures Prepare(row, signer, renewal, key, now, notAfter) == (row, None)
  {
  }

  /** Retries the same marker until the server has answered or `patience` runs out, which stands for the
      cancellation of the context. Unless cancelled or blind, no marker is left and the identity returned is trusted.
      After a lock-out nothing can happen any more, and the call ends. */
  method SettlePending(host: Host, current: Identity, patience: nat)
    returns (id: Identity, left: nat, blind: bool, held: bool)
    requires host.Valid() && LoadCurrent(host.disk) == Some(current)
    modifies host`disk, host`server, host`history
    ensures Outlived(host, held) && LoadCurrent(host.disk) == Some(id) && left <= patience
    ensures held && left > 0 && !blind ==> PendingRenewal(host.disk).None? && id.key == host.server.trusted
    ensures held ==> old(host.history) <= host.history
  {
    hide Sound, Fields;
    id, left, blind, held := current, patience, false, true;
    while left > 0
      invariant host.Valid() && LoadCurrent(host.disk) == Some(id) && left <= patience && held && !blind
      invariant old(host.history) <= host.history
    {
      ghost var disk, server, history, origins := host.disk, host.server, host.history, host.origins;
      var settled, attempt;
      settled, attempt, held := TryActivatePending(host);
      if !held { LostHere(history, host.history, disk, server, origins); return; }
      blind := attempt.blind;
      if settled.Some? { id := settled.value; }
      if !attempt.outcome.PendingAmbiguous? {
        if !blind { CurrentIsTrusted(host); }
        return;
      }
      left := left - 1;
    }
  }

  // ---- Starting a renewal ----------------------------------------------------

  /** Nothing pending: the current identity is the one the server trusts. */
  lemma CurrentIsTrusted(host: Host)
    requires host.Valid() && PendingRenewal(host.disk).None?
    ensures CurrentTrusted(host.disk, host.server)
  {
  }

  /** Prepare under the current key, save the bundle, set the marker, activate with the new key, promote, clear. A new
      bundle that cannot be read back leaves its marker for the next attempt. */
  method RenewOnce(host: Host, id: Identity, blind: bool) returns (renewed: Option<Identity>)
    requires host.Valid() && (blind || PendingRenewal(host.disk).None?) && LoadCurrent(host.disk) == Some(id)
    modifies host
    ensures host.Valid() && old(host.history) <= host.history
    ensures LoadCurrent(host.disk) == if renewed.Some? then renewed else Some(id)
    ensures renewed.Some? ==>
      PendingRenewal(host.disk).None? && renewed.value.key == host.server.trusted && renewed.value.agentId == id.agentId
  {
    hide Sound, Fields;
    var key: Key := *;
    FreshWordExists({});
    var renewal: string :| IsWord(renewal) && renewal !in {};
    var ca: string := *;
    var reply := PostPrepare(host, id.key, renewal, blind, key);
    if reply.None? || reply.value.None? { return None; }
    var bundle := host.SaveBundle(Identity(id.agentId, key, reply.value.value), ca);
    if bundle.None? { return None; }
    var marked := host.SetPending(bundle.value, renewal);
    if !marked { return None; }
    var bundleFails: bool := *;
    if bundleFails { return None; }
    var outcome;
    renewed, outcome := ActivateMarked(host, Marker(bundle.value, renewal));
    if renewed.Some? { CurrentIsTrusted(host); }
  }

  /** Whenever nothing is pending, the identity in memory is the one on disk and the one the server trusts. */
  method RenewalLoop(host: Host, current: Identity, patience: nat) returns (id: Identity, held: bool)
    requires host.Valid() && LoadCurrent(host.disk) == Some(current)
    modifies host
    ensures Outlived(host, held) && LoadCurrent(host.disk) == Some(id)
    ensures held ==> old(host.history) <= host.history
    ensures held && PendingRenewal(host.disk).None? ==> id.key == host.server.trusted
  {
    hide Sound, Fields;
    var left := patience;
    id, held := current, true;
    while left > 0
      invariant host.Valid() && LoadCurrent(host.disk) == Some(id) && held
      invariant old(host.history) <= host.history
      decreases left
    {
      var blind;
      id, left, blind, held := SettlePending(host, id, left);
      if !held { return; }
      if left == 0 { break; }
      var renewed := RenewOnce(host, id, blind);
      if renewed.Some? { id := renewed.value; }
      left := left - 1;
    }
    if PendingRenewal(host.disk).None? { CurrentIsTrusted(host); }
  }

  // ---- Lives -----------------------------------------------------------------

  /** From start-up on: the identity on disk loads, an interrupted renewal gets one attempt, the loop runs. */
  method Life(host: Host, patience: nat) returns (held: bool)
    requires host.Valid()
    modifies host
    ensures Outlived(host, held)
    ensures held ==> old(host.history) <= host.history
  {
    hide Fields;
    ghost var disk, server, history, origins := host.disk, host.server, host.history, host.origins;
    var current := LoadCurrent(host.disk).value;
    var settled, attempt;
    settled, attempt, held := TryActivatePending(host);
    if !held { LostHere(history, host.history, disk, server, origins); return; }
    var id;
    id, held := RenewalLoop(host, if settled.Some? then settled.value else current, patience);
  }

  /** Any number of lives, each cut short at an arbitrary instant: the disk and the server go back to that
      instant, and what came after it never happened. At every instant the trusted key is held; or else the last
      instant is one at which the agent dropped the marker of a promoted key because it could not read the bundle,
      and up to it the trusted key was held. */
  method Lives(host: Host, lives: nat) returns (held: bool)
    requires host.Valid()
    modifies host
    ensures held ==> forall i :: 0 <= i < |host.history| ==> Kept(host.history[i])
    ensures !held ==> LostAtLast(host.history)
  {
    held := true;
    for life := 0 to lives
      invariant host.Valid() && held
    {
      var patience: nat := *;
      held := Life(host, patience);
      if !held { return; }
      var crash :| 0 <= crash < |host.history|;
      host.CrashAt(crash);
    }
  }
}
