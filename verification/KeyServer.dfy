/** The server half of certificate renewal: one row of cluster_agents, one function per request. */
module KeyServer {
  import opened Inventory
  import opened StateDirectory

  const PENDING_RENEWAL_TTL_SECONDS: int := 900

  // `renewal` survives activation: it is what recognises a repeated one. `pending` and `expires` do not.
  datatype KeyRow = KeyRow(
    trusted: Key,
    notAfter: int,
    renewal: Option<string>,
    pending: Option<Certificate>,
    expires: int)

  predicate PendingLive(row: KeyRow, now: int) {
    row.renewal.Some? && row.pending.Some? && row.expires > now
  }

  /** PREPARE, signed by `signer`, for a request that carries a CSR for `key`; `notAfter` is the CA's choice.
      A request id the server still holds is answered with what it already issued, or refused for another key. */
  function Prepare(row: KeyRow, signer: Key, renewal: string, key: Key, now: int, notAfter: int)
    : (KeyRow, Option<Certificate>)
  {
    if signer != row.trusted || row.notAfter < now then (row, None)
    else if PendingLive(row, now) && row.renewal == Some(renewal) then
      (row, if row.pending.value.key == key then row.pending else None)
    else
      var issued := Certificate(key, notAfter);
      (row.(renewal := Some(renewal), pending := Some(issued), expires := now + PENDING_RENEWAL_TTL_SECONDS),
       Some(issued))
  }

  /** ACTIVATE, signed by `signer`. */
  function Activate(row: KeyRow, signer: Key, renewal: string, now: int): (KeyRow, bool) {
    if row.renewal != Some(renewal) then (row, false)
    else if PendingLive(row, now) then
      if signer != row.pending.value.key then (row, false)
      else (row.(trusted := signer, notAfter := row.pending.value.notAfter, pending := None), true)
    else (row, row.pending.None? && signer == row.trusted)
  }

  // The server promoted this renewal and has prepared no other since.
  predicate Promoted(row: KeyRow, renewal: string, key: Key) {
    row.trusted == key && row.renewal == Some(renewal) && row.pending.None?
  }

  /** Only an activation signed by the pending key moves trust, and preparing never does. */
  lemma OnlyActivationMovesTrust(row: KeyRow, signer: Key, renewal: string, key: Key, now: int, notAfter: int)
    ensures Prepare(row, signer, renewal, key, now, notAfter).0.trusted == row.trusted
    ensures var (after, ok) := Activate(row, signer, renewal, now);
            && (ok ==> Promoted(after, renewal, signer))
            && (!ok ==> after == row)
            && (after.trusted != row.trusted ==> row.pending.Some? && row.pending.value.key == signer)
  {
  }

  /** A promotion whose answer was lost is acknowledged however often it is asked for, at any later time. */
  lemma PromotedIsAcknowledged(row: KeyRow, renewal: string, key: Key, now: int)
    requires Promoted(row, renewal, key)
    ensures Activate(row, key, renewal, now) == (row, true)
  {
  }

  // The server still holds what it issued for that renewal.
  predicate Holding(row: KeyRow, renewal: string, now: int) {
    row.renewal == Some(renewal) && row.pending.Some? && now < row.expires
  }

  /** A prepare is granted exactly to a signer that is trusted and not expired, unless the server still holds a
      certificate for another key under the same request id. Asked again for what it holds, it answers with the very
      same certificate and writes nothing; asked for anything else, it replaces what it held for fifteen minutes. */
  lemma PrepareAnswers(row: KeyRow, signer: Key, renewal: string, key: Key, now: int, notAfter: int)
    ensures
      var (after, reply) := Prepare(row, signer, renewal, key, now, notAfter);
      var admitted := signer == row.trusted && now <= row.notAfter;
      && (reply.Some? <==> admitted && (Holding(row, renewal, now) ==> row.pending.value.key == key))
      && (reply.Some? && Holding(row, renewal, now) ==> reply == row.pending)
      && (reply.Some? && !Holding(row, renewal, now) ==>
           reply == Some(Certificate(key, notAfter))
           && after == KeyRow(row.trusted, row.notAfter, Some(renewal), reply, now + 900))
      && (reply.None? || Holding(row, renewal, now) ==> after == row)
  {
  }

  /** Two prepares of one renewal, the second while what the first was granted is still held: the same certificate for
      the same key, and a refusal for any other, whatever the signing authority would now say. */
  lemma RepeatedPrepare(row: KeyRow, renewal: string, key: Key, now: int, notAfter: int, other: Key, later: int,
                        otherNotAfter: int)
    requires now <= later <= row.notAfter && !Holding(row, renewal, now)
    ensures
      var (once, first) := Prepare(row, row.trusted, renewal, key, now, notAfter);
      var (twice, second) := Prepare(once, row.trusted, renewal, other, later, otherNotAfter);
      && first.Some?
      && (later < now + 900 ==> twice == once && second == if other == key then first else None)
      && (later >= now + 900 ==> second == Some(Certificate(other, otherNotAfter)))
  {
  }

  /** An activation is granted exactly to the key a live renewal holds, or to the trusted key once that renewal has
      been promoted. */
  lemma ActivateAnswers(row: KeyRow, signer: Key, renewal: string, now: int)
    ensures
      var (after, ok) := Activate(row, signer, renewal, now);
      && (ok <==>
          || (Holding(row, renewal, now) && signer == row.pending.value.key)
          || Promoted(row, renewal, signer))
      && (ok && row.pending.Some? ==>
           after == KeyRow(signer, row.pending.value.notAfter, row.renewal, None, row.expires))
      && (!ok || row.pending.None? ==> after == row)
  {
  }
}
