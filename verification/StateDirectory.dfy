/** The agent's state directory as a value: identity bundles, the pointers that name them, the sequence file. */
module StateDirectory {
  import opened Inventory
  import opened Text

  datatype Key = Key(id: nat)

  datatype Certificate = Certificate(key: Key, notAfter: int)

  // agent-key.pem, agent.pem, agent-id and ca.pem of one directory, and its modification time.
  datatype Files = Files(key: Option<Key>, certificate: Option<Certificate>, agentId: Option<string>,
                         ca: Option<string>, modified: int)

  const NO_FILES := Files(None, None, None, None, 0)

  datatype Disk = Disk(
    bundles: map<string, Files>,
    current: Option<string>,
    pending: Option<string>,
    sequence: Option<string>,
    legacy: Files)           // the flat layout that preceded bundles

  datatype Identity = Identity(agentId: string, key: Key, certificate: Certificate)

  datatype Marker = Marker(bundle: string, renewal: string)

  // The CA chain is not needed to load an identity.
  function Load(files: Files): Option<Identity> {
    if files.key.Some? && files.agentId.Some? && files.certificate.Some?
    then Some(Identity(files.agentId.value, files.key.value, files.certificate.value))
    else None
  }

  function LoadBundle(disk: Disk, bundle: string): Option<Identity> {
    if bundle in disk.bundles then Load(disk.bundles[bundle]) else None
  }

  function LoadCurrent(disk: Disk): Option<Identity> {
    match disk.current
    case Some(pointer) => LoadBundle(disk, TrimSpace(pointer))
    case None => Load(disk.legacy)
  }

  function PendingRenewal(disk: Disk): Option<Marker> {
    match disk.pending
    case None => None
    case Some(raw) =>
      var parts := Fields(raw);
      if |parts| != 2 then None else Some(Marker(parts[0], parts[1]))
  }

  function LoadSequence(disk: Disk): (value: int)
    ensures 0 <= value <= MAX_INT64
  {
    match disk.sequence
    case None => 0
    case Some(raw) =>
      match ParseInt(TrimSpace(raw))
      case None => 0
      case Some(value) => if 0 <= value <= MAX_INT64 then value else 0
  }

  function WriteMarker(disk: Disk, bundle: string, renewal: string): Disk {
    disk.(pending := Some(bundle + " " + renewal))
  }

  function WriteSequence(disk: Disk, value: int): Disk {
    disk.(sequence := Some(FormatInt(value)))
  }

  /** The marker reads back as written for exactly the pairs of non-empty, white-space-free ids. */
  lemma MarkerReadsBack(disk: Disk, bundle: string, renewal: string)
    ensures PendingRenewal(WriteMarker(disk, bundle, renewal)) == Some(Marker(bundle, renewal)) <==>
        IsWord(bundle) && IsWord(renewal)
  {
    TwoFields(bundle, renewal);
    var parts := Fields(bundle + " " + renewal);
    if |parts| == 2 { assert parts == [parts[0], parts[1]]; }
  }

  /** The sequence file reads back as written for exactly the values in [0, 2^63). */
  lemma SequenceReadsBack(disk: Disk, value: int)
    ensures LoadSequence(WriteSequence(disk, value)) == (if 0 <= value <= MAX_INT64 then value else 0)
  {
    IntRoundTrip(value);
    TrimWord(FormatInt(value));
  }

  /** Without a file, or with one that is not a number in that range once trimmed, the sequence starts at 0. */
  lemma SequenceIsRead(disk: Disk, value: int)
    requires value != 0
    ensures LoadSequence(disk) == value <==>
        disk.sequence.Some? && ParseInt(TrimSpace(disk.sequence.value)) == Some(value) && 0 < value <= MAX_INT64
  {
  }

  // ---- Bundles that come whole or not at all -------------------------------

  // What one call of SaveBundle set out to write.
  datatype Origin = Origin(identity: Identity, ca: string)

  ghost predicate PartOf(files: Files, origin: Origin) {
    && (files.key.Some? ==> files.key.value == origin.identity.key)
    && (files.certificate.Some? ==> files.certificate.value == origin.identity.certificate)
    && (files.agentId.Some? ==> files.agentId.value == origin.identity.agentId)
    && (files.ca.Some? ==> files.ca.value == origin.ca)
  }

  predicate IsComplete(files: Files) {
    files.key.Some? && files.certificate.Some? && files.agentId.Some? && files.ca.Some?
  }

  ghost predicate FromOrigins(disk: Disk, origins: map<string, Origin>) {
    forall b :: b in disk.bundles ==> b in origins && PartOf(disk.bundles[b], origins[b])
  }

  /** A bundle loads as the one identity it was saved for, key and certificate together, or not at all. */
  lemma WholeOrNothing(disk: Disk, origins: map<string, Origin>, bundle: string)
    requires FromOrigins(disk, origins)
    ensures LoadBundle(disk, bundle).Some? ==>
        bundle in origins && LoadBundle(disk, bundle).value == origins[bundle].identity
  {
  }
}
