/** The records an agent ships and the server stores: Kubernetes objects already
    reduced to the bounded wire form, watch events and the agent messages. */
module Inventory {

  datatype Option<+T> = None | Some(value: T)

  // Identifiers are compared for equality only.
  datatype Uid = Uid(text: string)
  datatype AgentId = AgentId(text: string)
  datatype SnapshotUid = SnapshotUid(text: string)
  datatype Kind = Kind(name: string)

  // The primary key of a snapshot row, handed out by the server.
  type SnapshotId = nat

  datatype Value =
    | Null
    | Flag(flag: bool)
    | Whole(whole: int)
    | Fraction(fraction: real)
    | Text(text: string)
    | Containers(images: seq<map<string, string>>)

  datatype Owner = Owner(kind: Kind, name: string, uid: Uid)

  datatype Condition = Condition(name: string, status: string, reason: Option<string>, message: Option<string>)

  datatype Payload = Payload(
    labels: map<string, string>,
    annotations: map<string, string>,
    owners: seq<Owner>,
    spec: map<string, Value>,
    status: map<string, Value>,
    conditions: seq<Condition>)

  datatype Ident = Ident(apiGroup: string, apiVersion: string, kind: Kind, namespace: Option<string>, name: string)

  // What the cluster holds for one uid. A Resource adds the agent's own time stamp.
  datatype Entity = Entity(uid: Uid, ident: Ident, version: string, payload: Payload)

  datatype Resource = Resource(entity: Entity, observedAt: int)

  datatype WatchType = WatchAdded | WatchUpdated | WatchDeleted

  datatype WatchEvent = WatchEvent(change: WatchType, resource: Resource)

  /** One inventory message. `request` is the message's own request id; the server ignores it. */
  datatype Message =
    | Begin(agent: AgentId, sequence: nat, request: nat, uid: SnapshotUid)
    | Page(agent: AgentId, sequence: nat, request: nat, uid: SnapshotUid, number: nat, resources: seq<Resource>)
    | Complete(agent: AgentId, sequence: nat, request: nat, uid: SnapshotUid, totalPages: nat, totalResources: nat)
    | Events(agent: AgentId, sequence: nat, request: nat, events: seq<WatchEvent>)
    | Heartbeat(agent: AgentId, sequence: nat, request: nat)

  datatype Level = Healthy | Degraded | Unhealthy | Unknown

  datatype Verdict = Verdict(level: Level, reasons: seq<string>)

  // Health of a record of a given kind, judged at a given instant.
  type Derive = (Kind, Payload, int) -> Verdict

  /** `order` visits every element of `items` exactly once. */
  ghost predicate IsListing<T(!new)>(order: seq<T>, items: set<T>) {
    && (forall i, j :: 0 <= i < j < |order| ==> order[i] != order[j])
    && (forall x :: x in order <==> x in items)
  }

  lemma Associative<T>(a: seq<T>, b: seq<T>, c: seq<T>)
    ensures a + b + c == a + (b + c)
  {
  }

  lemma LargerSet<T>(part: set<T>, whole: set<T>)
    requires part <= whole
    ensures |part| <= |whole|
  {
    assert whole == part + (whole - part);
  }

  lemma Filled<T>(part: set<T>, whole: set<T>)
    requires part <= whole && |part| == |whole|
    ensures part == whole
  {
    assert |whole - part| == 0;
  }

  function Concat<T>(parts: seq<seq<T>>): seq<T> {
    if parts == [] then [] else Concat(parts[..|parts| - 1]) + parts[|parts| - 1]
  }

  lemma {:induction false} ConcatAppend<T>(parts: seq<seq<T>>, part: seq<T>)
    ensures Concat(parts + [part]) == Concat(parts) + part
  {
    assert (parts + [part])[..|parts|] == parts;
  }
}
