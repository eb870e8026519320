/** The tables of one cluster, updated in place by the ingest endpoints and by maintenance. */
module Database {
  import opened Inventory
  import opened Projection
  import opened Server
  import opened ServerInvariants

  class Tables {
    // cluster_inventory_state
    var active: Option<AgentId>
    var currentGeneration: nat
    var appliedGeneration: nat
    var applied: Option<SnapshotId>
    var pending: Option<SnapshotId>
    // cluster_agents
    var agents: map<AgentId, AgentRow>
    // inventory_snapshots with their pages and staged resources
    var snapshots: Snapshots
    // inventory_resources
    var table: Table
    // inventory_change_events: the whole history, and the entries retention still holds
    var log: seq<Change>
    var kept: set<nat>
    var nextId: SnapshotId

    function Contents(): State
      reads this
    {
      State(active, currentGeneration, appliedGeneration, applied, pending, agents, snapshots, Store(table, log),
            kept, nextId)
    }

    ghost predicate Valid()
      reads this
    {
      Inv(Contents())
    }

    constructor ()
      ensures Contents() == NEW_CLUSTER && Valid()
    {
      active, currentGeneration, appliedGeneration, applied, pending := None, 0, 0, None, None;
      agents, snapshots, table, log, kept, nextId := map[], map[], map[], [], {}, 0;
    }
  }
}
