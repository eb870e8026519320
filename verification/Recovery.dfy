/** How long a restarted agent needs: its stored sequence lags the server's, so its first begins are stale. */
module Recovery {
  import opened Inventory
  import opened Server
  import opened Replication
  import opened ReplicationInvariants
  import opened ReplicationTheorems

  // ---- The server's half ---------------------------------------------------

  /** A stale cycle leaves the server's sequence and every snapshot row alone: its begin is stale, its next
      message finds no snapshot, and the demand that follows only marks the agent. */
  lemma StaleCycle(s: State, cfg: Config, begin: Message, second: Message, now: int, visit: Visit)
    requires s.active == Some(begin.agent) && begin.agent in s.agents && begin.Begin? && begin.uid !in s.snapshots
    requires begin.sequence <= s.agents[begin.agent].lastSequence
    requires (second.Page? || second.Complete?) && second.agent == begin.agent && second.uid == begin.uid
    ensures BeginTxn(s, begin, now) == (s, Stale)
    ensures ValidVisit(s, second, visit) && Handle(s, cfg, second, now, visit) == (s, StaleSnapshot)
    ensures
      var after := Demand(s, begin.agent, None);
      && after.snapshots == s.snapshots && after.active == s.active && after.currentGeneration == s.currentGeneration
      && begin.agent in after.agents && after.agents[begin.agent].lastSequence == s.agents[begin.agent].lastSequence
  {
  }

  // ---- A calm stretch of a behaviour ---------------------------------------

  ghost function ReplyAt(w: World, s: System, action: Action): Outcome
    requires action.DeliverCopy? && CanAct(w, s, action)
  {
    Handle(s.server, w.cfg, action.message, action.now, action.visit).1
  }

  ghost predicate IsAccepted(w: World, s: System, action: Action) {
    action.DeliverCopy? && action.message.Begin? && CanAct(w, s, action) && ReplyAt(w, s, action).Accepted?
  }

  /** A copy of `m` that arrived from step `start` on was answered with a refusal. */
  ghost predicate Refused(w: World, states: seq<System>, actions: seq<Action>, start: nat, i: nat, m: Message)
    requires i <= |actions| <= |states|
  {
    exists k {:trigger actions[k]} :: start <= k < i && actions[k].DeliverCopy? && actions[k].message == m
      && CanAct(w, states[k], actions[k]) && !ReplyAt(w, states[k], actions[k]).Acknowledged()
  }

  /** The process stays up and stays the writer, no old copy arrives, and a cycle is given up only when a request
      of its own was refused. Everything else may happen: the cluster, other agents, maintenance, demands. */
  ghost predicate Calm(w: World, states: seq<System>, actions: seq<Action>, start: nat, i: nat)
    requires i < |actions| <= |states|
  {
    var s, action := states[i], actions[i];
    && !action.Crash? && !action.Restart? && !action.Supersede?
    && (action.DeliverCopy? ==> s.agent.waiting == Some(action.message))
    && (action.Fail? ==> s.agent.waiting.Some? && Refused(w, states, actions, start, i, s.agent.waiting.value))
  }

  ghost predicate CalmAt(w: World, states: seq<System>, actions: seq<Action>, start: nat, i: nat)
    requires i < |actions| <= |states|
  {
    Calm(w, states, actions, start, i) && !IsAccepted(w, states[i], actions[i])
  }

  /** A behaviour that from `start` to `i` is calm and in which no begin has been accepted there. */
  ghost predicate Recovering(w: World, states: seq<System>, actions: seq<Action>, start: nat, i: nat) {
    && IsBehaviour(w, states, actions) && start <= i <= |actions|
    && Live(w, states[start]) && w.me in states[start].server.agents
    && states[start].agent.phase.Idle? && states[start].agent.waiting.None?
    && states[start].agent.sequence <= Last(w, states[start])
    && forall k :: start <= k < i ==> CalmAt(w, states, actions, start, k)
  }

  function Cycles(actions: seq<Action>, start: nat, i: nat): nat
    requires start <= i <= |actions|
    decreases i
  {
    if i == start then 0 else Cycles(actions, start, i - 1) + if actions[i - 1].StartCycle? then 1 else 0
  }

  // ---- What every step of it keeps -----------------------------------------

  /** `cycles` cycles from number `first` on, all stale but perhaps the running one: each of the finished ones took
      two numbers, and the server still stands at `last`. */
  ghost predicate Lagging(w: World, s: System, first: nat, last: nat, cycles: nat) {
    && Live(w, s) && w.me in s.server.agents && Last(w, s) == last
    && match s.agent.phase
       case Idle =>
         s.agent.waiting.None? && s.agent.sequence == first + 2 * cycles
           && (cycles == 0 || first + 2 * cycles - 1 <= last)
       case Listing =>
         && s.agent.uid !in s.server.snapshots
         && cycles > 0 && (cycles == 1 || first + 2 * cycles - 3 <= last)
         && Progress(w, s, first, last, cycles)
       case _ => false
  }

  // The begin, then nothing outstanding, then the first page or the complete.
  ghost predicate Progress(w: World, s: System, first: nat, last: nat, cycles: nat) {
    match s.agent.waiting
    case None => s.agent.sequence == first + 2 * cycles - 1 <= last
    case Some(m) =>
      && m.agent == w.me && m.sequence == s.agent.sequence
      && if m.Begin? then m.uid == s.agent.uid && m.sequence == first + 2 * cycles - 1
         else (m.Page? || m.Complete?) && m.uid == s.agent.uid && m !in s.acked
              && m.sequence == first + 2 * cycles && m.sequence - 1 <= last
  }

  // A begin that is outstanding is answered with an acknowledgement, stale or accepted, whenever it arrives.
  lemma BeginIsAcknowledged(w: World, s: System, m: Message, now: int, first: nat, last: nat, cycles: nat)
    requires Lagging(w, s, first, last, cycles) && s.agent.waiting == Some(m) && m.Begin?
    ensures BeginTxn(s.server, m, now).1.Accepted? <==> last < m.sequence
    ensures !BeginTxn(s.server, m, now).1.Accepted? ==> BeginTxn(s.server, m, now) == (s.server, Stale)
    ensures m.sequence == first + 2 * cycles - 1 && (cycles == 1 || m.sequence - 2 <= last)
  {
  }

  lemma DeliveryLags(w: World, s: System, m: Message, now: int, visit: Visit, first: nat, last: nat, cycles: nat)
    requires Lagging(w, s, first, last, cycles) && s.agent.waiting == Some(m) && ValidVisit(s.server, m, visit)
    requires !IsAccepted(w, s, DeliverCopy(m, now, visit)) && m in s.sent
    ensures Lagging(w, Delivered(s, m, Handle(s.server, w.cfg, m, now, visit)), first, last, cycles)
  {
    if m.Begin? {
      BeginIsAcknowledged(w, s, m, now, first, last, cycles);
      assert CanAct(w, s, DeliverCopy(m, now, visit));
      assert Handle(s.server, w.cfg, m, now, visit) == (s.server, Stale);
    } else {
      assert Handle(s.server, w.cfg, m, now, visit) == (s.server, StaleSnapshot);
    }
  }

  // Other agents are refused, and maintenance opens no snapshot and touches no agent.
  lemma ServerLags(w: World, s: System, action: Action, first: nat, last: nat, cycles: nat)
    requires Lagging(w, s, first, last, cycles) && CanAct(w, s, action)
    requires action.DeliverForeign? || action.CommitDemand? || action.Housekeep?
    requires InCycle(s.agent) ==> s.agent.uid in s.sessions
    ensures Lagging(w, Act(w, s, action), first, last, cycles)
  {
    if action.DeliverForeign? {
      assert Handle(s.server, w.cfg, action.message, action.now, action.visit).0 == s.server;
    }
  }

  lemma AgentLags(w: World, s: System, action: Action, first: nat, last: nat, cycles: nat)
    requires SystemInv(w, s) && Lagging(w, s, first, last, cycles) && CanAct(w, s, action)
    requires IsAgentStep(action) && !action.Crash? && !action.Restart?
    requires action.Fail? ==> s.agent.waiting.Some? && !s.agent.waiting.value.Begin?
    ensures Lagging(w, Act(w, s, action), first, last, cycles + if action.StartCycle? then 1 else 0)
  {
  }

  lemma RecoveringBefore(w: World, states: seq<System>, actions: seq<Action>, start: nat, i: nat, j: nat)
    requires Recovering(w, states, actions, start, i) && start <= j <= i
    ensures Recovering(w, states, actions, start, j)
  {
  }

  lemma {:induction false} LaggingHolds(w: World, states: seq<System>, actions: seq<Action>, start: nat, i: nat)
    requires Recovering(w, states, actions, start, i)
    ensures Lagging(w, states[i], states[start].agent.sequence, Last(w, states[start]), Cycles(actions, start, i))
    decreases i, 0
  {
    hide SystemInv, Handle, Act, IsAccepted, CanAct, ReplyAt;
    var first, last := states[start].agent.sequence, Last(w, states[start]);
    if start < i {
      var s, action, cycles := states[i - 1], actions[i - 1], Cycles(actions, start, i - 1);
      RecoveringBefore(w, states, actions, start, i, i - 1);
      LaggingHolds(w, states, actions, start, i - 1);
      assert CalmAt(w, states, actions, start, i - 1);
      assert IsStep(w, s, action, states[i - 1 + 1]);
      Reachable(w, states, actions, i - 1);
      StepLags(w, s, action, first, last, cycles, states, actions, start, i - 1);
    }
  }

  lemma StepLags(w: World, s: System, action: Action, first: nat, last: nat, cycles: nat,
                 states: seq<System>, actions: seq<Action>, start: nat, i: nat)
    requires Recovering(w, states, actions, start, i) && i < |actions| && s == states[i] && action == actions[i]
    requires first == states[start].agent.sequence && last == Last(w, states[start])
    requires SystemInv(w, s) && Lagging(w, s, first, last, cycles) && CanAct(w, s, action)
    requires Calm(w, states, actions, start, i) && !IsAccepted(w, s, action)
    ensures Lagging(w, Act(w, s, action), first, last, cycles + if action.StartCycle? then 1 else 0)
    decreases i, 1
  {
    hide SystemInv, Lagging, Handle, IsAccepted;
    if action.DeliverCopy? {
      DeliveryLags(w, s, action.message, action.now, action.visit, first, last, cycles);
    } else if IsAgentStep(action) {
      if action.Fail? { GivenUpIsNoBegin(w, states, actions, start, i); }
      AgentLags(w, s, action, first, last, cycles);
    } else {
      ServerLags(w, s, action, first, last, cycles);
    }
  }

  lemma GivenUpIsNoBegin(w: World, states: seq<System>, actions: seq<Action>, start: nat, i: nat)
    requires Recovering(w, states, actions, start, i) && i < |actions| && actions[i].Fail?
        && Calm(w, states, actions, start, i)
    ensures states[i].agent.waiting.Some? && !states[i].agent.waiting.value.Begin?
    decreases i, 0
  {
    var m := states[i].agent.waiting.value;
    var k :| start <= k < i && actions[k].DeliverCopy? && actions[k].message == m
      && CanAct(w, states[k], actions[k]) && !ReplyAt(w, states[k], actions[k]).Acknowledged();
    assert CalmAt(w, states, actions, start, k);
    RecoveringBefore(w, states, actions, start, i, k);
    LaggingHolds(w, states, actions, start, k);
    if m.Begin? {
      BeginIsAcknowledged(w, states[k], m, actions[k].now, states[start].agent.sequence, Last(w, states[start]),
                          Cycles(actions, start, k));
    }
  }

  // ---- The result ----------------------------------------------------------

  /** With a restored number d behind the server's, a begin that arrives is accepted if and only if it is that of
      cycle (d + 1) / 2 + 1, and no begin before it is. */
  lemma RecoveryTime(w: World, states: seq<System>, actions: seq<Action>, start: nat, i: nat)
    requires Recovering(w, states, actions, start, i) && i < |actions| && Calm(w, states, actions, start, i)
    requires actions[i].DeliverCopy? && actions[i].message.Begin?
    ensures CanAct(w, states[i], actions[i])
    ensures
      var d := Last(w, states[start]) - states[start].agent.sequence;
      var cycles, reply := Cycles(actions, start, i), ReplyAt(w, states[i], actions[i]);
      && (reply.Accepted? <==> cycles == (d + 1) / 2 + 1)
      && (!reply.Accepted? ==> reply.Stale? && cycles <= (d + 1) / 2)
      && actions[i].message.sequence == states[start].agent.sequence + 2 * cycles - 1
  {
    assert IsStep(w, states[i], actions[i], states[i + 1]);
    LaggingHolds(w, states, actions, start, i);
    BeginIsAcknowledged(w, states[i], actions[i].message, actions[i].now, states[start].agent.sequence,
                        Last(w, states[start]),
                        Cycles(actions, start, i));
  }

  /** Until then: a finished cycle has used exactly two numbers, the server's number has not moved, and at most
      (d + 1) / 2 cycles have finished. */
  lemma StaleCyclesUseTwoNumbers(w: World, states: seq<System>, actions: seq<Action>, start: nat, i: nat)
    requires Recovering(w, states, actions, start, i)
    ensures Live(w, states[i]) && w.me in states[i].server.agents && Last(w, states[i]) == Last(w, states[start])
    ensures
      var d := Last(w, states[start]) - states[start].agent.sequence;
      var cycles := Cycles(actions, start, i);
      && cycles <= (d + 1) / 2 + 1
      && (states[i].agent.phase.Idle? ==>
            cycles <= (d + 1) / 2 && states[i].agent.sequence == states[start].agent.sequence + 2 * cycles)
  {
    LaggingHolds(w, states, actions, start, i);
  }
}
