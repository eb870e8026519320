/** Which entries of the change log are retained: an applied message adds exactly the ones it wrote, and nothing but
    a retention step takes one away. */
module Retention {
  import opened Inventory
  import opened Projection
  import opened Server
  import opened ServerInvariants
  import opened ServerTheorems

  lemma CommitKeeps(s: State, cfg: Config, m: Message, now: int, visit: Visit)
    requires m.Complete? && ValidVisit(s, m, visit)
    ensures
      var after := CompleteTxn(s, cfg, m, now, visit).0;
      forall n :: n in after.kept <==> n in s.kept || |s.store.log| <= n < |after.store.log|
  {
    hide ApplySnapshot, CompleteCheck;
  }

  lemma BatchKeeps(s: State, cfg: Config, m: Message, now: int)
    requires m.Events?
    ensures
      var after := EventsTxn(s, cfg, m, now).0;
      forall n :: n in after.kept <==> n in s.kept || |s.store.log| <= n < |after.store.log|
  {
    hide ApplyEvents;
  }

  /** One step: what the log gained is retained and nothing is lost, unless the step is one of retention, which takes
      the entries it names. */
  lemma StepKeeps(s: State, cfg: Config, e: Event)
    requires Enabled(s, e)
    ensures
      var after := Perform(s, cfg, e);
      forall n :: n in after.kept <==>
        if e.ForgetChanges? then n in s.kept && n !in e.entries
        else n in s.kept || |s.store.log| <= n < |after.store.log|
  {
    hide CompleteTxn, EventsTxn, BeginTxn;
    if e.Deliver? {
      match e.message
      case Begin(_, _, _, _) => OpenLeavesLog(s, e.message, e.now);
      case Complete(_, _, _, _, _, _) => CommitKeeps(s, cfg, e.message, e.now, e.visit);
      case Events(_, _, _, _) => BatchKeeps(s, cfg, e.message, e.now);
      case _ =>
    }
  }

  lemma OpenLeavesLog(s: State, m: Message, now: int)
    requires m.Begin?
    ensures BeginTxn(s, m, now).0.kept == s.kept && BeginTxn(s, m, now).0.store == s.store
  {
  }

  // Retention removed entry n after it was logged.
  ghost predicate Forgotten(states: seq<State>, events: seq<Event>, i: nat, n: nat)
    requires i <= |events| <= |states|
  {
    exists k :: 0 <= k < i && events[k].ForgetChanges? && n in events[k].entries && n < |states[k].store.log|
  }

  /** From an empty cluster on: an entry of the log is no longer retained exactly when some retention step has named
      it since it was logged. */
  lemma {:induction false} RetainedIff(states: seq<State>, events: seq<Event>, cfg: Config, i: nat, n: nat)
    requires IsRunOf(states, events, cfg) && states[0] == NEW_CLUSTER && i < |states|
    ensures n in states[i].kept <==> n < |states[i].store.log| && !Forgotten(states, events, i, n)
    ensures Forgotten(states, events, i, n) ==> n < |states[i].store.log|
    decreases i
  {
    hide Perform, Enabled, Forgotten;
    if i > 0 {
      RetainedIff(states, events, cfg, i - 1, n);
      var s, e := states[i - 1], events[i - 1];
      assert Enabled(s, e) && states[i - 1 + 1] == Perform(s, cfg, e);
      StepKeeps(s, cfg, e);
      LogGrows(states, events, cfg, i - 1);
      if e.ForgetChanges? { LogStays(s, cfg, e); }
      ForgottenOn(states, events, i - 1, n);
    } else {
      NoneForgottenYet(states, events, n);
    }
  }

  lemma NoneForgottenYet(states: seq<State>, events: seq<Event>, n: nat)
    requires |events| <= |states|
    ensures !Forgotten(states, events, 0, n)
  {
  }

  lemma ForgottenOn(states: seq<State>, events: seq<Event>, i: nat, n: nat)
    requires i < |events| <= |states|
    ensures Forgotten(states, events, i + 1, n) <==>
        || Forgotten(states, events, i, n)
        || (events[i].ForgetChanges? && n in events[i].entries && n < |states[i].store.log|)
  {
    if events[i].ForgetChanges? && n in events[i].entries && n < |states[i].store.log| {
      assert Forgotten(states, events, i + 1, n);
    }
    if Forgotten(states, events, i, n) {
      var k :| 0 <= k < i && events[k].ForgetChanges? && n in events[k].entries && n < |states[k].store.log|;
      assert k < i + 1;
    }
  }

  lemma LogGrows(states: seq<State>, events: seq<Event>, cfg: Config, i: nat)
    requires IsRunOf(states, events, cfg) && states[0] == NEW_CLUSTER && i < |events|
    ensures states[i].store.log <= states[i + 1].store.log
  {
    NewClusterInv();
    MonotoneAt(states, events, cfg, i);
  }

  lemma LogStays(s: State, cfg: Config, e: Event)
    requires Enabled(s, e) && e.ForgetChanges?
    ensures Perform(s, cfg, e).store == s.store
  {
  }
}
