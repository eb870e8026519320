/** Page bookkeeping of one snapshot row: when the two counters agree, no uid was staged twice. */
module Accounting {
  import opened Inventory
  import opened Projection
  import opened Server

  predicate On(pages: map<nat, seq<Resource>>, p: nat, i: nat) {
    p in pages && i < |pages[p]|
  }

  function UidAt(pages: map<nat, seq<Resource>>, p: nat, i: nat): Uid
    requires On(pages, p, i)
  {
    pages[p][i].entity.uid
  }

  ghost predicate NoRepeats(pages: map<nat, seq<Resource>>) {
    forall p: nat, i: nat, q: nat, j: nat ::
      On(pages, p, i) && On(pages, q, j) && UidAt(pages, p, i) == UidAt(pages, q, j) ==> p == q && i == j
  }

  ghost predicate Covers(pages: map<nat, seq<Resource>>, staging: map<Uid, Resource>) {
    && (forall p: nat, i: nat :: On(pages, p, i) ==> UidAt(pages, p, i) in staging)
    && (forall u :: u in staging ==> exists p: nat, i: nat :: On(pages, p, i) && pages[p][i] == staging[u])
  }

  /** The staged rows are the pages' resources, at most `count` of them, and fewer when a uid repeats. */
  ghost predicate Accounted(pages: map<nat, seq<Resource>>, staging: map<Uid, Resource>, count: nat) {
    && KeyedStaging(staging)
    && Covers(pages, staging)
    && |staging| <= count
    && (|staging| == count ==> NoRepeats(pages))
  }

  ghost predicate Distinct(resources: seq<Resource>) {
    forall i, j :: 0 <= i < j < |resources| ==> resources[i].entity.uid != resources[j].entity.uid
  }

  lemma {:induction false} StageGrows(staging: map<Uid, Resource>, resources: seq<Resource>)
    requires KeyedStaging(staging)
    ensures
      var after := Stage(staging, resources);
      && KeyedStaging(after)
      && (forall u :: u in staging ==> u in after && after[u] == staging[u])
      && (forall i :: 0 <= i < |resources| ==> resources[i].entity.uid in after)
      && (forall u :: u in after && u !in staging ==> after[u] in resources)
      && |after| <= |staging| + |resources|
      && (|after| == |staging| + |resources| ==>
            Distinct(resources) && forall i :: 0 <= i < |resources| ==> resources[i].entity.uid !in staging)
    decreases |resources|
  {
    if resources != [] {
      StageGrows(staging, resources[..|resources| - 1]);
      assert resources == resources[..|resources| - 1] + [resources[|resources| - 1]];
    }
  }

  lemma PageAccounted(pages: map<nat, seq<Resource>>, staging: map<Uid, Resource>, count: nat,
                      number: nat, resources: seq<Resource>)
    requires Accounted(pages, staging, count) && number !in pages
    ensures Accounted(pages[number := resources], Stage(staging, resources), count + |resources|)
  {
    StageGrows(staging, resources);
    PageCovered(pages, staging, number, resources);
    var after := pages[number := resources];
    if |Stage(staging, resources)| == count + |resources| {
      forall p: nat, i: nat, q: nat, j: nat | On(after, p, i) && On(after, q, j)
        && UidAt(after, p, i) == UidAt(after, q, j)
        ensures p == q && i == j
      {
        if p != number { assert On(pages, p, i) && UidAt(pages, p, i) in staging; }
        if q != number { assert On(pages, q, j) && UidAt(pages, q, j) in staging; }
      }
    }
  }

  lemma PageCovered(pages: map<nat, seq<Resource>>, staging: map<Uid, Resource>, number: nat, resources: seq<Resource>)
    requires KeyedStaging(staging) && Covers(pages, staging) && number !in pages
    ensures Covers(pages[number := resources], Stage(staging, resources))
  {
    StageGrows(staging, resources);
    var after, staged := pages[number := resources], Stage(staging, resources);
    forall p: nat, i: nat | On(after, p, i) ensures UidAt(after, p, i) in staged {
      if p != number { assert On(pages, p, i) && UidAt(pages, p, i) in staging; }
    }
    forall u | u in staged ensures exists p: nat, i: nat :: On(after, p, i) && after[p][i] == staged[u] {
      if u in staging {
        var p: nat, i: nat :| On(pages, p, i) && pages[p][i] == staging[u];
        assert On(after, p, i);
      } else {
        var i :| 0 <= i < |resources| && resources[i] == staged[u];
        assert On(after, number, i);
      }
    }
  }

  // ---- The pages read in order ---------------------------------------------

  function InOrder(pages: map<nat, seq<Resource>>, n: nat): seq<Resource>
    requires forall p :: 1 <= p <= n ==> p in pages
  {
    if n == 0 then [] else InOrder(pages, n - 1) + pages[n]
  }

  /** The map that a duplicate-free list of resources describes; the last entry of a uid would win. */
  function Collect(resources: seq<Resource>): EntityMap {
    if resources == [] then map[]
    else
      var r := resources[|resources| - 1];
      Collect(resources[..|resources| - 1])[r.entity.uid := r.entity]
  }

  ghost predicate FromPages(pages: map<nat, seq<Resource>>, n: nat, r: Resource) {
    exists p: nat, i: nat :: p <= n && On(pages, p, i) && pages[p][i] == r
  }

  function Uids(resources: seq<Resource>): set<Uid> {
    set r | r in resources :: r.entity.uid
  }

  lemma {:induction false} InOrderComesFromPages(pages: map<nat, seq<Resource>>, n: nat)
    requires forall p :: 1 <= p <= n ==> p in pages
    ensures forall r :: r in InOrder(pages, n) ==> FromPages(pages, n, r)
    ensures forall p: nat, i: nat :: 1 <= p <= n && On(pages, p, i) ==> pages[p][i] in InOrder(pages, n)
  {
    if n > 0 {
      InOrderComesFromPages(pages, n - 1);
      forall r | r in InOrder(pages, n) ensures FromPages(pages, n, r) {
        if r in pages[n] {
          var i :| 0 <= i < |pages[n]| && pages[n][i] == r;
          assert On(pages, n, i);
        } else {
          assert FromPages(pages, n - 1, r);
        }
      }
    }
  }

  lemma {:induction false} NoRepeatsIsDistinct(pages: map<nat, seq<Resource>>, n: nat)
    requires forall p :: 1 <= p <= n ==> p in pages
    requires NoRepeats(pages)
    ensures Distinct(InOrder(pages, n))
  {
    if n > 0 {
      NoRepeatsIsDistinct(pages, n - 1);
      InOrderComesFromPages(pages, n - 1);
      var front, all := InOrder(pages, n - 1), InOrder(pages, n);
      forall k, l | 0 <= k < l < |all| ensures all[k].entity.uid != all[l].entity.uid {
        if l >= |front| {
          assert On(pages, n, l - |front|);
          if k < |front| {
            assert FromPages(pages, n - 1, front[k]);
            var p: nat, i: nat :| p <= n - 1 && On(pages, p, i) && pages[p][i] == front[k];
            assert UidAt(pages, p, i) != UidAt(pages, n, l - |front|);
          } else {
            assert On(pages, n, k - |front|);
            assert UidAt(pages, n, k - |front|) != UidAt(pages, n, l - |front|);
          }
        }
      }
    }
  }

  lemma {:induction false} CollectKeys(resources: seq<Resource>)
    ensures Collect(resources).Keys == Uids(resources)
    decreases |resources|
  {
    if resources != [] {
      var last := |resources| - 1;
      CollectKeys(resources[..last]);
      assert resources == resources[..last] + [resources[last]];
      assert Uids(resources) == Uids(resources[..last]) + {resources[last].entity.uid};
    }
  }

  lemma {:induction false} CollectDistinct(resources: seq<Resource>)
    requires Distinct(resources)
    ensures |Collect(resources)| == |resources|
    ensures forall r :: r in resources ==>
        r.entity.uid in Collect(resources) && Collect(resources)[r.entity.uid] == r.entity
    decreases |resources|
  {
    if resources != [] {
      var last := |resources| - 1;
      var r, front := resources[last], resources[..last];
      CollectDistinct(front);
      CollectKeys(front);
      assert r.entity.uid !in Collect(front);
      assert resources == front + [r];
    }
  }

  /** A snapshot whose page set and counters pass the continuity check is exactly the
      duplicate-free list of its pages read in order. */
  lemma ContinuousIsExact(row: Snapshot, totalPages: nat, totalResources: nat)
    requires Accounted(row.pages, row.staging, row.resourceCount)
    requires Continuous(row, totalPages, totalResources)
    ensures forall p :: 1 <= p <= totalPages ==> p in row.pages
    ensures
      var content := InOrder(row.pages, totalPages);
      Distinct(content) && |content| == totalResources && Entities(row.staging) == Collect(content)
  {
    forall p | 1 <= p <= totalPages ensures p in row.pages {
      assert p in Interval(1, totalPages + 1);
    }
    NoRepeatsIsDistinct(row.pages, totalPages);
    CoveredIsCollected(row.pages, totalPages, row.staging);
    CollectDistinct(InOrder(row.pages, totalPages));
    assert |Entities(row.staging).Keys| == |row.staging.Keys|;
  }

  lemma CoveredIsCollected(pages: map<nat, seq<Resource>>, n: nat, staging: map<Uid, Resource>)
    requires pages.Keys == Interval(1, n + 1) && KeyedStaging(staging) && Covers(pages, staging)
    requires forall p :: 1 <= p <= n ==> p in pages
    requires Distinct(InOrder(pages, n))
    ensures Entities(staging) == Collect(InOrder(pages, n)) && Entities(staging).Keys == staging.Keys
  {
    StagedIsRead(pages, n, staging);
    ListedIsCollected(staging, InOrder(pages, n));
  }

  lemma ListedIsCollected(staging: map<Uid, Resource>, content: seq<Resource>)
    requires KeyedStaging(staging) && Distinct(content)
    requires (forall u :: u in staging ==> staging[u] in content) && staging.Keys == Uids(content)
    ensures Entities(staging) == Collect(content) && Entities(staging).Keys == staging.Keys
  {
    CollectKeys(content);
    CollectDistinct(content);
    forall u | u in staging ensures Collect(content)[u] == Entities(staging)[u] {
      assert staging[u] in content;
    }
  }

  lemma StagedIsRead(pages: map<nat, seq<Resource>>, n: nat, staging: map<Uid, Resource>)
    requires pages.Keys == Interval(1, n + 1) && KeyedStaging(staging) && Covers(pages, staging)
    requires forall p :: 1 <= p <= n ==> p in pages
    ensures forall u :: u in staging ==> staging[u] in InOrder(pages, n)
    ensures staging.Keys == Uids(InOrder(pages, n))
  {
    var content := InOrder(pages, n);
    InOrderComesFromPages(pages, n);
    forall u | u in staging ensures staging[u] in content {
      var p: nat, i: nat :| On(pages, p, i) && pages[p][i] == staging[u];
    }
    forall r | r in content ensures r.entity.uid in staging {
      assert FromPages(pages, n, r);
      var p: nat, i: nat :| p <= n && On(pages, p, i) && pages[p][i] == r;
      assert UidAt(pages, p, i) in staging;
    }
    forall u | u in staging ensures u in Uids(content) {
      assert staging[u] in content && staging[u].entity.uid == u;
    }
  }
}
