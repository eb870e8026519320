/** The selection loop that prunes old bundles: again and again the oldest candidate is removed
    and then marked as modified a day from now, so that it is not the oldest any more. */
module Pruning {
  import opened Inventory

  predicate IsOldest(times: seq<int>, p: nat) {
    && p < |times|
    && (forall i :: 0 <= i < |times| ==> times[p] <= times[i])
    && (forall i :: 0 <= i < p ==> times[p] < times[i])
  }

  function Oldest(times: seq<int>): (p: nat)
    requires times != []
    ensures IsOldest(times, p)
  {
    var last := |times| - 1;
    if last == 0 then 0
    else
      var p := Oldest(times[..last]);
      if times[last] < times[p] then last else p
  }

  method FindOldest(times: array<int>) returns (oldest: nat)
    requires times.Length > 0
    ensures oldest == Oldest(times[..])
  {
    oldest := 0;
    for candidate := 0 to times.Length
      invariant oldest < times.Length
      invariant candidate == 0 ==> oldest == 0
      invariant candidate > 0 ==> IsOldest(times[..candidate], oldest)
    {
      if times[candidate] < times[oldest] { oldest := candidate; }
    }
    assert times[..times.Length] == times[..];
    assert IsOldest(times[..], Oldest(times[..]));
  }

  // The times left and the positions picked once each mark has been used in turn.
  datatype Picked = Picked(times: seq<int>, picks: seq<nat>)

  function Pick(times: seq<int>, marks: seq<int>): (r: Picked)
    requires times != []
    ensures |r.times| == |times| && |r.picks| == |marks|
    ensures forall k :: 0 <= k < |marks| ==> r.picks[k] < |times|
  {
    if marks == [] then Picked(times, [])
    else
      var last := |marks| - 1;
      var before := Pick(times, marks[..last]);
      var p := Oldest(before.times);
      Picked(before.times[p := marks[last]], before.picks + [p])
  }

  predicate AllDifferent(picks: seq<nat>) {
    forall j, k :: 0 <= j < k < |picks| ==> picks[j] != picks[k]
  }

  function Below(times: seq<int>, bound: int): set<nat> {
    set i: nat | i < |times| && times[i] < bound
  }

  lemma {:induction false} AllBelow(times: seq<int>, bound: int)
    requires forall i :: 0 <= i < |times| ==> times[i] < bound
    ensures |Below(times, bound)| == |times|
  {
    if times != [] {
      var last: nat := |times| - 1;
      AllBelow(times[..last], bound);
      assert Below(times, bound) == Below(times[..last], bound) + {last};
    }
  }

  function Positions(picks: seq<nat>): set<nat> {
    set p | p in picks
  }

  lemma {:induction false} DifferentCount(picks: seq<nat>)
    ensures |Positions(picks)| <= |picks|
    ensures AllDifferent(picks) <==> |Positions(picks)| == |picks|
  {
    if picks != [] {
      var last := |picks| - 1;
      DifferentCount(picks[..last]);
      assert picks == picks[..last] + [picks[last]];
      assert Positions(picks) == Positions(picks[..last]) + {picks[last]};
      if AllDifferent(picks) { assert picks[last] !in picks[..last]; }
      if picks[last] in picks[..last] { assert Positions(picks) == Positions(picks[..last]); }
      if !AllDifferent(picks) && picks[last] !in picks[..last] {
        assert !AllDifferent(picks[..last]);
      }
    }
  }

  /** Each pick was a different candidate older than `bound`, no candidate left is older than a picked one,
      and the marks put the picked ones behind `bound`. */
  ghost predicate OldestGone(times: seq<int>, r: Picked, bound: int) {
    && |r.times| == |times| && AllDifferent(r.picks)
    && (forall i :: i in r.picks ==> i < |times| && times[i] < bound <= r.times[i])
    && (forall i: nat :: i < |times| && i !in r.picks ==> r.times[i] == times[i])
    && (forall i: nat, j: nat :: i in r.picks && j < |times| && j !in r.picks ==> times[i] <= times[j])
  }

  lemma StillSomeBelow(times: seq<int>, r: Picked, bound: int)
    requires times != [] && OldestGone(times, r, bound) && |r.picks| < |Below(times, bound)|
    ensures Oldest(r.times) !in r.picks && r.times[Oldest(r.times)] < bound
  {
    DifferentCount(r.picks);
    assert Below(r.times, bound) == Below(times, bound) - Positions(r.picks);
    assert Positions(r.picks) <= Below(times, bound);
    assert |Below(r.times, bound)| == |Below(times, bound)| - |r.picks|;
    var some :| some in Below(r.times, bound);
    assert r.times[Oldest(r.times)] <= r.times[some];
  }

  lemma OldestGoneOn(times: seq<int>, r: Picked, bound: int, p: nat, mark: int)
    requires OldestGone(times, r, bound) && IsOldest(r.times, p) && p !in r.picks && r.times[p] < bound <= mark
    ensures OldestGone(times, Picked(r.times[p := mark], r.picks + [p]), bound)
  {
  }

  /** While enough candidates are older than every mark, each pick is a new one and the picks are the oldest. */
  lemma {:induction false} PicksAreTheOldest(times: seq<int>, marks: seq<int>, bound: int)
    requires times != [] && |marks| <= |Below(times, bound)|
    requires forall k :: 0 <= k < |marks| ==> bound <= marks[k]
    ensures OldestGone(times, Pick(times, marks), bound)
  {
    if marks != [] {
      var last := |marks| - 1;
      var before := Pick(times, marks[..last]);
      PicksAreTheOldest(times, marks[..last], bound);
      StillSomeBelow(times, before, bound);
      OldestGoneOn(times, before, bound, Oldest(before.times), marks[last]);
    }
  }

  lemma LastDiffers(picks: seq<nat>, p: nat)
    requires AllDifferent(picks + [p])
    ensures AllDifferent(picks) && p !in picks
  {
    var all := picks + [p];
    assert forall k :: 0 <= k < |picks| ==> picks[k] == all[k] != all[|picks|];
  }

  // ---- Exactly when every turn removes a candidate ---------------------------

  /** The order of the selection loop: by time, and among equal times by position. */
  predicate Precedes(time: int, i: nat, other: int, j: nat) {
    time < other || (time == other && i < j)
  }

  /** The candidates `ranking` lists are the oldest ones, oldest first. */
  ghost predicate IsRanking(times: seq<int>, ranking: seq<nat>) {
    && (forall k :: 0 <= k < |ranking| ==> ranking[k] < |times|)
    && (forall j, k :: 0 <= j < k < |ranking| ==>
        Precedes(times[ranking[j]], ranking[j], times[ranking[k]], ranking[k]))
    && (forall k, i: nat :: 0 <= k < |ranking| && i < |times| && i !in ranking ==>
        Precedes(times[ranking[k]], ranking[k], times[i], i))
  }

  lemma {:induction false} OldestOf(times: seq<int>, rest: set<nat>) returns (p: nat)
    requires rest != {} && forall i :: i in rest ==> i < |times|
    ensures p in rest && forall i :: i in rest && i != p ==> Precedes(times[p], p, times[i], i)
    decreases |rest|
  {
    var some :| some in rest;
    p := some;
    if rest != {some} {
      var other := OldestOf(times, rest - {some});
      if Precedes(times[other], other, times[some], some) { p := other; }
    }
  }

  function FirstPositions(n: nat): (r: set<nat>)
    ensures |r| == n && forall i: nat :: i in r <==> i < n
  {
    if n == 0 then {} else FirstPositions(n - 1) + {n - 1}
  }

  lemma {:induction false} RankingExists(times: seq<int>, n: nat) returns (ranking: seq<nat>)
    requires n <= |times|
    ensures |ranking| == n && IsRanking(times, ranking)
  {
    if n == 0 { return []; }
    hide IsRanking, Precedes;
    var front := RankingExists(times, n - 1);
    var rest := FirstPositions(|times|) - Positions(front);
    DifferentCount(front);
    if FirstPositions(|times|) <= Positions(front) { LargerSet(FirstPositions(|times|), Positions(front)); }
    var p := OldestOf(times, rest);
    ranking := front + [p];
    RankingOn(times, front, rest, p);
  }

  lemma RankingOn(times: seq<int>, front: seq<nat>, rest: set<nat>, p: nat)
    requires IsRanking(times, front) && p in rest
    requires forall i: nat :: i in rest <==> i < |times| && i !in front
    requires forall i :: i in rest && i != p ==> Precedes(times[p], p, times[i], i)
    ensures IsRanking(times, front + [p])
  {
    var ranking := front + [p];
    forall k, i: nat | 0 <= k < |ranking| && i < |times| && i !in ranking
      ensures Precedes(times[ranking[k]], ranking[k], times[i], i)
    {
      assert i !in front && (k < |front| ==> ranking[k] == front[k]);
    }
  }

  ghost predicate PrecedesAll(time: int, i: nat, marks: seq<int>, ranking: seq<nat>)
    requires |marks| == |ranking|
  {
    forall j :: 0 <= j < |marks| ==> Precedes(time, i, marks[j], ranking[j])
  }

  /** The last candidate that has to go is older than every mark set before its turn; where the times are equal,
      it is listed before the candidate that carries the mark. */
  ghost predicate OlderThanMarks(times: seq<int>, ranking: seq<nat>, marks: seq<int>)
    requires IsRanking(times, ranking) && |ranking| == |marks|
  {
    var last := |marks| - 1;
    marks != [] ==> PrecedesAll(times[ranking[last]], ranking[last], marks[..last], ranking[..last])
  }

  // What the marks leave behind when they went to the candidates of `ranking`.
  ghost predicate Marked(times: seq<int>, ranking: seq<nat>, marks: seq<int>, left: seq<int>)
    requires |ranking| == |marks|
  {
    && |left| == |times|
    && (forall k :: 0 <= k < |ranking| ==> ranking[k] < |times| && left[ranking[k]] == marks[k])
    && (forall i: nat :: i < |times| && i !in ranking ==> left[i] == times[i])
  }

  lemma FirstIsOldest(times: seq<int>, p: nat)
    requires p < |times| && forall i: nat :: i < |times| && i != p ==> Precedes(times[p], p, times[i], i)
    ensures Oldest(times) == p
  {
    var o := Oldest(times);
    assert IsOldest(times, o);
  }

  lemma LastRanked(ranking: seq<nat>)
    requires ranking != []
    ensures ranking == ranking[..|ranking| - 1] + [ranking[|ranking| - 1]]
  {
  }

  lemma FrontIsRanking(times: seq<int>, front: seq<nat>, next: nat)
    requires IsRanking(times, front + [next])
    ensures IsRanking(times, front) && next !in front && next < |times|
    ensures front != [] ==> Precedes(times[front[|front| - 1]], front[|front| - 1], times[next], next)
  {
    var ranking := front + [next];
    assert ranking[|front|] == next;
    forall k | 0 <= k < |front| ensures front[k] < |times| && Precedes(times[front[k]], front[k], times[next], next) {
      assert ranking[k] == front[k];
    }
    forall j, k | 0 <= j < k < |front| ensures Precedes(times[front[j]], front[j], times[front[k]], front[k]) {
      assert ranking[j] == front[j] && ranking[k] == front[k];
    }
    forall k, i: nat | 0 <= k < |front| && i < |times|
      && i !in front ensures Precedes(times[front[k]], front[k], times[i], i) {
      assert ranking[k] == front[k] && (i in ranking ==> i == next);
    }
  }

  lemma SoonerPrecedes(time: int, i: nat, later: int, k: nat, marks: seq<int>, ranking: seq<nat>)
    requires |marks| == |ranking| && Precedes(time, i, later, k) && PrecedesAll(later, k, marks, ranking)
    ensures PrecedesAll(time, i, marks, ranking)
  {
  }

  // What precedes all marks precedes those of an initial part.
  lemma PrecedesFront(time: int, i: nat, marks: seq<int>, ranking: seq<nat>)
    requires |marks| == |ranking| > 0 && PrecedesAll(time, i, marks, ranking)
    ensures PrecedesAll(time, i, marks[..|marks| - 1], ranking[..|ranking| - 1])
  {
  }

  lemma RankingFront(times: seq<int>, ranking: seq<nat>, marks: seq<int>)
    requires ranking != [] && IsRanking(times, ranking) && |ranking| == |marks|
    ensures
      var last := |ranking| - 1;
      && ranking == ranking[..last] + [ranking[last]] && ranking[last] !in ranking[..last] && ranking[last] < |times|
      && IsRanking(times, ranking[..last])
      && (OlderThanMarks(times, ranking, marks) <==>
            && OlderThanMarks(times, ranking[..last], marks[..last])
            && PrecedesAll(times[ranking[last]], ranking[last], marks[..last], ranking[..last]))
  {
    hide IsRanking, Precedes, PrecedesAll;
    var last := |ranking| - 1;
    var front, next := ranking[..last], ranking[last];
    LastRanked(ranking);
    FrontIsRanking(times, front, next);
    if OlderThanMarks(times, ranking, marks) && front != [] {
      SoonerPrecedes(times[front[last - 1]], front[last - 1], times[next], next, marks[..last], front);
      PrecedesFront(times[front[last - 1]], front[last - 1], marks[..last], front);
    }
  }

  // Given the marks of the earlier turns, the next pick is a new candidate exactly when the next in rank precedes
  // them all.
  lemma NextInRank(times: seq<int>, ranking: seq<nat>, marks: seq<int>, left: seq<int>, next: nat)
    requires |ranking| == |marks| && Marked(times, ranking, marks, left)
    requires next < |times| && next !in ranking && IsRanking(times, ranking + [next])
    ensures Oldest(left) !in ranking <==> PrecedesAll(times[next], next, marks, ranking)
    ensures Oldest(left) !in ranking ==> Oldest(left) == next
  {
    var all := ranking + [next];
    assert all[|ranking|] == next;
    var p := Oldest(left);
    assert IsOldest(left, p);
    if p !in ranking {
      assert p in all || Precedes(times[all[|ranking|]], all[|ranking|], times[p], p);
      assert left[next] == times[next] && left[p] == times[p];
      assert p == next;
      forall j | 0 <= j < |marks| ensures Precedes(times[next], next, marks[j], ranking[j]) {
        assert left[ranking[j]] == marks[j] && ranking[j] in ranking;
      }
    }
    if PrecedesAll(times[next], next, marks, ranking) {
      forall i: nat | i < |left| && i != next ensures Precedes(left[next], next, left[i], i) {
        if i in ranking {
          var j :| 0 <= j < |ranking| && ranking[j] == i;
        } else {
          assert i !in all;
          assert Precedes(times[all[|ranking|]], all[|ranking|], times[i], i);
        }
      }
      FirstIsOldest(left, next);
    }
  }

  lemma MarkedOn(times: seq<int>, ranking: seq<nat>, marks: seq<int>, left: seq<int>, next: nat, mark: int)
    requires |ranking| == |marks| && Marked(times, ranking, marks, left) && next < |times| && next !in ranking
    ensures Marked(times, ranking + [next], marks + [mark], left[next := mark])
  {
  }

  lemma OneMoreDiffers(picks: seq<nat>, p: nat)
    ensures AllDifferent(picks + [p]) <==> AllDifferent(picks) && p !in picks
  {
    if AllDifferent(picks + [p]) { LastDiffers(picks, p); }
  }

  // All picks differ exactly when the last of `ranking` is older than the marks, and then they are `ranking`.
  ghost predicate DifferIff(times: seq<int>, marks: seq<int>, ranking: seq<nat>, r: Picked)
    requires |ranking| == |marks| && IsRanking(times, ranking)
  {
    && (AllDifferent(r.picks) <==> OlderThanMarks(times, ranking, marks))
    && (OlderThanMarks(times, ranking, marks) ==> r.picks == ranking && Marked(times, ranking, marks, r.times))
  }

  lemma DifferIffOn(times: seq<int>, marks: seq<int>, ranking: seq<nat>, before: Picked)
    requires marks != [] && |ranking| == |marks| && IsRanking(times, ranking) && before.times != []
    requires IsRanking(times, ranking[..|marks| - 1])
    requires DifferIff(times, marks[..|marks| - 1], ranking[..|marks| - 1], before)
    requires |before.times| == |times|
    ensures
      var p := Oldest(before.times);
      DifferIff(times, marks, ranking, Picked(before.times[p := marks[|marks| - 1]], before.picks + [p]))
  {
    hide IsRanking, Precedes, PrecedesAll, Oldest, AllDifferent, OlderThanMarks, Marked;
    var last := |marks| - 1;
    var p, front, next := Oldest(before.times), ranking[..last], ranking[last];
    RankingFront(times, ranking, marks);
    OneMoreDiffers(before.picks, p);
    if OlderThanMarks(times, front, marks[..last]) {
      NextInRank(times, front, marks[..last], before.times, next);
      if p == next {
        MarkedOn(times, front, marks[..last], before.times, next, marks[last]);
        assert marks == marks[..last] + [marks[last]];
      }
    }
  }

  /** For any candidates and any marks: all picks differ exactly when the last that has to go is older than the
      marks, and then the picks are the oldest candidates, oldest first. */
  lemma {:induction false} PicksDifferIff(times: seq<int>, marks: seq<int>, ranking: seq<nat>)
    requires times != [] && |ranking| == |marks| && IsRanking(times, ranking)
    ensures AllDifferent(Pick(times, marks).picks) <==> OlderThanMarks(times, ranking, marks)
    ensures OlderThanMarks(times, ranking, marks) ==>
              Pick(times, marks).picks == ranking && Marked(times, ranking, marks, Pick(times, marks).times)
    decreases |marks|
  {
    if marks != [] {
      hide IsRanking, Oldest, AllDifferent, OlderThanMarks, Marked;
      var last := |marks| - 1;
      RankingFront(times, ranking, marks);
      PicksDifferIff(times, marks[..last], ranking[..last]);
      DifferIffOn(times, marks, ranking, Pick(times, marks[..last]));
    }
  }

  lemma RankingDiffers(times: seq<int>, ranking: seq<nat>)
    requires IsRanking(times, ranking)
    ensures AllDifferent(ranking)
  {
  }

  /** As many candidates are older than `bound` as are ranked exactly when the last one ranked is. */
  lemma RankedBelow(times: seq<int>, ranking: seq<nat>, bound: int)
    requires ranking != [] && IsRanking(times, ranking)
    ensures times[ranking[|ranking| - 1]] < bound <==> |Below(times, bound)| >= |ranking|
  {
    var last := |ranking| - 1;
    RankingDiffers(times, ranking);
    DifferentCount(ranking);
    DifferentCount(ranking[..last]);
    if times[ranking[last]] < bound {
      forall p | p in Positions(ranking) ensures p in Below(times, bound) {
        var k :| 0 <= k < |ranking| && ranking[k] == p;
        assert k == last || Precedes(times[p], p, times[ranking[last]], ranking[last]);
      }
      LargerSet(Positions(ranking), Below(times, bound));
    } else {
      forall p | p in Below(times, bound) ensures p in Positions(ranking[..last]) {
        var k :| 0 <= k < |ranking| && ranking[k] == p;
        assert k != last && ranking[..last][k] == p;
      }
      LargerSet(Below(times, bound), Positions(ranking[..last]));
    }
  }

  /** With a clock that does not go back, `n` > 1 turns remove `n` candidates exactly when `n` of them are dated
      before the first mark, or the last of the oldest `n` is dated at it and listed before all that carry it. */
  lemma PruningIsExact(times: seq<int>, marks: seq<int>, ranking: seq<nat>)
    requires times != [] && |marks| > 1 && (forall j, k :: 0 <= j <= k < |marks| ==> marks[j] <= marks[k])
    requires |ranking| == |marks| && IsRanking(times, ranking)
    ensures
      var last := ranking[|ranking| - 1];
      |Positions(Pick(times, marks).picks)| == |marks| <==>
        || |Below(times, marks[0])| >= |marks|
        || (times[last] == marks[0] && forall j :: 0 <= j < |marks| - 1 && marks[j] == marks[0] ==> last < ranking[j])
  {
    PicksDifferIff(times, marks, ranking);
    DifferentCount(Pick(times, marks).picks);
    RankedBelow(times, ranking, marks[0]);
  }

  // The candidates older than `mark` are among those ranked before the last, and all of them when enough are older.
  lemma BelowIsRanked(times: seq<int>, ranking: seq<nat>, mark: int)
    requires ranking != [] && IsRanking(times, ranking) && |Below(times, mark)| < |ranking|
    ensures
      var front := ranking[..|ranking| - 1];
      && Below(times, mark) <= Positions(front) && |Positions(front)| == |ranking| - 1
      && mark <= times[ranking[|ranking| - 1]]
  {
    var last := |ranking| - 1;
    RankedBelow(times, ranking, mark);
    LastRanked(ranking);
    RankingDiffers(times, ranking);
    LastDiffers(ranking[..last], ranking[last]);
    DifferentCount(ranking[..last]);
    forall p | p in Below(times, mark) ensures p in Positions(ranking[..last]) {
      assert p in ranking;
      var k :| 0 <= k < |ranking| && ranking[k] == p;
      assert k != last && ranking[..last][k] == p;
    }
  }

  ghost predicate TiedFirst(times: seq<int>, i: nat, mark: int) {
    i < |times| && times[i] == mark && forall j :: j in Below(times, mark) ==> i < j
  }

  lemma TieIsFirst(times: seq<int>, ranking: seq<nat>, mark: int)
    requires ranking != [] && IsRanking(times, ranking) && |Below(times, mark)| < |ranking|
    requires
      var last := ranking[|ranking| - 1];
      times[last] == mark && forall j :: 0 <= j < |ranking| - 1 ==> last < ranking[j]
    ensures |Below(times, mark)| == |ranking| - 1 && TiedFirst(times, ranking[|ranking| - 1], mark)
  {
    var n, last, front := |ranking| - 1, ranking[|ranking| - 1], ranking[..|ranking| - 1];
    BelowIsRanked(times, ranking, mark);
    forall p | p in Positions(front) ensures p in Below(times, mark) && last < p {
      var k :| 0 <= k < n && ranking[k] == p;
      assert Precedes(times[p], p, times[last], last);
    }
    assert Below(times, mark) == Positions(front);
  }

  lemma FirstIsTied(times: seq<int>, ranking: seq<nat>, mark: int, i: nat)
    requires ranking != [] && IsRanking(times, ranking)
    requires |Below(times, mark)| == |ranking| - 1 && TiedFirst(times, i, mark)
    ensures times[ranking[|ranking| - 1]] == mark
    ensures forall j :: 0 <= j < |ranking| - 1 ==> ranking[|ranking| - 1] < ranking[j]
  {
    var n, last, front := |ranking| - 1, ranking[|ranking| - 1], ranking[..|ranking| - 1];
    BelowIsRanked(times, ranking, mark);
    Filled(Below(times, mark), Positions(front));
    assert i !in Below(times, mark);
    LastRanked(ranking);
    assert i == last || Precedes(times[last], last, times[i], i) by { assert i !in front; }
    forall j | 0 <= j < n ensures last < ranking[j] {
      assert front[j] == ranking[j] && ranking[j] in Positions(front);
    }
  }

  lemma AtTheMark(times: seq<int>, ranking: seq<nat>, mark: int)
    requires ranking != [] && IsRanking(times, ranking) && |Below(times, mark)| < |ranking|
    ensures
      var last := ranking[|ranking| - 1];
      (times[last] == mark && forall j :: 0 <= j < |ranking| - 1 ==> last < ranking[j])
      <==> (|Below(times, mark)| == |ranking| - 1 && exists i: nat :: TiedFirst(times, i, mark))
  {
    hide Below, TiedFirst, Precedes;
    var last := ranking[|ranking| - 1];
    if times[last] == mark && forall j :: 0 <= j < |ranking| - 1 ==> last < ranking[j] {
      TieIsFirst(times, ranking, mark);
    }
    if |Below(times, mark)| == |ranking| - 1 && exists i: nat :: TiedFirst(times, i, mark) {
      var i: nat :| TiedFirst(times, i, mark);
      FirstIsTied(times, ranking, mark, i);
    }
  }

  /** With a clock that stands still: enough candidates are dated less than a day ahead, or all but one are
      and one dated exactly a day ahead is listed before them. */
  lemma PruningWithAFrozenClock(times: seq<int>, marks: seq<int>, mark: int)
    requires times != [] && 1 < |marks| <= |times| && forall k :: 0 <= k < |marks| ==> marks[k] == mark
    ensures
      |Positions(Pick(times, marks).picks)| == |marks| <==>
        || |Below(times, mark)| >= |marks|
        || (|Below(times, mark)| == |marks| - 1 && exists i: nat :: TiedFirst(times, i, mark))
  {
    var ranking := RankingExists(times, |marks|);
    PruningIsExact(times, marks, ranking);
    if |Below(times, mark)| < |marks| { AtTheMark(times, ranking, mark); }
  }

  /** Four bundles from beyond tomorrow: both turns pick the first, and a removal is lost. */
  lemma FutureBundleSurvives(now: int, day: nat)
    ensures
      var beyond := now + day + 1;
      Pick([beyond, beyond + 1, beyond + 2, beyond + 3], [now + day, now + day]).picks == [0, 0]
  {
    var mark, beyond := now + day, now + day + 1;
    var times := [beyond, beyond + 1, beyond + 2, beyond + 3];
    assert [mark, mark][..1] == [mark] && [mark][..0] == [];
    FirstIsOldest(times, 0);
    assert Pick(times, [mark]).times == times[0 := mark];
    FirstIsOldest(times[0 := mark], 0);
  }

  // ---- Named candidates ----------------------------------------------------

  function Ordered(ages: map<string, int>, names: seq<string>): seq<int>
    requires forall k :: 0 <= k < |names| ==> names[k] in ages
  {
    seq(|names|, k requires 0 <= k < |names| => ages[names[k]])
  }

  function At(names: seq<string>, picks: seq<nat>): set<string>
    requires forall k :: 0 <= k < |picks| ==> picks[k] < |names|
  {
    set p | p in picks :: names[p]
  }

  /** As many candidates as exceed the limit, or all of them, and none younger than one that stays. */
  ghost predicate OldestPruned(ages: map<string, int>, excess: nat, pruned: set<string>) {
    && pruned <= ages.Keys
    && |pruned| == (if excess <= |ages.Keys| then excess else |ages.Keys|)
    && forall b, o :: b in pruned && o in ages && o !in pruned ==> ages[b] <= ages[o]
  }

  lemma AtOn(names: seq<string>, picks: seq<nat>, p: nat)
    requires p < |names| && forall k :: 0 <= k < |picks| ==> picks[k] < |names|
    ensures At(names, picks + [p]) == At(names, picks) + {names[p]}
  {
  }

  lemma NewName(names: seq<string>, picks: seq<nat>, p: nat)
    requires forall i, j :: 0 <= i < j < |names| ==> names[i] != names[j]
    requires p < |names| && p !in picks && forall k :: 0 <= k < |picks| ==> picks[k] < |names|
    ensures names[p] !in At(names, picks)
  {
  }

  lemma {:induction false} DistinctNames(names: seq<string>, picks: seq<nat>)
    requires forall i, j :: 0 <= i < j < |names| ==> names[i] != names[j]
    requires forall k :: 0 <= k < |picks| ==> picks[k] < |names|
    requires AllDifferent(picks)
    ensures |At(names, picks)| == |picks|
  {
    if picks != [] {
      var front, p := picks[..|picks| - 1], picks[|picks| - 1];
      assert picks == front + [p];
      LastDiffers(front, p);
      DistinctNames(names, front);
      AtOn(names, front, p);
      NewName(names, front, p);
    }
  }

  lemma {:induction false} ListingCount(order: seq<string>, items: set<string>)
    requires IsListing(order, items)
    ensures |order| == |items|
    decreases |order|
  {
    if order != [] {
      var last := order[|order| - 1];
      assert order == order[..|order| - 1] + [last];
      ListingCount(order[..|order| - 1], items - {last});
    } else {
      assert items == {};
    }
  }

  lemma PrunedAreOldest(ages: map<string, int>, names: seq<string>, r: Picked, bound: int)
    requires IsListing(names, ages.Keys) && OldestGone(Ordered(ages, names), r, bound)
    requires forall k :: 0 <= k < |r.picks| ==> r.picks[k] < |names|
    ensures forall b, o :: b in At(names, r.picks) && o in ages && o !in At(names, r.picks) ==> ages[b] <= ages[o]
    ensures At(names, r.picks) <= ages.Keys && |At(names, r.picks)| == |r.picks| && |names| == |ages.Keys|
  {
    DistinctNames(names, r.picks);
    ListingCount(names, ages.Keys);
    forall b, o | b in At(names, r.picks) && o in ages && o !in At(names, r.picks) ensures ages[b] <= ages[o] {
      var i :| i in r.picks && names[i] == b;
      assert o in names;
      var j: nat :| j < |names| && names[j] == o;
      assert Ordered(ages, names)[i] <= Ordered(ages, names)[j];
    }
  }

  lemma PrunedExactly(ages: map<string, int>, names: seq<string>, marks: seq<int>, excess: nat, bound: int)
    requires IsListing(names, ages.Keys) && names != []
    requires forall k :: 0 <= k < |marks| ==> bound <= marks[k]
    requires |marks| == (if excess <= |names| then excess else |names|)
    requires forall b :: b in ages ==> ages[b] < bound
    ensures OldestPruned(ages, excess, At(names, Pick(Ordered(ages, names), marks).picks))
  {
    var times := Ordered(ages, names);
    assert forall k :: 0 <= k < |times| ==> times[k] < bound;
    AllBelow(times, bound);
    PicksAreTheOldest(times, marks, bound);
    PrunedAreOldest(ages, names, Pick(times, marks), bound);
  }

  lemma {:induction false} AtCount(names: seq<string>, picks: seq<nat>)
    requires forall k :: 0 <= k < |picks| ==> picks[k] < |names|
    ensures |At(names, picks)| <= |Positions(picks)|
  {
    if picks != [] {
      var front, p := picks[..|picks| - 1], picks[|picks| - 1];
      assert picks == front + [p];
      AtCount(names, front);
      AtOn(names, front, p);
      assert Positions(picks) == Positions(front) + {p};
      if p in front { assert names[p] in At(names, front); }
    }
  }

  lemma RankedAreOldest(ages: map<string, int>, names: seq<string>, ranking: seq<nat>)
    requires IsListing(names, ages.Keys) && IsRanking(Ordered(ages, names), ranking)
    ensures forall b, o :: b in At(names, ranking) && o in ages && o !in At(names, ranking) ==> ages[b] <= ages[o]
    ensures At(names, ranking) <= ages.Keys && |At(names, ranking)| == |ranking|
  {
    var times := Ordered(ages, names);
    RankingDiffers(times, ranking);
    DistinctNames(names, ranking);
    forall b, o | b in At(names, ranking) && o in ages && o !in At(names, ranking) ensures ages[b] <= ages[o] {
      var i :| i in ranking && names[i] == b;
      var k :| 0 <= k < |ranking| && ranking[k] == i;
      assert o in names;
      var j: nat :| j < |names| && names[j] == o;
      assert j !in ranking;
      assert Precedes(times[ranking[k]], ranking[k], times[j], j);
    }
  }

  /** For any listing order and any clock: the oldest candidates go, as many as exceed the limit, exactly when the
      last of them is older than the marks. */
  lemma PrunedExactlyIff(ages: map<string, int>, names: seq<string>, marks: seq<int>, excess: nat, ranking: seq<nat>)
    requires IsListing(names, ages.Keys) && names != []
    requires |marks| == (if excess <= |names| then excess else |names|)
    requires |ranking| == |marks| && IsRanking(Ordered(ages, names), ranking)
    ensures OldestPruned(ages, excess, At(names, Pick(Ordered(ages, names), marks).picks))
            <==> OlderThanMarks(Ordered(ages, names), ranking, marks)
  {
    var times := Ordered(ages, names);
    var picks := Pick(times, marks).picks;
    PicksDifferIff(times, marks, ranking);
    RankedAreOldest(ages, names, ranking);
    ListingCount(names, ages.Keys);
    AtCount(names, picks);
    DifferentCount(picks);
  }
}
