/** The trace waterfall: spans, whose parent links may be cut or even cyclic, laid out as a forest in preorder
    with one bar each. A span is referred to by its position in the input. */
module Waterfall {
  import opened Inventory

  // Times in milliseconds.
  datatype Span = Span(id: string, parent: Option<string>, start: real, duration: Option<real>)

  datatype Row = Row(at: nat, depth: nat, offset: real, width: real)

  const SHORTEST: real := 0.000001

  function Ids(spans: seq<Span>): set<string> {
    set i | 0 <= i < |spans| :: spans[i].id
  }

  // An empty parent id counts as none, and so does one's own.
  predicate IsChildOf(spans: seq<Span>, i: nat, parent: string) {
    && i < |spans|
    && spans[i].parent == Some(parent) && parent != "" && parent in Ids(spans) && parent != spans[i].id
  }

  predicate IsRoot(spans: seq<Span>, i: nat) {
    i < |spans| && (spans[i].parent.Some? ==> !IsChildOf(spans, i, spans[i].parent.value))
  }

  /** Drawn below another span exactly when the parent id is that of another span of the list, and not empty. */
  lemma LinkedIff(spans: seq<Span>, i: nat)
    requires i < |spans|
    ensures forall parent :: IsChildOf(spans, i, parent) <==>
        && spans[i].parent == Some(parent) && parent != ""
        && exists j :: 0 <= j < |spans| && spans[j].id == parent && spans[j].id != spans[i].id
    ensures IsRoot(spans, i) <==>
        || spans[i].parent in {None, Some(""), Some(spans[i].id)}
        || forall j :: 0 <= j < |spans| ==> Some(spans[j].id) != spans[i].parent
  {
  }

  function Roots(spans: seq<Span>, n: nat): (r: seq<nat>)
    requires n <= |spans|
    ensures Valid(spans, r)
    ensures forall i: nat :: i in r <==> i < n && IsRoot(spans, i)
  {
    if n == 0 then [] else Roots(spans, n - 1) + if IsRoot(spans, n - 1) then [n - 1] else []
  }

  function Children(spans: seq<Span>, parent: string, n: nat): (r: seq<nat>)
    requires n <= |spans|
    ensures Valid(spans, r)
    ensures forall i: nat :: i in r <==> i < n && IsChildOf(spans, i, parent)
  {
    if n == 0 then [] else Children(spans, parent, n - 1) + if IsChildOf(spans, n - 1, parent) then [n - 1] else []
  }

  // ---- Start order ---------------------------------------------------------

  predicate Valid(spans: seq<Span>, list: seq<nat>) {
    forall k :: 0 <= k < |list| ==> list[k] < |spans|
  }

  /** Earlier start first, and among equal starts the order of the input. */
  predicate Before(spans: seq<Span>, i: nat, j: nat) {
    i < |spans| && j < |spans| && (spans[i].start < spans[j].start || (spans[i].start == spans[j].start && i < j))
  }

  ghost predicate InStartOrder(spans: seq<Span>, list: seq<nat>) {
    forall j, k :: 0 <= j < k < |list| ==> Before(spans, list[j], list[k])
  }

  ghost predicate InInputOrder(list: seq<nat>) {
    forall j, k :: 0 <= j < k < |list| ==> list[j] < list[k]
  }

  function Insert(spans: seq<Span>, i: nat, list: seq<nat>): (r: seq<nat>)
    requires i < |spans| && Valid(spans, list)
    ensures Valid(spans, r) && forall x :: x in r <==> x == i || x in list
  {
    if list == [] then [i]
    else if spans[i].start <= spans[list[0]].start then [i] + list
    else [list[0]] + Insert(spans, i, list[1..])
  }

  // A stable sort by start.
  function SortByStart(spans: seq<Span>, list: seq<nat>): (r: seq<nat>)
    requires Valid(spans, list)
    ensures Valid(spans, r) && forall x :: x in r <==> x in list
  {
    if list == [] then [] else Insert(spans, list[0], SortByStart(spans, list[1..]))
  }

  lemma {:induction false} InsertOrdered(spans: seq<Span>, i: nat, list: seq<nat>)
    requires i < |spans| && Valid(spans, list) && InStartOrder(spans, list)
    requires forall x :: x in list ==> i < x
    ensures InStartOrder(spans, Insert(spans, i, list))
  {
    var r := Insert(spans, i, list);
    if list == [] {
    } else if spans[i].start <= spans[list[0]].start {
      forall k | 0 < k < |r| ensures Before(spans, i, r[k]) {
        assert r[k] == list[k - 1] && r[k] in list;
        assert k > 1 ==> Before(spans, list[0], list[k - 1]);
      }
    } else {
      forall x | x in list[1..] ensures x in list && Before(spans, list[0], x) {
        var k :| 0 <= k < |list[1..]| && list[1..][k] == x;
        assert list[k + 1] == x;
      }
      InsertOrdered(spans, i, list[1..]);
      forall k | 0 < k < |r| ensures Before(spans, list[0], r[k]) {
        assert r[k] in Insert(spans, i, list[1..]);
      }
    }
  }

  lemma {:induction false} SortOrdered(spans: seq<Span>, list: seq<nat>)
    requires Valid(spans, list) && InInputOrder(list)
    ensures InStartOrder(spans, SortByStart(spans, list))
  {
    if list != [] {
      SortOrdered(spans, list[1..]);
      InsertOrdered(spans, list[0], SortByStart(spans, list[1..]));
    }
  }

  lemma {:induction false} RootsInInputOrder(spans: seq<Span>, n: nat)
    requires n <= |spans|
    ensures InInputOrder(Roots(spans, n))
  {
    if n > 0 {
      RootsInInputOrder(spans, n - 1);
      AppendInOrder(Roots(spans, n - 1), n - 1);
    }
  }

  lemma {:induction false} ChildrenInInputOrder(spans: seq<Span>, parent: string, n: nat)
    requires n <= |spans|
    ensures InInputOrder(Children(spans, parent, n))
  {
    if n > 0 {
      ChildrenInInputOrder(spans, parent, n - 1);
      AppendInOrder(Children(spans, parent, n - 1), n - 1);
    }
  }

  lemma AppendInOrder(list: seq<nat>, n: nat)
    requires InInputOrder(list) && forall x :: x in list ==> x < n
    ensures InInputOrder(list + [n]) && InInputOrder(list + [])
  {
    assert list + [] == list;
    assert forall k :: 0 <= k < |list| ==> list[k] in list;
  }

  // ---- Bars ----------------------------------------------------------------

  function Clamp(value: real): real {
    if value < 0.0 then 0.0 else if value > 1.0 then 1.0 else value
  }

  function Duration(span: Span): real {
    if span.duration.Some? then span.duration.value else 0.0
  }

  function Earliest(spans: seq<Span>): (t: real)
    requires spans != []
    ensures forall i :: 0 <= i < |spans| ==> t <= spans[i].start
    ensures exists i :: 0 <= i < |spans| && t == spans[i].start
  {
    if |spans| == 1 then spans[0].start
    else
      var t := Earliest(spans[..|spans| - 1]);
      if spans[|spans| - 1].start < t then spans[|spans| - 1].start else t
  }

  function Latest(spans: seq<Span>): (t: real)
    requires spans != []
    ensures forall i :: 0 <= i < |spans| ==> spans[i].start + Duration(spans[i]) <= t
    ensures exists i :: 0 <= i < |spans| && t == spans[i].start + Duration(spans[i])
  {
    var last := spans[|spans| - 1];
    var end := last.start + Duration(last);
    if |spans| == 1 then end
    else
      var t := Latest(spans[..|spans| - 1]);
      if end > t then end else t
  }

  function Total(spans: seq<Span>): (total: real)
    requires spans != []
    ensures total >= SHORTEST
  {
    var total := Latest(spans) - Earliest(spans);
    if total < SHORTEST then SHORTEST else total
  }

  // Offset and width of a bar that starts `lead` after the trace does.
  function Fit(lead: real, duration: real, total: real): (real, real)
    requires total > 0.0
  {
    var offset, width := Clamp(lead / total), Clamp(duration / total);
    (offset, if width < 1.0 - offset then width else 1.0 - offset)
  }

  lemma Fraction(a: real, b: real)
    requires 0.0 <= a <= b && b > 0.0
    ensures 0.0 <= a / b <= 1.0 && (a / b) * b == a
  {
  }

  lemma Together(x: real, y: real, a: real, b: real, total: real)
    requires total > 0.0 && x * total == a && y * total == b && a + b <= total
    ensures x + y <= 1.0
  {
    assert (x + y) * total == a + b;
  }

  lemma FitOnTrack(lead: real, duration: real, total: real)
    requires total > 0.0
    ensures
      var (offset, width) := Fit(lead, duration, total);
      OnTrack(offset, width, lead, duration, total)
  {
    if 0.0 <= lead && 0.0 <= duration && lead + duration <= total {
      Fraction(lead, total);
      Fraction(duration, total);
      var x, y := lead / total, duration / total;
      assert x * total == lead && y * total == duration;
      Together(x, y, lead, duration, total);
    }
  }

  /** Within the track, and to scale when nothing had to be clamped. */
  ghost predicate OnTrack(offset: real, width: real, lead: real, duration: real, total: real) {
    && 0.0 <= offset && 0.0 <= width && offset + width <= 1.0
    && (0.0 <= lead && 0.0 <= duration && lead + duration <= total ==>
        offset * total == lead && width * total == duration)
  }

  lemma WithinTotal(spans: seq<Span>, i: nat)
    requires i < |spans|
    ensures 0.0 <= spans[i].start - Earliest(spans)
        && spans[i].start - Earliest(spans) + Duration(spans[i]) <= Total(spans)
  {
  }

  function Bar(spans: seq<Span>, i: nat, depth: nat): (row: Row)
    requires i < |spans|
    ensures row.at == i && row.depth == depth
  {
    var (offset, width) := Fit(spans[i].start - Earliest(spans), Duration(spans[i]), Total(spans));
    Row(i, depth, offset, width)
  }

  /** The span lasts d milliseconds; one that reports no duration lasts none. */
  ghost predicate Lasts(span: Span, d: real) {
    span.duration == Some(d) || (span.duration.None? && d == 0.0)
  }

  /** The trace runs from the least start of a span to the greatest end of one. */
  ghost predicate Runs(spans: seq<Span>, start: real, end: real) {
    && (forall i :: 0 <= i < |spans| ==> start <= spans[i].start)
    && (exists i :: 0 <= i < |spans| && spans[i].start == start)
    && (forall i, d :: 0 <= i < |spans| && Lasts(spans[i], d) ==> spans[i].start + d <= end)
    && (exists i, d :: 0 <= i < |spans| && Lasts(spans[i], d) && spans[i].start + d == end)
  }

  /** The length of the trace, or a millionth of a millisecond for a shorter one. */
  ghost predicate IsScale(start: real, end: real, scale: real) {
    if end - start >= 0.000001 then scale == end - start else scale == 0.000001
  }

  /** The bar of a span that starts `lead` into the trace: to scale, or, for a negative duration, without width at
      its start, or at the end of the track when it starts after all is over. */
  ghost predicate ToScale(offset: real, width: real, lead: real, d: real, scale: real) {
    && 0.0 <= offset && 0.0 <= width && offset + width <= 1.0
    && (d >= 0.0 ==> offset * scale == lead && width * scale == d)
    && (d < 0.0 ==> width == 0.0 && if lead <= scale then offset * scale == lead else offset == 1.0)
  }

  lemma TraceRuns(spans: seq<Span>)
    requires spans != []
    ensures Runs(spans, Earliest(spans), Latest(spans))
    ensures forall start, end :: Runs(spans, start, end) ==> start == Earliest(spans) && end == Latest(spans)
    ensures IsScale(Earliest(spans), Latest(spans), Total(spans))
  {
    var i :| 0 <= i < |spans| && Latest(spans) == spans[i].start + Duration(spans[i]);
    assert Lasts(spans[i], Duration(spans[i]));
    forall start, end | Runs(spans, start, end) ensures end == Latest(spans) {
      assert spans[i].start + Duration(spans[i]) <= end;
    }
  }

  lemma FitShort(lead: real, duration: real, total: real)
    requires total > 0.0 && lead >= 0.0 && duration < 0.0
    ensures
      var (offset, width) := Fit(lead, duration, total);
      width == 0.0 && if lead <= total then offset * total == lead else offset == 1.0
  {
    assert duration / total < 0.0;
    if lead <= total { Fraction(lead, total); } else { assert lead / total > 1.0; }
  }

  lemma FitToScale(lead: real, d: real, scale: real)
    requires scale > 0.0 && lead >= 0.0 && lead + d <= scale
    ensures
      var (offset, width) := Fit(lead, d, scale);
      && ToScale(offset, width, lead, d, scale)
      && (lead == 0.0 ==> offset == 0.0)
      && (d >= 0.0 && lead + d == scale ==> offset + width == 1.0)
  {
    FitOnTrack(lead, d, scale);
    var (offset, width) := Fit(lead, d, scale);
    if d < 0.0 {
      FitShort(lead, d, scale);
    } else {
      assert (offset + width) * scale == lead + d;
      if lead + d == scale { Whole(offset + width, scale); }
    }
  }

  /** No bar leaves the track, whatever the durations, and every bar is to scale. The span that starts first starts
      at the left edge, and one that ends last ends at the right edge unless the whole trace is too short. */
  lemma BarIsToScale(spans: seq<Span>, i: nat, depth: nat, start: real, end: real, scale: real, d: real)
    requires i < |spans| && Runs(spans, start, end) && IsScale(start, end, scale) && Lasts(spans[i], d)
    ensures
      var row := Bar(spans, i, depth);
      && ToScale(row.offset, row.width, spans[i].start - start, d, scale)
      && (spans[i].start == start ==> row.offset == 0.0)
      && (d >= 0.0 && spans[i].start + d == end && end - start >= 0.000001 ==> row.offset + row.width == 1.0)
  {
    hide Fit, ToScale, Earliest, Latest;
    TraceRuns(spans);
    WithinTotal(spans, i);
    assert d == Duration(spans[i]) && scale == Total(spans) && start == Earliest(spans);
    FitToScale(spans[i].start - start, d, scale);
  }

  lemma Whole(x: real, scale: real)
    requires scale > 0.0 && x * scale == scale
    ensures x == 1.0
  {
    assert (x - 1.0) * scale == 0.0;
  }

  // ---- The layout ----------------------------------------------------------

  // Where a span goes: its position in the input and its depth.
  datatype Spot = Spot(at: nat, depth: nat)

  datatype Laid = Laid(rows: seq<Spot>, seen: set<string>)

  predicate InForest(spans: seq<Span>, rows: seq<Spot>, depth: nat) {
    forall k :: 0 <= k < |rows| ==> rows[k].at < |spans| && rows[k].depth >= depth
  }

  function Unseen(spans: seq<Span>, seen: set<string>): nat {
    |Ids(spans) - seen|
  }

  lemma FewerLeft(spans: seq<Span>, seen: set<string>, more: set<string>)
    requires seen <= more
    ensures Unseen(spans, more) <= Unseen(spans, seen)
    ensures (exists i :: 0 <= i < |spans| && spans[i].id in more && spans[i].id !in seen) ==>
        Unseen(spans, more) < Unseen(spans, seen)
  {
    var ids := Ids(spans);
    assert ids - seen == (ids - more) + (ids * more - seen);
    assert |ids - seen| == |ids - more| + |ids * more - seen|;
  }

  /** A span is laid out once, before its children in start order. A cycle would otherwise never end. */
  function Visit(spans: seq<Span>, i: nat, depth: nat, seen: set<string>): (r: Laid)
    requires i < |spans|
    ensures seen <= r.seen && InForest(spans, r.rows, 0)
    decreases Unseen(spans, seen), 0
  {
    var id := spans[i].id;
    if id in seen then Laid([], seen)
    else
      FewerLeft(spans, seen, seen + {id});
      var r := VisitAll(spans, SortByStart(spans, Children(spans, id, |spans|)), depth + 1, seen + {id});
      Laid([Spot(i, depth)] + r.rows, r.seen)
  }

  function VisitAll(spans: seq<Span>, list: seq<nat>, depth: nat, seen: set<string>): (r: Laid)
    requires Valid(spans, list)
    ensures seen <= r.seen && InForest(spans, r.rows, 0)
    decreases Unseen(spans, seen), |list|
  {
    if list == [] then Laid([], seen)
    else
      var first := Visit(spans, list[0], depth, seen);
      FewerLeft(spans, seen, first.seen);
      var rest := VisitAll(spans, list[1..], depth, first.seen);
      Laid(first.rows + rest.rows, rest.seen)
  }

  function Layout(spans: seq<Span>): (rows: seq<Spot>)
    ensures InForest(spans, rows, 0)
  {
    VisitAll(spans, SortByStart(spans, Roots(spans, |spans|)), 0, {}).rows
  }

  // ---- What one stretch of rows satisfies ----------------------------------

  function RowIds(spans: seq<Span>, rows: seq<Spot>): set<string>
    requires InForest(spans, rows, 0)
  {
    set k | 0 <= k < |rows| :: spans[rows[k].at].id
  }

  ghost predicate NoneTwice(spans: seq<Span>, rows: seq<Spot>)
    requires InForest(spans, rows, 0)
  {
    forall j, k :: 0 <= j < k < |rows| ==> spans[rows[j].at].id != spans[rows[k].at].id
  }

  /** Row j is the parent of row k: one level up, and everything in between is deeper than it. */
  ghost predicate Parent(spans: seq<Span>, rows: seq<Spot>, j: nat, k: nat)
    requires InForest(spans, rows, 0)
  {
    && j < k < |rows|
    && IsChildOf(spans, rows[k].at, spans[rows[j].at].id)
    && rows[k].depth == rows[j].depth + 1
    && forall m :: j < m < k ==> rows[m].depth > rows[j].depth
  }

  ghost predicate HasParent(spans: seq<Span>, rows: seq<Spot>, k: nat)
    requires InForest(spans, rows, 0)
  {
    exists j :: Parent(spans, rows, j, k)
  }

  ghost predicate Placed(spans: seq<Span>, rows: seq<Spot>, list: seq<nat>, depth: nat)
    requires InForest(spans, rows, 0)
  {
    forall k: nat :: k < |rows| ==>
      (rows[k].depth == depth && rows[k].at in list) || (rows[k].depth > depth && HasParent(spans, rows, k))
  }

  // Rows of one depth with nothing shallower in between.
  ghost predicate Siblings(rows: seq<Spot>, j: nat, k: nat) {
    && j < k < |rows| && rows[j].depth == rows[k].depth
    && forall m :: j < m < k ==> rows[m].depth >= rows[j].depth
  }

  ghost predicate SiblingsOrdered(spans: seq<Span>, rows: seq<Spot>)
    requires InForest(spans, rows, 0)
  {
    forall j: nat, k: nat :: Siblings(rows, j, k) ==> Before(spans, rows[j].at, rows[k].at)
  }

  ghost predicate ChildrenSeen(spans: seq<Span>, rows: seq<Spot>, seen: set<string>)
    requires InForest(spans, rows, 0)
  {
    forall k, c: nat {:trigger IsChildOf(spans, c, spans[rows[k].at].id)} ::
      0 <= k < |rows| && IsChildOf(spans, c, spans[rows[k].at].id) ==> spans[c].id in seen
  }

  ghost predicate Stretch(spans: seq<Span>, list: seq<nat>, depth: nat, seen: set<string>, r: Laid) {
    && Valid(spans, list)
    && InForest(spans, r.rows, 0) && InForest(spans, r.rows, depth)
    && r.seen == seen + RowIds(spans, r.rows) && seen !! RowIds(spans, r.rows)
    && NoneTwice(spans, r.rows)
    && Placed(spans, r.rows, list, depth)
    && SiblingsOrdered(spans, r.rows)
    && ChildrenSeen(spans, r.rows, r.seen)
    && (forall i :: i in list ==> spans[i].id in r.seen)
  }

  // ---- A span in front of its children -------------------------------------

  lemma ParentShifts(spans: seq<Span>, row: Spot, rows: seq<Spot>, j: nat, k: nat)
    requires InForest(spans, rows, 0) && InForest(spans, [row] + rows, 0) && Parent(spans, rows, j, k)
    ensures Parent(spans, [row] + rows, j + 1, k + 1)
  {
    var all := [row] + rows;
    forall m | j + 1 < m < k + 1 ensures all[m].depth > all[j + 1].depth {
      assert all[m] == rows[m - 1];
    }
  }

  lemma HeadIsParent(spans: seq<Span>, i: nat, depth: nat, rows: seq<Spot>, k: nat)
    requires i < |spans| && InForest(spans, rows, 0) && InForest(spans, rows, depth + 1)
    requires InForest(spans, [Spot(i, depth)] + rows, 0)
    requires k < |rows| && rows[k].depth == depth + 1 && IsChildOf(spans, rows[k].at, spans[i].id)
    ensures Parent(spans, [Spot(i, depth)] + rows, 0, k + 1)
  {
    var all := [Spot(i, depth)] + rows;
    assert all[0] == Spot(i, depth) && all[k + 1] == rows[k];
    forall m | 0 < m < k + 1 ensures all[m].depth > depth { assert all[m] == rows[m - 1]; }
  }

  lemma HeadPlacedAt(spans: seq<Span>, i: nat, depth: nat, list: seq<nat>, rows: seq<Spot>, k: nat)
    requires i < |spans| && InForest(spans, rows, 0) && InForest(spans, rows, depth + 1) && k < |rows|
    requires (rows[k].depth == depth + 1 && rows[k].at in list) || HasParent(spans, rows, k)
    requires forall c :: c in list ==> IsChildOf(spans, c, spans[i].id)
    requires InForest(spans, [Spot(i, depth)] + rows, 0)
    ensures HasParent(spans, [Spot(i, depth)] + rows, k + 1)
  {
    if rows[k].depth == depth + 1 && rows[k].at in list {
      HeadIsParent(spans, i, depth, rows, k);
    } else {
      var j :| Parent(spans, rows, j, k);
      ParentShifts(spans, Spot(i, depth), rows, j, k);
    }
  }

  lemma HeadPlaced(spans: seq<Span>, i: nat, depth: nat, list: seq<nat>, rows: seq<Spot>)
    requires i < |spans| && InForest(spans, rows, 0) && InForest(spans, rows, depth + 1)
        && Placed(spans, rows, list, depth + 1)
    requires forall c :: c in list ==> IsChildOf(spans, c, spans[i].id)
    requires InForest(spans, [Spot(i, depth)] + rows, 0)
    ensures Placed(spans, [Spot(i, depth)] + rows, [i], depth)
  {
    hide HasParent, IsChildOf;
    var all := [Spot(i, depth)] + rows;
    forall k: nat | 0 < k < |all| ensures all[k].depth > depth && HasParent(spans, all, k) {
      assert all[k] == rows[k - 1];
      HeadPlacedAt(spans, i, depth, list, rows, k - 1);
    }
  }

  lemma HeadSiblings(spans: seq<Span>, row: Spot, rows: seq<Spot>, depth: nat)
    requires InForest(spans, rows, 0) && InForest(spans, rows, depth + 1) && SiblingsOrdered(spans, rows)
    requires InForest(spans, [row] + rows, 0) && row.depth == depth
    ensures SiblingsOrdered(spans, [row] + rows)
  {
    var all := [row] + rows;
    forall j: nat, k: nat | Siblings(all, j, k) ensures Before(spans, all[j].at, all[k].at) {
      assert all[k] == rows[k - 1];
      if j > 0 {
        forall m | j - 1 < m < k - 1 ensures rows[m].depth >= rows[j - 1].depth { assert all[m + 1] == rows[m]; }
        assert Siblings(rows, j - 1, k - 1);
      }
    }
  }

  lemma HeadStretch(spans: seq<Span>, i: nat, depth: nat, list: seq<nat>, seen: set<string>, r: Laid)
    requires i < |spans| && spans[i].id !in seen
    requires forall c: nat :: c in list <==> IsChildOf(spans, c, spans[i].id)
    requires Stretch(spans, list, depth + 1, seen + {spans[i].id}, r)
    ensures Stretch(spans, [i], depth, seen, Laid([Spot(i, depth)] + r.rows, r.seen))
  {
    var head := Spot(i, depth);
    var all := [head] + r.rows;
    assert forall k :: 0 < k < |all| ==> all[k] == r.rows[k - 1];
    assert InForest(spans, all, 0) && InForest(spans, all, depth);
    HeadIds(spans, i, depth, r.rows);
    HeadPlaced(spans, i, depth, list, r.rows);
    HeadSiblings(spans, head, r.rows, depth);
  }

  lemma HeadIds(spans: seq<Span>, i: nat, depth: nat, rows: seq<Spot>)
    requires i < |spans| && InForest(spans, rows, 0) && InForest(spans, [Spot(i, depth)] + rows, 0)
    ensures RowIds(spans, [Spot(i, depth)] + rows) == {spans[i].id} + RowIds(spans, rows)
  {
    var all := [Spot(i, depth)] + rows;
    forall x | x in RowIds(spans, rows) ensures x in RowIds(spans, all) {
      var k :| 0 <= k < |rows| && spans[rows[k].at].id == x;
      assert all[k + 1] == rows[k];
    }
    assert all[0].at == i;
  }

  // ---- One stretch after another -------------------------------------------

  lemma ParentStays(spans: seq<Span>, rows: seq<Spot>, more: seq<Spot>, j: nat, k: nat)
    requires InForest(spans, rows, 0) && InForest(spans, rows + more, 0) && Parent(spans, rows, j, k)
    ensures Parent(spans, rows + more, j, k)
  {
    var all := rows + more;
    forall m | j < m < k ensures all[m].depth > all[j].depth { assert all[m] == rows[m]; }
  }

  lemma ParentMoves(spans: seq<Span>, rows: seq<Spot>, more: seq<Spot>, j: nat, k: nat)
    requires InForest(spans, more, 0) && InForest(spans, rows + more, 0) && Parent(spans, more, j, k)
    ensures Parent(spans, rows + more, |rows| + j, |rows| + k)
  {
    var all := rows + more;
    forall m | |rows| + j < m < |rows| + k ensures all[m].depth > all[|rows| + j].depth {
      assert all[m] == more[m - |rows|];
    }
  }

  lemma JoinPlacedFirst(spans: seq<Span>, first: seq<Spot>, rest: seq<Spot>, k: nat)
    requires InForest(spans, first, 0) && InForest(spans, first + rest, 0) && HasParent(spans, first, k)
    ensures HasParent(spans, first + rest, k)
  {
    var j :| Parent(spans, first, j, k);
    ParentStays(spans, first, rest, j, k);
  }

  lemma JoinPlacedRest(spans: seq<Span>, first: seq<Spot>, rest: seq<Spot>, k: nat)
    requires InForest(spans, rest, 0) && InForest(spans, first + rest, 0) && HasParent(spans, rest, k)
    ensures HasParent(spans, first + rest, |first| + k)
  {
    var j :| Parent(spans, rest, j, k);
    ParentMoves(spans, first, rest, j, k);
  }

  lemma JoinPlacedAt(spans: seq<Span>, first: seq<Spot>, rest: seq<Spot>, list: seq<nat>, depth: nat, k: nat)
    requires list != [] && InForest(spans, first, 0) && InForest(spans, rest, 0) && InForest(spans, first + rest, 0)
    requires k < |first + rest|
    requires k < |first| ==>
        (first[k].depth == depth && first[k].at in [list[0]]) || (first[k].depth > depth && HasParent(spans, first, k))
    requires k >= |first| ==>
      var n := k - |first|;
      (rest[n].depth == depth && rest[n].at in list[1..]) || (rest[n].depth > depth && HasParent(spans, rest, n))
    ensures
      var all := first + rest;
      (all[k].depth == depth && all[k].at in list) || (all[k].depth > depth && HasParent(spans, all, k))
  {
    if k < |first| {
      if HasParent(spans, first, k) { JoinPlacedFirst(spans, first, rest, k); }
    } else if HasParent(spans, rest, k - |first|) {
      JoinPlacedRest(spans, first, rest, k - |first|);
    }
  }

  lemma JoinPlaced(spans: seq<Span>, first: seq<Spot>, rest: seq<Spot>, list: seq<nat>, depth: nat)
    requires list != [] && InForest(spans, first, 0) && InForest(spans, rest, 0) && InForest(spans, first + rest, 0)
    requires Placed(spans, first, [list[0]], depth) && Placed(spans, rest, list[1..], depth)
    ensures Placed(spans, first + rest, list, depth)
  {
    hide HasParent;
    var all := first + rest;
    forall k: nat | k < |all|
      ensures (all[k].depth == depth && all[k].at in list) || (all[k].depth > depth && HasParent(spans, all, k))
    {
      JoinPlacedAt(spans, first, rest, list, depth, k);
    }
  }

  // Siblings in different stretches are at the stretches' own depth, for the second opens at that depth.
  lemma SiblingsAcross(spans: seq<Span>, first: seq<Spot>, rest: seq<Spot>, list: seq<nat>, depth: nat, j: nat, k: nat)
    requires list != [] && InForest(spans, first, 0) && InForest(spans, rest, 0)
    requires InForest(spans, first, depth) && InForest(spans, rest, depth)
    requires Placed(spans, first, [list[0]], depth) && Placed(spans, rest, list[1..], depth)
    requires Siblings(first + rest, j, k) && j < |first| <= k
    ensures first[j].at == list[0] && rest[k - |first|].at in list[1..]
  {
    var all := first + rest;
    assert all[j] == first[j] && all[k] == rest[k - |first|] && all[|first|] == rest[0];
    assert !HasParent(spans, rest, 0);
    assert first[j].depth == depth;
  }

  lemma JoinSiblings(spans: seq<Span>, first: seq<Spot>, rest: seq<Spot>, list: seq<nat>, depth: nat)
    requires list != [] && InForest(spans, first, 0) && InForest(spans, rest, 0) && InForest(spans, first + rest, 0)
    requires InForest(spans, first, depth) && InForest(spans, rest, depth)
    requires Placed(spans, first, [list[0]], depth) && Placed(spans, rest, list[1..], depth)
    requires SiblingsOrdered(spans, first) && SiblingsOrdered(spans, rest)
    requires Valid(spans, list) && InStartOrder(spans, list)
    ensures SiblingsOrdered(spans, first + rest)
  {
    var all := first + rest;
    forall j: nat, k: nat | Siblings(all, j, k) ensures Before(spans, all[j].at, all[k].at) {
      if k < |first| {
        SiblingsBefore(first, rest, j, k);
      } else if j >= |first| {
        SiblingsBehind(first, rest, j, k);
      } else {
        SiblingsAcross(spans, first, rest, list, depth, j, k);
        var n :| 0 <= n < |list[1..]| && list[1..][n] == rest[k - |first|].at;
        assert Before(spans, list[0], list[n + 1]);
      }
    }
  }

  lemma SiblingsBefore(first: seq<Spot>, rest: seq<Spot>, j: nat, k: nat)
    requires Siblings(first + rest, j, k) && k < |first|
    ensures Siblings(first, j, k) && (first + rest)[j] == first[j] && (first + rest)[k] == first[k]
  {
    forall m | j < m < k ensures first[m].depth >= first[j].depth { assert (first + rest)[m] == first[m]; }
  }

  lemma SiblingsBehind(first: seq<Spot>, rest: seq<Spot>, j: nat, k: nat)
    requires Siblings(first + rest, j, k) && j >= |first|
    ensures Siblings(rest, j - |first|, k - |first|)
    ensures (first + rest)[j] == rest[j - |first|] && (first + rest)[k] == rest[k - |first|]
  {
    var n := |first|;
    forall m | j - n < m < k - n ensures rest[m].depth >= rest[j - n].depth { assert (first + rest)[m + n] == rest[m]; }
  }

  lemma JoinIds(spans: seq<Span>, first: seq<Spot>, rest: seq<Spot>)
    requires InForest(spans, first, 0) && InForest(spans, rest, 0) && InForest(spans, first + rest, 0)
    ensures RowIds(spans, first + rest) == RowIds(spans, first) + RowIds(spans, rest)
    ensures NoneTwice(spans, first) && NoneTwice(spans, rest) && RowIds(spans, first) !! RowIds(spans, rest) ==>
        NoneTwice(spans, first + rest)
  {
    var all := first + rest;
    forall x | x in RowIds(spans, rest) ensures x in RowIds(spans, all) {
      var k :| 0 <= k < |rest| && spans[rest[k].at].id == x;
      assert all[|first| + k] == rest[k];
    }
    forall x | x in RowIds(spans, first) ensures x in RowIds(spans, all) {
      var k :| 0 <= k < |first| && spans[first[k].at].id == x;
      assert all[k] == first[k];
    }
    if NoneTwice(spans, first) && NoneTwice(spans, rest) && RowIds(spans, first) !! RowIds(spans, rest) {
      forall j, k | 0 <= j < k < |all| ensures spans[all[j].at].id != spans[all[k].at].id {
        if j < |first| <= k {
          assert spans[all[j].at].id in RowIds(spans, first) && spans[all[k].at].id in RowIds(spans, rest);
        }
      }
    }
  }

  lemma JoinStretch(spans: seq<Span>, list: seq<nat>, depth: nat, seen: set<string>, first: Laid, rest: Laid)
    requires list != [] && Valid(spans, list) && InStartOrder(spans, list)
    requires Stretch(spans, [list[0]], depth, seen, first) && Stretch(spans, list[1..], depth, first.seen, rest)
    ensures Stretch(spans, list, depth, seen, Laid(first.rows + rest.rows, rest.seen))
  {
    assert InForest(spans, first.rows + rest.rows, 0) && InForest(spans, first.rows + rest.rows, depth);
    JoinIds(spans, first.rows, rest.rows);
    JoinPlaced(spans, first.rows, rest.rows, list, depth);
    JoinSiblings(spans, first.rows, rest.rows, list, depth);
    forall i | i in list ensures spans[i].id in rest.seen {
      if i != list[0] { assert i in list[1..]; } else { assert i in [list[0]]; }
    }
  }

  lemma {:induction false} VisitStretch(spans: seq<Span>, i: nat, depth: nat, seen: set<string>)
    requires i < |spans|
    ensures Stretch(spans, [i], depth, seen, Visit(spans, i, depth, seen))
    decreases Unseen(spans, seen), 0
  {
    var id := spans[i].id;
    if id !in seen {
      FewerLeft(spans, seen, seen + {id});
      var list := Children(spans, id, |spans|);
      ChildrenInInputOrder(spans, id, |spans|);
      SortOrdered(spans, list);
      VisitAllStretch(spans, SortByStart(spans, list), depth + 1, seen + {id});
      HeadStretch(spans, i, depth, SortByStart(spans, list), seen,
                  VisitAll(spans, SortByStart(spans, list), depth + 1, seen + {id}));
    }
  }

  lemma {:induction false} VisitAllStretch(spans: seq<Span>, list: seq<nat>, depth: nat, seen: set<string>)
    requires Valid(spans, list) && InStartOrder(spans, list)
    ensures Stretch(spans, list, depth, seen, VisitAll(spans, list, depth, seen))
    decreases Unseen(spans, seen), |list|
  {
    if list != [] {
      var first := Visit(spans, list[0], depth, seen);
      VisitStretch(spans, list[0], depth, seen);
      FewerLeft(spans, seen, first.seen);
      VisitAllStretch(spans, list[1..], depth, first.seen);
      JoinStretch(spans, list, depth, seen, first, VisitAll(spans, list[1..], depth, first.seen));
    }
  }

  // ---- The whole layout ----------------------------------------------------

  lemma LayoutStretch(spans: seq<Span>)
    ensures
      var list := SortByStart(spans, Roots(spans, |spans|));
      Stretch(spans, list, 0, {}, VisitAll(spans, list, 0, {}))
  {
    RootsInInputOrder(spans, |spans|);
    SortOrdered(spans, Roots(spans, |spans|));
    VisitAllStretch(spans, SortByStart(spans, Roots(spans, |spans|)), 0, {});
  }

  /** For any spans at all, repeated ids and cycles included: no id is drawn twice; every row is a root at depth 0
      or comes after its parent, one level deeper, with only deeper rows between them, which is preorder. */
  lemma LayoutIsPreorder(spans: seq<Span>)
    ensures InForest(spans, Layout(spans), 0) && NoneTwice(spans, Layout(spans))
    ensures forall k: nat :: k < |Layout(spans)| ==>
              (Layout(spans)[k].depth == 0 && IsRoot(spans, Layout(spans)[k].at))
              || (Layout(spans)[k].depth > 0 && HasParent(spans, Layout(spans), k))
  {
    LayoutStretch(spans);
  }

  lemma OneParent(spans: seq<Span>, rows: seq<Spot>, p: nat, q: nat, j: nat, k: nat)
    requires InForest(spans, rows, 0) && NoneTwice(spans, rows)
    requires Parent(spans, rows, p, j) && Parent(spans, rows, q, k) && j < k
    requires spans[rows[j].at].parent == spans[rows[k].at].parent
    ensures Siblings(rows, j, k)
  {
    assert spans[rows[p].at].id == spans[rows[q].at].id;
    assert p == q;
  }

  /** Two rows with the same parent, and two roots, appear in start order, ties in the order of the input. */
  lemma SameParentInStartOrder(spans: seq<Span>, j: nat, k: nat)
    requires j < k < |Layout(spans)| && Layout(spans)[j].at < |spans| && Layout(spans)[k].at < |spans|
    requires
      var a, b := Layout(spans)[j].at, Layout(spans)[k].at;
      (IsRoot(spans, a) && IsRoot(spans, b))
        || (!IsRoot(spans, a) && spans[a].parent == spans[b].parent && !IsRoot(spans, b))
    ensures
      var a, b := Layout(spans)[j].at, Layout(spans)[k].at;
      spans[a].start < spans[b].start || (spans[a].start == spans[b].start && a < b)
  {
    LayoutStretch(spans);
    LayoutIsPreorder(spans);
    var rows := Layout(spans);
    if IsRoot(spans, rows[j].at) {
      assert !HasParent(spans, rows, j) && !HasParent(spans, rows, k);
      assert Siblings(rows, j, k);
    } else {
      assert HasParent(spans, rows, j) && HasParent(spans, rows, k);
      var p :| Parent(spans, rows, p, j);
      var q :| Parent(spans, rows, q, k);
      OneParent(spans, rows, p, q, j, k);
    }
  }

  // ---- Exactly the spans that hang from a root ------------------------------

  ghost predicate DistinctIds(spans: seq<Span>) {
    forall i: nat, j: nat :: i < |spans| && j < |spans| && spans[i].id == spans[j].id ==> i == j
  }

  /** Following parent links from span i reaches a root in n steps. */
  ghost predicate Chain(spans: seq<Span>, i: nat, n: nat)
    decreases n
  {
    if n == 0 then IsRoot(spans, i)
    else exists p: nat :: p < |spans| && IsChildOf(spans, i, spans[p].id) && Chain(spans, p, n - 1)
  }

  lemma {:induction false} RowsHaveChains(spans: seq<Span>, k: nat)
    requires k < |Layout(spans)|
    ensures InForest(spans, Layout(spans), 0) && Chain(spans, Layout(spans)[k].at, Layout(spans)[k].depth)
  {
    LayoutIsPreorder(spans);
    var rows := Layout(spans);
    if rows[k].depth > 0 {
      var j :| Parent(spans, rows, j, k);
      RowsHaveChains(spans, j);
    }
  }

  ghost predicate ShowsAll(spans: seq<Span>, rows: seq<Spot>) {
    && InForest(spans, rows, 0)
    && (forall i: nat {:trigger IsRoot(spans, i)} :: IsRoot(spans, i) ==> spans[i].id in RowIds(spans, rows))
    && ChildrenSeen(spans, rows, RowIds(spans, rows))
  }

  lemma LayoutShowsAll(spans: seq<Span>)
    ensures ShowsAll(spans, Layout(spans))
  {
    LayoutStretch(spans);
    forall i: nat | IsRoot(spans, i) ensures spans[i].id in RowIds(spans, Layout(spans)) {
      assert i in SortByStart(spans, Roots(spans, |spans|));
    }
  }

  lemma ChildShown(spans: seq<Span>, rows: seq<Spot>, i: nat, p: nat)
    requires ShowsAll(spans, rows) && p < |spans| && spans[p].id in RowIds(spans, rows)
        && IsChildOf(spans, i, spans[p].id)
    ensures spans[i].id in RowIds(spans, rows)
  {
    var k :| 0 <= k < |rows| && spans[rows[k].at].id == spans[p].id;
    assert IsChildOf(spans, i, spans[rows[k].at].id);
  }

  lemma {:induction false} ChainsAreShown(spans: seq<Span>, rows: seq<Spot>, i: nat, n: nat)
    requires Chain(spans, i, n) && ShowsAll(spans, rows)
    ensures i < |spans| && spans[i].id in RowIds(spans, rows)
    decreases n
  {
    if n > 0 {
      var p: nat :| p < |spans| && IsChildOf(spans, i, spans[p].id) && Chain(spans, p, n - 1);
      ChainsAreShown(spans, rows, p, n - 1);
      ChildShown(spans, rows, i, p);
    }
  }

  ghost predicate Rooted(spans: seq<Span>, i: nat) {
    exists n :: Chain(spans, i, n)
  }

  ghost predicate Drawn(rows: seq<Spot>, i: nat) {
    exists k :: 0 <= k < |rows| && rows[k].at == i
  }

  /** With distinct ids the layout shows exactly the spans whose parent chain ends in a root, each once, at a
      depth that is the length of the chain. What a cycle holds captive is not drawn. */
  lemma LayoutIsExact(spans: seq<Span>, i: nat)
    requires DistinctIds(spans) && i < |spans|
    ensures Rooted(spans, i) <==> Drawn(Layout(spans), i)
  {
    if Rooted(spans, i) {
      var n :| Chain(spans, i, n);
      LayoutShowsAll(spans);
      var rows := Layout(spans);
      ChainsAreShown(spans, rows, i, n);
      var k :| 0 <= k < |rows| && spans[rows[k].at].id == spans[i].id;
      assert rows[k].at == i;
    }
    if Drawn(Layout(spans), i) {
      var k :| 0 <= k < |Layout(spans)| && Layout(spans)[k].at == i;
      RowsHaveChains(spans, k);
    }
  }

  lemma {:induction false} NoChainOutOfACycle(spans: seq<Span>, i: nat, n: nat)
    requires |spans| == 2 && spans[0].id != spans[1].id && spans[0].id != "" && spans[1].id != ""
    requires spans[0].parent == Some(spans[1].id) && spans[1].parent == Some(spans[0].id) && i < 2
    ensures !Chain(spans, i, n)
    decreases n
  {
    assert spans[0].id in Ids(spans) && spans[1].id in Ids(spans);
    if n > 0 {
      NoChainOutOfACycle(spans, 0, n - 1);
      NoChainOutOfACycle(spans, 1, n - 1);
    }
  }

  /** Two spans that name each other as parent: nothing is drawn. */
  lemma CycleIsNotDrawn(a: string, b: string, start: real, duration: Option<real>)
    requires a != b && a != "" && b != ""
    ensures Layout([Span(a, Some(b), start, duration), Span(b, Some(a), start, duration)]) == []
  {
    var spans := [Span(a, Some(b), start, duration), Span(b, Some(a), start, duration)];
    if Layout(spans) != [] {
      RowsHaveChains(spans, 0);
      NoChainOutOfACycle(spans, Layout(spans)[0].at, Layout(spans)[0].depth);
    }
  }

  function Draw(bar: (nat, nat) -> Row, spots: seq<Spot>): seq<Row> {
    seq(|spots|, k requires 0 <= k < |spots| => bar(spots[k].at, spots[k].depth))
  }

  // ---- The two groups of spans ---------------------------------------------

  function ListFor(children: map<string, seq<nat>>, id: string): seq<nat> {
    if id in children then children[id] else []
  }

  ghost predicate Grouped(spans: seq<Span>, children: map<string, seq<nat>>, roots: seq<nat>, n: nat)
    requires n <= |spans|
  {
    roots == Roots(spans, n)
      && forall p {:trigger ListFor(children, p)} :: ListFor(children, p) == Children(spans, p, n)
  }

  lemma NothingGrouped(spans: seq<Span>)
    ensures Grouped(spans, map[], [], 0)
  {
  }

  lemma ChildrenOn(spans: seq<Span>, p: string, n: nat)
    requires n < |spans|
    ensures Children(spans, p, n + 1)
        == if IsChildOf(spans, n, p) then Children(spans, p, n) + [n] else Children(spans, p, n)
    ensures IsChildOf(spans, n, p) <==> !IsRoot(spans, n) && spans[n].parent == Some(p)
  {
  }

  lemma GroupRoot(spans: seq<Span>, children: map<string, seq<nat>>, roots: seq<nat>, n: nat)
    requires n < |spans| && Grouped(spans, children, roots, n) && IsRoot(spans, n)
    ensures Grouped(spans, children, roots + [n], n + 1)
  {
    forall p ensures ListFor(children, p) == Children(spans, p, n + 1) {
      ChildrenOn(spans, p, n);
    }
  }

  lemma GroupChild(spans: seq<Span>, children: map<string, seq<nat>>, roots: seq<nat>, n: nat, parent: string,
                   list: seq<nat>)
    requires n < |spans| && Grouped(spans, children, roots, n) && !IsRoot(spans, n) && spans[n].parent == Some(parent)
    requires list == ListFor(children, parent) + [n]
    ensures Grouped(spans, children[parent := list], roots, n + 1)
  {
    var after := children[parent := list];
    assert Roots(spans, n + 1) == Roots(spans, n);
    forall p ensures ListFor(after, p) == Children(spans, p, n + 1) {
      GroupChildAt(spans, children, n, parent, p, ListFor(children, p));
    }
  }

  lemma GroupChildAt(spans: seq<Span>, children: map<string, seq<nat>>, n: nat, parent: string, p: string,
                     list: seq<nat>)
    requires n < |spans| && !IsRoot(spans, n) && spans[n].parent == Some(parent)
    requires list == ListFor(children, p) == Children(spans, p, n)
    ensures ListFor(children[parent := ListFor(children, parent) + [n]], p) == Children(spans, p, n + 1)
  {
    ChildrenOn(spans, p, n);
  }

  lemma ChildrenOf(spans: seq<Span>, children: map<string, seq<nat>>, roots: seq<nat>, id: string)
    requires Grouped(spans, children, roots, |spans|)
    ensures ListFor(children, id) == Children(spans, id, |spans|) && Valid(spans, ListFor(children, id))
        && Valid(spans, roots)
  {
  }

  // ---- As the code does it -------------------------------------------------

  lemma DrawHead(bar: (nat, nat) -> Row, spot: Spot, spots: seq<Spot>)
    ensures Draw(bar, [spot] + spots) == [bar(spot.at, spot.depth)] + Draw(bar, spots)
  {
  }

  lemma DrawVisit(before: seq<Row>, bar: (nat, nat) -> Row, spans: seq<Span>, i: nat, depth: nat, seen: set<string>)
    requires i < |spans| && spans[i].id !in seen
    ensures Unseen(spans, seen + {spans[i].id}) < Unseen(spans, seen)
    ensures
      var r := VisitAll(spans, SortByStart(spans, Children(spans, spans[i].id, |spans|)), depth + 1,
                        seen + {spans[i].id});
      var whole := Visit(spans, i, depth, seen);
      before + Draw(bar, whole.rows) == before + [bar(i, depth)] + Draw(bar, r.rows) && whole.seen == r.seen
  {
    FewerLeft(spans, seen, seen + {spans[i].id});
    var r := VisitAll(spans, SortByStart(spans, Children(spans, spans[i].id, |spans|)), depth + 1,
                      seen + {spans[i].id});
    DrawHead(bar, Spot(i, depth), r.rows);
    Associative(before, [bar(i, depth)], Draw(bar, r.rows));
  }

  lemma DrawJoin(bar: (nat, nat) -> Row, first: seq<Spot>, rest: seq<Spot>)
    ensures Draw(bar, first + rest) == Draw(bar, first) + Draw(bar, rest)
  {
  }

  lemma DrawVisitAll(before: seq<Row>, bar: (nat, nat) -> Row, spans: seq<Span>, list: seq<nat>, depth: nat,
                     seen: set<string>)
    requires list != [] && Valid(spans, list)
    ensures
      var first := Visit(spans, list[0], depth, seen);
      var rest := VisitAll(spans, list[1..], depth, first.seen);
      var whole := VisitAll(spans, list, depth, seen);
      && Unseen(spans, first.seen) <= Unseen(spans, seen)
      && before + Draw(bar, whole.rows) == before + Draw(bar, first.rows) + Draw(bar, rest.rows)
          && whole.seen == rest.seen
  {
    var first := Visit(spans, list[0], depth, seen);
    var rest := VisitAll(spans, list[1..], depth, first.seen);
    FewerLeft(spans, seen, first.seen);
    DrawJoin(bar, first.rows, rest.rows);
    Associative(before, Draw(bar, first.rows), Draw(bar, rest.rows));
  }

  class Builder {
    const spans: seq<Span>
    const bar: (nat, nat) -> Row    // the bar of a span at a depth
    var children: map<string, seq<nat>>
    var roots: seq<nat>
    var rows: seq<Row>
    var seen: set<string>

    constructor (input: seq<Span>, drawn: (nat, nat) -> Row)
      ensures spans == input && bar == drawn && rows == [] && seen == {} && children == map[] && roots == []
    {
      spans, bar, children, roots, rows, seen := input, drawn, map[], [], [], {};
    }

    method Group()
      requires children == map[] && roots == []
      modifies `children, `roots
      ensures Grouped(spans, children, roots, |spans|)
    {
      hide Grouped, IsChildOf, Ids, ListFor;
      NothingGrouped(spans);
      for n := 0 to |spans|
        invariant Grouped(spans, children, roots, n)
      {
        if IsRoot(spans, n) {
          GroupRoot(spans, children, roots, n);
          roots := roots + [n];
        } else {
          var parent := spans[n].parent.value;
          var list := ListFor(children, parent) + [n];
          GroupChild(spans, children, roots, n, parent, list);
          children := children[parent := list];
        }
      }
    }

    method VisitSpan(i: nat, depth: nat, ghost left: nat)
      requires i < |spans| && Grouped(spans, children, roots, |spans|) && Unseen(spans, seen) <= left
      modifies `rows, `seen
      ensures
        var r := Visit(spans, i, depth, old(seen));
        rows == old(rows) + Draw(bar, r.rows) && seen == r.seen
      decreases left, 0
    {
      var id := spans[i].id;
      if id in seen { return; }
      ChildrenOf(spans, children, roots, id);
      DrawVisit(rows, bar, spans, i, depth, seen);
      seen := seen + {id};
      rows := rows + [bar(i, depth)];
      VisitList(SortByStart(spans, ListFor(children, id)), depth + 1, left - 1);
    }

    method VisitList(list: seq<nat>, depth: nat, ghost left: nat)
      requires Valid(spans, list) && Grouped(spans, children, roots, |spans|) && Unseen(spans, seen) <= left
      modifies `rows, `seen
      ensures
        var r := VisitAll(spans, list, depth, old(seen));
        rows == old(rows) + Draw(bar, r.rows) && seen == r.seen
      decreases left, |list|
    {
      if list == [] { return; }
      DrawVisitAll(rows, bar, spans, list, depth, seen);
      VisitSpan(list[0], depth, left);
      VisitList(list[1..], depth, left);
    }
  }

  /** Every row that is drawn, to the scale of the whole trace. */
  ghost predicate AllToScale(spans: seq<Span>, rows: seq<Row>) {
    forall start, end, scale | Runs(spans, start, end) && IsScale(start, end, scale) ::
      forall k, d | 0 <= k < |rows| && rows[k].at < |spans| && Lasts(spans[rows[k].at], d) ::
        ToScale(rows[k].offset, rows[k].width, spans[rows[k].at].start - start, d, scale)
  }

  lemma RowsToScale(spans: seq<Span>, rows: seq<Row>)
    requires |rows| == |Layout(spans)|
    requires forall k :: 0 <= k < |rows| ==> rows[k] == Bar(spans, Layout(spans)[k].at, Layout(spans)[k].depth)
    ensures AllToScale(spans, rows)
  {
    hide Runs, IsScale, Lasts, ToScale, Bar;
    forall start, end, scale | Runs(spans, start, end) && IsScale(start, end, scale)
      ensures forall k, d | 0 <= k < |rows| && rows[k].at < |spans| && Lasts(spans[rows[k].at], d) ::
          ToScale(rows[k].offset, rows[k].width, spans[rows[k].at].start - start, d, scale)
    {
      forall k, d | 0 <= k < |rows| && rows[k].at < |spans| && Lasts(spans[rows[k].at], d)
        ensures ToScale(rows[k].offset, rows[k].width, spans[rows[k].at].start - start, d, scale)
      {
        BarIsToScale(spans, Layout(spans)[k].at, Layout(spans)[k].depth, start, end, scale, d);
      }
    }
  }

  method LayoutWaterfall(spans: seq<Span>) returns (rows: seq<Row>)
    ensures |rows| == |Layout(spans)|
    ensures forall k :: 0 <= k < |rows| ==> rows[k] == Bar(spans, Layout(spans)[k].at, Layout(spans)[k].depth)
    ensures AllToScale(spans, rows)
  {
    hide AllToScale, Bar;
    if spans == [] {
      rows := [];
      RowsToScale(spans, rows);
      return;
    }
    var bar := (i: nat, depth: nat) => if i < |spans| then Bar(spans, i, depth) else Row(i, depth, 0.0, 0.0);
    var builder := new Builder(spans, bar);
    builder.Group();
    ChildrenOf(spans, builder.children, builder.roots, "");
    builder.VisitList(SortByStart(spans, builder.roots), 0, Unseen(spans, {}));
    rows := builder.rows;
    assert rows == Draw(bar, Layout(spans));
    RowsToScale(spans, rows);
  }
}
