/** A rule's price chart: one point per posting and day, outliers cut, at most thirty points.

    A row carries the local day of its timestamp; the time zone that decides it is not modelled. */
module Sparkline {
  import opened Chat
  import opened Options

  const MAX_POINTS := 30
  const OUTLIER_MIN_POSTINGS := 8

  datatype Row = Row(id: int, posting: Posting, day: int, price: int, manual: bool, correction: nat)

  datatype Point = Point(day: int, price: int)

  predicate DistinctIds(rows: set<Row>) {
    forall a, b :: a in rows && b in rows && a.id == b.id ==> a == b
  }

  function RowsOf(rows: seq<Row>): set<Row> {
    set r | r in rows
  }

  // ---------------------------------------------------------------------------------------------
  // One row per posting

  /** A manual price wins, the latest correction among several, then the lowest id. */
  predicate Outranks(a: Row, b: Row) {
    if a.manual != b.manual then a.manual
    else if a.manual && a.correction != b.correction then a.correction > b.correction
    else a.id < b.id
  }

  lemma RankIsTotal(a: Row, b: Row)
    requires !Outranks(a, b) && !Outranks(b, a)
    ensures a.id == b.id
  {
  }

  /** The rows that count: of each posting the one no other outranks. */
  function Selected(rows: set<Row>): set<Row> {
    set r | r in rows && forall q :: q in rows && q.posting == r.posting ==> !Outranks(q, r)
  }

  /** The best row of each posting seen so far. */
  ghost predicate BestOfEach(seen: set<Row>, best: map<Posting, Row>) {
    && (forall p :: p in best ==> best[p] in seen && best[p].posting == p)
    && (forall r :: r in seen ==> r.posting in best && !Outranks(r, best[r.posting]))
  }

  lemma BestOfEachIsSelected(rows: set<Row>, best: map<Posting, Row>)
    requires DistinctIds(rows) && BestOfEach(rows, best)
    ensures best.Values == Selected(rows)
  {
    forall r | r in best.Values ensures r in Selected(rows) {
      var p :| p in best && best[p] == r;
      assert forall q :: q in rows && q.posting == r.posting ==> !Outranks(q, r);
    }
    forall r | r in Selected(rows) ensures r in best.Values {
      RankIsTotal(r, best[r.posting]);
      assert r.posting in best;
    }
  }

  /** The query's rows, in whatever order, into one row per posting. */
  method SelectPostings(rows: seq<Row>) returns (selected: set<Row>)
    requires DistinctIds(RowsOf(rows))
    ensures selected == Selected(RowsOf(rows))
  {
    var best: map<Posting, Row> := map[];
    ghost var seen: set<Row> := {};
    var i := 0;
    while i < |rows|
      invariant 0 <= i <= |rows| && seen == RowsOf(rows[..i]) && BestOfEach(seen, best)
    {
      var row := rows[i];
      assert rows[..i + 1] == rows[..i] + [row];
      if row.posting !in best || Outranks(row, best[row.posting]) {
        best := best[row.posting := row];
      }
      seen := seen + {row};
      i := i + 1;
    }
    assert rows[..i] == rows;
    BestOfEachIsSelected(RowsOf(rows), best);
    selected := best.Values;
  }

  /** One row of each posting, and no posting lost. */
  lemma SelectedIsOnePerPosting(rows: set<Row>)
    requires DistinctIds(rows)
    ensures forall a, b :: a in Selected(rows) && b in Selected(rows) && a.posting == b.posting ==> a == b
    ensures forall r :: r in rows ==> exists q :: q in Selected(rows) && q.posting == r.posting
  {
    forall a, b | a in Selected(rows) && b in Selected(rows) && a.posting == b.posting ensures a == b {
      RankIsTotal(a, b);
    }
    forall r | r in rows ensures exists q :: q in Selected(rows) && q.posting == r.posting {
      var same := set q | q in rows && q.posting == r.posting;
      assert r in same;
      var best := BestOf(same);
      assert best in Selected(rows);
    }
  }

  /** Of one posting's rows the one that counts is a manual price if there is any, of these the latest corrected, and
      the first stored among equals. */
  lemma SelectedWins(rows: set<Row>, r: Row, q: Row)
    requires DistinctIds(rows) && r in Selected(rows) && q in rows && q.posting == r.posting && q != r
    ensures q.manual ==> r.manual && q.correction <= r.correction
    ensures q.manual == r.manual && (!r.manual || q.correction == r.correction) ==> r.id < q.id
  {
    assert q.id != r.id;
  }

  lemma {:induction false} BestOf(rows: set<Row>) returns (best: Row)
    requires DistinctIds(rows) && rows != {}
    ensures best in rows && forall q :: q in rows ==> !Outranks(q, best)
    decreases |rows|
  {
    var x :| x in rows;
    var rest := rows - {x};
    if rest == {} {
      assert rows == {x};
      best := x;
    } else {
      var m := BestOf(rest);
      best := if Outranks(x, m) then x else m;
      assert forall q :: q in rows ==> q == x || q in rest;
    }
  }

  // ---------------------------------------------------------------------------------------------
  // Cutting outliers

  predicate Cheaper(a: Row, b: Row) {
    a.price < b.price || (a.price == b.price && a.id <= b.id)
  }

  lemma {:induction false} CheapestExists(rows: set<Row>)
    requires rows != {}
    ensures exists r :: r in rows && forall q :: q in rows ==> Cheaper(r, q)
    decreases |rows|
  {
    var x :| x in rows;
    var rest := rows - {x};
    if rest != {} {
      CheapestExists(rest);
      var m :| m in rest && forall q :: q in rest ==> Cheaper(m, q);
      var least := if Cheaper(x, m) then x else m;
      assert forall q :: q in rows ==> q == x || q in rest;
      assert least in rows && forall q :: q in rows ==> Cheaper(least, q);
    } else {
      assert rows == {x};
    }
  }

  ghost predicate InPriceOrder(s: seq<Row>, rows: set<Row>) {
    && |s| == |rows| && (forall r :: r in s <==> r in rows)
    && forall i, j :: 0 <= i < j < |s| ==> s[i].price <= s[j].price
  }

  lemma CheapestFirst(rows: set<Row>, m: Row, rest: seq<Row>)
    requires m in rows && (forall q :: q in rows ==> Cheaper(m, q)) && InPriceOrder(rest, rows - {m})
    ensures InPriceOrder([m] + rest, rows)
  {
    assert forall i :: 0 <= i < |rest| ==> rest[i] in rest;
  }

  /** The rows by price; ids only make the order one. */
  function ByPrice(rows: set<Row>): (s: seq<Row>)
    requires DistinctIds(rows)
    ensures InPriceOrder(s, rows)
    decreases |rows|
  {
    if rows == {} then []
    else
      CheapestExists(rows);
      var m :| m in rows && forall q :: q in rows ==> Cheaper(m, q);
      CheapestFirst(rows, m, ByPrice(rows - {m}));
      [m] + ByPrice(rows - {m})
  }

  /** Twice the median price, which is a whole number. */
  function TwiceMedian(rows: set<Row>): int
    requires DistinctIds(rows) && rows != {}
  {
    var s := ByPrice(rows);
    var mid := |s| / 2;
    if |s| % 2 == 1 then 2 * s[mid].price else s[mid - 1].price + s[mid].price
  }

  /** A quarter of the median is the floor, so eight times the price is compared. */
  function Kept(rows: set<Row>): set<Row>
    requires DistinctIds(rows)
  {
    if |rows| < OUTLIER_MIN_POSTINGS then rows else set r | r in rows && 8 * r.price >= TwiceMedian(rows)
  }

  function Firsts(s: seq<Row>, n: nat): set<Row>
    requires n <= |s|
  {
    set i | 0 <= i < n :: s[i]
  }

  lemma {:induction false} FirstsSize(s: seq<Row>, n: nat)
    requires n <= |s|
    ensures |Firsts(s, n)| <= n
  {
    if n > 0 {
      FirstsSize(s, n - 1);
      assert Firsts(s, n) == Firsts(s, n - 1) + {s[n - 1]};
    }
  }

  /** In a list of as many rows as there are, none comes twice. */
  lemma {:induction false} FirstsAreDifferent(s: seq<Row>, rows: set<Row>, n: nat)
    requires n <= |s| && InPriceOrder(s, rows)
    ensures |Firsts(s, n)| == n
    decreases |s| - n
  {
    FirstsSize(s, n);
    if n == |s| {
      assert Firsts(s, n) == rows;
    } else {
      FirstsAreDifferent(s, rows, n + 1);
      assert Firsts(s, n + 1) == Firsts(s, n) + {s[n]};
    }
  }

  lemma SubsetSize(a: set<Row>, b: set<Row>)
    requires a <= b
    ensures |a| <= |b|
  {
    assert b == a + (b - a);
  }

  lemma NoLaterIsCheaper(s: seq<Row>, t: seq<Row>, rows: set<Row>, i: nat)
    requires InPriceOrder(s, rows) && InPriceOrder(t, rows) && i < |rows|
    ensures s[i].price <= t[i].price
  {
    if s[i].price > t[i].price {
      forall r | r in Firsts(t, i + 1) ensures r in Firsts(s, i) {
        var k :| 0 <= k < i + 1 && t[k] == r;
        assert r in rows && r in s;
        var j :| 0 <= j < |s| && s[j] == r;
        assert j < i;
      }
      FirstsAreDifferent(t, rows, i + 1);
      FirstsSize(s, i);
      SubsetSize(Firsts(t, i + 1), Firsts(s, i));
    }
  }

  /** Whatever way the prices are sorted: with eight postings or more, what goes is what costs less than a quarter of
      the middle price, or of the mean of the two middle ones; with fewer nothing goes. */
  lemma CutIsAQuarterOfTheMedian(rows: set<Row>, s: seq<Row>, r: Row)
    requires DistinctIds(rows) && InPriceOrder(s, rows)
    ensures r in Kept(rows) <==> r in rows && (|s| >= 8 ==>
      4 * 2 * r.price >= if |s| % 2 == 1 then s[|s| / 2].price + s[|s| / 2].price else s[|s| / 2 - 1].price + s[|s| / 2].price)
  {
    if |s| >= 8 {
      var t := ByPrice(rows);
      NoLaterIsCheaper(s, t, rows, |s| / 2);
      NoLaterIsCheaper(t, s, rows, |s| / 2);
      NoLaterIsCheaper(s, t, rows, |s| / 2 - 1);
      NoLaterIsCheaper(t, s, rows, |s| / 2 - 1);
    }
  }

  /** The cut leaves something of what there was, as long as no price is negative: at least every posting
      from the median up. */
  lemma CutLeavesSomething(rows: set<Row>)
    requires DistinctIds(rows) && rows != {} && forall r :: r in rows ==> r.price >= 0
    ensures Kept(rows) != {}
    ensures forall r :: r in rows && 2 * r.price >= TwiceMedian(rows) ==> r in Kept(rows)
  {
    var s := ByPrice(rows);
    var last := s[|s| - 1];
    assert last in rows;
    assert 2 * last.price >= TwiceMedian(rows);
  }

  /** Without that the cut could take everything: eight postings at one negative price. */
  lemma CutCouldTakeNegativePrices(rows: set<Row>, price: int)
    requires DistinctIds(rows) && |rows| >= OUTLIER_MIN_POSTINGS && price < 0 && forall r :: r in rows ==> r.price == price
    ensures Kept(rows) == {}
  {
    var s := ByPrice(rows);
    assert forall i :: 0 <= i < |s| ==> s[i] in rows;
    assert rows != {};
    assert TwiceMedian(rows) == 2 * price;
  }

  // ---------------------------------------------------------------------------------------------
  // The lowest price of each day

  function Days(rows: set<Row>): set<int> {
    set r | r in rows :: r.day
  }

  lemma {:induction false} EarliestExists(days: set<int>)
    requires days != {}
    ensures exists d :: d in days && forall e :: e in days ==> d <= e
    decreases |days|
  {
    assert (forall d :: d !in days) ==> days == {};
    var x :| x in days;
    var rest := days - {x};
    if rest != {} {
      EarliestExists(rest);
      var m :| m in rest && forall e :: e in rest ==> m <= e;
      var least := if x <= m then x else m;
      assert forall e :: e in days ==> e == x || e in rest;
      assert least in days && forall e :: e in days ==> least <= e;
    } else {
      assert days == {x};
    }
  }

  function Earliest(days: set<int>): (d: int)
    requires days != {}
    ensures d in days && forall e :: e in days ==> d <= e
  {
    EarliestExists(days);
    var d :| d in days && forall e :: e in days ==> d <= e;
    d
  }

  function InOrder(days: set<int>): (s: seq<int>)
    ensures forall d :: d in s <==> d in days
    decreases |days|
  {
    if days == {} then [] else [Earliest(days)] + InOrder(days - {Earliest(days)})
  }

  lemma {:induction false} InOrderRises(days: set<int>)
    ensures forall i, j :: 0 <= i < j < |InOrder(days)| ==> InOrder(days)[i] < InOrder(days)[j]
    decreases |days|
  {
    if days != {} {
      var d := Earliest(days);
      InOrderRises(days - {d});
      var rest := InOrder(days - {d});
      assert forall i :: 0 <= i < |rest| ==> rest[i] in rest && rest[i] in days - {d};
    }
  }

  ghost predicate IsLowest(rows: set<Row>, day: int, price: int) {
    (exists r :: r in rows && r.day == day && r.price == price) && forall r :: r in rows && r.day == day ==> price <= r.price
  }

  predicate HasDay(points: seq<Point>, day: int) {
    exists i :: 0 <= i < |points| && points[i].day == day
  }

  /** One point a day, oldest first, each the lowest price of its day. */
  ghost predicate IsDaily(rows: set<Row>, points: seq<Point>) {
    && (forall i, j :: 0 <= i < j < |points| ==> points[i].day < points[j].day)
    && (forall x :: x in points ==> IsLowest(rows, x.day, x.price))
    && (forall r :: r in rows ==> HasDay(points, r.day))
  }

  ghost predicate LowestSoFar(seen: set<Row>, lowest: map<int, int>) {
    && (forall day :: day in lowest ==> IsLowest(seen, day, lowest[day]))
    && (forall r :: r in seen ==> r.day in lowest)
  }

  lemma OneMoreLow(seen: set<Row>, lowest: map<int, int>, row: Row)
    requires LowestSoFar(seen, lowest)
    ensures var low := if row.day !in lowest || row.price < lowest[row.day] then lowest[row.day := row.price] else lowest;
            LowestSoFar(seen + {row}, low)
  {
    var low := if row.day !in lowest || row.price < lowest[row.day] then lowest[row.day := row.price] else lowest;
    forall day | day in low ensures IsLowest(seen + {row}, day, low[day]) {
      if day in lowest {
        assert IsLowest(seen, day, lowest[day]);
        var r :| r in seen && r.day == day && r.price == lowest[day];
        assert r in seen + {row};
      }
      assert row in seen + {row};
    }
  }

  /** The dictionary of lows, filled row by row, in whatever order. */
  method DailyLowest(rows: set<Row>) returns (points: seq<Point>)
    ensures IsDaily(rows, points)
  {
    var lowest: map<int, int> := map[];
    var left := rows;
    ghost var seen: set<Row> := {};
    while left != {}
      invariant seen + left == rows && LowestSoFar(seen, lowest)
      decreases |left|
    {
      var row :| row in left;
      OneMoreLow(seen, lowest, row);
      if row.day !in lowest || row.price < lowest[row.day] {
        lowest := lowest[row.day := row.price];
      }
      left, seen := left - {row}, seen + {row};
    }
    points := PointsOf(lowest);
    LowsAreDaily(rows, lowest);
  }

  function PointsOf(lowest: map<int, int>): seq<Point> {
    var days := InOrder(lowest.Keys);
    seq(|days|, i requires 0 <= i < |days| => Point(days[i], (assert days[i] in days; lowest[days[i]])))
  }

  lemma LowsAreDaily(rows: set<Row>, lowest: map<int, int>)
    requires LowestSoFar(rows, lowest)
    ensures IsDaily(rows, PointsOf(lowest))
  {
    var days, points := InOrder(lowest.Keys), PointsOf(lowest);
    InOrderRises(lowest.Keys);
    forall x | x in points ensures IsLowest(rows, x.day, x.price) {
      var i :| 0 <= i < |points| && points[i] == x;
      assert days[i] in days;
    }
    forall r | r in rows ensures HasDay(points, r.day) {
      assert r.day in days;
      var i :| 0 <= i < |days| && days[i] == r.day;
      assert points[i].day == r.day;
    }
  }

  /** The series is one: it does not depend on the order of the rows. */
  lemma DailyIsUnique(rows: set<Row>, p: seq<Point>, q: seq<Point>)
    requires IsDaily(rows, p) && IsDaily(rows, q)
    ensures p == q
  {
    forall x | x in p ensures x in q {
      SameDay(rows, p, q, x);
    }
    forall x | x in q ensures x in p {
      SameDay(rows, q, p, x);
    }
    IncreasingAgree(p, q);
  }

  lemma SameDay(rows: set<Row>, p: seq<Point>, q: seq<Point>, x: Point)
    requires IsDaily(rows, p) && IsDaily(rows, q) && x in p
    ensures x in q
  {
    assert IsLowest(rows, x.day, x.price);
    var r :| r in rows && r.day == x.day && r.price == x.price;
    assert HasDay(q, r.day);
    var j :| 0 <= j < |q| && q[j].day == r.day;
    assert q[j] in q && IsLowest(rows, q[j].day, q[j].price);
    assert q[j] == x;
  }

  lemma {:induction false} IncreasingAgree(p: seq<Point>, q: seq<Point>)
    requires forall i, j :: 0 <= i < j < |p| ==> p[i].day < p[j].day
    requires forall i, j :: 0 <= i < j < |q| ==> q[i].day < q[j].day
    requires forall x :: x in p <==> x in q
    ensures p == q
  {
    assert |q| > 0 ==> q[0] in p;
    if p != [] {
      assert p[0] in q && q[0] in p;
      assert p[0] == q[0];
      forall x ensures x in p[1..] <==> x in q[1..] {
        RestHas(p, x);
        RestHas(q, x);
      }
      IncreasingAgree(p[1..], q[1..]);
    }
  }

  lemma RestHas(p: seq<Point>, x: Point)
    requires p != [] && forall i, j :: 0 <= i < j < |p| ==> p[i].day < p[j].day
    ensures x in p[1..] <==> x in p && x != p[0]
  {
  }

  // ---------------------------------------------------------------------------------------------
  // At most thirty points

  function LowestOf(points: seq<Point>): (m: int)
    requires points != []
    ensures exists i :: 0 <= i < |points| && points[i].price == m
    ensures forall i :: 0 <= i < |points| ==> m <= points[i].price
  {
    if |points| == 1 then points[0].price
    else
      var rest := LowestOf(points[1..]);
      assert forall i :: 1 <= i < |points| ==> points[i] == points[1..][i - 1];
      if points[0].price <= rest then points[0].price else rest
  }

  /** Consecutive chunks of `size` points, each at its first day and lowest price. */
  function Chunked(points: seq<Point>, size: nat): seq<Point>
    requires size > 0
  {
    if points == [] then []
    else if |points| <= size then [Point(points[0].day, LowestOf(points))]
    else [Point(points[0].day, LowestOf(points[..size]))] + Chunked(points[size..], size)
  }

  function CeilDiv(n: nat, m: nat): nat
    requires m > 0
  {
    (n + m - 1) / m
  }

  function Downsample(points: seq<Point>, maxPoints: nat): seq<Point>
    requires maxPoints > 0
  {
    if |points| <= maxPoints then points else Chunked(points, CeilDiv(|points|, maxPoints))
  }

  lemma CeilBounds(n: nat, m: nat)
    requires m > 0
    ensures CeilDiv(n, m) * m >= n && (n > 0 ==> (CeilDiv(n, m) - 1) * m < n)
  {
    var q := (n + m - 1) / m;
    assert q * m + (n + m - 1) % m == n + m - 1;
  }

  /** As many chunks as it takes, which is never more than asked for. */
  lemma ChunksFit(n: nat, m: nat)
    requires m > 0 && n > 0
    ensures CeilDiv(n, m) > 0 && CeilDiv(n, CeilDiv(n, m)) <= m
  {
    var size := CeilDiv(n, m);
    CeilBounds(n, m);
    assert size == 0 ==> size * m == 0;
    CeilBounds(n, size);
    var chunks := CeilDiv(n, size);
    if chunks >= m + 1 {
      MoreChunksThanThat(chunks, m, size);
    }
  }

  lemma MoreChunksThanThat(chunks: nat, m: nat, size: nat)
    requires chunks >= m + 1
    ensures (chunks - 1) * size >= size * m
  {
  }

  lemma {:induction false} ChunkedCount(points: seq<Point>, size: nat)
    requires size > 0
    ensures |Chunked(points, size)| == CeilDiv(|points|, size)
    decreases |points|
  {
    if points == [] {
      NoChunk(size);
    } else if |points| <= size {
      OneChunk(|points|, size);
    } else {
      ChunkedCount(points[size..], size);
      FirstChunkAddsOne(points, size);
      OneMoreChunk(|points|, size);
    }
  }

  lemma FirstChunkAddsOne(points: seq<Point>, size: nat)
    requires 0 < size < |points|
    ensures |Chunked(points, size)| == |Chunked(points[size..], size)| + 1
  {
  }

  lemma NoChunk(size: nat)
    requires size > 0
    ensures CeilDiv(0, size) == 0
  {
    assert (size - 1) / size == 0;
  }

  lemma OneChunk(n: nat, size: nat)
    requires 0 < n <= size
    ensures CeilDiv(n, size) == 1
  {
    CeilBounds(n, size);
    var q := CeilDiv(n, size);
    assert q >= 2 ==> (q - 1) * size >= size;
    assert q == 0 ==> q * size == 0;
  }

  /** The bounds leave one number. */
  lemma CeilIsUnique(n: nat, size: nat, a: nat, b: nat)
    requires size > 0 && a * size >= n && (b - 1) * size < n
    ensures b <= a
  {
    assert b > a ==> (b - 1) * size >= a * size;
  }

  lemma OneMoreChunk(n: nat, size: nat)
    requires n > size > 0
    ensures CeilDiv(n, size) == 1 + CeilDiv(n - size, size)
  {
    var q, r := CeilDiv(n, size), CeilDiv(n - size, size);
    CeilBounds(n, size);
    CeilBounds(n - size, size);
    assert (r + 1) * size == r * size + size && (r + 1 - 1) * size == (r - 1) * size + size;
    CeilIsUnique(n, size, q, r + 1);
    CeilIsUnique(n, size, r + 1, q);
  }

  ghost predicate Rising(points: seq<Point>) {
    forall i, j :: 0 <= i < j < |points| ==> points[i].day < points[j].day
  }

  lemma {:induction false} ChunkedRises(points: seq<Point>, size: nat)
    requires size > 0 && Rising(points)
    ensures Rising(Chunked(points, size))
    ensures forall i :: 0 <= i < |Chunked(points, size)| ==> points != [] && Chunked(points, size)[i].day >= points[0].day
    decreases |points|
  {
    if |points| > size {
      ChunkedRises(points[size..], size);
    }
  }

  lemma {:induction false} ChunkedKeepsTheLow(points: seq<Point>, size: nat)
    requires size > 0 && points != []
    ensures Chunked(points, size) != [] && LowestOf(Chunked(points, size)) == LowestOf(points)
    decreases |points|
  {
    if |points| > size {
      var head, tail := points[..size], points[size..];
      ChunkedKeepsTheLow(tail, size);
      var first := Point(points[0].day, LowestOf(head));
      assert Chunked(points, size)[1..] == Chunked(tail, size);
      LowestOfParts(points, size);
    }
  }

  lemma LowestOfParts(points: seq<Point>, k: nat)
    requires 0 < k < |points|
    ensures LowestOf(points) == (if LowestOf(points[..k]) <= LowestOf(points[k..]) then LowestOf(points[..k]) else LowestOf(points[k..]))
  {
    assert forall i :: 0 <= i < k ==> points[..k][i] == points[i];
    assert forall i :: k <= i < |points| ==> points[k..][i - k] == points[i];
    var i :| 0 <= i < |points| && points[i].price == LowestOf(points);
    var h :| 0 <= h < k && points[..k][h].price == LowestOf(points[..k]);
    var t :| 0 <= t < |points| - k && points[k..][t].price == LowestOf(points[k..]);
    assert points[h].price >= LowestOf(points) && points[k + t].price >= LowestOf(points);
    if i < k {
      assert points[..k][i].price >= LowestOf(points[..k]);
    } else {
      assert points[k..][i - k].price >= LowestOf(points[k..]);
    }
  }

  // ---------------------------------------------------------------------------------------------
  // The whole chart

  /** A chart of these rows: its points are the only ones they can give. */
  ghost predicate IsChart(rows: set<Row>, chart: seq<Point>)
    requires DistinctIds(rows)
  {
    SelectedIsDistinct(rows);
    exists daily :: IsDaily(Kept(Selected(rows)), daily) && chart == Downsample(daily, MAX_POINTS)
  }

  lemma SelectedIsDistinct(rows: set<Row>)
    requires DistinctIds(rows)
    ensures DistinctIds(Selected(rows))
  {
  }

  /** The chart depends on the rows alone, not on the order the database returned them in. */
  lemma ChartIsUnique(rows: set<Row>, p: seq<Point>, q: seq<Point>)
    requires DistinctIds(rows) && IsChart(rows, p) && IsChart(rows, q)
    ensures p == q
  {
    SelectedIsDistinct(rows);
    var kept := Kept(Selected(rows));
    var a :| IsDaily(kept, a) && p == Downsample(a, MAX_POINTS);
    var b :| IsDaily(kept, b) && q == Downsample(b, MAX_POINTS);
    DailyIsUnique(kept, a, b);
  }

  lemma DownsampleShape(points: seq<Point>, maxPoints: nat)
    requires maxPoints > 0 && Rising(points)
    ensures var s := Downsample(points, maxPoints);
            && |s| <= maxPoints && Rising(s) && (s == [] <==> points == [])
            && (points != [] ==> LowestOf(s) == LowestOf(points))
  {
    if |points| > maxPoints {
      var size := CeilDiv(|points|, maxPoints);
      ChunksFit(|points|, maxPoints);
      ChunkedCount(points, size);
      ChunkedRises(points, size);
      ChunkedKeepsTheLow(points, size);
    }
  }

  lemma DailyLowIsTheLow(rows: set<Row>, points: seq<Point>)
    requires IsDaily(rows, points) && rows != {}
    ensures points != []
    ensures (exists r :: r in rows && r.price == LowestOf(points)) && forall r :: r in rows ==> LowestOf(points) <= r.price
  {
    var some :| some in rows;
    assert HasDay(points, some.day);
    var i :| 0 <= i < |points| && points[i].price == LowestOf(points);
    assert points[i] in points && IsLowest(rows, points[i].day, points[i].price);
    forall r | r in rows ensures LowestOf(points) <= r.price {
      assert HasDay(points, r.day);
      var j :| 0 <= j < |points| && points[j].day == r.day;
      assert points[j] in points && IsLowest(rows, points[j].day, points[j].price);
    }
  }

  /** At most thirty points, days strictly increasing; and the chart's lowest price is the lowest that
      posting dedupe and the outlier cut leave. Any rows at all give at least one point. */
  lemma ChartShape(rows: set<Row>, chart: seq<Point>)
    requires DistinctIds(rows) && IsChart(rows, chart) && rows != {} && forall r :: r in rows ==> r.price >= 0
    ensures 0 < |chart| <= 30 && Rising(chart)
    ensures DistinctIds(Selected(rows))
    ensures var kept := Kept(Selected(rows));
            (exists r :: r in kept && r.price == LowestOf(chart)) && forall r :: r in kept ==> LowestOf(chart) <= r.price
  {
    SelectedIsDistinct(rows);
    SelectedIsNotEmpty(rows);
    CutLeavesSomething(Selected(rows));
    var kept := Kept(Selected(rows));
    var daily :| IsDaily(kept, daily) && chart == Downsample(daily, MAX_POINTS);
    DailyLowIsTheLow(kept, daily);
    DownsampleShape(daily, MAX_POINTS);
  }

  lemma SelectedIsNotEmpty(rows: set<Row>)
    requires DistinctIds(rows) && rows != {}
    ensures Selected(rows) != {}
  {
    SelectedIsOnePerPosting(rows);
    var some :| some in rows;
    var best :| best in Selected(rows) && best.posting == some.posting;
  }

  method SparklineOf(rows: seq<Row>) returns (chart: seq<Point>)
    requires DistinctIds(RowsOf(rows))
    ensures IsChart(RowsOf(rows), chart)
  {
    var selected := SelectPostings(rows);
    SelectedIsDistinct(RowsOf(rows));
    var daily := DailyLowest(Kept(selected));
    chart := Downsample(daily, MAX_POINTS);
  }
}
