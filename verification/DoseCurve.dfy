/** The measured dose curve (src/glowforge_laser.c): the commanded light fraction
    through the inverse of a piecewise-linear density-to-light map. Over the reals:
    float rounding is not modelled. */
module DoseCurve {

  const MAX_POINTS := 12
  const PWM_PERIOD := 127

  datatype Curve = Curve(density: seq<real>, light: seq<real>)

  ghost predicate Increasing(xs: seq<real>) {
    forall i, j :: 0 <= i < j < |xs| ==> xs[i] < xs[j]
  }

  /** The identity (no points), or a curve the parser accepts: both sequences
      strictly increasing inside 0..100, the first light above zero. */
  ghost predicate WellFormed(c: Curve) {
    && |c.density| == |c.light| && 2 <= |c.density| <= MAX_POINTS
    && Increasing(c.density) && Increasing(c.light) && c.light[0] > 0.0
    && (forall i :: 0 <= i < |c.density| ==> InPercent(c.density[i]) && InPercent(c.light[i]))
  }

  predicate InPercent(x: real) { 0.0 <= x <= 100.0 }

  // ---- parsing ----

  /** What the C library's number scan makes of a text from an index on: a number and
      where it ends, or none. The scan itself is given. */
  datatype Number = None | Some(value: real, end: nat)

  type Scanner = (string, nat) -> Number

  /** A number found ends behind where it began, inside the text. */
  function Scan(scan: Scanner, text: string, p: nat): (n: Number)
    ensures n.Some? ==> p < n.end <= |text|
  {
    var n := scan(text, p);
    if n.Some? && p < n.end <= |text| then n else None
  }

  /** One "density:light" item of the text, or anything that does not scan as one. */
  datatype Item = Pair(d: real, l: real) | Malformed

  /** The item at p, and where the text goes on: behind the comma, if there is one. */
  function ItemAt(scan: Scanner, text: string, p: nat): (r: (Item, nat))
    requires p < |text|
    ensures r.0.Pair? ==> p < r.1 <= |text|
  {
    var d := Scan(scan, text, p);
    if d.None? || d.end == |text| || text[d.end] != ':' then (Malformed, p)
    else
      var l := Scan(scan, text, d.end + 1);
      if l.None? then (Malformed, p)
      else (Pair(d.value, l.value), if l.end < |text| && text[l.end] == ',' then l.end + 1 else l.end)
  }

  /** The text as its items, up to the first that does not scan. */
  function Items(scan: Scanner, text: string, p: nat): seq<Item>
    requires p <= |text|
    decreases |text| - p
  {
    if p == |text| then []
    else
      var (item, next) := ItemAt(scan, text, p);
      if item.Malformed? then [item] else [item] + Items(scan, text, next)
  }

  /** The text from p on spells these pairs: a number, a colon, a number, and a comma where
      there is one, again and again to the end. */
  ghost predicate Spells(scan: Scanner, text: string, p: nat, items: seq<Item>)
    requires p <= |text|
    decreases |items|
  {
    if items == [] then p == |text|
    else
      && items[0].Pair?
      && exists colon, end, next :: SpellsOne(scan, text, p, items[0].d, items[0].l, colon, end, next)
                                    && Spells(scan, text, next, items[1..])
  }

  predicate SpellsOne(scan: Scanner, text: string, p: nat, d: real, l: real, colon: nat, end: nat, next: nat) {
    && p < colon < |text| && text[colon] == ':' && colon + 1 < end <= next <= |text|
    && scan(text, p) == Some(d, colon) && scan(text, colon + 1) == Some(l, end)
    && next == if end < |text| && text[end] == ',' then end + 1 else end
  }

  /** A text's items are all pairs exactly when it spells them. */
  lemma {:induction false} ItemsSpelled(scan: Scanner, text: string, p: nat, items: seq<Item>)
    requires p <= |text|
    ensures Spells(scan, text, p, items) <==> Items(scan, text, p) == items && AllPairs(items)
    decreases |items|
  {
    if items != [] && p < |text| {
      var (item, next) := ItemAt(scan, text, p);
      if item.Pair? {
        ItemIs(scan, text, p, item.d, item.l);
        ItemsSpelled(scan, text, next, items[1..]);
        assert items == [items[0]] + items[1..];
        assert Items(scan, text, p) == [item] + Items(scan, text, next);
        hide Items, ItemAt;
        if Spells(scan, text, p, items) {
          var colon, end, n :| SpellsOne(scan, text, p, items[0].d, items[0].l, colon, end, n)
                               && Spells(scan, text, n, items[1..]);
          OneSpelling(scan, text, p, item, next, items[0].d, items[0].l, colon, end, n);
        }
        if Items(scan, text, p) == items && AllPairs(items) {
          assert AllPairs(items[1..]);
          assert Spells(scan, text, next, items[1..]);
        }
      } else {
        NoSpelling(scan, text, p);
      }
    }
  }

  lemma ItemIs(scan: Scanner, text: string, p: nat, d: real, l: real)
    requires p < |text| && ItemAt(scan, text, p).0 == Pair(d, l)
    ensures exists colon, end :: SpellsOne(scan, text, p, d, l, colon, end, ItemAt(scan, text, p).1)
  {
    var a := Scan(scan, text, p);
    var b := Scan(scan, text, a.end + 1);
    assert SpellsOne(scan, text, p, d, l, a.end, b.end, ItemAt(scan, text, p).1);
  }

  lemma OneSpelling(scan: Scanner, text: string, p: nat, item: Item, next: nat, d: real, l: real, colon: nat, end: nat, n: nat)
    requires p < |text| && ItemAt(scan, text, p) == (item, next) && SpellsOne(scan, text, p, d, l, colon, end, n)
    ensures item == Pair(d, l) && n == next
  {
  }

  lemma NoSpelling(scan: Scanner, text: string, p: nat)
    requires p < |text| && ItemAt(scan, text, p).0.Malformed?
    ensures forall d, l, colon, end, next :: !SpellsOne(scan, text, p, d, l, colon, end, next)
  {
  }

  ghost predicate AllPairs(items: seq<Item>) { forall i :: 0 <= i < |items| ==> items[i].Pair? }

  /** The points the items list. */
  function Points(items: seq<Item>): (c: Curve)
    ensures |c.density| == |c.light| == |items|
  {
    Curve(seq(|items|, i requires 0 <= i < |items| => if items[i].Pair? then items[i].d else 0.0),
          seq(|items|, i requires 0 <= i < |items| => if items[i].Pair? then items[i].l else 0.0))
  }

  /** Point k is one the parser takes behind the ones before it. */
  predicate PointOk(c: Curve, k: nat)
    requires k < |c.density| == |c.light|
  {
    && InPercent(c.density[k]) && InPercent(c.light[k]) && (k == 0 ==> c.light[0] > 0.0)
    && (k > 0 ==> c.density[k - 1] < c.density[k] && c.light[k - 1] < c.light[k])
  }

  /** Neighbours in order are all in order. */
  lemma {:induction false} NeighboursIncrease(xs: seq<real>, i: nat, j: nat)
    requires i < j < |xs| && forall k :: 0 < k < |xs| ==> xs[k - 1] < xs[k]
    ensures xs[i] < xs[j]
  {
    if i + 1 < j { NeighboursIncrease(xs, i, j - 1); }
    assert xs[j - 1] < xs[j];
  }

  /** A curve is well formed exactly when each of its points was taken. */
  lemma PointByPoint(c: Curve)
    requires |c.density| == |c.light|
    ensures WellFormed(c) <==> 2 <= |c.density| <= MAX_POINTS && forall k :: 0 <= k < |c.density| ==> PointOk(c, k)
  {
    if forall k :: 0 <= k < |c.density| ==> PointOk(c, k) {
      forall k | 0 < k < |c.density|
        ensures c.density[k - 1] < c.density[k] && c.light[k - 1] < c.light[k]
      {
        assert PointOk(c, k);
      }
      forall i, j | 0 <= i < j < |c.density|
        ensures c.density[i] < c.density[j] && c.light[i] < c.light[j]
      {
        NeighboursIncrease(c.density, i, j);
        NeighboursIncrease(c.light, i, j);
      }
      forall i | 0 <= i < |c.density|
        ensures InPercent(c.density[i]) && InPercent(c.light[i])
      {
        assert PointOk(c, i);
      }
      assert |c.density| == 0 || PointOk(c, 0);
    }
  }

  /** The item at n is refused behind the points before it. */
  predicate Refused(item: Item, density: seq<real>, light: seq<real>)
    requires |density| == |light|
  {
    var n := |density|;
    item.Malformed? || !(InPercent(item.d) && InPercent(item.l)) || (n == 0 && item.l <= 0.0)
    || (n > 0 && !(item.d > density[n - 1] && item.l > light[n - 1]))
  }

  lemma RefusedAt(items: seq<Item>, n: nat)
    requires n < |items|
    ensures var c := Points(items);
            Refused(items[n], c.density[..n], c.light[..n]) <==> !(items[n].Pair? && PointOk(c, n))
  {
  }

  /** What the parser is to accept. */
  ghost predicate Acceptable(items: seq<Item>) { AllPairs(items) && WellFormed(Points(items)) }

  ghost predicate Took(items: seq<Item>, k: nat)
    requires k < |items|
  {
    items[k].Pair? && PointOk(Points(items), k)
  }

  lemma ItemByItem(items: seq<Item>)
    ensures Acceptable(items) <==> 2 <= |items| <= MAX_POINTS && forall k :: 0 <= k < |items| ==> Took(items, k)
  {
    PointByPoint(Points(items));
    hide WellFormed, PointOk;
    if forall k :: 0 <= k < |items| ==> Took(items, k) {
      forall k | 0 <= k < |items|
        ensures items[k].Pair? && PointOk(Points(items), k)
      {
        assert Took(items, k);
      }
    }
  }

  /** The point an item adds. */
  lemma TookAt(items: seq<Item>, n: nat, density: seq<real>, light: seq<real>)
    requires n < |items| && density == Points(items).density[..n] && light == Points(items).light[..n]
    ensures Refused(items[n], density, light) <==> !Took(items, n)
    ensures Refused(items[n], density, light) || items[n].Pair?
    ensures items[n].Pair? ==> density + [items[n].d] == Points(items).density[..n + 1]
                               && light + [items[n].l] == Points(items).light[..n + 1]
  {
    RefusedAt(items, n);
  }

  /** One more item of the text: the items so far, then the rest. */
  lemma ItemsStep(scan: Scanner, text: string, p: nat, before: seq<Item>)
    requires p < |text|
    ensures var (item, next) := ItemAt(scan, text, p);
            var all := before + Items(scan, text, p);
            && |before| < |all| && all[|before|] == item
            && (item.Pair? ==> all == (before + [item]) + Items(scan, text, next))
  {
    var (item, next) := ItemAt(scan, text, p);
    if item.Pair? { assert before + ([item] + Items(scan, text, next)) == (before + [item]) + Items(scan, text, next); }
  }

  /** The first n items taken, and rest behind them. */
  ghost predicate TookFirst(items: seq<Item>, n: nat, rest: seq<Item>) {
    && n <= |items| && items == items[..n] + rest
    && forall k :: 0 <= k < n ==> Took(items, k)
  }

  /** The points of the first n items. */
  ghost predicate FirstPoints(items: seq<Item>, n: nat, density: seq<real>, light: seq<real>) {
    n <= |items| && density == Points(items).density[..n] && light == Points(items).light[..n]
  }

  /** Up to p the text is n pairs the parser took, and these are their points. */
  ghost predicate Filled(scan: Scanner, text: string, p: nat, density: seq<real>, light: seq<real>)
    requires p <= |text|
  {
    var n, items := |density|, Items(scan, text, 0);
    |light| == n <= MAX_POINTS && TookFirst(items, n, Items(scan, text, p)) && FirstPoints(items, n, density, light)
  }

  lemma NoneFilled(scan: Scanner, text: string)
    ensures Filled(scan, text, 0, [], [])
  {
    hide Items, Points;
    var items := Items(scan, text, 0);
    assert items == items[..0] + items;
  }

  /** The next item of the text is the next of its items. */
  lemma NextItem(scan: Scanner, text: string, p: nat, items: seq<Item>, n: nat)
    requires p < |text| && TookFirst(items, n, Items(scan, text, p))
    ensures var (item, next) := ItemAt(scan, text, p);
            && n < |items| && items[n] == item
            && (item.Pair? && Took(items, n) ==> TookFirst(items, n + 1, Items(scan, text, next)))
  {
    hide Items, ItemAt, Took;
    ItemsStep(scan, text, p, items[..n]);
    assert n < |items| ==> items[..n] + [items[n]] == items[..n + 1];
  }

  /** An item refused refuses the text; one taken is the next point. */
  lemma NextPoint(items: seq<Item>, n: nat, density: seq<real>, light: seq<real>)
    requires n < |items| && FirstPoints(items, n, density, light)
    ensures if Refused(items[n], density, light) then !Acceptable(items)
            else
              && items[n].Pair? && Took(items, n)
              && FirstPoints(items, n + 1, density + [items[n].d], light + [items[n].l])
  {
    hide Points, Took, Refused, Acceptable;
    TookAt(items, n, density, light);
    ItemByItem(items);
  }

  /** One item more, or the text refused. */
  lemma FillsOn(scan: Scanner, text: string, p: nat, density: seq<real>, light: seq<real>)
    requires p < |text| && |density| == |light| < MAX_POINTS && Filled(scan, text, p, density, light)
    ensures var (item, next) := ItemAt(scan, text, p);
            if Refused(item, density, light) then !Acceptable(Items(scan, text, 0))
            else item.Pair? && Filled(scan, text, next, density + [item.d], light + [item.l])
  {
    hide Items, ItemAt, Points, Took, TookFirst, FirstPoints, Refused, Acceptable;
    var n, items := |density|, Items(scan, text, 0);
    NextItem(scan, text, p, items, n);
    NextPoint(items, n, density, light);
  }

  /** At the end: all of it, or too much or too little. */
  lemma FilledEnd(scan: Scanner, text: string, p: nat, density: seq<real>, light: seq<real>)
    requires p <= |text| && |density| == |light| && Filled(scan, text, p, density, light)
    requires p == |text| || |density| == MAX_POINTS
    ensures Acceptable(Items(scan, text, 0)) <==> p == |text| && |density| >= 2
    ensures p == |text| ==> Curve(density, light) == Points(Items(scan, text, 0))
  {
    var items := Items(scan, text, 0);
    ItemsEnd(scan, text, p);
    ItemByItem(items);
    hide Items, Points, Took, Acceptable;
    if p == |text| {
      assert items == items[..|density|];
    } else {
      assert |items| > |density|;
    }
  }

  /** The text parsed: the points filled one by one, a violation refusing it whole. It is
      accepted exactly when it is nothing but pairs, and they make a curve. */
  method CurveParse(scan: Scanner, text: string, was: Curve) returns (ok: bool, c: Curve)
    ensures ok <==> Acceptable(Items(scan, text, 0))
    ensures c == if ok then Points(Items(scan, text, 0)) else was
  {
    var density, light := [], [];
    var p := 0;
    NoneFilled(scan, text);
    hide Filled, Acceptable, Points, Refused, Items;
    while p < |text| && |density| < MAX_POINTS
      invariant p <= |text| && |density| == |light| <= MAX_POINTS && Filled(scan, text, p, density, light)
      decreases |text| - p
    {
      FillsOn(scan, text, p, density, light);
      var (item, next) := ItemAt(scan, text, p);
      if Refused(item, density, light) { return false, was; }
      density, light, p := density + [item.d], light + [item.l], next;
    }
    FilledEnd(scan, text, p, density, light);
    if p < |text| || |density| < 2 { return false, was; }
    return true, Curve(density, light);
  }

  lemma ItemsEnd(scan: Scanner, text: string, p: nat)
    requires p <= |text|
    ensures Items(scan, text, p) == [] <==> p == |text|
  {
  }

  // ---- interpolation ----

  /** The segment the search finds: the first whose end is not below x, from i on,
      or the last. */
  function Segment(xs: seq<real>, x: real, i: nat): (k: nat)
    requires 1 <= i <= |xs| - 1
    ensures i <= k <= |xs| - 1 && (k == |xs| - 1 || x <= xs[k])
    ensures forall j :: i <= j < k ==> xs[j] < x
    decreases |xs| - i
  {
    if i < |xs| - 1 && x > xs[i] then Segment(xs, x, i + 1) else i
  }

  /** A quotient and a product, each used through its lemmas only. */
  function Ratio(a: real, b: real): real
    requires b > 0.0
  {
    a / b
  }

  function Scale(f: real, s: real): real { f * s }

  lemma RatioTimes(a: real, b: real)
    requires b > 0.0
    ensures Scale(Ratio(a, b), b) == a
  {
  }

  lemma ScaleOrder(p: real, q: real, s: real)
    requires s >= 0.0
    ensures p <= q ==> Scale(p, s) <= Scale(q, s)
    ensures s > 0.0 && Scale(p, s) <= Scale(q, s) ==> p <= q
  {
    var d := q - p;
    assert d * s == Scale(q, s) - Scale(p, s);
    if s > 0.0 { ProductSign(d, s); }
  }

  lemma ScaleUnit(s: real)
    ensures Scale(0.0, s) == 0.0 && Scale(1.0, s) == s
  {
  }

  lemma ProductSign(q: real, b: real)
    requires b > 0.0
    ensures (q < 0.0 <==> q * b < 0.0) && (q > 0.0 <==> q * b > 0.0)
  {
  }

  /** Quotients by the same divisor are in the order of what they divide. */
  lemma RatioOrder(a: real, b: real, w: real)
    requires w > 0.0
    ensures a <= b <==> Ratio(a, w) <= Ratio(b, w)
  {
    hide Ratio, Scale;
    RatioTimes(a, w);
    RatioTimes(b, w);
    ScaleOrder(Ratio(a, w), Ratio(b, w), w);
  }

  lemma RatioUnit(w: real)
    requires w > 0.0
    ensures Ratio(0.0, w) == 0.0 && Ratio(w, w) == 1.0
  {
  }

  function Along(x: real, x0: real, x1: real, y0: real, y1: real): real
    requires x0 < x1
  {
    y0 + Scale(Ratio(x - x0, x1 - x0), y1 - y0)
  }

  /** Piecewise linear through the points, clamped at the last. */
  function Interp(xs: seq<real>, ys: seq<real>, x: real): real
    requires |xs| == |ys| >= 2 && Increasing(xs)
  {
    var i := Segment(xs, x, 1);
    Along(if x > xs[i] then xs[i] else x, xs[i - 1], xs[i], ys[i - 1], ys[i])
  }

  lemma AlongMonotone(a: real, b: real, x0: real, x1: real, y0: real, y1: real)
    requires x0 < x1 && y0 < y1
    ensures a <= b <==> Along(a, x0, x1, y0, y1) <= Along(b, x0, x1, y0, y1)
  {
    hide Ratio, Scale;
    RatioOrder(a - x0, b - x0, x1 - x0);
    ScaleOrder(Ratio(a - x0, x1 - x0), Ratio(b - x0, x1 - x0), y1 - y0);
  }

  lemma AlongEnds(x0: real, x1: real, y0: real, y1: real)
    requires x0 < x1
    ensures Along(x0, x0, x1, y0, y1) == y0 && Along(x1, x0, x1, y0, y1) == y1
  {
    hide Ratio, Scale;
    RatioUnit(x1 - x0);
    ScaleUnit(y1 - y0);
  }

  /** Inside its segment the interpolation stays inside, strictly so behind its
      start. */
  lemma AlongBounds(x: real, x0: real, x1: real, y0: real, y1: real)
    requires x0 <= x <= x1 && x0 < x1 && y0 < y1
    ensures y0 <= Along(x, x0, x1, y0, y1) <= y1
    ensures x0 < x ==> y0 < Along(x, x0, x1, y0, y1)
    ensures x == x0 ==> Along(x, x0, x1, y0, y1) == y0
  {
    hide Along;
    AlongEnds(x0, x1, y0, y1);
    AlongMonotone(x0, x, x0, x1, y0, y1);
    AlongMonotone(x, x1, x0, x1, y0, y1);
    AlongMonotone(x, x0, x0, x1, y0, y1);
  }

  lemma AlongInverse(x: real, x0: real, x1: real, y0: real, y1: real)
    requires x0 < x1 && y0 < y1
    ensures Along(Along(x, x0, x1, y0, y1), y0, y1, x0, x1) == x
  {
    hide Ratio, Scale;
    var w, h := x1 - x0, y1 - y0;
    var f := Ratio(x - x0, w);
    var y := y0 + Scale(f, h);
    RatioTimes(x - x0, w);
    RatioTimes(y - y0, h);
    ScaleOrder(Ratio(y - y0, h), f, h);
    ScaleOrder(f, Ratio(y - y0, h), h);
  }

  /** Where a point of the curve's range lies in its segment. */
  lemma SegmentHolds(xs: seq<real>, x: real)
    requires |xs| >= 2 && Increasing(xs) && xs[0] <= x <= xs[|xs| - 1]
    ensures var i := Segment(xs, x, 1);
            xs[i - 1] <= x <= xs[i] && (xs[i - 1] == x ==> i == 1 && x == xs[0])
  {
  }

  lemma SegmentIs(xs: seq<real>, x: real, k: nat)
    requires |xs| >= 2 && Increasing(xs) && 1 <= k <= |xs| - 1
    requires (xs[k - 1] < x || k == 1) && x <= xs[k]
    ensures Segment(xs, x, 1) == k
  {
    var i := Segment(xs, x, 1);
    assert forall a, b :: 0 <= a < b < |xs| ==> xs[a] < xs[b];
  }

  /** Interpolating there and back is the identity between the ends. */
  lemma InterpInverse(xs: seq<real>, ys: seq<real>, x: real)
    requires |xs| == |ys| >= 2 && Increasing(xs) && Increasing(ys)
    requires xs[0] <= x <= xs[|xs| - 1]
    ensures ys[0] <= Interp(xs, ys, x) <= ys[|ys| - 1]
    ensures Interp(ys, xs, Interp(xs, ys, x)) == x
  {
    var i := Segment(xs, x, 1);
    SegmentHolds(xs, x);
    AlongBounds(x, xs[i - 1], xs[i], ys[i - 1], ys[i]);
    var y := Interp(xs, ys, x);
    assert y == Along(x, xs[i - 1], xs[i], ys[i - 1], ys[i]);
    assert ys[0] <= ys[i - 1] && ys[i] <= ys[|ys| - 1];
    SegmentIs(ys, y, i);
    AlongInverse(x, xs[i - 1], xs[i], ys[i - 1], ys[i]);
  }

  lemma InterpMonotone(xs: seq<real>, ys: seq<real>, a: real, b: real)
    requires |xs| == |ys| >= 2 && Increasing(xs) && Increasing(ys)
    requires xs[0] <= a <= b
    ensures ys[0] <= Interp(xs, ys, a) <= Interp(xs, ys, b) <= ys[|ys| - 1]
  {
    var n := |xs| - 1;
    var i, j := Segment(xs, a, 1), Segment(xs, b, 1);
    var a', b' := if a > xs[i] then xs[i] else a, if b > xs[j] then xs[j] else b;
    InterpWithin(xs, ys, a);
    InterpWithin(xs, ys, b);
    assert i <= j;
    if i == j {
      AlongMonotone(a', b', xs[i - 1], xs[i], ys[i - 1], ys[i]);
    } else {
      assert ys[i] <= ys[j - 1];
    }
  }

  lemma InterpWithin(xs: seq<real>, ys: seq<real>, x: real)
    requires |xs| == |ys| >= 2 && Increasing(xs) && Increasing(ys) && xs[0] <= x
    ensures var i := Segment(xs, x, 1);
            ys[0] <= ys[i - 1] <= Interp(xs, ys, x) <= ys[i] <= ys[|ys| - 1]
  {
    var i := Segment(xs, x, 1);
    AlongBounds(if x > xs[i] then xs[i] else x, xs[i - 1], xs[i], ys[i - 1], ys[i]);
  }

  // ---- the curve in force ----

  /** The measured map: the light a density delivers, in percent. */
  function Light(c: Curve, density: real): real
    requires |c.density| == |c.light| >= 2 && Increasing(c.density)
  {
    Interp(c.density, c.light, density)
  }

  /** Light fraction to density fraction: below the first point a line through the
      origin, then the inverse of the map, clamped at the last point. */
  function Apply(c: Curve, light: real): real
    requires WellFormed(c)
  {
    var l := light * 100.0;
    if l <= c.light[0] then Scale(Ratio(l, c.light[0]), c.density[0]) / 100.0
    else Interp(c.light, c.density, l) / 100.0
  }

  /** The segment by the program's search. */
  method FindSegment(xs: seq<real>, x: real) returns (i: nat)
    requires |xs| >= 2
    ensures 1 <= i <= |xs| - 1 && i == Segment(xs, x, 1)
  {
    i := 1;
    while i < |xs| - 1 && x > xs[i]
      invariant 1 <= i <= |xs| - 1 && Segment(xs, x, i) == Segment(xs, x, 1)
    {
      i := i + 1;
    }
  }

  /** The same by the program's index search. */
  method CurveApply(c: Curve, light: real) returns (density: real)
    requires c.density == c.light == [] || WellFormed(c)
    ensures density == if c.density == [] then light else Apply(c, light)
  {
    hide Ratio, Scale;
    if |c.density| == 0 { return light; }
    var l := light * 100.0;
    if l <= c.light[0] { return Scale(Ratio(l, c.light[0]), c.density[0]) / 100.0; }
    var i := FindSegment(c.light, l);
    var span := c.light[i] - c.light[i - 1];
    var f := if span > 0.0 then Ratio(l - c.light[i - 1], span) else 0.0;
    if f > 1.0 { f := 1.0; }
    ClampedAlong(l, c.light[i - 1], c.light[i], c.density[i - 1], c.density[i], f);
    density := (c.density[i - 1] + Scale(f, c.density[i] - c.density[i - 1])) / 100.0;
  }

  /** Clamping the fraction is clamping the point. */
  lemma ClampedAlong(x: real, x0: real, x1: real, y0: real, y1: real, f: real)
    requires x0 < x1
    requires var g := Ratio(x - x0, x1 - x0); f == if g > 1.0 then 1.0 else g
    ensures Along(if x > x1 then x1 else x, x0, x1, y0, y1) == y0 + Scale(f, y1 - y0)
  {
    hide Ratio, Scale;
    RatioUnit(x1 - x0);
    RatioOrder(x - x0, x1 - x0, x1 - x0);
  }

  /** Between the first and the last point the curve is exactly inverted: the light
      asked for is the light delivered, and a density's light asks for that
      density. */
  lemma CurveInverts(c: Curve, light: real, density: real)
    requires WellFormed(c)
    ensures c.light[0] <= light * 100.0 <= c.light[|c.light| - 1] ==>
              Light(c, Apply(c, light) * 100.0) == light * 100.0
    ensures c.density[0] <= density <= c.density[|c.density| - 1] ==>
              Apply(c, Light(c, density) / 100.0) * 100.0 == density
  {
    hide Apply, Interp, Increasing;
    if c.light[0] <= light * 100.0 <= c.light[|c.light| - 1] {
      ApplyWithin(c, light);
      InterpInverse(c.light, c.density, light * 100.0);
    }
    if c.density[0] <= density <= c.density[|c.density| - 1] {
      InterpInverse(c.density, c.light, density);
      ApplyWithin(c, Light(c, density) / 100.0);
    }
  }

  /** From the first point on, applying is interpolating. */
  lemma ApplyWithin(c: Curve, light: real)
    requires WellFormed(c) && c.light[0] <= light * 100.0
    ensures Apply(c, light) * 100.0 == Interp(c.light, c.density, light * 100.0)
  {
    var l := light * 100.0;
    if l == c.light[0] {
      RatioUnit(l);
      ScaleUnit(c.density[0]);
      SegmentIs(c.light, l, 1);
      AlongBounds(l, c.light[0], c.light[1], c.density[0], c.density[1]);
    }
  }

  /** Nondecreasing everywhere. */
  lemma ApplyMonotone(c: Curve, a: real, b: real)
    requires WellFormed(c) && a <= b
    ensures Apply(c, a) <= Apply(c, b)
  {
    var x, y := a * 100.0, b * 100.0;
    var first := c.light[0];
    if y <= first {
      ApplyBelow(c, a, b);
    } else {
      InterpMonotone(c.light, c.density, first, y);
      ApplyWithin(c, b);
      if x <= first {
        ApplyBelow(c, a, first / 100.0);
        ApplyWithin(c, first / 100.0);
      } else {
        InterpMonotone(c.light, c.density, x, y);
        ApplyWithin(c, a);
      }
    }
  }

  lemma ApplyBelow(c: Curve, a: real, b: real)
    requires WellFormed(c) && a <= b && b * 100.0 <= c.light[0]
    ensures Apply(c, a) <= Apply(c, b)
  {
    hide Ratio, Scale, Interp;
    RatioOrder(a * 100.0, b * 100.0, c.light[0]);
    assert InPercent(c.density[0]);
    ScaleOrder(Ratio(a * 100.0, c.light[0]), Ratio(b * 100.0, c.light[0]), c.density[0]);
  }

  /** Outside the measured points: below the first the density is to the light as the
      first point's is to its own, nothing for nothing; from the last on it is the last
      point's. */
  lemma ApplyOutside(c: Curve, light: real)
    requires WellFormed(c)
    ensures light * 100.0 <= c.light[0] ==>
              Scale(Apply(c, light) * 100.0, c.light[0]) == Scale(light * 100.0, c.density[0])
    ensures Apply(c, 0.0) == 0.0
    ensures light * 100.0 >= c.light[|c.light| - 1] ==> Apply(c, light) * 100.0 == c.density[|c.density| - 1]
  {
    var l, n := light * 100.0, |c.light| - 1;
    RatioUnit(c.light[0]);
    ScaleUnit(c.density[0]);
    if l <= c.light[0] { ScaledBack(l, c.light[0], c.density[0]); }
    if l >= c.light[n] {
      ApplyWithin(c, light);
      SegmentLast(c.light, l);
      AlongEnds(c.light[n - 1], c.light[n], c.density[n - 1], c.density[n]);
    }
    hide Ratio, Scale;
  }

  lemma ScaledBack(l: real, first: real, density: real)
    requires first > 0.0
    ensures Scale(Scale(Ratio(l, first), density), first) == Scale(l, density)
  {
    RatioTimes(l, first);
    ScaleSwap(Ratio(l, first), density, first);
  }

  lemma ScaleSwap(a: real, b: real, c: real)
    ensures Scale(Scale(a, b), c) == Scale(Scale(a, c), b)
  {
  }

  /** The search ends at the last segment for anything past it. */
  lemma SegmentLast(xs: seq<real>, x: real)
    requires |xs| >= 2 && Increasing(xs) && x >= xs[|xs| - 1]
    ensures Segment(xs, x, 1) == |xs| - 1
  {
    assert forall j :: 0 <= j < |xs| - 1 ==> xs[j] < xs[|xs| - 1];
  }

  // ---- the value the stream is handed ----

  /** The spindle's speed range and the stream's value limits. */
  datatype Spindle = Spindle(rpmMin: real, rpmMax: real, minValue: int, maxValue: int)

  /** The light fraction a speed commands; bend is the corner rolloff's factor, a
      power of the rate ratio, 1 where no segment is prepared. */
  function Commanded(s: Spindle, rpm: real, bend: real): real
    requires s.rpmMax > s.rpmMin
  {
    var light := Ratio(rpm - s.rpmMin, s.rpmMax - s.rpmMin);
    Scale(if light > 1.0 then 1.0 else light, bend)
  }

  /** Rounded, ceiled, then floored. */
  function ComputeValue(c: Curve, s: Spindle, rpm: real, bend: real): int
    requires WellFormed(c) && s.rpmMax > s.rpmMin
  {
    var v := (Apply(c, Commanded(s, rpm, bend)) * PWM_PERIOD as real + 0.5).Floor;
    var ceiled := if v > s.maxValue then s.maxValue else v;
    if ceiled < s.minValue then s.minValue else ceiled
  }

  lemma CommandedMonotone(s: Spindle, a: real, b: real, bend: real)
    requires s.rpmMax > s.rpmMin && a <= b && bend > 0.0
    ensures Commanded(s, a, bend) <= Commanded(s, b, bend)
  {
    hide Ratio, Scale;
    var w := s.rpmMax - s.rpmMin;
    RatioOrder(a - s.rpmMin, b - s.rpmMin, w);
    var p, q := Ratio(a - s.rpmMin, w), Ratio(b - s.rpmMin, w);
    ScaleOrder(if p > 1.0 then 1.0 else p, if q > 1.0 then 1.0 else q, bend);
  }

  lemma FloorMonotone(a: real, b: real)
    requires a <= b
    ensures a.Floor <= b.Floor
  {
  }

  /** At a fixed rate ratio a faster spindle never gets a smaller value, and the value
      stays inside its limits. */
  lemma ComputeValueMonotone(c: Curve, s: Spindle, a: real, b: real, bend: real)
    requires WellFormed(c) && s.rpmMax > s.rpmMin && a <= b && bend > 0.0
    ensures ComputeValue(c, s, a, bend) <= ComputeValue(c, s, b, bend)
    ensures s.minValue <= s.maxValue ==> s.minValue <= ComputeValue(c, s, a, bend) <= s.maxValue
  {
    hide Apply, Commanded;
    CommandedMonotone(s, a, b, bend);
    var p, q := Apply(c, Commanded(s, a, bend)), Apply(c, Commanded(s, b, bend));
    ApplyMonotone(c, Commanded(s, a, bend), Commanded(s, b, bend));
    FloorMonotone(p * PWM_PERIOD as real + 0.5, q * PWM_PERIOD as real + 0.5);
  }

  /** The light is to the bend as the speed is to its range, and full from the top on. */
  lemma CommandedExactly(s: Spindle, rpm: real, bend: real)
    requires s.rpmMax > s.rpmMin
    ensures rpm <= s.rpmMax ==> Scale(Commanded(s, rpm, bend), s.rpmMax - s.rpmMin) == Scale(rpm - s.rpmMin, bend)
    ensures rpm >= s.rpmMax ==> Commanded(s, rpm, bend) == bend
  {
    var w := s.rpmMax - s.rpmMin;
    RatioUnit(w);
    RatioOrder(rpm - s.rpmMin, w, w);
    RatioOrder(w, rpm - s.rpmMin, w);
    ScaleUnit(bend);
    ScaledBack(rpm - s.rpmMin, w, bend);
    hide Ratio, Scale;
  }

  /** The value is the density in 127ths to the nearest whole number, wherever that lies
      inside the limits, and else the limit it passes. */
  lemma ComputeValueNearest(c: Curve, s: Spindle, rpm: real, bend: real)
    requires WellFormed(c) && s.rpmMax > s.rpmMin && s.minValue <= s.maxValue
    ensures var v := ComputeValue(c, s, rpm, bend);
            var exact := Apply(c, Commanded(s, rpm, bend)) * PWM_PERIOD as real;
            if exact + 0.5 < s.minValue as real then v == s.minValue
            else if exact + 0.5 >= s.maxValue as real + 1.0 then v == s.maxValue
            else v as real - 0.5 <= exact < v as real + 0.5
  {
    hide Apply, Commanded;
  }
}
