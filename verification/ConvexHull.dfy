/** The silhouette of a drawn object: Andrew's monotone chain, as
    web/scripts/make-objects.py runs it. Coordinates are whole hundredths. */
module ConvexHull {

  datatype Point = Point(x: int, y: int)

  /** Twice the signed area of the triangle: positive when o, a, b turn left. */
  function Cross(o: Point, a: Point, b: Point): int {
    (a.x - o.x) * (b.y - o.y) - (a.y - o.y) * (b.x - o.x)
  }

  predicate Less(a: Point, b: Point) {
    a.x < b.x || (a.x == b.x && a.y < b.y)
  }

  /** The order in which a half of the hull is walked: left to right or back. */
  predicate Before(up: bool, a: Point, b: Point) {
    if up then Less(a, b) else Less(b, a)
  }

  predicate Ordered(up: bool, s: seq<Point>) {
    forall i, j :: 0 <= i < j < |s| ==> Before(up, s[i], s[j])
  }

  // --- vectors ----------------------------------------------------------------

  function Minus(a: Point, b: Point): Point { Point(a.x - b.x, a.y - b.y) }

  function Det(u: Point, v: Point): int { u.x * v.y - u.y * v.x }

  /** A step forward in the walking order. */
  predicate Forward(up: bool, v: Point) { Before(up, Point(0, 0), v) }

  /** Among forward vectors, "turns left of" is transitive; strict if either half is. */
  lemma TurnsCompose(up: bool, u: Point, v: Point, w: Point)
    requires Forward(up, u) && Forward(up, v) && Forward(up, w)
    requires Det(u, v) >= 0 && Det(v, w) >= 0
    ensures Det(u, w) >= 0
    ensures Det(u, v) > 0 || Det(v, w) > 0 ==> Det(u, w) > 0
  {
    if up {
      TurnsComposeRight(u, v, w);
    } else {
      TurnsComposeRight(Point(-u.x, -u.y), Point(-v.x, -v.y), Point(-w.x, -w.y));
    }
  }

  lemma TurnsComposeRight(u: Point, v: Point, w: Point)
    requires Forward(true, u) && Forward(true, v) && Forward(true, w)
    requires Det(u, v) >= 0 && Det(v, w) >= 0
    ensures Det(u, w) >= 0
    ensures Det(u, v) > 0 || Det(v, w) > 0 ==> Det(u, w) > 0
  {
    if v.x == 0 {
      assert Det(v, w) == -(v.y * w.x);
      if w.x > 0 { Positive(v.y, w.x); }
      assert w.x == 0;
      assert Det(u, v) == u.x * v.y;
      assert Det(u, w) == u.x * w.y;
      if u.x > 0 { Positive(u.x, w.y); }
    } else if u.x == 0 {
      assert Det(u, v) == -(u.y * v.x);
      Positive(u.y, v.x);
      assert false;
    } else if w.x == 0 {
      assert Det(u, w) == u.x * w.y;
      Positive(u.x, w.y);
    } else {
      // The three-vector identity, read in its first coordinate.
      assert Det(u, w) * v.x == Det(u, v) * w.x + Det(v, w) * u.x;
      NotNegative(Det(u, v), w.x);
      NotNegative(Det(v, w), u.x);
      if Det(u, v) > 0 { Positive(Det(u, v), w.x); }
      if Det(v, w) > 0 { Positive(Det(v, w), u.x); }
      SignOfFactor(Det(u, w), v.x);
    }
  }

  lemma Positive(a: int, b: int)
    requires a > 0 && b > 0
    ensures a * b > 0
  {}

  lemma NotNegative(a: int, b: int)
    requires a >= 0 && b >= 0
    ensures a * b >= 0
  {}

  lemma SignOfFactor(a: int, b: int)
    requires b > 0
    ensures a * b >= 0 ==> a >= 0
    ensures a * b > 0 ==> a > 0
  {
    if a <= -1 { assert (-a) * b > 0 by { Positive(-a, b); } }
  }

  lemma NoTurn(a: Point, b: Point)
    ensures Cross(a, b, a) == 0 && Cross(a, b, b) == 0
  {}

  lemma TurnsBack(a: Point, b: Point, c: Point)
    ensures Cross(a, b, c) == -Cross(c, b, a)
  {}

  // --- the four geometric steps -------------------------------------------------

  /** Popping b: whatever lies beyond b and left of b-p lies left of a-p. */
  lemma PopBeyond(up: bool, a: Point, b: Point, q: Point, p: Point)
    requires Before(up, a, b) && (q == b || Before(up, b, q)) && Before(up, q, p)
    requires Cross(a, b, p) <= 0 && Cross(b, p, q) >= 0
    ensures Cross(a, p, q) >= 0
  {
    var ab, bp, qp := Minus(b, a), Minus(p, b), Minus(p, q);
    assert Cross(a, b, p) == -Det(bp, ab);
    assert Cross(b, p, q) == Det(qp, bp);
    TurnsCompose(up, qp, bp, ab);
    assert Cross(a, p, q) == Det(qp, ab) + Det(qp, bp);
  }

  /** Popping b: whatever lies between a and b and left of a-b lies left of a-p. */
  lemma PopBetween(up: bool, a: Point, b: Point, q: Point, p: Point)
    requires Before(up, a, b) && Before(up, b, p) && (q == a || Before(up, a, q))
    requires Cross(a, b, p) <= 0 && Cross(a, b, q) >= 0
    ensures Cross(a, p, q) >= 0
  {
    var ab, bp, aq := Minus(b, a), Minus(p, b), Minus(q, a);
    assert Cross(a, b, p) == -Det(bp, ab);
    assert Cross(a, b, q) == Det(ab, aq);
    if q != a {
      TurnsCompose(up, bp, ab, aq);
      assert Cross(a, p, q) == Det(ab, aq) + Det(bp, aq);
    }
  }

  /** Pushing p after a left turn at b: what lies behind b stays left of b-p. */
  lemma PushBehind(up: bool, a: Point, b: Point, q: Point, p: Point)
    requires Before(up, a, b) && Before(up, b, p) && (q == b || Before(up, q, b))
    requires Cross(a, b, p) > 0 && Cross(a, b, q) >= 0
    ensures Cross(b, p, q) >= 0
  {
    var ab, bp, qb := Minus(b, a), Minus(p, b), Minus(b, q);
    assert Cross(a, b, p) == Det(ab, bp);
    assert Cross(a, b, q) == Det(qb, ab);
    if q != b {
      TurnsCompose(up, qb, ab, bp);
      assert Cross(b, p, q) == Det(qb, bp);
    }
  }

  /** Left of one edge of a left-turning chain is left of the edge before it. */
  lemma PushEarlier(up: bool, u: Point, v: Point, w: Point, p: Point)
    requires Before(up, u, v) && Before(up, v, w) && Before(up, w, p)
    requires Cross(u, v, w) > 0 && Cross(v, w, p) > 0
    ensures Cross(u, v, p) > 0
  {
    var uv, vw, wp := Minus(v, u), Minus(w, v), Minus(p, w);
    assert Cross(u, v, w) == Det(uv, vw);
    assert Cross(v, w, p) == Det(vw, wp);
    TurnsCompose(up, uv, vw, wp);
    assert Cross(u, v, p) == Det(uv, vw) + Det(uv, wp);
  }

  // --- half a hull ----------------------------------------------------------------

  predicate TurnsLeftAt(c: seq<Point>, k: nat)
    requires k < |c| - 2
  {
    Cross(c[k], c[k + 1], c[k + 2]) > 0
  }

  predicate TurnsLeft(c: seq<Point>) {
    forall k :: 0 <= k < |c| - 2 ==> TurnsLeftAt(c, k)
  }

  predicate LeftOfEdge(c: seq<Point>, k: nat, q: Point)
    requires k < |c| - 1
  {
    Cross(c[k], c[k + 1], q) >= 0
  }

  /** Every point is on or left of every edge. */
  predicate LeftOfEdges(c: seq<Point>, pts: seq<Point>) {
    forall k, q :: 0 <= k < |c| - 1 && q in pts ==> LeftOfEdge(c, k, q)
  }

  predicate HalfHull(up: bool, c: seq<Point>, pts: seq<Point>) {
    && Ordered(up, c)
    && (forall p :: p in c ==> p in pts)
    && (pts != [] ==> c != [] && c[0] == pts[0] && c[|c| - 1] == pts[|pts| - 1])
    && TurnsLeft(c)
    && LeftOfEdges(c, pts)
  }

  /** p, beyond the whole chain and left of its last edge, is left of them all. */
  lemma {:induction false} LeftOfAll(up: bool, c: seq<Point>, p: Point, k: nat)
    requires Ordered(up, c + [p]) && TurnsLeft(c) && k + 1 < |c|
    requires Cross(c[|c| - 2], c[|c| - 1], p) > 0
    ensures Cross(c[k], c[k + 1], p) > 0
    decreases |c| - k
  {
    if k + 2 < |c| {
      LeftOfAll(up, c, p, k + 1);
      var e := c + [p];
      assert e[k] == c[k] && e[k + 1] == c[k + 1] && e[k + 2] == c[k + 2] && e[|c|] == p;
      assert TurnsLeftAt(c, k);
      hide Cross;
      PushEarlier(up, c[k], c[k + 1], c[k + 2], p);
    }
  }

  /** What the inner loop keeps: a left-turning chain from the first point. */
  predicate Stack(up: bool, c: seq<Point>, done: seq<Point>) {
    && c != [] && done != [] && c[0] == done[0]
    && Ordered(up, c)
    && (forall q :: q in c ==> q in done)
    && TurnsLeft(c)
    && LeftOfEdges(c, done)
  }

  /** Nothing beyond the top of the stack lies right of the edge from it to p. */
  predicate ClearTo(up: bool, b: Point, done: seq<Point>, p: Point) {
    forall q {:trigger q in done} :: q in done && !Before(up, q, b) ==> Cross(b, p, q) >= 0
  }

  lemma InOrder(up: bool, done: seq<Point>, p: Point, q: Point)
    requires Ordered(up, done + [p]) && q in done
    ensures Before(up, q, p)
    ensures q == done[0] || Before(up, done[0], q)
  {
    var d := done + [p];
    var i :| 0 <= i < |done| && done[i] == q;
    assert d[i] == q && d[|done|] == p && d[0] == done[0];
  }

  lemma Push(up: bool, c: seq<Point>, done: seq<Point>, p: Point)
    requires Ordered(up, done + [p]) && Stack(up, c, done)
    requires |c| >= 2 ==> Cross(c[|c| - 2], c[|c| - 1], p) > 0
    requires ClearTo(up, c[|c| - 1], done, p)
    ensures HalfHull(up, c + [p], done + [p])
  {
    var e := c + [p];
    forall q | q in c ensures Before(up, q, p) { InOrder(up, done, p, q); }
    assert Ordered(up, e);
    hide Cross;
    forall k | 0 <= k < |e| - 2 ensures TurnsLeftAt(e, k) {
      assert k < |c| - 2 ==> TurnsLeftAt(c, k);
    }
    forall k, q | 0 <= k < |e| - 1 && q in done + [p] ensures LeftOfEdge(e, k, q) {
      PushEdge(up, c, done, p, k, q);
    }
  }

  lemma PushEdge(up: bool, c: seq<Point>, done: seq<Point>, p: Point, k: nat, q: Point)
    requires Ordered(up, done + [p]) && Ordered(up, c + [p]) && Stack(up, c, done)
    requires |c| >= 2 ==> Cross(c[|c| - 2], c[|c| - 1], p) > 0
    requires ClearTo(up, c[|c| - 1], done, p)
    requires k < |c| && q in done + [p]
    ensures Cross((c + [p])[k], (c + [p])[k + 1], q) >= 0
  {
    NoTurn(c[k], p);
    hide Cross;
    if k < |c| - 1 {
      if q == p { LeftOfAll(up, c, p, k); } else { assert LeftOfEdge(c, k, q); }
    } else if q != p && Before(up, q, c[k]) {
      InOrder(up, done, p, q);
      assert c[k] in c;
      InOrder(up, done, p, c[k]);
      if |c| >= 2 {
        assert LeftOfEdge(c, |c| - 2, q);
        PushBehind(up, c[|c| - 2], c[k], q, p);
      }
    }
  }

  lemma Pop(up: bool, c: seq<Point>, done: seq<Point>, p: Point)
    requires |c| >= 2 && Ordered(up, done + [p]) && Stack(up, c, done)
    requires Cross(c[|c| - 2], c[|c| - 1], p) <= 0
    requires ClearTo(up, c[|c| - 1], done, p)
    ensures c[..|c| - 1] != [] && Stack(up, c[..|c| - 1], done)
    ensures ClearTo(up, c[|c| - 2], done, p)
  {
    var a, b, s := c[|c| - 2], c[|c| - 1], c[..|c| - 1];
    hide Cross;
    forall q | q in done && !Before(up, q, a) ensures Cross(a, p, q) >= 0 {
      assert b in c;
      InOrder(up, done, p, q);
      InOrder(up, done, p, b);
      if Before(up, q, b) {
        assert LeftOfEdge(c, |c| - 2, q);
        PopBetween(up, a, b, q, p);
      } else {
        PopBeyond(up, a, b, q, p);
      }
    }
    forall k | 0 <= k < |s| - 2 ensures TurnsLeftAt(s, k) { assert TurnsLeftAt(c, k); }
    forall k, q | 0 <= k < |s| - 1 && q in done ensures LeftOfEdge(s, k, q) { assert LeftOfEdge(c, k, q); }
  }

  /** One of the two loops over the sorted points. */
  method Half(up: bool, pts: seq<Point>) returns (c: seq<Point>)
    requires Ordered(up, pts)
    ensures HalfHull(up, c, pts)
  {
    c := [];
    assert HalfHull(up, c, []);
    hide HalfHull, Stack, ClearTo, Cross, Ordered;
    for i := 0 to |pts|
      invariant HalfHull(up, c, pts[..i])
      invariant i == 0 ==> c == []
    {
      var p := pts[i];
      ghost var done := pts[..i];
      assert pts[..i + 1] == done + [p];
      StillOrdered(up, pts, i + 1);
      if i > 0 { Start(up, c, done, p); }
      while |c| >= 2 && Cross(c[|c| - 2], c[|c| - 1], p) <= 0
        invariant i == 0 ==> c == []
        invariant i > 0 ==> c != [] && Stack(up, c, done) && ClearTo(up, c[|c| - 1], done, p)
        decreases |c|
      {
        Pop(up, c, done, p);
        c := c[..|c| - 1];
      }
      if i > 0 { Push(up, c, done, p); } else { Single(up, p); }
      c := c + [p];
    }
    assert pts[..|pts|] == pts;
  }

  lemma StillOrdered(up: bool, pts: seq<Point>, n: nat)
    requires Ordered(up, pts) && n <= |pts|
    ensures Ordered(up, pts[..n])
  {}

  lemma Single(up: bool, p: Point)
    ensures HalfHull(up, [p], [p])
  {}

  lemma Start(up: bool, c: seq<Point>, done: seq<Point>, p: Point)
    requires done != [] && HalfHull(up, c, done) && Ordered(up, done + [p])
    ensures c != [] && Stack(up, c, done) && ClearTo(up, c[|c| - 1], done, p)
  {
    var d, n := done + [p], |done|;
    assert Ordered(up, done) by {
      assert forall k :: 0 <= k < n ==> done[k] == d[k];
    }
    hide Cross;
    forall q | q in done && !Before(up, q, done[n - 1]) ensures Cross(done[n - 1], p, q) >= 0 {
      LastIsBeyond(up, done, q);
      NoTurn(q, p);
    }
  }

  lemma LastIsBeyond(up: bool, s: seq<Point>, q: Point)
    requires Ordered(up, s) && q in s
    ensures q == s[|s| - 1] || Before(up, q, s[|s| - 1])
  {}

  // --- the whole hull ----------------------------------------------------------------

  function Insert(p: Point, s: seq<Point>): (r: seq<Point>)
    requires Ordered(true, s)
    ensures Ordered(true, r)
    ensures forall q :: q in r <==> q == p || q in s
  {
    if s == [] then [p]
    else if s[0] == p then s
    else if Less(p, s[0]) then [p] + s
    else
      var rest := Insert(p, s[1..]);
      assert forall q :: q in s[1..] ==> Less(s[0], q);
      assert forall i :: 0 <= i < |rest| ==> rest[i] in rest && Less(s[0], rest[i]);
      assert s == [s[0]] + s[1..];
      [s[0]] + rest
  }

  /** `sorted(set(pts))`. */
  function SortedSet(pts: seq<Point>): (r: seq<Point>)
    ensures Ordered(true, r)
    ensures forall q :: q in r <==> q in pts
  {
    if pts == [] then [] else Insert(pts[0], SortedSet(pts[1..]))
  }

  function Reversed(s: seq<Point>): (r: seq<Point>)
    ensures |r| == |s| && forall i :: 0 <= i < |s| ==> r[i] == s[|s| - 1 - i]
    ensures forall q :: q in r <==> q in s
    ensures Ordered(true, s) ==> Ordered(false, r)
  {
    var r := seq(|s|, i requires 0 <= i < |s| => s[|s| - 1 - i]);
    assert forall q :: q in s ==> q in r by {
      forall q | q in s ensures q in r {
        var i :| 0 <= i < |s| && s[i] == q;
        assert r[|s| - 1 - i] == q;
      }
    }
    r
  }

  function Next(h: seq<Point>, k: nat): Point
    requires k < |h|
  {
    if k + 1 < |h| then h[k + 1] else h[0]
  }

  /** Three of the points do not lie on one line. */
  predicate Spread(pts: seq<Point>) {
    exists a, b, c :: a in pts && b in pts && c in pts && Cross(a, b, c) != 0
  }

  /** h is a simple polygon on points of the set, walked counter-clockwise with
      a strict left turn at every corner, and holds the whole set. */
  predicate ConvexPolygon(h: seq<Point>, pts: seq<Point>) {
    && |h| >= 3
    && (forall q :: q in h ==> q in pts)
    && (forall i, j :: 0 <= i < j < |h| ==> h[i] != h[j])
    && (forall k :: 0 <= k < |h| ==> CornerLeft(h, k))
    && (forall k, q :: 0 <= k < |h| && q in pts ==> LeftOfSide(h, k, q))
  }

  predicate CornerLeft(h: seq<Point>, k: nat)
    requires k < |h|
  {
    var a, b, c := h[k], Next(h, k), Next(h, if k + 1 < |h| then k + 1 else 0);
    (b.x - a.x) * (c.y - a.y) - (b.y - a.y) * (c.x - a.x) > 0
  }

  predicate LeftOfSide(h: seq<Point>, k: nat, q: Point)
    requires k < |h|
  {
    var a, b := h[k], Next(h, k);
    (b.x - a.x) * (q.y - a.y) - (b.y - a.y) * (q.x - a.x) >= 0
  }

  /** Points all left of an edge and all left of one straight back are on one line. */
  lemma OnOneLine(pts: seq<Point>, a: Point, b: Point, c: Point)
    requires Less(a, b) && Less(c, b)
    requires Cross(a, b, c) == 0
    requires forall q :: q in pts ==> Cross(a, b, q) >= 0 && Cross(b, c, q) >= 0
    ensures !Spread(pts)
  {
    forall q | q in pts ensures Cross(a, b, q) == 0 { Flat(a, b, c, q); }
    forall p, q, r | p in pts && q in pts && r in pts ensures Cross(p, q, r) == 0 {
      Parallel(Minus(b, a), a, p, q, r);
    }
  }

  lemma Flat(a: Point, b: Point, c: Point, q: Point)
    requires Less(a, b) && Less(c, b)
    requires Cross(a, b, c) == 0
    requires Cross(a, b, q) >= 0 && Cross(b, c, q) >= 0
    ensures Cross(a, b, q) == 0
  {
    var u, v, w := Minus(b, a), Minus(b, c), Minus(q, b);
    assert Cross(a, b, c) == -Det(u, v);
    assert Cross(a, b, q) == Det(u, w);
    assert Cross(b, c, q) == -Det(v, w);
    hide Cross;
    SameWay(u, v, w);
  }

  /** What is left of one of two vectors that point the same way is not right of the other. */
  lemma SameWay(u: Point, v: Point, w: Point)
    requires Forward(true, u) && Forward(true, v) && Det(u, v) == 0
    requires Det(u, w) >= 0 && Det(v, w) <= 0
    ensures Det(u, w) == 0
  {
    if u.x == 0 {
      SameWayUp(u, v, w);
    } else {
      if v.x == 0 {
        Positive(u.x, v.y);
        assert false;
      }
      assert u.x * Det(v, w) == v.x * Det(u, w) - w.x * Det(u, v);
      hide Det;
      NotNegative(u.x, -Det(v, w));
      SignOfFactor(-Det(u, w), v.x);
    }
  }

  lemma SameWayUp(u: Point, v: Point, w: Point)
    requires Forward(true, u) && Forward(true, v) && u.x == 0 && Det(u, v) == 0
    requires Det(u, w) >= 0 && Det(v, w) <= 0
    ensures Det(u, w) == 0
  {
    assert Det(u, v) == -(u.y * v.x) && Det(u, w) == -(u.y * w.x);
    NoZeroDivisor(u.y, v.x);
    assert Det(v, w) == -(v.y * w.x);
    hide Det;
    SignOfFactor(w.x, v.y);
    NotNegative(u.y, w.x);
  }

  lemma FlatBack(a: Point, b: Point, c: Point, q: Point)
    requires Less(b, a) && Less(b, c)
    requires Cross(a, b, c) == 0
    requires Cross(a, b, q) >= 0 && Cross(b, c, q) >= 0
    ensures Cross(a, b, q) == 0
  {
    MirrorCross(a, b, c);
    MirrorCross(a, b, q);
    MirrorCross(b, c, q);
    Flat(Mirror(a), Mirror(b), Mirror(c), Mirror(q));
  }

  function Mirror(p: Point): Point { Point(-p.x, -p.y) }

  lemma MirrorCross(o: Point, a: Point, b: Point)
    ensures Cross(Mirror(o), Mirror(a), Mirror(b)) == Cross(o, a, b)
  {}

  lemma Parallel(d: Point, a: Point, p: Point, q: Point, r: Point)
    requires d.x != 0 || d.y != 0
    requires Det(d, Minus(p, a)) == 0 && Det(d, Minus(q, a)) == 0 && Det(d, Minus(r, a)) == 0
    ensures Cross(p, q, r) == 0
  {
    var u, v := Minus(q, p), Minus(r, p);
    assert Det(d, u) == Det(d, Minus(q, a)) - Det(d, Minus(p, a));
    assert Det(d, v) == Det(d, Minus(r, a)) - Det(d, Minus(p, a));
    assert d.x * Det(u, v) == u.x * Det(d, v) - v.x * Det(d, u);
    assert d.y * Det(u, v) == u.y * Det(d, v) - v.y * Det(d, u);
    assert Cross(p, q, r) == Det(u, v);
    NoZeroDivisor(d.x, Det(u, v));
    NoZeroDivisor(d.y, Det(u, v));
  }

  lemma NoZeroDivisor(a: int, b: int)
    requires a * b == 0
    ensures a == 0 || b == 0
  {}

  /** A corner strictly between the ends of a half lies strictly right of the line joining them. */
  lemma {:induction false} Bulges(up: bool, c: seq<Point>, k: nat)
    requires Ordered(up, c) && TurnsLeft(c) && 0 < k < |c| - 1
    ensures Cross(c[0], c[k], c[|c| - 1]) > 0
  {
    hide Cross;
    var n := |c| - 1;
    LastLeftOf(up, c, k - 1);
    if k > 1 {
      Bulges(up, c, k - 1);
      BulgeStep(up, c[0], c[k - 1], c[k], c[n]);
    }
  }

  lemma BulgeStep(up: bool, o: Point, a: Point, b: Point, z: Point)
    requires Before(up, o, a) && Before(up, a, b) && Before(up, b, z)
    requires Cross(o, a, z) > 0 && Cross(a, b, z) > 0
    ensures Cross(o, b, z) > 0
  {
    var u, v, w, s := Minus(a, o), Minus(b, a), Minus(z, b), Minus(z, a);
    assert Cross(o, a, z) == Det(u, s);
    assert Cross(a, b, z) == Det(v, w) == Det(s, w);
    TurnsCompose(up, u, s, w);
    assert Cross(o, b, z) == Det(u, w) + Det(v, w);
  }

  lemma LastLeftOf(up: bool, c: seq<Point>, k: nat)
    requires Ordered(up, c) && TurnsLeft(c) && k + 2 < |c|
    ensures Cross(c[k], c[k + 1], c[|c| - 1]) > 0
  {
    var n := |c| - 1;
    var b := c[..n];
    assert b + [c[n]] == c;
    hide Cross;
    forall j | 0 <= j < |b| - 2 ensures TurnsLeftAt(b, j) { assert TurnsLeftAt(c, j); }
    assert TurnsLeftAt(c, n - 2);
    LeftOfAll(up, b, c[n], k);
  }

  /** The set has two halves that meet at its first and last points. */
  predicate Halves(lo: seq<Point>, hi: seq<Point>, pts: seq<Point>) {
    && |pts| >= 2 && Ordered(true, pts)
    && HalfHull(true, lo, pts) && HalfHull(false, hi, Reversed(pts))
  }

  lemma Ends(lo: seq<Point>, hi: seq<Point>, pts: seq<Point>)
    requires Halves(lo, hi, pts)
    ensures |lo| >= 2 && |hi| >= 2
    ensures lo[0] == hi[|hi| - 1] == pts[0] && lo[|lo| - 1] == hi[0] == pts[|pts| - 1]
    ensures LeftOfEdges(hi, pts)
    ensures forall q :: q in hi ==> q in pts
  {
    var r := Reversed(pts);
    assert pts[0] != pts[|pts| - 1];
    hide Cross;
    forall k, q | 0 <= k < |hi| - 1 && q in pts ensures LeftOfEdge(hi, k, q) { assert q in r && LeftOfEdge(hi, k, q); }
  }

  /** Where the halves meet, the turn is strictly left too. */
  lemma Junction(up: bool, c: seq<Point>, d: seq<Point>, pts: seq<Point>)
    requires |c| >= 2 && |d| >= 2 && c[|c| - 1] == d[0]
    requires Ordered(up, c) && Ordered(!up, d) && Spread(pts)
    requires LeftOfEdges(c, pts) && LeftOfEdges(d, pts)
    requires forall q :: q in d ==> q in pts
    ensures Cross(c[|c| - 2], d[0], d[1]) > 0
  {
    var a, b, e := c[|c| - 2], d[0], d[1];
    hide Cross;
    forall q | q in pts ensures Cross(a, b, q) >= 0 && Cross(b, e, q) >= 0 {
      assert LeftOfEdge(c, |c| - 2, q) && LeftOfEdge(d, 0, q);
    }
    assert e in d;
    if Cross(a, b, e) == 0 {
      if up {
        OnOneLine(pts, a, b, e);
      } else {
        OnOneLineBack(pts, a, b, e);
      }
    }
  }

  lemma OnOneLineBack(pts: seq<Point>, a: Point, b: Point, c: Point)
    requires Less(b, a) && Less(b, c)
    requires Cross(a, b, c) == 0
    requires forall q :: q in pts ==> Cross(a, b, q) >= 0 && Cross(b, c, q) >= 0
    ensures !Spread(pts)
  {
    forall q | q in pts ensures Cross(a, b, q) == 0 { FlatBack(a, b, c, q); }
    forall p, q, r | p in pts && q in pts && r in pts ensures Cross(p, q, r) == 0 {
      Parallel(Minus(b, a), a, p, q, r);
    }
  }

  /** Both halves together are the convex polygon round the set. */
  lemma Closed(lo: seq<Point>, hi: seq<Point>, pts: seq<Point>)
    requires Halves(lo, hi, pts) && Spread(pts)
    ensures ConvexPolygon(lo[..|lo| - 1] + hi[..|hi| - 1], pts)
  {
    Ends(lo, hi, pts);
    var m, n := |lo| - 1, |hi| - 1;
    var h := lo[..m] + hi[..n];
    Junction(true, lo, hi, pts);
    Junction(false, hi, lo, pts);
    NoTurn(lo[0], lo[1]);
    hide Cross;
    forall k, q | 0 <= k < |h| && q in pts ensures LeftOfSide(h, k, q) { Side(lo, hi, k, pts, q); }
    forall k | 0 <= k < |h| ensures CornerLeft(h, k) { Corner(lo, hi, k); }
    forall i, j | 0 <= i < j < |h| ensures h[i] != h[j] { Apart(lo, hi, i, j); }
    forall q | q in h ensures q in pts { assert q in lo || q in hi; }
  }

  lemma CrossIs(a: Point, b: Point, c: Point)
    ensures Cross(a, b, c) == (b.x - a.x) * (c.y - a.y) - (b.y - a.y) * (c.x - a.x)
  {}

  lemma Side(lo: seq<Point>, hi: seq<Point>, k: nat, pts: seq<Point>, q: Point)
    requires |lo| >= 2 && |hi| >= 2 && k < |lo| + |hi| - 2 && q in pts
    requires lo[0] == hi[|hi| - 1] && lo[|lo| - 1] == hi[0]
    requires LeftOfEdges(lo, pts) && LeftOfEdges(hi, pts)
    ensures LeftOfSide(lo[..|lo| - 1] + hi[..|hi| - 1], k, q)
  {
    hide Cross;
    var m, n := |lo| - 1, |hi| - 1;
    var h := lo[..m] + hi[..n];
    CrossIs(h[k], Next(h, k), q);
    if k < m {
      assert LeftOfEdge(lo, k, q) && h[k] == lo[k] && Next(h, k) == lo[k + 1];
    } else {
      assert LeftOfEdge(hi, k - m, q) && h[k] == hi[k - m] && Next(h, k) == hi[k - m + 1];
    }
  }

  lemma Corner(lo: seq<Point>, hi: seq<Point>, k: nat)
    requires |lo| >= 2 && |hi| >= 2 && k < |lo| + |hi| - 2
    requires lo[0] == hi[|hi| - 1] && lo[|lo| - 1] == hi[0]
    requires TurnsLeft(lo) && TurnsLeft(hi)
    requires Cross(lo[|lo| - 2], hi[0], hi[1]) > 0 && Cross(hi[|hi| - 2], lo[0], lo[1]) > 0
    ensures CornerLeft(lo[..|lo| - 1] + hi[..|hi| - 1], k)
  {
    hide Cross;
    var m, n := |lo| - 1, |hi| - 1;
    var h := lo[..m] + hi[..n];
    CrossIs(h[k], Next(h, k), Next(h, if k + 1 < |h| then k + 1 else 0));
    if k < m {
      assert k < m - 1 ==> TurnsLeftAt(lo, k);
      assert h[k] == lo[k] && Next(h, k) == lo[k + 1];
    } else {
      assert k - m < n - 1 ==> TurnsLeftAt(hi, k - m);
      assert h[k] == hi[k - m] && Next(h, k) == hi[k - m + 1];
    }
  }

  lemma Apart(lo: seq<Point>, hi: seq<Point>, i: nat, j: nat)
    requires |lo| >= 2 && |hi| >= 2 && i < j < |lo| + |hi| - 2
    requires lo[0] == hi[|hi| - 1] && lo[|lo| - 1] == hi[0]
    requires Ordered(true, lo) && Ordered(false, hi) && TurnsLeft(lo) && TurnsLeft(hi)
    ensures (lo[..|lo| - 1] + hi[..|hi| - 1])[i] != (lo[..|lo| - 1] + hi[..|hi| - 1])[j]
  {
    hide Cross;
    var m, n := |lo| - 1, |hi| - 1;
    if j < m {
      assert Less(lo[i], lo[j]);
    } else if i >= m {
      assert Less(hi[j - m], hi[i - m]);
    } else if i == 0 {
      assert Less(hi[n], hi[j - m]);
    } else if j == m {
      assert Less(lo[i], lo[m]);
    } else {
      Bulges(true, lo, i);
      Bulges(false, hi, j - m);
      TurnsBack(hi[0], hi[j - m], hi[n]);
    }
  }

  /** On one line there is nothing between the two ends. */
  lemma Degenerate(up: bool, c: seq<Point>, pts: seq<Point>)
    requires |pts| >= 2 && Ordered(up, pts) && HalfHull(up, c, pts) && !Spread(pts)
    ensures c == [pts[0], pts[|pts| - 1]]
  {
    assert Before(up, pts[0], pts[|pts| - 1]);
    if |c| > 2 { CornerSpreads(up, c, pts); }
  }

  lemma CornerSpreads(up: bool, c: seq<Point>, pts: seq<Point>)
    requires HalfHull(up, c, pts) && |c| > 2
    ensures Spread(pts)
  {
    hide Cross;
    assert TurnsLeftAt(c, 0) && c[0] in c && c[1] in c && c[2] in c;
  }

  /** Python's `c[:-1]`. */
  function DropLast(c: seq<Point>): seq<Point> {
    if c == [] then [] else c[..|c| - 1]
  }

  /** The ends of points on one line, in order. */
  predicate EndPoints(h: seq<Point>, points: seq<Point>) {
    && |h| == 2 && h[0] in points && h[1] in points && Less(h[0], h[1])
    && forall q :: q in points ==> !Less(q, h[0]) && !Less(h[1], q)
  }

  lemma Together(points: seq<Point>, lo: seq<Point>, hi: seq<Point>)
    requires HalfHull(true, lo, SortedSet(points)) && HalfHull(false, hi, Reversed(SortedSet(points)))
    ensures var h := DropLast(lo) + DropLast(hi);
      && (Spread(points) ==> ConvexPolygon(h, points))
      && (!Spread(points) && |SortedSet(points)| >= 2 ==> EndPoints(h, points))
      && (|SortedSet(points)| < 2 ==> h == [])
  {
    var pts := SortedSet(points);
    SameSpread(pts, points);
    if |pts| < 2 {
      AtMostOne(true, lo, pts);
      AtMostOne(false, hi, Reversed(pts));
      NoSpread(pts);
    } else if Spread(pts) {
      Ends(lo, hi, pts);
      Closed(lo, hi, pts);
      SamePolygon(lo[..|lo| - 1] + hi[..|hi| - 1], pts, points);
    } else {
      TwoEnds(pts, lo, hi);
      SameEnds(DropLast(lo) + DropLast(hi), pts, points);
    }
  }

  /** It begins at the leftmost of the points, and the lowest of those. */
  lemma StartsFirst(pts: seq<Point>, lo: seq<Point>, hi: seq<Point>)
    requires Ordered(true, pts) && HalfHull(true, lo, pts) && HalfHull(false, hi, Reversed(pts)) && DropLast(lo) + DropLast(hi) != []
    ensures forall q :: q in pts ==> !Less(q, (DropLast(lo) + DropLast(hi))[0])
  {
    if |pts| < 2 {
      AtMostOne(true, lo, pts);
      AtMostOne(false, hi, Reversed(pts));
    } else {
      Ends(lo, hi, pts);
    }
  }

  lemma SameSpread(pts: seq<Point>, points: seq<Point>)
    requires forall q :: q in pts <==> q in points
    ensures Spread(pts) <==> Spread(points)
  {}

  lemma NoSpread(pts: seq<Point>)
    requires |pts| < 2
    ensures !Spread(pts)
  {
    forall a, b, c | a in pts && b in pts && c in pts ensures Cross(a, b, c) == 0 {
      assert a == b == c;
    }
  }

  lemma SameEnds(h: seq<Point>, pts: seq<Point>, points: seq<Point>)
    requires EndPoints(h, pts) && forall q :: q in pts <==> q in points
    ensures EndPoints(h, points)
  {}

  lemma SamePolygon(h: seq<Point>, pts: seq<Point>, points: seq<Point>)
    requires ConvexPolygon(h, pts) && forall q :: q in pts <==> q in points
    ensures ConvexPolygon(h, points)
  {}

  lemma TwoEnds(pts: seq<Point>, lo: seq<Point>, hi: seq<Point>)
    requires Halves(lo, hi, pts) && !Spread(pts)
    ensures EndPoints(DropLast(lo) + DropLast(hi), pts)
  {
    var r := Reversed(pts);
    assert !Spread(r) by { assert forall q :: q in r <==> q in pts; }
    Degenerate(true, lo, pts);
    Degenerate(false, hi, r);
    assert DropLast(lo) + DropLast(hi) == [pts[0], pts[|pts| - 1]];
  }

  lemma AtMostOne(up: bool, c: seq<Point>, pts: seq<Point>)
    requires |pts| < 2 && HalfHull(up, c, pts)
    ensures |c| < 2
  {
    if |c| >= 2 { TwoDiffer(up, c, pts); }
  }

  lemma TwoDiffer(up: bool, c: seq<Point>, pts: seq<Point>)
    requires |c| >= 2 && HalfHull(up, c, pts)
    ensures |pts| >= 2
  {
    assert c[0] in c && c[1] in c && Before(up, c[0], c[1]);
    assert c[0] in pts && c[1] in pts;
  }

  /** `convex_hull`: the polygon round the points; for points on one line their
      two ends; for a single point or none, nothing. */
  method Hull(points: seq<Point>) returns (h: seq<Point>)
    ensures Spread(points) ==> ConvexPolygon(h, points)
    ensures !Spread(points) && |SortedSet(points)| >= 2 ==> EndPoints(h, points)
    ensures |SortedSet(points)| < 2 ==> h == []
    ensures h != [] ==> forall q :: q in points ==> h[0].x < q.x || (h[0].x == q.x && h[0].y <= q.y)
  {
    var pts := SortedSet(points);
    var lo := Half(true, pts);
    var hi := Half(false, Reversed(pts));
    Together(points, lo, hi);
    h := DropLast(lo) + DropLast(hi);
    if h != [] { StartsFirst(pts, lo, hi); }
  }
}
