/**
 * The procedural terrain of the lunar lander: a polyline from the left edge
 * of the world to the right edge, built left to right in random steps, with
 * the height held level wherever one of two random thresholds is crossed.
 *
 * Screen coordinates: y grows downwards, so "y <= ydim" means "not below the
 * bottom edge".  Python's random.randint is an injected stream of raw draws,
 * owned by a Random object that counts how many have been consumed.
 */
module Landscape {

  datatype Option<T> = None | Some(value: T)

  /** sys.maxsize on a 64-bit CPython: the "no threshold left" sentinel. */
  const MaxSize: int := 0x7FFF_FFFF_FFFF_FFFF
  /** Horizontal step of one pass: randint(40, 100). */
  const MinStep: int := 40
  const MaxStep: int := 100
  /** Vertical change of one pass: randint(-100, 100). */
  const MaxRise: int := 100
  /** Thresholds of the flat segments: randint(10, xdim). */
  const MinThreshold: int := 10

  datatype Point = Point(x: int, y: real)

  // ------------------------------------------------------------- randomness

  /**
   * randint(lo, hi) fed with the raw draw `raw`: the draw is folded into
   * [lo, hi], and a draw already in range is returned as it is, so a stream
   * of in-range draws is exactly what randint would have returned.
   */
  function Pick(raw: int, lo: int, hi: int): (r: int)
    requires lo <= hi
    ensures lo <= r <= hi
    ensures lo <= raw <= hi ==> r == raw
  {
    if lo <= raw <= hi then raw else lo + (raw - lo) % (hi - lo + 1)
  }

  /** The k-th raw draw of the stream, as randint(lo, hi) returns it. */
  function Draw(stream: nat -> int, k: nat, lo: int, hi: int): (r: int)
    requires lo <= hi
    ensures lo <= r <= hi
  {
    Pick(stream(k), lo, hi)
  }

  /** The module-level generator behind random.randint. */
  class Random {
    const stream: nat -> int
    var drawn: nat

    constructor(stream: nat -> int)
      ensures this.stream == stream && drawn == 0
    {
      this.stream := stream;
      drawn := 0;
    }

    method RandInt(lo: int, hi: int) returns (r: int)
      requires lo <= hi
      modifies this
      ensures r == Draw(stream, old(drawn), lo, hi) && drawn == old(drawn) + 1
    {
      r := Draw(stream, drawn, lo, hi);
      drawn := drawn + 1;
    }
  }

  // ------------------------------------------------------- the loop, as values

  /**
   * The y correction at the top of each pass: lift by 100 when above the
   * bottom edge, then drop by 100 when below it.
   */
  function Nudge(ty: real, ydim: int): (r: real)
    ensures r == ty || r == ty + 100.0 || r == ty - 100.0
    ensures ty <= ydim as real + 100.0 ==> r <= ydim as real
    ensures ydim as real < ty ==> r == ty - 100.0
    ensures ty <= ydim as real - 100.0 ==> r == ty + 100.0
    ensures ydim as real - 100.0 < ty <= ydim as real ==> r == ty
  {
    var lifted := if ty < ydim as real then ty + 100.0 else ty;
    if lifted > ydim as real then lifted - 100.0 else lifted
  }

  /**
   * The state of the generator at the head of its loop: draws consumed so
   * far, tx, ty (which equals lasty there), the threshold being waited for,
   * and the thresholds still queued.
   */
  datatype Head = Head(drawn: nat, tx: int, ty: real, next: int, pending: seq<int>)

  /**
   * What the loop produces from a head: the points it appends, whether each
   * pass held the height level, and the draw count when it stops.
   */
  datatype Profile = Profile(points: seq<Point>, held: seq<bool>, drawn: nat)

  /**
   * One pass of the loop, up to the end test: step right, move y, and hold
   * y at lasty (popping the next threshold) when the step crosses the one
   * being waited for.  A pass holds exactly when h.next < n.tx.
   */
  function Pass(ydim: int, stream: nat -> int, h: Head): (n: Head)
    ensures n.drawn == h.drawn + 2
    ensures h.tx + MinStep <= n.tx <= h.tx + MaxStep
    ensures h.next < n.tx ==> n.ty == h.ty
    ensures h.next < n.tx && h.pending == [] ==> n.next == MaxSize && n.pending == []
    ensures h.next < n.tx && h.pending != [] ==> n.next == h.pending[0] && n.pending == h.pending[1..]
    ensures n.tx <= h.next ==> n.next == h.next && n.pending == h.pending
    ensures n.tx <= h.next ==> Nudge(h.ty, ydim) - 100.0 <= n.ty <= Nudge(h.ty, ydim) + 100.0
  {
    var tx := h.tx + Draw(stream, h.drawn, MinStep, MaxStep);
    var ty := Nudge(h.ty, ydim) + Draw(stream, h.drawn + 1, -MaxRise, MaxRise) as real;
    if h.next < tx then
      if h.pending == [] then Head(h.drawn + 2, tx, h.ty, MaxSize, [])
      else Head(h.drawn + 2, tx, h.ty, h.pending[0], h.pending[1..])
    else
      Head(h.drawn + 2, tx, ty, h.next, h.pending)
  }

  /**
   * The rest of the loop from a head: each pass appends its corrected point;
   * the pass whose step passes xdim appends a last point at xdim with the
   * uncorrected y and stops.
   */
  function Passes(xdim: int, ydim: int, stream: nat -> int, h: Head): (p: Profile)
    requires h.tx <= xdim
    ensures |p.points| == |p.held| + 1 && 2 <= |p.points|
    ensures p.points[0] == Point(h.tx, Nudge(h.ty, ydim))
    ensures p.points[|p.points| - 1].x == xdim
    ensures p.drawn == h.drawn + 2 * |p.held|
    decreases xdim - h.tx
  {
    var here := Point(h.tx, Nudge(h.ty, ydim));
    var n := Pass(ydim, stream, h);
    if n.tx > xdim then
      Profile([here, Point(xdim, n.ty)], [h.next < n.tx], n.drawn)
    else
      var rest := Passes(xdim, ydim, stream, n);
      Profile([here] + rest.points, [h.next < n.tx] + rest.held, rest.drawn)
  }

  /**
   * Before the loop: two thresholds drawn from [10, xdim] and sorted, the
   * smaller one waited for first; tx starts at 0 and ty at 85% of ydim.
   */
  function FirstHead(xdim: int, ydim: int, stream: nat -> int, drawn: nat): (h: Head)
    requires MinThreshold <= xdim
    ensures h.drawn == drawn + 2 && h.tx == 0 && h.ty == ydim as real * 0.85
    ensures |h.pending| == 1 && MinThreshold <= h.next <= h.pending[0] <= xdim
    ensures var a, b := Draw(stream, drawn, MinThreshold, xdim), Draw(stream, drawn + 1, MinThreshold, xdim);
      (h.next, h.pending[0]) == (a, b) || (h.next, h.pending[0]) == (b, a)
  {
    var a := Draw(stream, drawn, MinThreshold, xdim);
    var b := Draw(stream, drawn + 1, MinThreshold, xdim);
    if a <= b then Head(drawn + 2, 0, ydim as real * 0.85, a, [b])
    else Head(drawn + 2, 0, ydim as real * 0.85, b, [a])
  }

  /** _gen_terrain, as a value: the terrain drawn from the stream starting at `drawn`. */
  function Generate(xdim: int, ydim: int, stream: nat -> int, drawn: nat): (p: Profile)
    requires MinThreshold <= xdim
    ensures |p.held| == |p.points| - 1 && p.drawn == drawn + 2 + 2 * |p.held|
  {
    Passes(xdim, ydim, stream, FirstHead(xdim, ydim, stream, drawn))
  }

  /** The number of passes that held the height level. */
  function Count(held: seq<bool>): (r: nat)
    ensures r <= |held|
    ensures r == 0 <==> forall i :: 0 <= i < |held| ==> !held[i]
  {
    if held == [] then 0 else (if held[0] then 1 else 0) + Count(held[1..])
  }

  // ------------------------------------------------------------ properties

  /**
   * The x values run from x0 to xdim: every inner step is a full randint(40,
   * 100) step, and the last one, clamped to xdim, is shorter than 100.
   */
  predicate Spans(pts: seq<Point>, x0: int, xdim: int) {
    && 2 <= |pts|
    && pts[0].x == x0
    && pts[|pts| - 1].x == xdim
    && (forall i :: 0 <= i < |pts| - 2 ==> MinStep <= pts[i + 1].x - pts[i].x <= MaxStep)
    && 0 <= pts[|pts| - 1].x - pts[|pts| - 2].x < MaxStep
    && (forall i :: 0 <= i < |pts| ==> x0 <= pts[i].x <= xdim)
  }

  /** Putting a point one full step before a spanning polyline keeps it spanning. */
  lemma SpanCons(here: Point, rest: seq<Point>, x0: int, xdim: int)
    requires rest != [] && Spans(rest, rest[0].x, xdim) && here.x == x0
    requires MinStep <= rest[0].x - x0 <= MaxStep
    ensures Spans([here] + rest, x0, xdim)
  {
    var pts := [here] + rest;
    forall i | 0 <= i < |pts| - 2
      ensures MinStep <= pts[i + 1].x - pts[i].x <= MaxStep
    {
      if i > 0 {
        assert pts[i + 1].x - pts[i].x == rest[i].x - rest[i - 1].x;
      }
    }
    forall i | 0 <= i < |pts|
      ensures x0 <= pts[i].x <= xdim
    {
      if i > 0 {
        assert pts[i] == rest[i - 1];
      }
    }
  }

  lemma {:induction false} PassesSpan(xdim: int, ydim: int, stream: nat -> int, h: Head)
    requires h.tx <= xdim
    ensures Spans(Passes(xdim, ydim, stream, h).points, h.tx, xdim)
    decreases xdim - h.tx
  {
    var n := Pass(ydim, stream, h);
    if n.tx <= xdim {
      PassesSpan(xdim, ydim, stream, n);
      var rest := Passes(xdim, ydim, stream, n).points;
      SpanCons(Point(h.tx, Nudge(h.ty, ydim)), rest, h.tx, xdim);
    }
  }

  /**
   * Every point appended inside the loop is corrected onto the screen
   * (y <= ydim); the final point skips the correction and may lie up to 100
   * below the edge.  When ty also starts no more than 200 above the edge,
   * the inner points stay within 100 of it.
   */
  lemma {:induction false} PassesOnScreen(xdim: int, ydim: int, stream: nat -> int, h: Head)
    requires h.tx <= xdim && h.ty <= ydim as real + 100.0
    ensures var pts := Passes(xdim, ydim, stream, h).points;
      && (forall i :: 0 <= i < |pts| - 1 ==> pts[i].y <= ydim as real)
      && pts[|pts| - 1].y <= ydim as real + 100.0
    ensures var pts := Passes(xdim, ydim, stream, h).points;
      ydim as real - 200.0 <= h.ty ==>
        && (forall i :: 0 <= i < |pts| - 1 ==> ydim as real - 100.0 <= pts[i].y)
        && ydim as real - 200.0 <= pts[|pts| - 1].y
    decreases xdim - h.tx
  {
    var n := Pass(ydim, stream, h);
    assert n.ty <= ydim as real + 100.0;
    assert ydim as real - 200.0 <= h.ty ==> ydim as real - 200.0 <= n.ty;
    if n.tx <= xdim {
      PassesOnScreen(xdim, ydim, stream, n);
      var rest := Passes(xdim, ydim, stream, n).points;
      var pts := Passes(xdim, ydim, stream, h).points;
      assert pts == [Point(h.tx, Nudge(h.ty, ydim))] + rest;
      assert forall i :: 1 <= i < |pts| ==> pts[i] == rest[i - 1];
    }
  }

  /**
   * A pass that holds and is not the last one appends, on the next pass, a
   * point at the same height as its own: a level segment.  A hold on the
   * last pass keeps the uncorrected lasty, so the last point is the one
   * before it only up to the y correction.
   */
  lemma {:induction false} PassesFlatHold(xdim: int, ydim: int, stream: nat -> int, h: Head)
    requires h.tx <= xdim
    ensures var p := Passes(xdim, ydim, stream, h);
      forall i :: 0 <= i < |p.held| - 1 && p.held[i] ==> p.points[i + 1].y == p.points[i].y
    ensures var p := Passes(xdim, ydim, stream, h);
      p.held[|p.held| - 1] ==> Nudge(p.points[|p.points| - 1].y, ydim) == p.points[|p.points| - 2].y
    decreases xdim - h.tx
  {
    var n := Pass(ydim, stream, h);
    if n.tx <= xdim {
      PassesFlatHold(xdim, ydim, stream, n);
      var rest := Passes(xdim, ydim, stream, n);
      var p := Passes(xdim, ydim, stream, h);
      assert p.points == [Point(h.tx, Nudge(h.ty, ydim))] + rest.points;
      assert p.held == [h.next < n.tx] + rest.held;
      forall i | 0 <= i < |p.held| - 1 && p.held[i]
        ensures p.points[i + 1].y == p.points[i].y
      {
        if i > 0 {
          assert p.held[i] == rest.held[i - 1];
          assert p.points[i + 1] == rest.points[i] && p.points[i] == rest.points[i - 1];
        }
      }
    }
  }

  /** One pass, given the two draws it makes. */
  lemma PassDraws(ydim: int, stream: nat -> int, h: Head, step: int, rise: int)
    requires step == Draw(stream, h.drawn, MinStep, MaxStep)
    requires rise == Draw(stream, h.drawn + 1, -MaxRise, MaxRise)
    ensures var n := Pass(ydim, stream, h);
      && n.drawn == h.drawn + 2 && n.tx == h.tx + step
      && (h.next < n.tx ==> n.ty == h.ty)
      && (h.next < n.tx && h.pending == [] ==> n.next == MaxSize && n.pending == [])
      && (h.next < n.tx && h.pending != [] ==> n.next == h.pending[0] && n.pending == h.pending[1..])
      && (n.tx <= h.next ==> n.ty == Nudge(h.ty, ydim) + rise as real && n.next == h.next && n.pending == h.pending)
  {
  }

  /** No pass holds while the threshold waited for is beyond the reach of the last step. */
  lemma {:induction false} NoHoldOutOfReach(xdim: int, ydim: int, stream: nat -> int, h: Head)
    requires h.tx <= xdim && xdim + MaxStep <= h.next
    ensures Count(Passes(xdim, ydim, stream, h).held) == 0
    decreases xdim - h.tx
  {
    var n := Pass(ydim, stream, h);
    if n.tx <= xdim {
      NoHoldOutOfReach(xdim, ydim, stream, n);
      assert Passes(xdim, ydim, stream, h).held[1..] == Passes(xdim, ydim, stream, n).held;
    }
  }

  /**
   * Each hold consumes one threshold, and once they run out the sentinel is
   * never crossed: at most one hold per threshold.  Every threshold lies
   * within the world, so a threshold not consumed before the last pass is
   * crossed by it: either every threshold made a hold or the last pass held.
   */
  lemma {:induction false} PassesHoldCount(xdim: int, ydim: int, stream: nat -> int, h: Head)
    requires h.tx <= xdim && h.next <= xdim && xdim + MaxStep <= MaxSize
    requires forall k :: 0 <= k < |h.pending| ==> h.pending[k] <= xdim
    ensures var p := Passes(xdim, ydim, stream, h);
      Count(p.held) <= |h.pending| + 1 && (Count(p.held) == |h.pending| + 1 || p.held[|p.held| - 1])
    decreases xdim - h.tx
  {
    var n := Pass(ydim, stream, h);
    if n.tx <= xdim {
      var p := Passes(xdim, ydim, stream, h);
      var rest := Passes(xdim, ydim, stream, n);
      assert p.held[0] == (h.next < n.tx) && p.held[1..] == rest.held;
      if h.next < n.tx {
        if h.pending == [] {
          NoHoldOutOfReach(xdim, ydim, stream, n);
        } else {
          PassesHoldCount(xdim, ydim, stream, n);
        }
      } else {
        PassesHoldCount(xdim, ydim, stream, n);
      }
    }
  }

  /** No pass before the i-th held. */
  predicate NoneBefore(held: seq<bool>, i: int) {
    forall j :: 0 <= j < i && j < |held| ==> !held[j]
  }

  /**
   * Until the first hold, a pass that is not the last holds exactly when its
   * step ends past `next`.
   */
  predicate FirstHoldAt(p: Profile, next: int)
    requires |p.points| == |p.held| + 1
  {
    forall i :: 0 <= i < |p.held| - 1 && NoneBefore(p.held, i) ==> (p.held[i] <==> next < p.points[i + 1].x)
  }

  /**
   * Thresholds are consumed in queue order: the first hold comes at the
   * first step past the threshold waited for.
   */
  lemma {:induction false} PassesFirstHold(xdim: int, ydim: int, stream: nat -> int, h: Head)
    requires h.tx <= xdim
    ensures FirstHoldAt(Passes(xdim, ydim, stream, h), h.next)
    decreases xdim - h.tx
  {
    var n := Pass(ydim, stream, h);
    if n.tx <= xdim {
      PassesFirstHold(xdim, ydim, stream, n);
      var rest := Passes(xdim, ydim, stream, n);
      var p := Passes(xdim, ydim, stream, h);
      assert p.points == [Point(h.tx, Nudge(h.ty, ydim))] + rest.points;
      assert p.held == [h.next < n.tx] + rest.held;
      forall i | 0 <= i < |p.held| - 1 && NoneBefore(p.held, i)
        ensures p.held[i] <==> h.next < p.points[i + 1].x
      {
        if i == 0 {
          assert p.held[0] == (h.next < n.tx);
          assert p.points[1] == rest.points[0];
        } else {
          assert !p.held[0];
          assert n.next == h.next;
          assert NoneBefore(rest.held, i - 1) by {
            forall j | 0 <= j < i - 1 && j < |rest.held|
              ensures !rest.held[j]
            {
              assert rest.held[j] == p.held[j + 1];
            }
          }
          assert p.held[i] == rest.held[i - 1] && p.points[i + 1] == rest.points[i];
          assert rest.held[i - 1] <==> n.next < rest.points[i].x;
        }
      }
    }
  }

  /** The terrain runs from x = 0 to x = xdim in steps of 40 to 100. */
  lemma TerrainSpansWorld(xdim: int, ydim: int, stream: nat -> int, drawn: nat)
    requires MinThreshold <= xdim
    ensures Spans(Generate(xdim, ydim, stream, drawn).points, 0, xdim)
  {
    PassesSpan(xdim, ydim, stream, FirstHead(xdim, ydim, stream, drawn));
  }

  /**
   * On any screen, every point but the last is at or above the bottom edge,
   * and the last one, which skips the correction, at most 100 below it.
   */
  lemma TerrainOnScreen(xdim: int, ydim: int, stream: nat -> int, drawn: nat)
    requires MinThreshold <= xdim && 0 <= ydim
    ensures var pts := Generate(xdim, ydim, stream, drawn).points;
      && (forall i :: 0 <= i < |pts| - 1 ==> pts[i].y <= ydim as real)
      && pts[|pts| - 1].y <= ydim as real + 100.0
  {
    PassesOnScreen(xdim, ydim, stream, FirstHead(xdim, ydim, stream, drawn));
  }

  /**
   * On a screen at most 4000/3 high, where the start at 85% of the height
   * is within 200 of the bottom edge, every point but the last lies in the
   * bottom 100 rows and the last within 200 above the edge.  On a taller
   * screen the first points can start higher.
   */
  lemma TerrainNearBottom(xdim: int, ydim: int, stream: nat -> int, drawn: nat)
    requires MinThreshold <= xdim && 0 <= ydim && ydim as real * 0.15 <= 200.0
    ensures var pts := Generate(xdim, ydim, stream, drawn).points;
      && (forall i :: 0 <= i < |pts| - 1 ==> ydim as real - 100.0 <= pts[i].y)
      && ydim as real - 200.0 <= pts[|pts| - 1].y
  {
    PassesOnScreen(xdim, ydim, stream, FirstHead(xdim, ydim, stream, drawn));
  }

  /**
   * Two thresholds are drawn whatever landing_zones says, so there are one
   * or two holds, and exactly two unless the last pass held.
   */
  lemma TerrainHoldCount(xdim: int, ydim: int, stream: nat -> int, drawn: nat)
    requires MinThreshold <= xdim && xdim + MaxStep <= MaxSize
    ensures var p := Generate(xdim, ydim, stream, drawn);
      1 <= Count(p.held) <= 2 && (Count(p.held) == 2 || p.held[|p.held| - 1])
  {
    var h := FirstHead(xdim, ydim, stream, drawn);
    PassesHoldCount(xdim, ydim, stream, h);
  }

  /** The first hold comes at the first step past the smaller threshold. */
  lemma TerrainFirstHold(xdim: int, ydim: int, stream: nat -> int, drawn: nat)
    requires MinThreshold <= xdim
    ensures FirstHoldAt(Generate(xdim, ydim, stream, drawn),
                        Min(Draw(stream, drawn, MinThreshold, xdim), Draw(stream, drawn + 1, MinThreshold, xdim)))
  {
    var h := FirstHead(xdim, ydim, stream, drawn);
    var a, b := Draw(stream, drawn, MinThreshold, xdim), Draw(stream, drawn + 1, MinThreshold, xdim);
    assert h.next == Min(a, b);
    PassesFirstHold(xdim, ydim, stream, h);
  }

  function Min(a: int, b: int): int {
    if a <= b then a else b
  }

  /** A stream whose two thresholds are both 100 and whose every later draw is 60. */
  function EdgeStream(k: nat): int {
    if k < 2 then 100 else 60
  }

  /**
   * Both thresholds can fall at the very right edge: then the only hold is
   * on the last pass, one level stretch fewer than the two thresholds ask for.
   */
  lemma EdgeThresholdsHoldOnce(ydim: int)
    ensures var p := Generate(100, ydim, EdgeStream, 0);
      Count(p.held) == 1 && p.held[|p.held| - 1]
  {
    var h0 := FirstHead(100, ydim, EdgeStream, 0);
    assert Pick(EdgeStream(0), MinThreshold, 100) == 100 && Pick(EdgeStream(1), MinThreshold, 100) == 100;
    assert h0.next == 100 && h0.pending == [100];
    assert Pick(EdgeStream(2), MinStep, MaxStep) == 60 && Pick(EdgeStream(4), MinStep, MaxStep) == 60;
    var h1 := Pass(ydim, EdgeStream, h0);
    assert h1.tx == 60 && h1.next == 100 && h1.drawn == 4;
    var h2 := Pass(ydim, EdgeStream, h1);
    assert h2.tx == 120;
    var rest := Passes(100, ydim, EdgeStream, h1);
    assert rest.held == [true];
    var p := Passes(100, ydim, EdgeStream, h0);
    assert p.held == [false, true];
    assert Count(p.held) == 1 by {
      assert p.held[1..] == [true];
      assert Count([true]) == 1;
    }
  }

  /**
   * The loop's points with `acc` already appended, accumulated pass by pass,
   * and the draw count when it stops.
   */
  function Trace(xdim: int, ydim: int, stream: nat -> int, acc: seq<Point>, h: Head): (seq<Point>, nat)
    requires h.tx <= xdim
    decreases xdim - h.tx
  {
    var n := Pass(ydim, stream, h);
    if n.tx > xdim then (acc + [Point(h.tx, Nudge(h.ty, ydim))] + [Point(xdim, n.ty)], n.drawn)
    else Trace(xdim, ydim, stream, acc + [Point(h.tx, Nudge(h.ty, ydim))], n)
  }

  /**
   * The loop only appends: what is already in the list stays, the corrected
   * head point comes next, the list ends at xdim, and at least one pass runs.
   */
  lemma {:induction false} TraceExtends(xdim: int, ydim: int, stream: nat -> int, acc: seq<Point>, h: Head)
    requires h.tx <= xdim
    ensures var r := Trace(xdim, ydim, stream, acc, h);
      && |acc| + 2 <= |r.0| && r.0[..|acc|] == acc
      && r.0[|acc|] == Point(h.tx, Nudge(h.ty, ydim)) && r.0[|r.0| - 1].x == xdim
      && h.drawn + 2 <= r.1
    decreases xdim - h.tx
  {
    var here := Point(h.tx, Nudge(h.ty, ydim));
    var n := Pass(ydim, stream, h);
    if n.tx <= xdim {
      TraceExtends(xdim, ydim, stream, acc + [here], n);
      var rest := Trace(xdim, ydim, stream, acc + [here], n);
      assert rest.0[..|acc|] == rest.0[..|acc| + 1][..|acc|];
    }
  }

  lemma TraceStep(xdim: int, ydim: int, stream: nat -> int, acc: seq<Point>, h: Head)
    requires h.tx <= xdim
    ensures var n := Pass(ydim, stream, h);
      n.tx <= xdim ==> Trace(xdim, ydim, stream, acc, h) == Trace(xdim, ydim, stream, acc + [Point(h.tx, Nudge(h.ty, ydim))], n)
    ensures var n := Pass(ydim, stream, h);
      n.tx > xdim ==> Trace(xdim, ydim, stream, acc, h) == (acc + [Point(h.tx, Nudge(h.ty, ydim))] + [Point(xdim, n.ty)], n.drawn)
  {
  }

  lemma {:induction false} TraceIsPasses(xdim: int, ydim: int, stream: nat -> int, acc: seq<Point>, h: Head)
    requires h.tx <= xdim
    ensures var p := Passes(xdim, ydim, stream, h);
      Trace(xdim, ydim, stream, acc, h) == (acc + p.points, p.drawn)
    decreases xdim - h.tx
  {
    var here := Point(h.tx, Nudge(h.ty, ydim));
    var n := Pass(ydim, stream, h);
    if n.tx <= xdim {
      TraceIsPasses(xdim, ydim, stream, acc + [here], n);
      assert acc + [here] + Passes(xdim, ydim, stream, n).points == acc + ([here] + Passes(xdim, ydim, stream, n).points);
    } else {
      assert acc + [here] + [Point(xdim, n.ty)] == acc + [here, Point(xdim, n.ty)];
    }
  }

  lemma GenerateIsTrace(xdim: int, ydim: int, stream: nat -> int, drawn: nat)
    requires MinThreshold <= xdim
    ensures var p := Generate(xdim, ydim, stream, drawn);
      Trace(xdim, ydim, stream, [], FirstHead(xdim, ydim, stream, drawn)) == (p.points, p.drawn)
  {
    var h := FirstHead(xdim, ydim, stream, drawn);
    TraceIsPasses(xdim, ydim, stream, [], h);
    assert [] + Passes(xdim, ydim, stream, h).points == Passes(xdim, ydim, stream, h).points;
  }

  // --------------------------------------------------------------- objects

  class Terrain {
    const kind: string
    const xdim: int
    const ydim: int
    /** Stored and never read. */
    const landingZones: int
    var terrain: Option<seq<Point>>

    constructor(kind: string, xdim: int, ydim: int, landingZones: int)
      ensures this.kind == kind && this.xdim == xdim && this.ydim == ydim
      ensures this.landingZones == landingZones && terrain == None
    {
      this.kind := kind;
      this.xdim := xdim;
      this.ydim := ydim;
      this.landingZones := landingZones;
      terrain := None;
    }

    /** The cached terrain, generated from rng on the first call only. */
    method GetTerrain(rng: Random) returns (points: seq<Point>)
      requires terrain == None ==> MinThreshold <= xdim
      modifies this, rng
      ensures old(terrain).Some? ==> points == old(terrain).value && terrain == old(terrain) && rng.drawn == old(rng.drawn)
      ensures old(terrain).None? ==>
        var p := Generate(xdim, ydim, rng.stream, old(rng.drawn));
        points == p.points && terrain == Some(points) && rng.drawn == p.drawn
    {
      if terrain == None {
        GenTerrain(rng);
      }
      points := terrain.value;
    }

    method GenTerrain(rng: Random)
      requires MinThreshold <= xdim
      modifies this, rng
      ensures var p := Generate(xdim, ydim, rng.stream, old(rng.drawn));
        terrain == Some(p.points) && rng.drawn == p.drawn
    {
      var terrainPoints: seq<Point> := [];
      var tx := 0;
      var ty := ydim as real * 0.85;
      var lasty := ty;
      var a := rng.RandInt(MinThreshold, xdim);
      var b := rng.RandInt(MinThreshold, xdim);
      var flatSegments := if a <= b then [a, b] else [b, a];
      var nextFlat := flatSegments[0];
      flatSegments := flatSegments[1..];
      ghost var h := Head(rng.drawn, tx, ty, nextFlat, flatSegments);
      ghost var first := h;
      assert first == FirstHead(xdim, ydim, rng.stream, old(rng.drawn));
      while true
        invariant h == Head(rng.drawn, tx, ty, nextFlat, flatSegments)
        invariant tx <= xdim && lasty == ty
        invariant Trace(xdim, ydim, rng.stream, terrainPoints, h) == Trace(xdim, ydim, rng.stream, [], first)
        decreases xdim - tx
      {
        ghost var before := terrainPoints;
        if ty < ydim as real {
          ty := ty + 100.0;
        }
        if ty > ydim as real {
          ty := ty - 100.0;
        }
        assert ty == Nudge(h.ty, ydim);
        terrainPoints := terrainPoints + [Point(tx, ty)];
        assert terrainPoints == before + [Point(h.tx, Nudge(h.ty, ydim))];
        var step := rng.RandInt(MinStep, MaxStep);
        tx := tx + step;
        var rise := rng.RandInt(-MaxRise, MaxRise);
        ty := ty + rise as real;
        PassDraws(ydim, rng.stream, h, step, rise);
        if nextFlat < tx {
          ty := lasty;
          if flatSegments == [] {
            nextFlat := MaxSize;
          } else {
            nextFlat := flatSegments[0];
            flatSegments := flatSegments[1..];
          }
        }
        assert h.next < tx ==> Head(rng.drawn, tx, ty, nextFlat, flatSegments) == Pass(ydim, rng.stream, h);
        assert tx <= h.next ==> Head(rng.drawn, tx, ty, nextFlat, flatSegments) == Pass(ydim, rng.stream, h);
        if tx > xdim {
          tx := xdim;
          terrainPoints := terrainPoints + [Point(tx, ty)];
          TraceStep(xdim, ydim, rng.stream, before, h);
          break;
        }
        TraceStep(xdim, ydim, rng.stream, before, h);
        lasty := ty;
        h := Head(rng.drawn, tx, ty, nextFlat, flatSegments);
      }
      GenerateIsTrace(xdim, ydim, rng.stream, old(rng.drawn));
      terrain := Some(terrainPoints);
    }
  }
}
