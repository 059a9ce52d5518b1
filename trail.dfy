/**
 * The bounded trail recorder of src/tracer.ts: a first-in first-out buffer of
 * the most recent positions of the ball, drawn as a polyline.
 *
 * Positions are only stored and handed to the renderer, never computed on,
 * so their type is a parameter `P`. Drawing is abstracted to a `Graphics`
 * object that records the line segments stroked into it.
 */
module Trail {

  /** Capacity of the trail (src/tracer.ts:3). */
  const MAX_POINTS: nat := 1000

  function Min(a: int, b: int): int { if a <= b then a else b }

  function Max(a: int, b: int): int { if a <= b then b else a }

  /** One stroked line, from one recorded position to the next. */
  datatype Segment<P> = Segment(from: P, to: P)

  /** The last `n` elements of `s` (all of `s` when it is shorter), oldest first. */
  function LastN<P>(s: seq<P>, n: nat): (r: seq<P>)
    ensures |r| == Min(n, |s|)
    ensures forall i :: 0 <= i < |r| ==> r[i] == s[|s| - |r| + i]
  {
    s[|s| - Min(n, |s|)..]
  }

  /**
   * The trail after one `trace` call: the new position is appended and the
   * oldest positions beyond the capacity are dropped.
   */
  function TraceStep<P>(s: seq<P>, p: P): (r: seq<P>)
    ensures |r| == Min(|s| + 1, MAX_POINTS)
    ensures r[|r| - 1] == p
    ensures |s| < MAX_POINTS ==> r == s + [p]
    ensures |s| == MAX_POINTS ==> r == s[1..] + [p]
  {
    var r := LastN(s + [p], MAX_POINTS);
    assert |s| < MAX_POINTS ==> r == s + [p];
    assert |s| == MAX_POINTS ==> r == s[1..] + [p] by {
      if |s| == MAX_POINTS {
        assert (s + [p])[1..] == s[1..] + [p];
      }
    }
    r
  }

  /** The trail of a tracer created empty after tracing `ps` in order. */
  function Recorded<P>(ps: seq<P>): (r: seq<P>)
    ensures |r| <= MAX_POINTS
  {
    if ps == [] then [] else TraceStep(Recorded(ps[..|ps| - 1]), ps[|ps| - 1])
  }

  /** The consecutive-pair segments of a polyline through `s`. */
  function Segments<P>(s: seq<P>): (r: seq<Segment<P>>)
    ensures |r| == Max(0, |s| - 1)
    ensures forall i :: 0 <= i < |r| ==> r[i] == Segment(s[i], s[i + 1])
    decreases |s|
  {
    if |s| < 2 then [] else [Segment(s[0], s[1])] + Segments(s[1..])
  }

  /** Trimming to the last `n` elements and then tracing `p` is the same as tracing `p` untrimmed. */
  lemma LastNSnoc<P>(q: seq<P>, p: P, n: nat)
    ensures LastN(LastN(q, n) + [p], n) == LastN(q + [p], n)
  {
    var a := LastN(q, n) + [p];
    var lhs, rhs := LastN(a, n), LastN(q + [p], n);
    assert |lhs| == |rhs|;
    forall i | 0 <= i < |lhs| ensures lhs[i] == rhs[i] {
      var j := |a| - |lhs| + i;
      if j < |a| - 1 {
        assert a[j] == LastN(q, n)[j];
      }
    }
  }

  /**
   * From an empty tracer, tracing the positions `ps` one by one leaves exactly
   * the last min(|ps|, MAX_POINTS) of them, in the order they were traced.
   */
  lemma {:induction false} RecordedIsLastN<P>(ps: seq<P>)
    ensures Recorded(ps) == LastN(ps, MAX_POINTS)
  {
    if ps != [] {
      var q, p := ps[..|ps| - 1], ps[|ps| - 1];
      assert q + [p] == ps;
      calc {
        Recorded(ps);
        TraceStep(Recorded(q), p);
        { RecordedIsLastN(q); }
        TraceStep(LastN(q, MAX_POINTS), p);
        LastN(LastN(q, MAX_POINTS) + [p], MAX_POINTS);
        { LastNSnoc(q, p, MAX_POINTS); }
        LastN(q + [p], MAX_POINTS);
      }
    }
  }

  /** Tracing (1,1), (2,2), (3,3) and rendering draws (1,1)-(2,2) and (2,2)-(3,3). */
  lemma {:induction false} ThreePointsTwoSegments<P>(a: P, b: P, c: P)
    ensures Segments(Recorded([a, b, c])) == [Segment(a, b), Segment(b, c)]
  {
    RecordedIsLastN([a, b, c]);
    assert Recorded([a, b, c]) == [a, b, c];
  }

  /** The drawing surface of a trail: the segments stroked since the last clear. */
  class Graphics<P> {
    var strokes: seq<Segment<P>>

    constructor ()
      ensures strokes == []
    {
      strokes := [];
    }

    method Clear()
      modifies this
      ensures strokes == []
    {
      strokes := [];
    }

    /** A `moveTo`, `lineTo`, `stroke` sequence: one more segment on the surface. */
    method StrokeLine(from: P, to: P)
      modifies this
      ensures strokes == old(strokes) + [Segment(from, to)]
    {
      strokes := strokes + [Segment(from, to)];
    }
  }

  class Tracer<P> {
    var points: seq<P>
    const gfx: Graphics<P>
    /** Every position traced since the tracer was created, oldest first. */
    ghost var history: seq<P>

    /** The trail holds what tracing the whole history from empty leaves. */
    ghost predicate Valid()
      reads this
    {
      points == Recorded(history)
    }

    /** `initTracer`: an empty trail with a fresh drawing surface. */
    constructor ()
      ensures Valid() && history == []
      ensures points == [] && fresh(gfx) && gfx.strokes == []
    {
      points := [];
      gfx := new Graphics();
      history := [];
    }

    /** `trace`: push `p`, then splice off the oldest points beyond the capacity. */
    method Trace(p: P)
      modifies this
      ensures points == TraceStep(old(points), p)
      ensures history == old(history) + [p]
      ensures old(Valid()) ==> Valid() && points == LastN(history, MAX_POINTS)
    {
      points := points + [p];
      var excess := Max(0, |points| - MAX_POINTS);
      points := points[excess..];
      history := history + [p];
      assert history[..|history| - 1] == old(history);
      RecordedIsLastN(history);
    }

    /** `renderTracer`: clear the surface, then stroke each consecutive pair of points. */
    method Render()
      modifies gfx
      ensures gfx.strokes == Segments(points)
      ensures points == old(points)
    {
      gfx.Clear();
      var i := 0;
      while i < |points| - 1
        invariant 0 <= i <= Max(0, |points| - 1)
        invariant |gfx.strokes| == i
        invariant forall k :: 0 <= k < i ==> gfx.strokes[k] == Segment(points[k], points[k + 1])
      {
        gfx.StrokeLine(points[i], points[i + 1]);
        i := i + 1;
      }
      var segments := Segments(points);
      assert |gfx.strokes| == |segments|;
      forall k | 0 <= k < |segments| ensures gfx.strokes[k] == segments[k] {
        assert gfx.strokes[k] == Segment(points[k], points[k + 1]);
        assert segments[k] == Segment(points[k], points[k + 1]);
      }
    }
  }
}
