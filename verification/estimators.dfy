/** The two numeric estimators of a drawing session and what a run of pointer
    moves does to them. Each estimator owns its own queue of sample points:
    the integral queue slides by one point per drawing step, the derivative
    queue gives up a batch of five once it holds more than five. */
module Estimators {
  import opened Geometry

  /** Points per derivative batch. */
  const DerivativePrecision: nat := 5

  /** JavaScript truthiness of a `number | null`: null and 0 are both falsy. */
  predicate Truthy(v: Option<real>)
  {
    v.Some? && v.value != 0.0
  }

  /** `Array.prototype.shift` on a queue: drop the first point, if any. */
  function Shift(q: seq<Point>): (r: seq<Point>)
    ensures q == [] ==> r == []
    ensures q != [] ==> [q[0]] + r == q
  {
    if q == [] then [] else q[1..]
  }

  /** Area of the rectangle whose height is the left point's y and whose width runs to the right point. */
  function LeftRectangle(p1: Point, p2: Point): real
  {
    p1.y * (p2.x - p1.x)
  }

  /** The integral estimator: the left-rectangle area of the first two queued
      points, or nothing for fewer than two points or a vertical pair. The area
      it refuses, and the area a falsy zero would skip, are both zero, so
      treating them as "no value" never loses area. */
  function CalcIntegral(q: seq<Point>): (area: Option<real>)
    ensures area.None? <==> |q| < 2 || q[0].x == q[1].x
    ensures area.Some? ==> area.value == LeftRectangle(q[0], q[1])
    ensures |q| >= 2 ==> (if Truthy(area) then area.value else 0.0) == LeftRectangle(q[0], q[1])
  {
    if |q| < 2 || q[0].x == q[1].x then None else Some(LeftRectangle(q[0], q[1]))
  }

  /** The derivative of one removed batch: the slope from its first to its fifth point,
      or nothing when the batch is short or vertical. */
  function Slope(batch: seq<Point>): (d: Option<real>)
    ensures d.None? <==> |batch| < DerivativePrecision || batch[0].x == batch[DerivativePrecision - 1].x
    ensures d.Some? ==> batch[0].y + d.value * (batch[DerivativePrecision - 1].x - batch[0].x)
                        == batch[DerivativePrecision - 1].y
  {
    if |batch| < DerivativePrecision || batch[0].x == batch[DerivativePrecision - 1].x then None
    else
      var p1 := batch[0];
      var p2 := batch[DerivativePrecision - 1];
      Some((p2.y - p1.y) / (p2.x - p1.x))
  }

  /** The state the integral estimator reads and writes: the running integral and its queue. */
  datatype IntegralWindow = IntegralWindow(total: real, queue: seq<Point>)

  /** The state the derivative estimator reads and writes: the previous slope and its queue. */
  datatype DerivativeWindow = DerivativeWindow(prev: Option<real>, queue: seq<Point>)

  /** The integral half of one drawing step: compute the area of the first pair,
      shift the queue, and, when the integral is shown and the area is truthy,
      add the area and draw the segment from the old to the new running integral. */
  function IntegralStep(w: IntegralWindow, show: bool): (r: (IntegralWindow, Option<Segment>))
    ensures r.0.queue == Shift(w.queue)
    ensures r.0.total != w.total ==>
              show && Truthy(CalcIntegral(w.queue)) && r.0.total == w.total + CalcIntegral(w.queue).value
    ensures r.0.total == if show && |w.queue| >= 2 then w.total + LeftRectangle(w.queue[0], w.queue[1]) else w.total
    ensures r.1.Some? <==> show && Truthy(CalcIntegral(w.queue))
    ensures r.1.Some? ==> |w.queue| >= 2 && r.1.value == Segment(Point(w.queue[0].x, w.total), Point(w.queue[1].x, r.0.total))
  {
    var area := CalcIntegral(w.queue);
    var rest := Shift(w.queue);
    if show && Truthy(area) && w.queue != [] then
      var total := w.total + area.value;
      (IntegralWindow(total, rest), Some(Segment(Point(w.queue[0].x, w.total), Point(rest[0].x, total))))
    else
      (IntegralWindow(w.total, rest), None)
  }

  /** The derivative half of one drawing step. Only when the derivative is shown and
      more than five points are queued is a batch of five removed; its slope then
      becomes the previous slope if there was none, and otherwise, when truthy,
      is drawn from the previous slope and replaces it. */
  function DerivativeStep(w: DerivativeWindow, show: bool): (r: (DerivativeWindow, Option<Segment>))
    ensures !(show && |w.queue| > DerivativePrecision) ==> r.0 == w && r.1.None?
    ensures show && |w.queue| > DerivativePrecision ==> r.0.queue == w.queue[DerivativePrecision..]
    ensures show && |w.queue| > DerivativePrecision && w.prev.None? ==>
              r.0.prev == Slope(w.queue[..DerivativePrecision]) && r.1.None?
    ensures w.prev.Some? && r.1.None? ==> r.0.prev == w.prev
    ensures r.1.Some? <==>
              show && |w.queue| > DerivativePrecision && w.prev.Some? && Truthy(Slope(w.queue[..DerivativePrecision]))
    ensures r.1.Some? ==>
              && |w.queue| > DerivativePrecision
              && Truthy(Slope(w.queue[..DerivativePrecision]))
              && w.prev == Some(r.1.value.from.y)
              && r.0.prev == Some(r.1.value.to.y)
              && r.0.prev == Slope(w.queue[..DerivativePrecision])
              && r.1.value.from.x == w.queue[0].x
              && r.1.value.to.x == w.queue[DerivativePrecision - 1].x
  {
    if show && |w.queue| > DerivativePrecision then
      var d := Slope(w.queue[..DerivativePrecision]);
      var rest := w.queue[DerivativePrecision..];
      if w.prev.None? then
        (DerivativeWindow(d, rest), None)
      else if Truthy(d) then
        var seg := Segment(Point(w.queue[0].x, w.prev.value), Point(w.queue[DerivativePrecision - 1].x, d.value));
        (DerivativeWindow(d, rest), Some(seg))
      else
        (DerivativeWindow(w.prev, rest), None)
    else
      (w, None)
  }

  /** The left Riemann sum over consecutive pairs of a sample sequence. */
  function LeftSum(pts: seq<Point>): real
    decreases |pts|
  {
    if |pts| < 2 then 0.0 else LeftRectangle(pts[0], pts[1]) + LeftSum(pts[1..])
  }

  /** The integral window after a run of pointer moves while capturing: each move
      takes one drawing step and then appends its point. */
  function IntegralRun(w: IntegralWindow, moves: seq<Point>, show: bool): IntegralWindow
    decreases |moves|
  {
    if moves == [] then w
    else
      var next := IntegralStep(w, show).0;
      IntegralRun(IntegralWindow(next.total, next.queue + [moves[0]]), moves[1..], show)
  }

  function Drawn(s: Option<Segment>): seq<Segment>
  {
    if s.Some? then [s.value] else []
  }

  /** The derivative window after a run of pointer moves while capturing, with
      the derivative segments drawn along the way, in order. */
  function DerivativeRun(w: DerivativeWindow, moves: seq<Point>, show: bool): (DerivativeWindow, seq<Segment>)
    decreases |moves|
  {
    if moves == [] then (w, [])
    else
      var step := DerivativeStep(w, show);
      var rest := DerivativeRun(DerivativeWindow(step.0.prev, step.0.queue + [moves[0]]), moves[1..], show);
      (rest.0, Drawn(step.1) + rest.1)
  }

  /** With the integral shown, the running integral plus the area still pending in
      the queue is always the left Riemann sum of everything queued so far. The
      queue keeps its length, so this holds for a later stroke of the same epoch
      too, whose press adds the rectangle bridging from the previous stroke. */
  lemma {:induction false} IntegralRunIsLeftSum(w: IntegralWindow, moves: seq<Point>)
    requires |w.queue| >= 2
    decreases |moves|
    ensures var r := IntegralRun(w, moves, true);
            |r.queue| == |w.queue| && r.total + LeftSum(r.queue) == w.total + LeftSum(w.queue + moves)
  {
    if moves == [] {
      assert w.queue + moves == w.queue;
    } else {
      var next := IntegralStep(w, true).0;
      var w' := IntegralWindow(next.total, next.queue + [moves[0]]);
      assert w'.queue == w.queue[1..] + [moves[0]];
      IntegralRunIsLeftSum(w', moves[1..]);
      assert (w.queue + moves)[1..] == w'.queue + moves[1..];
      assert LeftSum(w.queue + moves) == LeftRectangle(w.queue[0], w.queue[1]) + LeftSum(w'.queue + moves[1..]);
      assert IntegralRun(w, moves, true) == IntegralRun(w', moves[1..], true);
    }
  }

  /** With a single queued point (a clear or a zoom while the button is held
      leaves capturing on with an emptied queue) the running integral stays
      frozen over any run of moves, however they are drawn. */
  lemma {:induction false} SinglePointRunKeepsTotal(w: IntegralWindow, moves: seq<Point>, show: bool)
    requires |w.queue| == 1
    decreases |moves|
    ensures IntegralRun(w, moves, show).total == w.total
    ensures |IntegralRun(w, moves, show).queue| == 1
  {
    if moves != [] {
      var next := IntegralStep(w, show).0;
      assert next == IntegralWindow(w.total, []);
      SinglePointRunKeepsTotal(IntegralWindow(next.total, next.queue + [moves[0]]), moves[1..], show);
    }
  }

  /** A stroke started after a clear (pointer-down queues its point twice, then
      every move draws and queues) accumulates exactly the left Riemann sum of
      the stroke's points, apart from the last pair, which is still pending. */
  lemma StrokeFromClearIsLeftSum(p: Point, moves: seq<Point>)
    ensures var r := IntegralRun(IntegralWindow(0.0, [p, p]), moves, true);
            r.total + LeftSum(r.queue) == LeftSum([p] + moves)
  {
    IntegralRunIsLeftSum(IntegralWindow(0.0, [p, p]), moves);
    assert ([p, p] + moves)[1..] == [p] + moves;
  }

  /** With the integral hidden, the running integral does not move at all, while
      its queue keeps sliding. */
  lemma {:induction false} HiddenIntegralRunKeepsTotal(w: IntegralWindow, moves: seq<Point>)
    decreases |moves|
    ensures IntegralRun(w, moves, false).total == w.total
  {
    if moves != [] {
      var next := IntegralStep(w, false).0;
      HiddenIntegralRunKeepsTotal(IntegralWindow(next.total, next.queue + [moves[0]]), moves[1..]);
    }
  }

  /** One shown step on a queue of at least two points adds the first pair's
      left-rectangle area and drops the first point. */
  lemma ShownStep(w: IntegralWindow)
    requires |w.queue| >= 2
    ensures IntegralStep(w, true).0 == IntegralWindow(w.total + LeftRectangle(w.queue[0], w.queue[1]), w.queue[1..])
  {
  }

  lemma RunOneMove(w: IntegralWindow, m: Point, ms: seq<Point>, next: IntegralWindow)
    requires IntegralStep(w, true).0 == next
    ensures IntegralRun(w, [m] + ms, true) == IntegralRun(IntegralWindow(next.total, next.queue + [m]), ms, true)
  {
  }

  /** A stroke pressed at `a` after a clear and moved through `b` and `c`: each
      move draws before it queues its own point, so after `c` only the pair a-b
      has been counted, and the pair b-c is only counted by the move after `c`. */
  lemma {:induction false} StrokeLagsOneMove(a: Point, b: Point, c: Point, d: Point)
    ensures IntegralRun(IntegralWindow(0.0, [a, a]), [b, c], true).total == LeftRectangle(a, b)
    ensures IntegralRun(IntegralWindow(0.0, [a, a]), [b, c, d], true).total
            == LeftRectangle(a, b) + LeftRectangle(b, c)
  {
    var w0 := IntegralWindow(0.0, [a, a]);
    var w1 := IntegralWindow(0.0, [a, b]);
    var w2 := IntegralWindow(LeftRectangle(a, b), [b, c]);
    var w3 := IntegralWindow(LeftRectangle(a, b) + LeftRectangle(b, c), [c, d]);
    ShownStep(w0);
    RunOneMove(w0, b, [c], IntegralWindow(0.0, [a]));
    RunOneMove(w0, b, [c, d], IntegralWindow(0.0, [a]));
    assert [a] + [b] == w1.queue;
    ShownStep(w1);
    RunOneMove(w1, c, [], IntegralWindow(LeftRectangle(a, b), [b]));
    RunOneMove(w1, c, [d], IntegralWindow(LeftRectangle(a, b), [b]));
    assert [b] + [c] == w2.queue;
    assert IntegralRun(w2, [], true) == w2;
    ShownStep(w2);
    RunOneMove(w2, d, [], IntegralWindow(w3.total, [c]));
    assert [c] + [d] == w3.queue;
    assert IntegralRun(w3, [], true) == w3;
  }

  /** The samples (0,0), (1,2), (3,2): the running integral is still 0 after the
      third point and becomes 4 only on the next move. */
  lemma IntegralLagsOneMove(next: Point)
    ensures IntegralRun(IntegralWindow(0.0, [Point(0.0, 0.0), Point(0.0, 0.0)]),
                        [Point(1.0, 2.0), Point(3.0, 2.0)], true).total == 0.0
    ensures IntegralRun(IntegralWindow(0.0, [Point(0.0, 0.0), Point(0.0, 0.0)]),
                        [Point(1.0, 2.0), Point(3.0, 2.0), next], true).total == 4.0
  {
    StrokeLagsOneMove(Point(0.0, 0.0), Point(1.0, 2.0), Point(3.0, 2.0), next);
  }

  /** Consecutive segments join: each starts at the height where the one before it ends. */
  ghost predicate Continuous(segs: seq<Segment>)
  {
    forall i :: 0 < i < |segs| ==> segs[i].from.y == segs[i - 1].to.y
  }

  lemma ContinuousPrepend(s: Segment, rest: seq<Segment>)
    requires Continuous(rest)
    requires rest != [] ==> rest[0].from.y == s.to.y
    ensures Continuous([s] + rest)
  {
  }

  /** The drawn derivative curve has no vertical jumps: each segment starts at the
      height where the previous one ended, the first starts at the previous slope
      that was already set, and afterwards the previous slope is the last segment's end. */
  lemma {:induction false} DerivativeRunIsContinuous(w: DerivativeWindow, moves: seq<Point>, show: bool)
    decreases |moves|
    ensures var r := DerivativeRun(w, moves, show);
            && Continuous(r.1)
            && (|r.1| > 0 ==> r.0.prev == Some(r.1[|r.1| - 1].to.y))
            && (|r.1| > 0 && w.prev.Some? ==> r.1[0].from.y == w.prev.value)
            && (|r.1| == 0 && w.prev.Some? ==> r.0.prev == w.prev)
  {
    if moves != [] {
      var step := DerivativeStep(w, show);
      var w' := DerivativeWindow(step.0.prev, step.0.queue + [moves[0]]);
      DerivativeRunIsContinuous(w', moves[1..], show);
      var rest := DerivativeRun(w', moves[1..], show);
      assert DerivativeRun(w, moves, show) == (rest.0, Drawn(step.1) + rest.1);
      if step.1.Some? {
        ContinuousPrepend(step.1.value, rest.1);
      } else {
        assert Drawn(step.1) + rest.1 == rest.1;
      }
    }
  }

  /** `after` is what remains of `before` once some whole batches were taken from its front. */
  ghost predicate ConsumedInBatches(before: seq<Point>, after: seq<Point>)
  {
    var n := |before| - |after|;
    && 0 <= n
    && n % DerivativePrecision == 0
    && after == before[n..]
  }

  /** One derivative step removes either nothing or one whole batch from the front of the queue. */
  lemma StepDropsBatch(w: DerivativeWindow, show: bool)
    ensures var c := |w.queue| - |DerivativeStep(w, show).0.queue|;
            (c == 0 || c == DerivativePrecision) && DerivativeStep(w, show).0.queue == w.queue[c..]
    ensures ConsumedInBatches(w.queue, DerivativeStep(w, show).0.queue)
  {
  }

  /** Points queued behind both sides do not change which batches were taken. */
  lemma ConsumedAppend(s: seq<Point>, s': seq<Point>, t: seq<Point>)
    requires ConsumedInBatches(s, s')
    ensures ConsumedInBatches(s + t, s' + t)
  {
  }

  lemma ConsumedTrans(a: seq<Point>, b: seq<Point>, c: seq<Point>)
    requires ConsumedInBatches(a, b) && ConsumedInBatches(b, c)
    ensures ConsumedInBatches(a, c)
  {
  }

  /** The derivative queue is always consumed in whole batches from its front:
      what remains is what was queued minus a multiple of five leading points. */
  lemma {:induction false} DerivativeRunConsumesBatches(w: DerivativeWindow, moves: seq<Point>, show: bool)
    decreases |moves|
    ensures var r := DerivativeRun(w, moves, show).0;
            ConsumedInBatches(w.queue + moves, r.queue)
  {
    if moves == [] {
      assert w.queue + moves == w.queue;
      assert w.queue[0..] == w.queue;
    } else {
      var step := DerivativeStep(w, show);
      var w' := DerivativeWindow(step.0.prev, step.0.queue + [moves[0]]);
      DerivativeRunConsumesBatches(w', moves[1..], show);
      assert DerivativeRun(w, moves, show).0 == DerivativeRun(w', moves[1..], show).0;
      StepDropsBatch(w, show);
      ConsumedAppend(w.queue, step.0.queue, moves);
      assert moves == [moves[0]] + moves[1..];
      assert step.0.queue + moves == w'.queue + moves[1..];
      ConsumedTrans(w.queue + moves, w'.queue + moves[1..], DerivativeRun(w, moves, show).0.queue);
    }
  }
}
