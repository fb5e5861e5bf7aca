/** The turtle's step log and the replay that `on_draw` performs over it.

    In the C++ program a step is a lambda pushed onto `steps`; each lambda
    captured its distance or angle, and a forward step also captured, in the
    choice between two lambda bodies, whether the pen was down when it was
    recorded. Here a step is a value that carries the same data, and the
    replay is a left fold over the log that yields the replayed position and
    heading and the path operations issued on the drawing pad. */
module Scene {
  import opened Geometry

  /** One recorded drawing step. */
  datatype Step =
    | Turn(degrees: real)                 // heading increment, in degrees
    | Fwd(distance: real, draw: bool)     // `draw`: the pen was down when recorded

  /** One call made on the drawing pad (the Cairo context) during a render.
      `Body` stands for the whole body icon, drawn after translating to
      `(x, y)` and rotating by `angle`. */
  datatype PadOp =
    | Translate(dx: real, dy: real)
    | MoveTo(x: real, y: real)
    | LineTo(x: real, y: real)
    | Stroke
    | Body(x: real, y: real, angle: real)

  /** What a replay computes: the turtle's `pt` and `theta`, and the path
      operations issued by the steps, in order. */
  datatype ReplayState = ReplayState(pt: Point, theta: real, path: seq<PadOp>)

  /** The state `on_draw` resets to before it runs the steps. */
  const Baseline: ReplayState := ReplayState(Origin, 0.0, [])

  /** The pad's coordinates are offset by this translation before drawing. */
  const AnchorX: real := 100.0
  const AnchorY: real := 100.0

  /** The path operation a forward step issues on arriving at `p`; the pad's
      y axis points down, so the imaginary part is negated. */
  function Mark(p: Point, draw: bool): PadOp
  {
    if draw then LineTo(p.x, -p.y) else MoveTo(p.x, -p.y)
  }

  /** Running one recorded step against the replay state. */
  function Apply(trig: Trig, s: ReplayState, step: Step): ReplayState
  {
    match step
    case Turn(d) => s.(theta := s.theta + Radians(d))
    case Fwd(d, draw) =>
      var p := Add(s.pt, Polar(trig, d, s.theta));
      s.(pt := p, path := s.path + [Mark(p, draw)])
  }

  /** Number of forward steps in a log. */
  function ForwardCount(steps: seq<Step>): nat
  {
    if steps == [] then 0
    else ForwardCount(steps[..|steps| - 1]) + (if steps[|steps| - 1].Fwd? then 1 else 0)
  }

  /** Number of forward steps recorded with the pen down. */
  function DrawCount(steps: seq<Step>): nat
  {
    if steps == [] then 0
    else DrawCount(steps[..|steps| - 1]) + (if steps[|steps| - 1].Fwd? && steps[|steps| - 1].draw then 1 else 0)
  }

  /** Sum of the degrees of all turn steps. */
  function TurnSum(steps: seq<Step>): real
  {
    if steps == [] then 0.0
    else TurnSum(steps[..|steps| - 1]) + (if steps[|steps| - 1].Turn? then steps[|steps| - 1].degrees else 0.0)
  }

  /** Number of `LineTo` operations in a sequence of pad operations. */
  function CountLines(ops: seq<PadOp>): nat
  {
    if ops == [] then 0
    else CountLines(ops[..|ops| - 1]) + (if ops[|ops| - 1].LineTo? then 1 else 0)
  }

  /** Running every step of the log, in append order, from the baseline.
      Every forward step, and nothing else, contributes exactly one path
      operation, and that operation is a `LineTo` or a `MoveTo`. */
  function Replay(steps: seq<Step>, trig: Trig): (r: ReplayState)
    ensures |r.path| == ForwardCount(steps)
    ensures forall op <- r.path :: op.LineTo? || op.MoveTo?
  {
    if steps == [] then Baseline
    else Apply(trig, Replay(steps[..|steps| - 1], trig), steps[|steps| - 1])
  }

  /** Everything one render issues on the pad: the anchor translation, the
      move to the origin, the replayed path, one stroke, and the body icon at
      the replayed pose unless the turtle is hidden. */
  function Render(steps: seq<Step>, hiding: bool, trig: Trig): seq<PadOp>
  {
    var r := Replay(steps, trig);
    [Translate(AnchorX, AnchorY), MoveTo(0.0, 0.0)] + r.path + [Stroke]
      + (if hiding then [] else [Body(r.pt.x, -r.pt.y, -r.theta)])
  }

  // ---------------------------------------------------------------------
  // Properties of the replay

  /** After a replay the heading is the sum of all recorded turns, in radians. */
  lemma {:induction false} ReplayHeading(steps: seq<Step>, trig: Trig)
    ensures Replay(steps, trig).theta == Radians(TurnSum(steps))
  {
    if steps != [] {
      var init := steps[..|steps| - 1];
      ReplayHeading(init, trig);
      var last := steps[|steps| - 1];
      RadiansAdd(TurnSum(init), if last.Turn? then last.degrees else 0.0);
    }
  }

  lemma {:induction false} CountLinesAppend(ops: seq<PadOp>, more: seq<PadOp>)
    ensures CountLines(ops + more) == CountLines(ops) + CountLines(more)
  {
    if more == [] {
      assert ops + more == ops;
    } else {
      var init := more[..|more| - 1];
      assert (ops + more)[..|ops + more| - 1] == ops + init;
      assert (ops + more)[|ops + more| - 1] == more[|more| - 1];
      CountLinesAppend(ops, init);
    }
  }

  /** The replayed path holds one `LineTo` per forward step recorded with the
      pen down, whatever the pen state is when the replay runs. */
  lemma {:induction false} ReplayLines(steps: seq<Step>, trig: Trig)
    ensures CountLines(Replay(steps, trig).path) == DrawCount(steps)
  {
    if steps != [] {
      var init := steps[..|steps| - 1];
      ReplayLines(init, trig);
      var before := Replay(init, trig);
      match steps[|steps| - 1]
      case Turn(_) =>
      case Fwd(d, draw) =>
        var p := Add(before.pt, Polar(trig, d, before.theta));
        CountLinesAppend(before.path, [Mark(p, draw)]);
        assert CountLines([Mark(p, draw)]) == if draw then 1 else 0 by {
          assert [Mark(p, draw)][..0] == [];
        }
    }
  }

  /** Appending steps to the log never changes what the earlier steps drew:
      the replayed path of a log is a prefix of that of any extension. */
  lemma {:induction false} PathGrows(steps: seq<Step>, more: seq<Step>, trig: Trig)
    ensures Replay(steps, trig).path <= Replay(steps + more, trig).path
  {
    if more == [] {
      assert steps + more == steps;
    } else {
      var init := more[..|more| - 1];
      assert (steps + more)[..|steps + more| - 1] == steps + init;
      PathGrows(steps, init, trig);
      var before := Replay(steps + init, trig).path;
      var after := Replay(steps + more, trig).path;
      assert before <= after by {
        assert after == before || after[..|before|] == before;
      }
    }
  }

  /** The path operation of the forward step at index `i` is a `LineTo` when
      that step was recorded with the pen down and a `MoveTo` otherwise, and
      it goes to the replayed position after that step: the pen choice is
      frozen in the step when it is recorded. */
  lemma PenFrozen(steps: seq<Step>, trig: Trig, i: nat)
    requires i < |steps| && steps[i].Fwd?
    ensures ForwardCount(steps[..i]) < |Replay(steps, trig).path|
    ensures Replay(steps, trig).path[ForwardCount(steps[..i])].LineTo? == steps[i].draw
    ensures Replay(steps, trig).path[ForwardCount(steps[..i])] == Mark(Replay(steps[..i + 1], trig).pt, steps[i].draw)
  {
    assert steps[..i + 1][..i] == steps[..i];
    assert steps[..i + 1] + steps[i + 1..] == steps;
    PathGrows(steps[..i + 1], steps[i + 1..], trig);
  }

  /** A left turn followed by a right turn by the same angle leaves the whole
      replay state as it was. */
  lemma TurnsCancel(steps: seq<Step>, degrees: real, trig: Trig)
    ensures Replay(steps + [Turn(degrees), Turn(-degrees)], trig) == Replay(steps, trig)
  {
    var once := steps + [Turn(degrees)];
    assert (steps + [Turn(degrees), Turn(-degrees)])[..|steps| + 1] == once;
    assert once[..|steps|] == steps;
    RadiansAdd(degrees, 0.0);
  }

  /** Moving forward and then backward by the same distance returns to the
      same position and heading, issuing exactly two path operations. */
  lemma ForwardThenBack(steps: seq<Step>, distance: real, down1: bool, down2: bool, trig: Trig)
    ensures var r := Replay(steps, trig);
            var r2 := Replay(steps + [Fwd(distance, down1), Fwd(-distance, down2)], trig);
            r2.pt == r.pt && r2.theta == r.theta
            && r2.path == r.path + [Mark(Add(r.pt, Polar(trig, distance, r.theta)), down1), Mark(r.pt, down2)]
  {
    var once := steps + [Fwd(distance, down1)];
    assert (steps + [Fwd(distance, down1), Fwd(-distance, down2)])[..|steps| + 1] == once;
    assert once[..|steps|] == steps;
    var r := Replay(steps, trig);
    PolarNegate(trig, distance, r.theta);
  }

  /** A turn step draws nothing and moves nothing. */
  lemma TurnDrawsNothing(steps: seq<Step>, degrees: real, trig: Trig)
    ensures var r := Replay(steps, trig);
            var r2 := Replay(steps + [Turn(degrees)], trig);
            r2.pt == r.pt && r2.path == r.path && r2.theta == r.theta + Radians(degrees)
  {
    assert (steps + [Turn(degrees)])[..|steps|] == steps;
  }

  /** The layout of one render: the anchor translation and the move to the
      origin come first; exactly one stroke follows the replayed path; the
      body icon is drawn, last and at the replayed heading, exactly when the
      turtle is not hidden. */
  lemma RenderLayout(steps: seq<Step>, hiding: bool, trig: Trig)
    ensures var pad := Render(steps, hiding, trig);
            var n := ForwardCount(steps);
            |pad| == n + (if hiding then 3 else 4)
            && pad[0] == Translate(AnchorX, AnchorY) && pad[1] == MoveTo(0.0, 0.0)
            && (forall k | 0 <= k < |pad| :: pad[k].Stroke? <==> k == n + 2)
            && (forall k | 0 <= k < |pad| :: pad[k].Body? <==> !hiding && k == n + 3)
            && (!hiding ==> pad[n + 3].angle == -Radians(TurnSum(steps)))
  {
    var r := Replay(steps, trig);
    var pad := Render(steps, hiding, trig);
    forall k | 2 <= k < |r.path| + 2
      ensures !pad[k].Stroke? && !pad[k].Body?
    {
      assert pad[k] == r.path[k - 2];
      assert r.path[k - 2] in r.path;
    }
    ReplayHeading(steps, trig);
  }

  /** The segments of a frame are exactly those of the forward steps
      recorded with the pen down: nothing else in a render draws a line. */
  lemma RenderLines(steps: seq<Step>, hiding: bool, trig: Trig)
    ensures CountLines(Render(steps, hiding, trig)) == DrawCount(steps)
  {
    var r := Replay(steps, trig);
    var head := [Translate(AnchorX, AnchorY), MoveTo(0.0, 0.0)];
    var tail := [Stroke] + (if hiding then [] else [Body(r.pt.x, -r.pt.y, -r.theta)]);
    assert Render(steps, hiding, trig) == head + r.path + tail;
    ReplayLines(steps, trig);
    CountLinesAppend(head, r.path);
    CountLinesAppend(head + r.path, tail);
    assert CountLines(head) == 0 by {
      assert head[..1] == [Translate(AnchorX, AnchorY)];
      assert head[..1][..0] == [];
    }
    assert CountLines(tail) == 0 by {
      if !hiding {
        assert tail[..1] == [Stroke];
      }
      assert tail[..1][..0] == [];
    }
  }

  /** Hiding the turtle only leaves out the body icon: the render of a hidden
      turtle is the render of a shown one minus its last operation. */
  lemma HidingKeepsPath(steps: seq<Step>, trig: Trig)
    ensures var shown := Render(steps, false, trig);
            |shown| > 0 && Render(steps, true, trig) == shown[..|shown| - 1]
            && shown[|shown| - 1].Body?
  {
  }

  /** The log of the sample program: `lt(90); fd(50); rt(90); bk(25); fd(50)`
      with the pen down throughout. */
  const SampleLog: seq<Step> := [Turn(90.0), Fwd(50.0, true), Turn(-90.0), Fwd(-25.0, true), Fwd(50.0, true)]

  /** With exact trigonometry at headings 0 and pi/2, the sample program ends
      at (25, 50) facing heading 0, after three drawn segments. */
  lemma SampleReplay(trig: Trig)
    requires trig.cos(0.0) == 1.0 && trig.sin(0.0) == 0.0
    requires trig.cos(Pi / 2.0) == 0.0 && trig.sin(Pi / 2.0) == 1.0
    ensures Replay(SampleLog, trig)
            == ReplayState(Point(25.0, 50.0), 0.0, [LineTo(0.0, -50.0), LineTo(-25.0, -50.0), LineTo(25.0, -50.0)])
  {
    var s := SampleLog;
    assert s[..1][..0] == [];
    assert s[..2][..1] == s[..1];
    assert s[..3][..2] == s[..2];
    assert s[..4][..3] == s[..3];
    assert s[..5] == s && s[..5][..4] == s[..4];
    assert Replay(s[..1], trig) == ReplayState(Origin, Pi / 2.0, []);
    assert Replay(s[..2], trig) == ReplayState(Point(0.0, 50.0), Pi / 2.0, [LineTo(0.0, -50.0)]);
    assert Replay(s[..3], trig) == ReplayState(Point(0.0, 50.0), 0.0, [LineTo(0.0, -50.0)]);
    assert Replay(s[..4], trig) == ReplayState(Point(-25.0, 50.0), 0.0, [LineTo(0.0, -50.0), LineTo(-25.0, -50.0)]);
  }
}
