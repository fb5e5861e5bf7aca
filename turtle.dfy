/** The turtle object of `Turtle.h`: its append-only step log, its pen and
    visibility flags, the commands that record steps or flip flags, the
    render (`Drawing::on_draw`) that replays the log, and the free functions
    `rt`, `lt`, `bk`, `fd`, `pu`, `pd`, `ht`, `st` of namespace `turtle`.
    The free functions act on the turtle passed to them, which stands for the
    program's single global instance. */
module Turtles {
  import opened Geometry
  import opened Scene

  class Turtle {
    /** The recorded steps, in the order the commands issued them. */
    var steps: seq<Step>
    /** Position and heading: written only while a render replays the log. */
    var pt: Point
    var theta: real
    /** Pen down. */
    var marking: bool
    /** Body icon not drawn. */
    var hiding: bool

    /** The initial values of the fields; the window and the rendering thread
        are not part of this model. */
    constructor ()
      ensures steps == [] && pt == Origin && theta == 0.0 && marking && !hiding
    {
      steps := [];
      pt := Origin;
      theta := 0.0;
      marking := true;
      hiding := false;
    }

    /** Appends one step at the end of the log; earlier steps are untouched. */
    method AddStep(step: Step)
      modifies this`steps
      ensures steps == old(steps) + [step]
    {
      steps := steps + [step];
    }

    /** Records a forward step whose pen choice is the pen state now. */
    method Forward(distance: real)
      modifies this`steps
      ensures steps == old(steps) + [Fwd(distance, marking)]
    {
      if marking {
        AddStep(Fwd(distance, true));
      } else {
        AddStep(Fwd(distance, false));
      }
    }

    /** Records a heading increment of `degrees`. */
    method Turn(degrees: real)
      modifies this`steps
      ensures steps == old(steps) + [Step.Turn(degrees)]
    {
      AddStep(Step.Turn(degrees));
    }

    /** Sets the pen state; no step is recorded. */
    method SetMarking(state: bool)
      modifies this`marking
      ensures marking == state
    {
      marking := state;
    }

    /** Sets whether the body icon is drawn; no step is recorded. */
    method SetHiding(state: bool)
      modifies this`hiding
      ensures hiding == state
    {
      hiding := state;
    }

    /** Runs every recorded step, in append order, against `pt` and `theta`,
        issuing the path operations after `pad0`. */
    method RunSteps(trig: Trig, pad0: seq<PadOp>) returns (pad: seq<PadOp>)
      requires pt == Origin && theta == 0.0
      modifies this`pt, this`theta
      ensures pad == pad0 + Replay(steps, trig).path
      ensures pt == Replay(steps, trig).pt && theta == Replay(steps, trig).theta
    {
      pad := pad0;
      for i := 0 to |steps|
        invariant pt == Replay(steps[..i], trig).pt
        invariant theta == Replay(steps[..i], trig).theta
        invariant pad == pad0 + Replay(steps[..i], trig).path
      {
        assert steps[..i + 1][..i] == steps[..i];
        match steps[i]
        case Turn(d) =>
          theta := theta + Radians(d);
        case Fwd(d, draw) =>
          pt := Add(pt, Polar(trig, d, theta));
          if draw {
            pad := pad + [LineTo(pt.x, -pt.y)];
          } else {
            pad := pad + [MoveTo(pt.x, -pt.y)];
          }
      }
      assert steps[..|steps|] == steps;
    }

    /** The render as the program does it: reset the replay state, replay the
        log into one path, stroke it, and draw the body icon unless hidden.
        It also sets the pen down, whatever it was. */
    method OnDraw(trig: Trig) returns (pad: seq<PadOp>)
      modifies this`pt, this`theta, this`marking
      ensures pad == Render(steps, hiding, trig)
      ensures pt == Replay(steps, trig).pt && theta == Replay(steps, trig).theta
      ensures marking
    {
      pad := [Translate(AnchorX, AnchorY)];
      pt := Origin;
      theta := 0.0;
      marking := true;
      pad := pad + [MoveTo(0.0, 0.0)];
      pad := RunSteps(trig, pad);
      pad := pad + [Stroke];
      if hiding {
        return;
      }
      pad := pad + [Body(pt.x, -pt.y, -theta)];
    }

    /** The render without the reset of the pen: it issues the same pad
        operations and leaves the same position and heading, and the pen
        state the commands set survives any number of renders. */
    method OnDrawKeepingPen(trig: Trig) returns (pad: seq<PadOp>)
      modifies this`pt, this`theta
      ensures pad == Render(steps, hiding, trig)
      ensures pt == Replay(steps, trig).pt && theta == Replay(steps, trig).theta
      ensures marking == old(marking)
    {
      pad := [Translate(AnchorX, AnchorY)];
      pt := Origin;
      theta := 0.0;
      pad := pad + [MoveTo(0.0, 0.0)];
      pad := RunSteps(trig, pad);
      pad := pad + [Stroke];
      if hiding {
        return;
      }
      pad := pad + [Body(pt.x, -pt.y, -theta)];
    }
  }

  /** `rt`: turn right, recorded as a turn by minus the angle. */
  method Rt(t: Turtle, degrees: real)
    modifies t`steps
    ensures t.steps == old(t.steps) + [Step.Turn(-degrees)]
  {
    t.Turn(-degrees);
  }

  /** `lt`: turn left. */
  method Lt(t: Turtle, degrees: real)
    modifies t`steps
    ensures t.steps == old(t.steps) + [Step.Turn(degrees)]
  {
    t.Turn(degrees);
  }

  /** `bk`: move backwards, recorded as a forward step by minus the distance. */
  method Bk(t: Turtle, distance: real)
    modifies t`steps
    ensures t.steps == old(t.steps) + [Fwd(-distance, t.marking)]
  {
    t.Forward(-distance);
  }

  /** `fd`: move forward. */
  method Fd(t: Turtle, distance: real)
    modifies t`steps
    ensures t.steps == old(t.steps) + [Fwd(distance, t.marking)]
  {
    t.Forward(distance);
  }

  /** `pu`: pen up. */
  method Pu(t: Turtle)
    modifies t`marking
    ensures !t.marking
  {
    t.SetMarking(false);
  }

  /** `pd`: pen down. */
  method Pd(t: Turtle)
    modifies t`marking
    ensures t.marking
  {
    t.SetMarking(true);
  }

  /** `ht`: hide the body icon. */
  method Ht(t: Turtle)
    modifies t`hiding
    ensures t.hiding
  {
    t.SetHiding(true);
  }

  /** `st`: show the body icon. */
  method St(t: Turtle)
    modifies t`hiding
    ensures !t.hiding
  {
    t.SetHiding(false);
  }

  // ---------------------------------------------------------------------
  // Clients

  /** The sample program: `lt(90); fd(50); rt(90); bk(25); fd(50); ht();`
      followed by a render. With exact trigonometry at headings 0 and pi/2
      the frame holds three segments, ending at (25, 50) on the turtle's
      plane, and no body icon. */
  method SampleProgram(trig: Trig) returns (pad: seq<PadOp>)
    requires trig.cos(0.0) == 1.0 && trig.sin(0.0) == 0.0
    requires trig.cos(Pi / 2.0) == 0.0 && trig.sin(Pi / 2.0) == 1.0
    ensures pad == [Translate(100.0, 100.0), MoveTo(0.0, 0.0),
                    LineTo(0.0, -50.0), LineTo(-25.0, -50.0), LineTo(25.0, -50.0), Stroke]
  {
    var t := new Turtle();
    Lt(t, 90.0);
    Fd(t, 50.0);
    Rt(t, 90.0);
    Bk(t, 25.0);
    Fd(t, 50.0);
    Ht(t);
    assert t.steps == SampleLog;
    SampleReplay(trig);
    pad := t.OnDraw(trig);
  }

  /** Pen freezing: `pu(); fd(10); pd();` and a render draws no segment,
      although the pen is down when the render runs. */
  method PenUpStepDrawsNothing(trig: Trig) returns (pad: seq<PadOp>)
    ensures CountLines(pad) == 0
    ensures |pad| == 5 && pad[2].MoveTo?
  {
    var t := new Turtle();
    Pu(t);
    Fd(t, 10.0);
    Pd(t);
    pad := t.OnDraw(trig);
    assert t.steps == [Fwd(10.0, false)];
    RenderLayout(t.steps, t.hiding, trig);
    RenderLines(t.steps, t.hiding, trig);
    PenFrozen(t.steps, trig, 0);
  }

  /** With the render as written, `pu(); fd(10);`, a render, then `fd(10)`
      records the second move with the pen down. */
  method PenUpLostAfterRepaint(trig: Trig) returns (first: Step, second: Step)
    ensures first == Fwd(10.0, false) && second == Fwd(10.0, true)
  {
    var t := new Turtle();
    Pu(t);
    Fd(t, 10.0);
    var _ := t.OnDraw(trig);
    Fd(t, 10.0);
    first, second := t.steps[0], t.steps[1];
  }

  /** With the render that keeps the pen state, the same sequence records
      both moves with the pen up. */
  method PenUpSurvivesRepaint(trig: Trig) returns (first: Step, second: Step)
    ensures first == Fwd(10.0, false) && second == Fwd(10.0, false)
  {
    var t := new Turtle();
    Pu(t);
    Fd(t, 10.0);
    var _ := t.OnDrawKeepingPen(trig);
    Fd(t, 10.0);
    first, second := t.steps[0], t.steps[1];
  }

  /** Two renders of an unchanged log issue the same operations and leave
      the same position and heading, whatever the earlier render left. */
  method RenderTwice(t: Turtle, trig: Trig) returns (first: seq<PadOp>, second: seq<PadOp>)
    modifies t`pt, t`theta, t`marking
    ensures first == second
    ensures t.pt == Replay(t.steps, trig).pt && t.theta == Replay(t.steps, trig).theta
    ensures t.steps == old(t.steps) && t.hiding == old(t.hiding)
  {
    first := t.OnDraw(trig);
    second := t.OnDraw(trig);
  }
}
