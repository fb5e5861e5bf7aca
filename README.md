# Turtle graphics: step log and replay renderer

This project models the core of a small C++ turtle-graphics library (`Turtle.h`). The core has three parts:

- a turtle object that records every `forward` and `turn` command as a step in an append-only log;
- a pen flag (`marking`) and a visibility flag (`hiding`), which the commands set without recording a step;
- a render (`Drawing::on_draw`) that redraws the whole scene on every repaint. It resets position and heading, replays the whole log into one path, strokes it once, and draws the turtle's body icon at the final pose unless the turtle is hidden.

The model has three modules:

- `Geometry` (`geometry.dfy`) covers points, which stand for `complex<double>`, and the polar construction `rho * cos(angle), rho * sin(angle)` that the program gets from `std::polar`. It also holds the `M_PI` constant and the degree-to-radian conversion. Cosine and sine come in as a `Trig` parameter. Only the sample-program results (`Scene.SampleReplay`, `Turtles.SampleProgram`) assume values for them: exact cosine and sine at 0 and pi/2.
- `Scene` (`scene.dfy`) holds the recorded step as a value: `Turn(degrees)` or `Fwd(distance, draw)`. A C++ step is a lambda. A forward lambda was chosen by the pen state at record time, and `draw` keeps that choice. This module also holds the pad operations a render issues, the replay as a fold over the log (`Replay`), the whole frame (`Render`), and the lemmas about them.
- `Turtles` (`turtle.dfy`) holds the class `Turtle` with the fields of the C++ class. Its methods append to the `steps` sequence or overwrite a flag. The render is a loop over the steps, proved equal to `Render`. The module also has the free functions `rt`, `lt`, `bk`, `fd`, `pu`, `pd`, `ht` and `st`, each taking the turtle as a parameter in place of the global instance, and a few client programs.

A render's drawing calls on the Cairo context are returned as a sequence of `PadOp` values. `Body(x, y, angle)` stands for the whole body icon, drawn after translating to `(x, y)` and rotating by `angle`.

Three facts about the code shape the model:

- The commands never update `pt` or `theta`. Only the replayed steps do.
- The sample program `lt(90); fd(50); rt(90); bk(25); fd(50)` ends at (25, 50). `bk(25)` and the last `fd(50)` both run at heading 0.
- The "pen down" reset of a render writes the turtle's live `marking` field. It is not a separate replay variable (see Findings).

## Model

| member | source | states |
|---|---|---|
| `Geometry.PolarNegate` | Turtle.h:187 | In the model's polar construction, a distance of `-d` along a heading gives the opposite displacement of `d`. `bk(d)` records a forward step by `-d`. |
| `Geometry.RadiansAdd` | Turtle.h:161 | Converting degrees to radians (`degrees * M_PI / 180`) distributes over sums and negation. |
| `Scene.Replay` | Turtle.h:71-75 | Replaying the log from the reset baseline gives exactly one path operation per forward step and none per turn step. Each path operation is a `line_to` or a `move_to`. |
| `Scene.ReplayHeading` | Turtle.h:161 | After a replay, `theta` is the sum of all recorded turn angles, converted to radians. |
| `Scene.ReplayLines` | Turtle.h:145-155 | The number of `line_to` segments equals the number of forward steps recorded with the pen down. |
| `Scene.PathGrows` | Turtle.h:123-128 | Appending steps never changes what earlier steps drew: the old path is a prefix of the new one. |
| `Scene.PenFrozen` | Turtle.h:144-155 | The path operation of the forward step at index `i` is a `line_to` exactly when that step was recorded with the pen down, and otherwise a `move_to`. It goes to the replayed position after that step, with the y coordinate flipped. |
| `Scene.TurnsCancel` | Turtle.h:177-182 | `lt(d)` followed by `rt(d)` leaves position, heading and path as they were. |
| `Scene.ForwardThenBack` | Turtle.h:187-192 | `fd(d)` followed by `bk(d)` returns to the same position and heading and adds exactly two path operations. |
| `Scene.TurnDrawsNothing` | Turtle.h:161 | A turn step adds `degrees` in radians to the heading and changes neither the position nor the path. |
| `Scene.RenderLayout` | Turtle.h:69-94 | A frame starts with the anchor translation and the move to the origin. It has exactly one stroke, right after the path. The body icon comes last, rotated by minus the radian sum of all turns, and appears exactly when the turtle is not hidden. |
| `Scene.RenderLines` | Turtle.h:145-155 | A frame has exactly as many `line_to` segments as there are forward steps recorded with the pen down. Nothing else in a render draws a line. |
| `Scene.HidingKeepsPath` | Turtle.h:75-77 | The frame of a hidden turtle is the frame of a shown one without its final body operation. Hiding never removes a segment. |
| `Scene.SampleReplay` | main.cpp:7-11 | With exact cosine and sine at 0 and pi/2, the sample log ends at (25, 50) with heading 0 and exactly three segments. |
| `Turtles.Turtle.constructor` | Turtle.h:51-56 | A new turtle has an empty log, position at the origin, heading 0, the pen down and the body shown. |
| `Turtles.Turtle.AddStep` | Turtle.h:123-128 | Appends one step at the end of the log and leaves the earlier steps unchanged. |
| `Turtles.Turtle.Forward` | Turtle.h:144-156 | Appends one forward step that carries the pen state at the time of the call. Nothing else changes. |
| `Turtles.Turtle.Turn` | Turtle.h:161 | Appends one turn step with the given degrees. Nothing else changes. |
| `Turtles.Turtle.SetMarking` | Turtle.h:166 | Sets the pen flag only. No step is appended. |
| `Turtles.Turtle.SetHiding` | Turtle.h:171 | Sets the hiding flag only. No step is appended. |
| `Turtles.Turtle.RunSteps` | Turtle.h:75 | Running the steps in append order, starting from the origin and heading 0, leaves `pt`, `theta` and the issued path equal to the replay of the log. |
| `Turtles.Turtle.OnDraw` | Turtle.h:69-94 | The render as written. It issues exactly `Render(steps, hiding)`, leaves `pt` and `theta` at the replayed pose, never changes the log or `hiding`, and leaves the pen down. |
| `Turtles.Turtle.OnDrawKeepingPen` | Turtle.h:69-94 | The corrected render. It issues the same operations and leaves the same pose, but keeps the pen state. |
| `Turtles.Rt` | Turtle.h:177 | `rt(d)` appends a turn by `-d`. |
| `Turtles.Lt` | Turtle.h:182 | `lt(d)` appends a turn by `d`. |
| `Turtles.Bk` | Turtle.h:187 | `bk(d)` appends a forward step by `-d` with the current pen state. |
| `Turtles.Fd` | Turtle.h:192 | `fd(d)` appends a forward step by `d` with the current pen state. |
| `Turtles.Pu` | Turtle.h:196 | `pu()` lifts the pen. |
| `Turtles.Pd` | Turtle.h:200 | `pd()` puts the pen down. |
| `Turtles.Ht` | Turtle.h:204 | `ht()` hides the body icon. |
| `Turtles.St` | Turtle.h:208 | `st()` shows the body icon. |
| `Turtles.SampleProgram` | main.cpp:7-13 | With exact cosine and sine at 0 and pi/2, the sample program's final frame, drawn by the render as written, is the anchor, the move to the origin, three segments ending at (0, -50), (-25, -50) and (25, -50) in pad coordinates, and one stroke. There is no body icon. |
| `Turtles.PenUpStepDrawsNothing` | Turtle.h:145-155 | `pu(); fd(10); pd();` followed by a render draws no segment, even though the pen is down at render time. |
| `Turtles.PenUpLostAfterRepaint` | Turtle.h:73 | With the render as written, `pu(); fd(10);`, then a render, then `fd(10)` records the second move with the pen down. |
| `Turtles.PenUpSurvivesRepaint` | Turtle.h:196 | With the corrected render, the same sequence records both moves with the pen up. |
| `Turtles.RenderTwice` | Turtle.h:70-75 | Two renders of an unchanged log issue identical operations and leave `pt` and `theta` at the replayed pose. Replay resets its state, so it does not depend on an earlier render. |

## Left out

- The GTK application, window and rendering thread are not modelled. This covers `app`, `run`, the mutex handshake in the constructor, and `background`. They are foreign-library and concurrency plumbing. The constructor models only the fields' initial values.
- Concurrency between the command thread and the rendering thread is not modelled. A render is an explicit `OnDraw` call between commands, so every interleaving the model shows is sequential. The source has no lock around `steps`: `push_back` (Turtle.h:125) runs on the command thread while the range-for of `on_draw` (Turtle.h:75) walks the same vector on the rendering thread, and a reallocation invalidates that loop's iterators. The sequential model cannot show this.
- Pacing and repaint requests are not modelled. This covers `sleep_for`, `queue_draw` and `yield` in `addStep`, and the `queue_draw` in `setHiding`. They are timing and UI side effects. `AddStep` is a plain append.
- The body icon's Cairo drawing is collapsed into one `Body` operation carrying the translation and rotation. This covers colour, save/restore, scale, arcs and fills. It is fixed drawing in a foreign library.
- Geometry.PolarNegate: the model takes `polar` with a negative distance as `rho * cos(angle), rho * sin(angle)`, which is what `bk(d)` with `d > 0` passes it. `std::polar` does not guarantee this: the C++ standard requires a non-negative `rho`, and some standard libraries return NaN for a negative one. On those, every segment after a backward move would have NaN coordinates.
- Floating point is not modelled. Doubles are reals, so rounding in `polar`, in `M_PI` and in the heading sums is not captured.
- Cosine and sine are the `Trig` parameter. The sample-program results hold only for a `Trig` that is exact at 0 and pi/2, which `double` arithmetic is not.
- Which thread owns the single global `turtle` is not modelled. The free functions take the turtle as a parameter.

## Findings

| source | as written | input that shows it | evidently intended | confidence | as-written member | corrected member |
|---|---|---|---|---|---|---|
| Turtle.h:73 | Every render sets the live pen flag `marking` to true. `forward` reads that flag when it records a step. | `pu(); fd(10); fd(10); fd(10)`: the repaint queued by the first `fd` runs during the second `fd`'s half-second pause and puts the pen down, so the third `fd` draws a segment. | `pu()` keeps the pen up for all later moves until `pd()`, as its comment at Turtle.h:194 says. The render needs no pen state of its own, because each step already carries its pen choice. | not executed; high | `Turtles.Turtle.OnDraw`, `Turtles.PenUpLostAfterRepaint` | `Turtles.Turtle.OnDrawKeepingPen`, `Turtles.PenUpSurvivesRepaint` |
