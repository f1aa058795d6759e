# Instancing benchmark: frame-loop state machine

The program renders up to 300000 copies of a unit cube in one of two ways:
one `DrawMesh` call per cube, or one hardware-instanced `DrawMeshInstanced`
call. The user changes the cube count in steps of 1000 with UP and DOWN and
switches modes with SPACE. The overlay shows the mean frame time, which is
recomputed about once per second.

This project models the part of `main()` that is more than raylib calls:

- the loop's integer and boolean state (`instances`, `instancing`, `frames`);
- the timer accumulators (`lastUpdate`, `time`, `milliseconds`);
- the display strings that mirror the state;
- the three key handlers and the once-per-second rollover;
- the per-frame draw calls over the transform buffer.

The model has three modules:

- `Display` (display.dfy) models `std::to_string` of an `int` and the overlay
  lines built from it. `ParseInt` reads the text back; the round-trip
  lemmas show that the overlay shows exactly the value it mirrors.
- `FrameSpec` (frame_spec.dfy) is the state machine as pure functions. One
  function per handler, `Frame` for one loop iteration and `Run` for many.
  It also holds the lemmas about reachable counts, toggling, resets and
  the statistics window.
- `Benchmark` (frame_loop.dfy) holds the class `FrameLoop`. Its fields are
  the locals of `main()`, updated in place. It has one method per block of
  the loop body, `Step` for a whole iteration, `DrawScene` for the drawing
  branch, and `Loop` for the `while` loop. The state-changing methods are
  proved equal to their `FrameSpec` counterparts. `DrawScene` has no such
  counterpart: it is proved against `Drawn` (the transforms a list of draw
  calls renders) and the transform buffer.

The clock is a parameter. Each iteration is given the nanosecond reading
that `GET_TIME` returned. `time` (seconds) and `milliseconds` are exact
rationals, so the `time > 1` test is computed from them rather than taken
as an input. Key presses are booleans. The random transforms are passed to
the constructor as a sequence, and the constructor copies them into the
buffer with the fill loop.

Behaviour of the code worth knowing:

- DOWN tests `instances >= 2000` before it subtracts, so the smallest
  reachable count is 1000, not 2000 (`FloorIsOneThousand`).
- The rollover clears only `time`. It resets neither `frames` nor
  `milliseconds`, so both always measure the same span: everything since
  the last key event. In exact arithmetic the average shown at a rollover is
  therefore the mean frame time over that span, not a biased mix
  (`StatisticsWindow`). The source sums `double`s; see the floating-point
  line under "Left out".
- A key handler that fires zeroes `time`, so a rollover cannot happen in the
  same frame. A rollover therefore always divides by at least one frame
  (`FrameEffect`).
- Right after a key event the average line is computed from 0 / 0. In
  `double` that is NaN. The model records this as `Quotient(0.0, 0)`.

## Model

| member | source | states |
|---|---|---|
| `Display.IntToString` | main.cpp:87 | `std::to_string(int)`: well-formed decimal text that starts with '-' exactly when the value is negative, in canonical form (the digits are "0" or do not start with '0') |
| `Display.NatToString` | main.cpp:87 | decimal digits only, non-empty, exactly "0" for zero and otherwise without a leading '0' |
| `Display.NatRoundTrip` | main.cpp:87 | reading the digits of a natural number back gives the number |
| `Display.IntRoundTrip` | main.cpp:115 | reading back what `std::to_string` printed gives the original `int` |
| `Display.IntToStringInjective` | main.cpp:125 | two counts print the same text exactly when they are equal |
| `Display.InstancesTextShowsCount` | main.cpp:87 | the "Instances: " line is the label followed by text that reads back as the count |
| `Display.InstancingTextShowsMode` | main.cpp:89-90 | the mode line is "Using Instancing: " followed by "true" when instancing is on and "false" when it is off, so the two modes differ |
| `FrameSpec.InitInv` | main.cpp:79-84 | the start-up state (30000 instances, per-object mode, zeroed counters) satisfies the loop invariant |
| `FrameSpec.PressUpEffect` | main.cpp:112-120 | UP adds exactly 1000 if and only if it is pressed below 300000, and then zeroes `frames`, `time` and `milliseconds`; otherwise the state, counters included, is unchanged |
| `FrameSpec.PressDownEffect` | main.cpp:122-130 | DOWN removes exactly 1000 if and only if it is pressed at 2000 or more, and then zeroes the counters; otherwise it is a no-op; it never takes a count of at least 1000 below 1000 |
| `FrameSpec.PressSpaceEffect` | main.cpp:132-141 | SPACE flips `instancing` and leaves the count alone; two presses restore the mode; unpressed it is a no-op |
| `FrameSpec.FrameEffect` | main.cpp:95-149 | one iteration: `lastUpdate` becomes the clock reading; the mode flips exactly when SPACE is pressed. A frame where a handler fires zeroes all counters and cannot roll over. Otherwise `frames` grows by exactly 1 and `milliseconds` by the frame's duration. A rollover clears `time` only and divides by at least one frame |
| `FrameSpec.FramePreservesInv` | main.cpp:93-149 | one iteration keeps the invariant: count a multiple of 1000 in [1000, 300000], `frames` non-negative, `time` at most one second, and zero frames only with zero time and milliseconds |
| `FrameSpec.RunPreservesInv` | main.cpp:93-175 | any number of iterations keeps the invariant |
| `FrameSpec.ReachableCounts` | main.cpp:112-130 | from start-up, for every sequence of frames and key presses, the count is a multiple of 1000 in [1000, 300000] |
| `FrameSpec.CountsAt` | main.cpp:112-130 | the k-th per-frame count is the count after k + 1 iterations, and from a reachable state it lies in [1000, 300000] |
| `FrameSpec.UpAndDownTogether` | main.cpp:112-130 | UP and DOWN in one frame leave the count unchanged if and only if it is below 300000; at 300000 they leave 299000 |
| `FrameSpec.FloorIsOneThousand` | main.cpp:122-130 | DOWN at 2000 reaches 1000; DOWN at 1000 changes nothing and resets nothing |
| `FrameSpec.UpPresses` | main.cpp:112-120 | k UP-only frames give min(count + 1000k, 300000) and leave the mode alone |
| `FrameSpec.DownPresses` | main.cpp:122-130 | k DOWN-only frames give max(count - 1000k, 1000) and leave the mode alone |
| `FrameSpec.SpacePresses` | main.cpp:132-141 | k SPACE-only frames flip the mode k times (an even number restores it) and leave the count alone |
| `FrameSpec.Walkthrough` | main.cpp:83-141 | from start-up: 3 UP give 33000, 31 DOWN then give 2000, one more DOWN gives 1000, SPACE gives instancing, SPACE again gives per-object |
| `FrameSpec.RunAppend` | main.cpp:93 | running two input sequences one after the other equals running their concatenation |
| `FrameSpec.StatisticsWindow` | main.cpp:98-149 | after any run, `frames` counts the frames since the last key event. `milliseconds` equals the clock time elapsed since that event, in milliseconds |
| `Benchmark.FrameLoop.constructor` | main.cpp:24-90 | allocates a fresh 300000-entry buffer holding the generated transforms; the state is the start-up state and the strings mirror it |
| `Benchmark.FrameLoop.Tick` | main.cpp:95-102 | the clock update and frame count, equal to `FrameSpec.Tick`, keeping the strings in step |
| `Benchmark.FrameLoop.HandleUp` | main.cpp:112-120 | the UP block updates the fields exactly as `PressUp` and refreshes the count line |
| `Benchmark.FrameLoop.HandleDown` | main.cpp:122-130 | the DOWN block updates the fields exactly as `PressDown` and refreshes the count line |
| `Benchmark.FrameLoop.HandleSpace` | main.cpp:132-141 | the SPACE block updates the fields exactly as `PressSpace` and refreshes both mode strings |
| `Benchmark.FrameLoop.UpdateAverage` | main.cpp:144-149 | the rollover block updates the fields exactly as `Rollover` |
| `Benchmark.FrameLoop.Step` | main.cpp:95-149 | one iteration's state update equals `Frame` and keeps the invariant and the mirrored strings |
| `Benchmark.FrameLoop.DrawScene` | main.cpp:158-164 | every read is inside the buffer. Instancing issues one call over the first `instances` transforms. Otherwise it issues `instances` calls, call i with `transforms[i]`. Both modes draw exactly the first `instances` transforms |
| `Benchmark.FrameLoop.Loop` | main.cpp:93-175 | after the loop the state is `Run` of the inputs. Frame k draws exactly the first n transforms, where n is the count after frame k's handlers, and n never exceeds the buffer |

## Left out

- raylib: window, mesh, shaders and their locations, lights, materials,
  camera updates and uniforms, `BeginDrawing`/`EndDrawing`, `ClearBackground`
  and `DrawText`. This is a foreign library whose source is not part of
  this model. `DrawMesh`/`DrawMeshInstanced` are recorded as `DrawCall`
  values, not executed.
- Transform generation: `GetRandomValue` and the matrix math (lines 27-35)
  are random and floating point. The constructor receives the generated
  matrices as a parameter and copies them into the buffer in the fill loop.
- `Benchmark.FrameLoop.constructor`: does not model `RL_CALLOC` returning
  null, nor `RL_FREE`/`CloseWindow` at shutdown.
- Floating point: `time` and `milliseconds` are exact rationals, not IEEE
  `double` sums. Rounding in `delta`, in the sums and in the `time > 1`
  comparison is not modelled.
- The average line's value: `milliseconds / frames` as a `double` and its
  `std::to_string` formatting are not modelled. `AverageShown` keeps the
  two operands, which shows where the source divides 0 by 0.
- The console line printed on each rollover (line 146), which is I/O.
- Integer widths: the model assumes a 64-bit `long`, as on LP64 platforms
  (Linux, macOS). There `frames` and `lastUpdate` would need 2^63 frames or
  nanoseconds to overflow, so they are unbounded here. Where `long` is 32
  bits (LLP64, e.g. MSVC on Windows), the source behaves differently and the
  model does not capture it: line 79 narrows the 64-bit nanosecond reading
  of `GET_TIME` to 32 bits. Line 95 keeps `GET_TIME - lastUpdate` only modulo
  2^32, which is wrong for any frame longer than about 2.15 s. Line 98 can
  overflow the signed `lastUpdate`. `instances`
  is an `int`, and its bound of 300000 is proved, so it cannot overflow.
- `WindowShouldClose`: the `while` loop runs once per element of the input
  sequence given to `Loop`.
- `maxInstances` is modelled as `MaxInstancesText(300000)` and not
  evaluated to the literal "Max Instances: 300000".
