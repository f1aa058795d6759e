/** The benchmark driver as the source writes it: the locals of `main()`
    become the fields of one object, each loop iteration is `Step` followed
    by `DrawScene`, and the whole `while` loop is `Loop`. The state-changing
    methods are proved against the pure state machine of `FrameSpec`;
    `DrawScene` is proved against `Drawn` and the transform buffer. */
module Benchmark {
  import opened FrameSpec
  import opened Display

  /** raylib's 4x4 `Matrix`, fields in the order raylib declares them. */
  datatype Matrix = Matrix(
    m0: real, m4: real, m8: real, m12: real,
    m1: real, m5: real, m9: real, m13: real,
    m2: real, m6: real, m10: real, m14: real,
    m3: real, m7: real, m11: real, m15: real)

  /** The draw calls a frame issues: one `DrawMesh` per object with its
      transform, or one `DrawMeshInstanced` with the transforms it reads. */
  datatype DrawCall = DrawMesh(transform: Matrix) | DrawMeshInstanced(batch: seq<Matrix>)

  /** The transforms a list of draw calls renders, in order. */
  function Drawn(calls: seq<DrawCall>): (drawn: seq<Matrix>)
    decreases |calls|
  {
    if |calls| == 0 then []
    else
      Drawn(calls[..|calls| - 1]) +
      match calls[|calls| - 1]
      case DrawMesh(m) => [m]
      case DrawMeshInstanced(ms) => ms
  }

  class FrameLoop {
    /** The `MAX_INSTANCES` transforms allocated once at start-up. */
    var transforms: array<Matrix>
    var lastUpdate: int
    var frames: int
    var time: real
    var milliseconds: real
    var instances: int
    var instancing: bool
    var avgMilliseconds: AverageShown
    var currentInstances: string
    var maxInstances: string
    var isInstancing: string
    var instancingText: string

    /** The numeric state, as the state machine sees it. */
    function Snapshot(): (s: LoopState)
      reads this
    {
      LoopState(lastUpdate, frames, time, milliseconds, instances, instancing, avgMilliseconds)
    }

    /** The buffer has its allocated length and every display string
        mirrors the value it shows. */
    ghost predicate Mirrors()
      reads this
    {
      && transforms.Length == MAX_INSTANCES
      && currentInstances == InstancesText(instances)
      && maxInstances == MaxInstancesText(MAX_INSTANCES)
      && isInstancing == BoolText(instancing)
      && instancingText == InstancingText(instancing)
    }

    /** Between two iterations, in addition, the state is one the loop can reach. */
    ghost predicate Valid()
      reads this
    {
      Mirrors() && Inv(Snapshot())
    }

    /** Allocates and fills the transform buffer and sets up the timer and
        the display strings. `start` is the first clock reading; `generated`
        stands for the random transforms the fill loop computes. */
    constructor (start: int, generated: seq<Matrix>)
      requires |generated| == MAX_INSTANCES
      ensures Valid() && fresh(transforms)
      ensures transforms[..] == generated
      ensures Snapshot() == Init(start)
    {
      var buffer := new Matrix[MAX_INSTANCES];
      for i := 0 to MAX_INSTANCES
        invariant forall j :: 0 <= j < i ==> buffer[j] == generated[j]
      {
        buffer[i] := generated[i];
      }
      transforms := buffer;
      lastUpdate := start;
      frames := 0;
      time := 0.0;
      milliseconds := 0.0;
      instances := INITIAL_INSTANCES;
      instancing := false;
      avgMilliseconds := StartupZero;
      currentInstances := InstancesText(INITIAL_INSTANCES);
      maxInstances := MaxInstancesText(MAX_INSTANCES);
      isInstancing := BoolText(false);
      instancingText := InstancingText(false);
      new;
      InitInv(start);
    }

    /** Reading the clock and counting the frame. */
    method Tick(now: int)
      requires Mirrors()
      modifies this
      ensures Mirrors() && transforms == old(transforms)
      ensures Snapshot() == FrameSpec.Tick(old(Snapshot()), now)
    {
      var timeDiff := now - lastUpdate;
      var delta := timeDiff as real / NANOS_PER_SECOND;
      lastUpdate := lastUpdate + timeDiff;
      time := time + delta;
      frames := frames + 1;
      milliseconds := milliseconds + delta * 1000.0;
    }

    /** The UP handler. */
    method HandleUp(pressed: bool)
      requires Mirrors()
      modifies this
      ensures Mirrors() && transforms == old(transforms)
      ensures Snapshot() == PressUp(old(Snapshot()), pressed)
    {
      if pressed && instances < MAX_INSTANCES {
        instances := instances + STEP;
        currentInstances := InstancesText(instances);
        milliseconds := 0.0;
        frames := 0;
        time := 0.0;
        avgMilliseconds := Quotient(milliseconds, frames);
      }
    }

    /** The DOWN handler. */
    method HandleDown(pressed: bool)
      requires Mirrors()
      modifies this
      ensures Mirrors() && transforms == old(transforms)
      ensures Snapshot() == PressDown(old(Snapshot()), pressed)
    {
      if pressed && instances >= DOWN_GUARD {
        instances := instances - STEP;
        currentInstances := InstancesText(instances);
        milliseconds := 0.0;
        frames := 0;
        time := 0.0;
        avgMilliseconds := Quotient(milliseconds, frames);
      }
    }

    /** The SPACE handler. */
    method HandleSpace(pressed: bool)
      requires Mirrors()
      modifies this
      ensures Mirrors() && transforms == old(transforms)
      ensures Snapshot() == PressSpace(old(Snapshot()), pressed)
    {
      if pressed {
        instancing := !instancing;
        milliseconds := 0.0;
        frames := 0;
        time := 0.0;
        avgMilliseconds := Quotient(milliseconds, frames);
        isInstancing := BoolText(instancing);
        instancingText := InstancingText(instancing);
      }
    }

    /** The once-per-second average update; the console line it prints is
        not modelled. */
    method UpdateAverage()
      requires Mirrors()
      modifies this
      ensures Mirrors() && transforms == old(transforms)
      ensures Snapshot() == Rollover(old(Snapshot()))
    {
      if time > 1.0 {
        avgMilliseconds := Quotient(milliseconds, frames);
        time := 0.0;
      }
    }

    /** The state update of one loop iteration: the timer, the three key
        handlers in order, and the once-per-second rollover. */
    method Step(now: int, keys: Keys)
      requires Valid()
      modifies this
      ensures Valid()
      ensures transforms == old(transforms)
      ensures Snapshot() == Frame(old(Snapshot()), Input(now, keys))
    {
      ghost var before := Snapshot();
      Tick(now);
      HandleUp(keys.up);
      HandleDown(keys.down);
      HandleSpace(keys.space);
      UpdateAverage();
      FramePreservesInv(before, Input(now, keys));
    }

    /** The draw calls of one frame. Both modes render exactly the first
        `instances` transforms, and every index read lies inside the buffer. */
    method DrawScene() returns (calls: seq<DrawCall>)
      requires Valid()
      ensures 0 <= instances <= transforms.Length
      ensures Drawn(calls) == transforms[..instances]
      ensures instancing ==> calls == [DrawMeshInstanced(transforms[..instances])]
      ensures !instancing ==> |calls| == instances
      ensures !instancing ==> forall i :: 0 <= i < instances ==> calls[i] == DrawMesh(transforms[i])
    {
      if instancing {
        calls := [DrawMeshInstanced(transforms[..instances])];
        assert calls[..0] == [];
      } else {
        calls := [];
        for i := 0 to instances
          invariant |calls| == i
          invariant forall j :: 0 <= j < i ==> calls[j] == DrawMesh(transforms[j])
          invariant Drawn(calls) == transforms[..i]
        {
          var next := calls + [DrawMesh(transforms[i])];
          assert next[..|next| - 1] == calls;
          assert transforms[..i + 1] == transforms[..i] + [transforms[i]];
          calls := next;
        }
      }
    }

    /** The `while` loop of `main()`: one `Step` and one `DrawScene` per
        input, for as long as the window stays open (here: until the inputs
        run out). Frame k draws the first n transforms, where n is the count
        after that frame's key handlers. */
    method Loop(inputs: seq<Input>) returns (scenes: seq<seq<DrawCall>>)
      requires Valid()
      modifies this
      ensures Valid()
      ensures transforms == old(transforms)
      ensures Snapshot() == Run(old(Snapshot()), inputs)
      ensures |scenes| == |inputs|
      ensures forall k :: 0 <= k < |inputs| ==>
        var n := Counts(old(Snapshot()), inputs)[k];
        0 <= n <= transforms.Length && Drawn(scenes[k]) == transforms[..n]
    {
      ghost var s0 := Snapshot();
      ghost var pool := transforms[..];
      scenes := [];
      for k := 0 to |inputs|
        invariant Valid()
        invariant transforms == old(transforms) && transforms[..] == pool
        invariant Snapshot() == Run(s0, inputs[..k])
        invariant |scenes| == k
        invariant forall j :: 0 <= j < k ==>
          var n := Counts(s0, inputs[..k])[j];
          0 <= n <= |pool| && Drawn(scenes[j]) == pool[..n]
      {
        ghost var done := inputs[..k + 1];
        assert done[..k] == inputs[..k];
        Step(inputs[k].now, inputs[k].keys);
        assert Snapshot() == Run(s0, done);
        var calls := DrawScene();
        assert Counts(s0, done) == Counts(s0, inputs[..k]) + [instances];
        scenes := scenes + [calls];
      }
      assert inputs[..|inputs|] == inputs;
    }
  }
}
