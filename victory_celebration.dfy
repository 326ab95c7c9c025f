/**
 * The confetti of the victory screen
 * (src/features/vfx/components/VictoryCelebration.tsx): an interval adds up to
 * 50 pieces at a time while the list holds fewer than 200, and each animation
 * frame moves every piece and drops those below the canvas. `Math.random()`,
 * `Math.sin` and the animation timestamps are parameters.
 */
module VictoryCelebration {
  import opened Common

  /** One piece of confetti, with the fields `createConfetti` fills. */
  datatype Confetti = Confetti(
    x: real, y: real, vx: real, vy: real,
    rotation: real, rotationSpeed: real,
    width: real, height: real,
    color: string,
    gravity: real, swing: real, swingSpeed: real, swingOffset: real)

  /** The eleven `Math.random()` results `createConfetti` reads, in the order it reads them. */
  datatype Draws = Draws(
    x: real, vx: real, vy: real, rotation: real, rotationSpeed: real,
    width: real, height: real, color: real, gravity: real, swingSpeed: real, swingOffset: real)

  predicate Unit(r: real) { 0.0 <= r < 1.0 }

  predicate ValidDraws(d: Draws)
  {
    Unit(d.x) && Unit(d.vx) && Unit(d.vy) && Unit(d.rotation) && Unit(d.rotationSpeed) && Unit(d.width)
    && Unit(d.height) && Unit(d.color) && Unit(d.gravity) && Unit(d.swingSpeed) && Unit(d.swingOffset)
  }

  /** `Math.PI` to the digits JavaScript prints. */
  const Pi: real := 3.141592653589793

  const MaxConfetti: nat := 200
  const Batch: nat := 50

  /** The colours a piece may take: the winner's element colour, gold and white. */
  function Palette(elementColor: string): seq<string>
  {
    [elementColor, "#fbbf24", "#ffffff"]
  }

  /** `createConfetti`. */
  function CreateConfetti(canvasWidth: real, elementColor: string, d: Draws): (c: Confetti)
    requires ValidDraws(d)
    ensures c.y == -20.0 && c.swing == 0.0
    ensures c.color in Palette(elementColor)
    ensures 1.0 <= c.vy < 4.0 && 0.05 <= c.gravity < 0.1
    ensures canvasWidth >= 0.0 ==> 0.0 <= c.x <= canvasWidth
  {
    var colors := Palette(elementColor);
    var x := d.x * canvasWidth;
    assert canvasWidth >= 0.0 ==> 0.0 <= x <= canvasWidth by {
      if canvasWidth >= 0.0 {
        assert Unit(d.x);
        ScaleUnit(d.x, canvasWidth);
        assert d.x * canvasWidth <= canvasWidth;
        assert x == d.x * canvasWidth;
      }
    }
    Confetti(
      x, -20.0, (d.vx - 0.5) * 2.0, 1.0 + d.vy * 3.0,
      d.rotation * Pi * 2.0, (d.rotationSpeed - 0.5) * 0.15,
      8.0 + d.width * 10.0, 4.0 + d.height * 6.0,
      colors[RandomIndex(d.color, |colors|)],
      0.05 + d.gravity * 0.05, 0.0, 0.02 + d.swingSpeed * 0.03, d.swingOffset * Pi * 2.0)
  }

  /** How many pieces one interval tick adds to a list of `len`. */
  function EmitCount(len: nat): nat
  {
    if len >= MaxConfetti then 0 else Min(Batch, MaxConfetti - len)
  }

  /** A tick never takes the list past 200, adds nothing to a full list and something to any other. */
  lemma EmitCountBounds(len: nat)
    ensures len <= MaxConfetti ==> len + EmitCount(len) <= MaxConfetti
    ensures len >= MaxConfetti <==> EmitCount(len) == 0
    ensures EmitCount(len) <= Batch
  {
  }

  /** One frame of motion: swing, sideways drift from `sin`, gravity, and a fall scaled by `dt`. */
  function Advance(c: Confetti, dt: real, sin: real -> real): Confetti
  {
    var swing := c.swing + c.swingSpeed;
    var vx := c.vx + sin(swing + c.swingOffset) * 0.08;
    var vy := c.vy + c.gravity;
    c.(swing := swing, vx := vx, vy := vy, x := c.x + vx, y := c.y + vy * (dt * 60.0),
       rotation := c.rotation + c.rotationSpeed)
  }

  /** The per-frame `filter`: every piece moves, and those more than 30 below the canvas are dropped. */
  function FrameStep(cs: seq<Confetti>, canvasHeight: real, dt: real, sin: real -> real): seq<Confetti>
  {
    if cs == [] then []
    else
      var moved := Advance(cs[|cs| - 1], dt, sin);
      FrameStep(cs[..|cs| - 1], canvasHeight, dt, sin) + (if moved.y > canvasHeight + 30.0 then [] else [moved])
  }

  /** A frame only removes: the list never grows, and every piece kept is on or just below the canvas. */
  lemma {:induction false} FrameStepOnlyRemoves(cs: seq<Confetti>, canvasHeight: real, dt: real, sin: real -> real)
    ensures |FrameStep(cs, canvasHeight, dt, sin)| <= |cs|
    ensures forall c :: c in FrameStep(cs, canvasHeight, dt, sin) ==> c.y <= canvasHeight + 30.0
    ensures forall c :: c in FrameStep(cs, canvasHeight, dt, sin) ==> exists i :: 0 <= i < |cs| && c == Advance(cs[i], dt, sin)
  {
    if cs != [] {
      var init := cs[..|cs| - 1];
      FrameStepOnlyRemoves(init, canvasHeight, dt, sin);
      forall c | c in FrameStep(cs, canvasHeight, dt, sin)
        ensures exists i :: 0 <= i < |cs| && c == Advance(cs[i], dt, sin)
      {
        if c in FrameStep(init, canvasHeight, dt, sin) {
          var i :| 0 <= i < |init| && c == Advance(init[i], dt, sin);
          assert cs[i] == init[i];
        } else {
          assert c == Advance(cs[|cs| - 1], dt, sin);
        }
      }
    }
  }

  /** A piece that stays on screen through a frame is kept. */
  lemma {:induction false} FrameStepKeepsVisible(cs: seq<Confetti>, canvasHeight: real, dt: real, sin: real -> real, i: nat)
    requires i < |cs| && Advance(cs[i], dt, sin).y <= canvasHeight + 30.0
    ensures Advance(cs[i], dt, sin) in FrameStep(cs, canvasHeight, dt, sin)
  {
    if i < |cs| - 1 {
      FrameStepKeepsVisible(cs[..|cs| - 1], canvasHeight, dt, sin, i);
    }
  }

  /** The refs of one mounted `VictoryCelebration`. */
  class Celebration {
    /** `confettiRef.current`. */
    var confetti: seq<Confetti>
    /** `emitIntervalRef.current !== null`. */
    var emitting: bool
    /** `isRunningRef.current`: the loop has been started once. */
    var loopStarted: bool
    /** An animation frame is requested and will call the loop. */
    var frameScheduled: bool
    /** `lastTimeRef.current`. */
    var lastTime: real

    ghost predicate Valid()
      reads this
    {
      |confetti| <= MaxConfetti
    }

    constructor ()
      ensures Valid() && confetti == [] && !emitting && !loopStarted && !frameScheduled && lastTime == 0.0
    {
      confetti := [];
      emitting := false;
      loopStarted := false;
      frameScheduled := false;
      lastTime := 0.0;
    }

    /**
     * The effect that runs when `isActive` changes: the previous run's cleanup
     * clears the interval, then (without reduced motion) activation starts the
     * loop once and sets a new interval. Deactivation leaves the confetti falling.
     */
    method SetActive(isActive: bool, reducedMotion: bool, now: real)
      requires Valid()
      modifies this
      ensures Valid() && confetti == old(confetti)
      ensures emitting <==> isActive && !reducedMotion
      ensures var start := isActive && !reducedMotion && !old(loopStarted);
        loopStarted == (old(loopStarted) || start)
        && frameScheduled == (old(frameScheduled) || start)
        && lastTime == (if start then now else old(lastTime))
    {
      emitting := false;
      if reducedMotion {
        return;
      }
      if isActive {
        if !loopStarted {
          loopStarted := true;
          lastTime := now;
          frameScheduled := true;
        }
        emitting := true;
      }
    }

    /** One interval tick: with a canvas and fewer than 200 pieces, add `min(50, 200 - len)` new ones. */
    method EmitTick(canvasPresent: bool, canvasWidth: real, elementColor: string, draws: seq<Draws>)
      requires Valid()
      requires |draws| >= Batch && forall i :: 0 <= i < |draws| ==> ValidDraws(draws[i])
      modifies this`confetti
      ensures Valid()
      ensures var n := if emitting && canvasPresent then EmitCount(|old(confetti)|) else 0;
        |confetti| == |old(confetti)| + n
        && confetti[..|old(confetti)|] == old(confetti)
        && forall i :: |old(confetti)| <= i < |confetti| ==>
             confetti[i] == CreateConfetti(canvasWidth, elementColor, draws[i - |old(confetti)|])
    {
      if !emitting || !canvasPresent {
        return;
      }
      if |confetti| >= MaxConfetti {
        return;
      }
      var toAdd := Min(Batch, MaxConfetti - |confetti|);
      var i := 0;
      while i < toAdd
        invariant 0 <= i <= toAdd
        invariant |confetti| == |old(confetti)| + i
        invariant confetti[..|old(confetti)|] == old(confetti)
        invariant forall k :: |old(confetti)| <= k < |confetti| ==>
          confetti[k] == CreateConfetti(canvasWidth, elementColor, draws[k - |old(confetti)|])
      {
        confetti := confetti + [CreateConfetti(canvasWidth, elementColor, draws[i])];
        i := i + 1;
      }
    }

    /** One animation frame; without a canvas the loop returns without asking for the next frame. */
    method Frame(canvasPresent: bool, canvasHeight: real, timestamp: real, sin: real -> real)
      requires Valid() && frameScheduled
      modifies this`confetti, this`lastTime, this`frameScheduled
      ensures Valid()
      ensures !canvasPresent ==> confetti == old(confetti) && lastTime == old(lastTime) && !frameScheduled
      ensures canvasPresent ==>
        frameScheduled && lastTime == timestamp
        && confetti == FrameStep(old(confetti), canvasHeight, MinReal((timestamp - old(lastTime)) / 1000.0, 0.05), sin)
    {
      if !canvasPresent {
        frameScheduled := false;
        return;
      }
      var dt := MinReal((timestamp - lastTime) / 1000.0, 0.05);
      lastTime := timestamp;
      var kept: seq<Confetti> := [];
      var i := 0;
      while i < |confetti|
        invariant 0 <= i <= |confetti|
        invariant kept == FrameStep(confetti[..i], canvasHeight, dt, sin)
      {
        assert confetti[..i + 1][..i] == confetti[..i];
        var c := Advance(confetti[i], dt, sin);
        if !(c.y > canvasHeight + 30.0) {
          kept := kept + [c];
        }
        i := i + 1;
      }
      assert confetti[..i] == confetti;
      FrameStepOnlyRemoves(confetti, canvasHeight, dt, sin);
      confetti := kept;
    }

    /** The unmount cleanup: the pending frame is cancelled and the interval cleared. */
    method Unmount()
      requires Valid()
      modifies this`emitting, this`frameScheduled
      ensures Valid() && !emitting && !frameScheduled
    {
      frameScheduled := false;
      emitting := false;
    }
  }
}
