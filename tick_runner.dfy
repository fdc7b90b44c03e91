/**
 * The tick runner of test_program.c: one target runs one script, a chain of
 * blocks whose `update` reports 0 (finished, go on to `next` within the same
 * tick) or 1 (still running, the clock advances by one tick). The blocks keep
 * their latched state (`isActive`, deadline, glide start) between ticks.
 */
module TickRunner {

  /** `dtMs` of `main`, `1000 / 30` in integer division. */
  const DtMs: nat := 33

  datatype Kind = WhenFlagClicked | GlideSecsToXY | ControlWait

  /**
   * A `Block` with its parameters and latched state under their meaning:
   * `targetX`/`targetY` are `param0.i`/`param1.i` of a glide, `duration` is
   * `param2.u64` of a glide and `param0.u64` of a wait, `deadline` is
   * `state0.u64` of a wait, and `startTime`, `startX`, `startY` are
   * `state2`..`state4` of a glide. The glide's velocities `state0.d` and
   * `state1.d` are a function of `startX`/`startY`, the target and the
   * duration, and are folded into the interpolation.
   */
  datatype Block = Block(update: Kind, next: int, targetX: int, targetY: int, duration: nat,
                         isActive: bool, deadline: nat, startTime: nat, startX: int, startY: int)

  /** The `TargetState` of the one target, its blocks, and `globalTime`. */
  datatype World = World(blocks: seq<Block>, first: nat, current: nat, time: nat, x: int, y: int)

  /**
   * The glide's position after `dt` of `duration` milliseconds on the way from
   * `start` to `target`, as the C code computes it in doubles.
   */
  type Interpolation = (int, int, nat, nat) -> int

  /** What one pass of the `main` loop ends with. */
  datatype Outcome =
    | Continued   // `update` returned 1: the clock advanced
    | Moved       // `update` returned 0: the script moved on to `next`
    | Exited      // `update` returned 0 on the last block: `exit(2)`

  ghost predicate WorldValid(w: World)
  {
    && w.first < |w.blocks| && w.current < |w.blocks|
    && forall i :: 0 <= i < |w.blocks| ==>
         && (w.blocks[i].next == -1 || 0 <= w.blocks[i].next < |w.blocks|)
         && w.blocks[i].startTime <= w.time
  }

  /** The two worlds run the same script: only latched block state, the clock and the sprite differ. */
  ghost predicate SameProgram(w: World, w': World)
  {
    && |w'.blocks| == |w.blocks| && w'.first == w.first
    && forall i :: 0 <= i < |w.blocks| ==>
         && w'.blocks[i].update == w.blocks[i].update && w'.blocks[i].next == w.blocks[i].next
         && w'.blocks[i].targetX == w.blocks[i].targetX && w'.blocks[i].targetY == w.blocks[i].targetY
         && w'.blocks[i].duration == w.blocks[i].duration
  }

  /** `BlockControlWait`: latch the deadline on the first visit, then wait for the clock to reach it. */
  function Wait(b: Block, time: nat): (Block, int)
  {
    var b1 := if b.isActive then b else b.(deadline := time + b.duration, isActive := true);
    if b1.deadline > time then (b1, 1) else (b1, 0)
  }

  /**
   * The deadline `time + duration` is latched only on an inactive block, and
   * the wait goes on exactly while the clock is below it.
   */
  lemma WaitLatch(b: Block, time: nat)
    ensures var r := Wait(b, time);
            && r.0.isActive
            && (b.isActive ==> r.0 == b)
            && (!b.isActive ==> r.0 == b.(isActive := true, deadline := time + b.duration))
            && (r.1 == 0 || r.1 == 1)
            && (r.1 == 1 <==> time < r.0.deadline)
  {
  }

  /**
   * `BlockMotionGlideSecsToXY`: latch the start time and position on the
   * first visit, clamp the elapsed time to the duration, and finish only once
   * the elapsed time is strictly past it.
   */
  function Glide(b: Block, time: nat, x: int, y: int, interpolate: Interpolation): (Block, int, int, int)
    requires b.isActive ==> b.startTime <= time
  {
    var b1 := if b.isActive then b else b.(startTime := time, startX := x, startY := y, isActive := true);
    var elapsed := time - b1.startTime;
    var isLast := elapsed > b.duration;
    var dt := if isLast then b.duration else elapsed;
    (b1, interpolate(b1.startX, b.targetX, dt, b.duration), interpolate(b1.startY, b.targetY, dt, b.duration),
     if isLast then 0 else 1)
  }

  /**
   * The start time and position are latched only on an inactive block; the
   * glide finishes exactly when the elapsed time is past the duration, on
   * the end point of its path, and is otherwise on the path at the elapsed
   * time.
   */
  lemma GlideLatch(b: Block, time: nat, x: int, y: int, interpolate: Interpolation)
    requires b.isActive ==> b.startTime <= time
    ensures var r := Glide(b, time, x, y, interpolate);
            && r.0.isActive && r.0.startTime <= time
            && (b.isActive ==> r.0 == b)
            && (!b.isActive ==> r.0 == b.(isActive := true, startTime := time, startX := x, startY := y))
            && (r.3 == 0 || r.3 == 1)
            && (r.3 == 0 <==> time - r.0.startTime > b.duration)
            && (r.3 == 0 ==> (r.1 == interpolate(r.0.startX, b.targetX, b.duration, b.duration)
                              && r.2 == interpolate(r.0.startY, b.targetY, b.duration, b.duration)))
            && (r.3 == 1 ==> (r.1 == interpolate(r.0.startX, b.targetX, time - r.0.startTime, b.duration)
                              && r.2 == interpolate(r.0.startY, b.targetY, time - r.0.startTime, b.duration)))
  {
  }

  /**
   * `currentBlock->update(&state, dtMs)`: the current block's state and the
   * sprite position after the call, and its return code. No block reports a
   * negative code, so the error stop of `main` is never taken.
   */
  function Update(w: World, interpolate: Interpolation): (r: (World, int))
    requires WorldValid(w)
    ensures WorldValid(r.0) && |r.0.blocks| == |w.blocks|
  {
    var b := w.blocks[w.current];
    match b.update
    case WhenFlagClicked => (w, 0)
    case ControlWait =>
      var u := Wait(b, w.time);
      (w.(blocks := w.blocks[w.current := u.0]), u.1)
    case GlideSecsToXY =>
      var u := Glide(b, w.time, w.x, w.y, interpolate);
      (w.(blocks := w.blocks[w.current := u.0], x := u.1, y := u.2), u.3)
  }

  /**
   * One pass of the `while (1)` loop of `main`. A finished block hands over
   * to `next` within the same tick and clears that block's `isActive`; the
   * clock advances by `DtMs` only when the block is still running.
   */
  function TickSpec(w: World, interpolate: Interpolation): (r: (World, Outcome))
    requires WorldValid(w)
    ensures WorldValid(r.0) && |r.0.blocks| == |w.blocks|
  {
    var u := Update(w, interpolate);
    var w1 := u.0;
    if u.1 == 0 then
      var next := w1.blocks[w1.current].next;
      if next != -1 then
        (w1.(current := next, blocks := w1.blocks[next := w1.blocks[next].(isActive := false)]), Moved)
      else
        (w1.(current := w1.first), Exited)
    else
      (w1.(time := w1.time + DtMs), Continued)
  }

  /**
   * Every block returns 0 or 1, so the error stop cannot happen. Only the
   * current block's state changes, the clock and the current block stay
   * put, and only a glide moves the sprite. The hat block returns 0 at once
   * and changes nothing.
   */
  lemma UpdateFrame(w: World, interpolate: Interpolation)
    requires WorldValid(w)
    ensures var r := Update(w, interpolate);
            && r.1 in {0, 1}
            && r.0.current == w.current && r.0.time == w.time && r.0.first == w.first
            && (forall i :: 0 <= i < |w.blocks| && i != w.current ==> r.0.blocks[i] == w.blocks[i])
            && r.0.blocks[w.current].next == w.blocks[w.current].next
            && (w.blocks[w.current].update != GlideSecsToXY ==> r.0.x == w.x && r.0.y == w.y)
            && (w.blocks[w.current].update == WhenFlagClicked ==> r == (w, 0))
  {
  }

  /**
   * A pass continues exactly when the update returns 1, and then the clock
   * gains `DtMs` on the same block; otherwise the clock stays, and the pass
   * either makes `next` current with `isActive` cleared or, without a
   * `next`, exits with the first block current.
   */
  lemma TickOutcome(w: World, interpolate: Interpolation)
    requires WorldValid(w)
    ensures var r := TickSpec(w, interpolate);
            && (r.1 == Continued <==> Update(w, interpolate).1 == 1)
            && (r.1 == Continued ==> r.0.time == w.time + DtMs && r.0.current == w.current)
            && (r.1 != Continued ==> r.0.time == w.time)
            && (r.1 == Moved ==> r.0.current == w.blocks[w.current].next && !r.0.blocks[r.0.current].isActive)
            && (r.1 == Exited ==> w.blocks[w.current].next == -1 && r.0.current == w.first)
  {
    UpdateFrame(w, interpolate);
  }

  /** A pass changes only latched block state, the clock and the sprite. */
  lemma TickKeepsProgram(w: World, interpolate: Interpolation)
    requires WorldValid(w)
    ensures SameProgram(w, TickSpec(w, interpolate).0)
  {
    UpdateFrame(w, interpolate);
  }

  /** The world after one pass of the loop. */
  ghost function Pass(w: World, interpolate: Interpolation): (r: World)
    requires WorldValid(w)
    ensures WorldValid(r) && |r.blocks| == |w.blocks|
  {
    TickSpec(w, interpolate).0
  }

  /** The first `n` passes of the loop, the last one peeled off. */
  ghost function Passes(w: World, n: nat, interpolate: Interpolation): (r: World)
    requires WorldValid(w)
    ensures WorldValid(r) && |r.blocks| == |w.blocks|
    decreases n
  {
    if n == 0 then w else Pass(Passes(w, n - 1, interpolate), interpolate)
  }

  /**
   * The world after `n` passes of the loop. The lemmas below state their
   * facts about this name, which is not itself recursive.
   */
  ghost function Iterate(w: World, n: nat, interpolate: Interpolation): (r: World)
    requires WorldValid(w)
    ensures WorldValid(r) && |r.blocks| == |w.blocks|
  {
    Passes(w, n, interpolate)
  }

  /** No pass leaves the world as it is. */
  lemma IterateZero(w: World, interpolate: Interpolation)
    requires WorldValid(w)
    ensures Iterate(w, 0, interpolate) == w
  {
  }

  /** `n + 1` passes are `n` passes and one more. */
  lemma IterateLast(w: World, n: nat, interpolate: Interpolation)
    requires WorldValid(w)
    ensures Iterate(w, n + 1, interpolate) == Pass(Iterate(w, n, interpolate), interpolate)
  {
  }

  /** Whether the first `n` passes from `w` all kept the clock running. */
  ghost predicate ContinuesFor(w: World, n: nat, interpolate: Interpolation)
    requires WorldValid(w)
  {
    forall k :: 0 <= k < n ==> TickSpec(Iterate(w, k, interpolate), interpolate).1 == Continued
  }

  /** A wait of `d` milliseconds keeps the clock running for this many ticks. */
  function WaitTicks(d: nat): nat
  {
    (d + DtMs - 1) / DtMs
  }

  lemma WaitTicksBound(d: nat, k: nat)
    ensures k < WaitTicks(d) <==> DtMs * k < d
  {
  }

  /** The world after `k` ticks spent in the wait the script is at. */
  ghost function Waited(w: World, k: nat): World
    requires WorldValid(w)
  {
    if k == 0 then w
    else
      var b := w.blocks[w.current];
      w.(blocks := w.blocks[w.current := b.(isActive := true, deadline := w.time + b.duration)],
         time := w.time + DtMs * k)
  }

  lemma WaitedValid(w: World, k: nat)
    requires WorldValid(w)
    ensures WorldValid(Waited(w, k))
  {
  }

  /** The pass at tick `k` of a wait below its tick count keeps the clock running. */
  lemma WaitStep(w: World, k: nat, interpolate: Interpolation)
    requires WorldValid(w) && w.blocks[w.current].update == ControlWait && !w.blocks[w.current].isActive
    requires k < WaitTicks(w.blocks[w.current].duration)
    ensures WorldValid(Waited(w, k)) && TickSpec(Waited(w, k), interpolate) == (Waited(w, k + 1), Continued)
  {
    WaitTicksBound(w.blocks[w.current].duration, k);
    var b := w.blocks[w.current];
    var latched := b.(isActive := true, deadline := w.time + b.duration);
    var wk := Waited(w, k);
    assert wk.blocks[w.current] == (if k == 0 then b else latched);
    assert wk.blocks[w.current := latched] == w.blocks[w.current := latched];
    assert Update(wk, interpolate) == (wk.(blocks := w.blocks[w.current := latched]), 1);
  }

  lemma {:induction false} WaitSteps(w: World, k: nat, interpolate: Interpolation)
    requires WorldValid(w) && w.blocks[w.current].update == ControlWait && !w.blocks[w.current].isActive
    requires k <= WaitTicks(w.blocks[w.current].duration)
    ensures WorldValid(Waited(w, k)) && Iterate(w, k, interpolate) == Waited(w, k)
  {
    WaitedValid(w, k);
    if k > 0 {
      WaitSteps(w, k - 1, interpolate);
      WaitStepsNext(w, k, interpolate);
    }
  }

  /** The step of `WaitSteps`: `k - 1` passes reaching the waited state take `k` to the next. */
  lemma WaitStepsNext(w: World, k: nat, interpolate: Interpolation)
    requires WorldValid(w) && w.blocks[w.current].update == ControlWait && !w.blocks[w.current].isActive
    requires 0 < k <= WaitTicks(w.blocks[w.current].duration)
    requires Iterate(w, k - 1, interpolate) == Waited(w, k - 1)
    ensures Iterate(w, k, interpolate) == Waited(w, k)
  {
    WaitedValid(w, k - 1);
    calc {
      Iterate(w, k, interpolate);
    == { IterateLast(w, k - 1, interpolate); }
      Pass(Iterate(w, k - 1, interpolate), interpolate);
    ==
      Pass(Waited(w, k - 1), interpolate);
    == { WaitStep(w, k - 1, interpolate); }
      Waited(w, k);
    }
  }

  lemma WaitContinues(w: World, k: nat, interpolate: Interpolation)
    requires WorldValid(w) && w.blocks[w.current].update == ControlWait && !w.blocks[w.current].isActive
    requires k <= WaitTicks(w.blocks[w.current].duration)
    ensures ContinuesFor(w, k, interpolate)
  {
    forall j | 0 <= j < k
      ensures TickSpec(Iterate(w, j, interpolate), interpolate).1 == Continued
    {
      WaitSteps(w, j, interpolate);
      WaitStep(w, j, interpolate);
    }
  }

  /**
   * A wait entered inactive at time `t` with duration `d` keeps the script on
   * it, with the sprite still, for exactly `WaitTicks(d)` ticks, and the pass
   * after them hands over at time `t + DtMs * WaitTicks(d)`, the first tick
   * not before the deadline.
   */
  lemma WaitDuration(w: World, interpolate: Interpolation)
    requires WorldValid(w) && w.blocks[w.current].update == ControlWait && !w.blocks[w.current].isActive
    ensures var n := WaitTicks(w.blocks[w.current].duration);
            var wn := Iterate(w, n, interpolate);
            && ContinuesFor(w, n, interpolate)
            && wn.current == w.current && wn.time == w.time + DtMs * n && wn.x == w.x && wn.y == w.y
            && wn.time >= w.time + w.blocks[w.current].duration
            && TickSpec(wn, interpolate).1 != Continued
            && TickSpec(wn, interpolate).0.time == w.time + DtMs * n
  {
    var n := WaitTicks(w.blocks[w.current].duration);
    WaitSteps(w, n, interpolate);
    WaitContinues(w, n, interpolate);
    WaitTicksBound(w.blocks[w.current].duration, n);
  }

  /** A glide of `d` milliseconds keeps the clock running for this many ticks. */
  function GlideTicks(d: nat): nat
  {
    d / DtMs + 1
  }

  lemma GlideTicksBound(d: nat, k: nat)
    ensures k < GlideTicks(d) <==> DtMs * k <= d
  {
  }

  /** The world after `k` ticks spent in the glide the script is at. */
  ghost function Glided(w: World, k: nat, interpolate: Interpolation): World
    requires WorldValid(w)
  {
    if k == 0 then w
    else
      var b := w.blocks[w.current];
      w.(blocks := w.blocks[w.current := b.(isActive := true, startTime := w.time, startX := w.x, startY := w.y)],
         time := w.time + DtMs * k,
         x := interpolate(w.x, b.targetX, DtMs * (k - 1), b.duration),
         y := interpolate(w.y, b.targetY, DtMs * (k - 1), b.duration))
  }

  lemma GlidedValid(w: World, k: nat, interpolate: Interpolation)
    requires WorldValid(w)
    ensures WorldValid(Glided(w, k, interpolate))
  {
  }

  /** The pass at tick `k` of a glide below its tick count keeps the clock running. */
  lemma GlideStep(w: World, k: nat, interpolate: Interpolation)
    requires WorldValid(w) && w.blocks[w.current].update == GlideSecsToXY && !w.blocks[w.current].isActive
    requires k < GlideTicks(w.blocks[w.current].duration)
    ensures WorldValid(Glided(w, k, interpolate))
    ensures TickSpec(Glided(w, k, interpolate), interpolate) == (Glided(w, k + 1, interpolate), Continued)
  {
    GlideTicksBound(w.blocks[w.current].duration, k);
    var b := w.blocks[w.current];
    var latched := b.(isActive := true, startTime := w.time, startX := w.x, startY := w.y);
    var wk := Glided(w, k, interpolate);
    assert wk.blocks[w.current] == (if k == 0 then b else latched);
    assert wk.blocks[w.current := latched] == w.blocks[w.current := latched];
    assert Update(wk, interpolate)
        == (wk.(blocks := w.blocks[w.current := latched],
                x := interpolate(w.x, b.targetX, DtMs * k, b.duration),
                y := interpolate(w.y, b.targetY, DtMs * k, b.duration)), 1);
  }

  lemma {:induction false} GlideSteps(w: World, k: nat, interpolate: Interpolation)
    requires WorldValid(w) && w.blocks[w.current].update == GlideSecsToXY && !w.blocks[w.current].isActive
    requires k <= GlideTicks(w.blocks[w.current].duration)
    ensures WorldValid(Glided(w, k, interpolate)) && Iterate(w, k, interpolate) == Glided(w, k, interpolate)
  {
    GlidedValid(w, k, interpolate);
    if k > 0 {
      GlideSteps(w, k - 1, interpolate);
      GlideStepsNext(w, k, interpolate);
    }
  }

  /** The step of `GlideSteps`: `k - 1` passes reaching the glided state take `k` to the next. */
  lemma GlideStepsNext(w: World, k: nat, interpolate: Interpolation)
    requires WorldValid(w) && w.blocks[w.current].update == GlideSecsToXY && !w.blocks[w.current].isActive
    requires 0 < k <= GlideTicks(w.blocks[w.current].duration)
    requires Iterate(w, k - 1, interpolate) == Glided(w, k - 1, interpolate)
    ensures Iterate(w, k, interpolate) == Glided(w, k, interpolate)
  {
    GlidedValid(w, k - 1, interpolate);
    calc {
      Iterate(w, k, interpolate);
    == { IterateLast(w, k - 1, interpolate); }
      Pass(Iterate(w, k - 1, interpolate), interpolate);
    ==
      Pass(Glided(w, k - 1, interpolate), interpolate);
    == { GlideStep(w, k - 1, interpolate); }
      Glided(w, k, interpolate);
    }
  }

  lemma GlideContinues(w: World, k: nat, interpolate: Interpolation)
    requires WorldValid(w) && w.blocks[w.current].update == GlideSecsToXY && !w.blocks[w.current].isActive
    requires k <= GlideTicks(w.blocks[w.current].duration)
    ensures ContinuesFor(w, k, interpolate)
  {
    forall j | 0 <= j < k
      ensures TickSpec(Iterate(w, j, interpolate), interpolate).1 == Continued
    {
      GlideSteps(w, j, interpolate);
      GlideStep(w, j, interpolate);
    }
  }

  /**
   * A glide entered inactive at time `t` keeps the clock running for exactly
   * `GlideTicks(d)` ticks, the elapsed time handed to the interpolation
   * never exceeding `d`; the pass after them, the first whose elapsed time is
   * strictly past `d`, puts the sprite at the end of the path and hands over
   * without advancing the clock.
   */
  lemma GlideDuration(w: World, interpolate: Interpolation)
    requires WorldValid(w) && w.blocks[w.current].update == GlideSecsToXY && !w.blocks[w.current].isActive
    ensures var b := w.blocks[w.current];
            var n := GlideTicks(b.duration);
            var wn := Iterate(w, n, interpolate);
            var last := TickSpec(wn, interpolate).0;
            && ContinuesFor(w, n, interpolate)
            && wn.current == w.current && wn.time == w.time + DtMs * n
            && TickSpec(wn, interpolate).1 == (if b.next == -1 then Exited else Moved)
            && last.time == w.time + DtMs * n
            && last.x == interpolate(w.x, b.targetX, b.duration, b.duration)
            && last.y == interpolate(w.y, b.targetY, b.duration, b.duration)
  {
    var n := GlideTicks(w.blocks[w.current].duration);
    GlideSteps(w, n, interpolate);
    GlideContinues(w, n, interpolate);
    GlideTicksBound(w.blocks[w.current].duration, n);
  }

  /**
   * A glide entered inactive, whose `next` is another block, hands over to
   * it after `GlideTicks(d) + 1` passes, on the end point of its path and
   * with only its own state and the `isActive` of `next` changed.
   */
  lemma GlideFinish(w: World, interpolate: Interpolation)
    requires WorldValid(w) && w.blocks[w.current].update == GlideSecsToXY && !w.blocks[w.current].isActive
    requires w.blocks[w.current].next != -1 && w.blocks[w.current].next != w.current
    ensures var b := w.blocks[w.current];
            var n := GlideTicks(b.duration);
            var r := Iterate(w, n + 1, interpolate);
            && r.current == b.next && r.time == w.time + DtMs * n
            && r.x == interpolate(w.x, b.targetX, b.duration, b.duration)
            && r.y == interpolate(w.y, b.targetY, b.duration, b.duration)
            && r.blocks[b.next] == w.blocks[b.next].(isActive := false)
            && forall i :: 0 <= i < |w.blocks| && i != w.current && i != b.next ==> r.blocks[i] == w.blocks[i]
  {
    var b := w.blocks[w.current];
    var n := GlideTicks(b.duration);
    GlideSteps(w, n, interpolate);
    GlideTicksBound(b.duration, n);
    var wn := Glided(w, n, interpolate);
    var latched := b.(isActive := true, startTime := w.time, startX := w.x, startY := w.y);
    assert wn.blocks == w.blocks[w.current := latched];
    var u := wn.(blocks := w.blocks[w.current := latched],
                 x := interpolate(w.x, b.targetX, b.duration, b.duration),
                 y := interpolate(w.y, b.targetY, b.duration, b.duration));
    assert wn.blocks[w.current := latched] == w.blocks[w.current := latched];
    assert Update(wn, interpolate) == (u, 0);
  }

  /**
   * A wait entered inactive, whose `next` is another block, hands over to it
   * after `WaitTicks(d) + 1` passes with the sprite still.
   */
  lemma WaitFinish(w: World, interpolate: Interpolation)
    requires WorldValid(w) && w.blocks[w.current].update == ControlWait && !w.blocks[w.current].isActive
    requires w.blocks[w.current].next != -1 && w.blocks[w.current].next != w.current
    ensures var b := w.blocks[w.current];
            var n := WaitTicks(b.duration);
            var r := Iterate(w, n + 1, interpolate);
            && r.current == b.next && r.time == w.time + DtMs * n && r.x == w.x && r.y == w.y
            && r.blocks[b.next] == w.blocks[b.next].(isActive := false)
            && forall i :: 0 <= i < |w.blocks| && i != w.current && i != b.next ==> r.blocks[i] == w.blocks[i]
  {
    var b := w.blocks[w.current];
    var n := WaitTicks(b.duration);
    WaitSteps(w, n, interpolate);
    WaitTicksBound(b.duration, n);
    var wn := Waited(w, n);
    var latched := b.(isActive := true, deadline := w.time + b.duration);
    var u := wn.(blocks := w.blocks[w.current := latched]);
    assert wn.blocks[w.current] == (if n == 0 then b else latched);
    assert wn.blocks[w.current := latched] == w.blocks[w.current := latched];
    assert Update(wn, interpolate) == (u, 0);
  }

  /**
   * The script of test_program.c, started at time `t0` with the sprite at
   * the origin: when the flag is clicked, glide to (100, 100) in 1000 ms,
   * wait 500 ms, glide back to (0, 0) in 2000 ms.
   */
  function Scenario(t0: nat): (w: World)
    ensures WorldValid(w)
  {
    World([Block(WhenFlagClicked, 1, 0, 0, 0, false, 0, 0, 0, 0),
           Block(GlideSecsToXY, 2, 100, 100, 1000, false, 0, 0, 0, 0),
           Block(ControlWait, 3, 0, 0, 500, false, 0, 0, 0, 0),
           Block(GlideSecsToXY, -1, 0, 0, 2000, false, 0, 0, 0, 0)],
          0, 0, t0, 0, 0)
  }

  /** `n` applications of `step`. */
  ghost function Repeat(step: World -> World, w: World, n: nat): World
    decreases n
  {
    if n == 0 then w else step(Repeat(step, w, n - 1))
  }

  /** Applications of any step compose. */
  lemma {:induction false} RepeatAdd(step: World -> World, w: World, a: nat, b: nat)
    ensures Repeat(step, w, a + b) == Repeat(step, Repeat(step, w, a), b)
    decreases b
  {
    if b > 0 {
      RepeatAdd(step, w, a, b - 1);
    }
  }

  /** One pass of the loop as a step on all worlds; an invalid world is left alone. */
  ghost function Ticker(interpolate: Interpolation): World -> World
  {
    w => if WorldValid(w) then Pass(w, interpolate) else w
  }

  /** Passes from a valid world are applications of `Ticker`. */
  lemma {:induction false} IterateRepeat(w: World, n: nat, interpolate: Interpolation)
    requires WorldValid(w)
    ensures Iterate(w, n, interpolate) == Repeat(Ticker(interpolate), w, n)
    decreases n
  {
    if n > 0 {
      IterateRepeat(w, n - 1, interpolate);
    }
  }

  /** Passes compose. */
  lemma IterateAdd(w: World, a: nat, b: nat, interpolate: Interpolation)
    requires WorldValid(w)
    ensures Iterate(w, a + b, interpolate) == Iterate(Iterate(w, a, interpolate), b, interpolate)
  {
    var wa := Iterate(w, a, interpolate);
    IterateRepeat(w, a + b, interpolate);
    IterateRepeat(w, a, interpolate);
    IterateRepeat(wa, b, interpolate);
    RepeatAdd(Ticker(interpolate), w, a, b);
  }

  /** The flag block hands over at once; the first glide runs 31 ticks and hands over to the wait at 1023 ms. */
  lemma ScenarioFirstGlide(t0: nat, interpolate: Interpolation)
    ensures var w := Iterate(Scenario(t0), 33, interpolate);
            var p := interpolate(0, 100, 1000, 1000);
            && w.current == 2 && w.time == t0 + 1023 && w.x == p && w.y == p
            && w.blocks[2] == Scenario(t0).blocks[2] && w.blocks[3] == Scenario(t0).blocks[3]
  {
    assert GlideTicks(1000) == 31;
    var w0 := Scenario(t0);
    var w1 := TickSpec(w0, interpolate).0;
    IterateZero(w0, interpolate);
    IterateLast(w0, 0, interpolate);
    assert Pass(w0, interpolate) == w1;
    assert w1.blocks[1] == w0.blocks[1] && w1.blocks[2] == w0.blocks[2] && w1.blocks[3] == w0.blocks[3];
    GlideFinish(w1, interpolate);
    IterateAdd(w0, 1, 32, interpolate);
  }

  /** The wait holds the sprite for 16 ticks and hands over to the second glide at 1551 ms. */
  lemma ScenarioWait(t0: nat, interpolate: Interpolation)
    ensures var w := Iterate(Scenario(t0), 50, interpolate);
            var p := interpolate(0, 100, 1000, 1000);
            && w.current == 3 && w.time == t0 + 1551 && w.x == p && w.y == p
            && w.blocks[3] == Scenario(t0).blocks[3]
  {
    assert WaitTicks(500) == 16;
    var w0 := Scenario(t0);
    ScenarioFirstGlide(t0, interpolate);
    var w2 := Iterate(w0, 33, interpolate);
    WaitFinish(w2, interpolate);
    IterateAdd(w0, 33, 17, interpolate);
  }

  /**
   * The scenario reaches `exit(2)` on pass 112, 3564 ms after it started:
   * the flag block hands over at once, the first glide runs 31 ticks, the
   * wait 16 with the sprite still, and the second glide 61, each glide
   * finishing on the end point of its path.
   */
  lemma ScenarioRun(t0: nat, interpolate: Interpolation)
    ensures var w := Iterate(Scenario(t0), 111, interpolate);
            var last := TickSpec(w, interpolate);
            var p := interpolate(0, 100, 1000, 1000);
            && last.1 == Exited && last.0.time == t0 + 3564
            && last.0.x == interpolate(p, 0, 2000, 2000) && last.0.y == interpolate(p, 0, 2000, 2000)
  {
    assert GlideTicks(2000) == 61;
    var w0 := Scenario(t0);
    ScenarioWait(t0, interpolate);
    var w3 := Iterate(w0, 50, interpolate);
    GlideDuration(w3, interpolate);
    IterateAdd(w0, 50, 61, interpolate);
  }

  /** The running program: the target's block chain, its `TargetState` and `globalTime`. */
  class Runner {
    const blocks: array<Block>
    const first: nat
    const interpolate: Interpolation
    var current: nat
    var globalTime: nat
    var x: int
    var y: int

    function State(): World
      reads this, blocks
    {
      World(blocks[..], first, current, globalTime, x, y)
    }

    constructor (blocks: array<Block>, first: nat, interpolate: Interpolation)
      ensures this.blocks == blocks && this.first == first && this.interpolate == interpolate
      ensures current == first && globalTime == 0 && x == 0 && y == 0
    {
      this.blocks := blocks;
      this.first := first;
      this.interpolate := interpolate;
      current := first;
      globalTime := 0;
      x := 0;
      y := 0;
    }

    /** `BlockControlWait(&state, dtMs)`. */
    method ControlWait() returns (ret: int)
      requires WorldValid(State()) && blocks[current].update == Kind.ControlWait
      modifies blocks
      ensures (State(), ret) == Update(old(State()), interpolate)
    {
      var b := blocks[current];
      if !b.isActive {
        b := b.(deadline := globalTime + b.duration, isActive := true);
        blocks[current] := b;
      }
      assert blocks[..] == old(blocks[..])[current := b];
      if b.deadline > globalTime {
        return 1;
      }
      return 0;
    }

    /** `BlockMotionGlideSecsToXY(&state, dtMs)`. */
    method GlideSecsToXY() returns (ret: int)
      requires WorldValid(State()) && blocks[current].update == Kind.GlideSecsToXY
      modifies this, blocks
      ensures (State(), ret) == Update(old(State()), interpolate)
    {
      var b := blocks[current];
      if !b.isActive {
        b := b.(startTime := globalTime, startX := x, startY := y, isActive := true);
        blocks[current] := b;
      }
      assert blocks[..] == old(blocks[..])[current := b];
      var isLast := false;
      var dt := globalTime - b.startTime;
      if dt > b.duration {
        isLast := true;
        dt := b.duration;
      }
      x := interpolate(b.startX, b.targetX, dt, b.duration);
      y := interpolate(b.startY, b.targetY, dt, b.duration);
      if isLast {
        return 0;
      }
      return 1;
    }

    /** One pass of the `while (1)` loop of `main`. */
    method Tick() returns (outcome: Outcome)
      requires WorldValid(State())
      modifies this, blocks
      ensures (State(), outcome) == TickSpec(old(State()), interpolate)
    {
      var ret;
      match blocks[current].update {
        case WhenFlagClicked =>
          ret := 0;
        case ControlWait =>
          ret := ControlWait();
        case GlideSecsToXY =>
          ret := GlideSecsToXY();
      }
      if ret == 0 {
        var next := blocks[current].next;
        if next != -1 {
          current := next;
          blocks[current] := blocks[current].(isActive := false);
          return Moved;
        }
        current := first;
        return Exited;
      }
      globalTime := globalTime + DtMs;
      return Continued;
    }
  }
}
