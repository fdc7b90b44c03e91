/**
 * The stack-cursor interpreter of scratch-vm.c. Blocks live in an arena and
 * refer to each other by index (-1 is the null pointer). The stack holds one
 * cursor per open block sequence: the top-level script at the bottom, the
 * body of the `Repeat` below it above that, and so on. `Advance` runs blocks
 * until the body it entered ends or the top-level script runs out.
 */
module StackVm {

  /** The size of the cursor stack in the demo of scratch-vm.c. */
  const StackCapacity: nat := 5

  datatype Sprite = Sprite(x: int, y: int)

  /**
   * `BlockControlRepeat` (op code `kOpCodeControlRepeat`) and
   * `BlockMotionMoveSteps` (op code `kOpCodeMotionMoveSteps`), with the
   * `sprite` and `next` of their header.
   */
  datatype Block =
    | Repeat(sprite: nat, next: int, times: int, iterations: int, subStack: int)
    | MoveSteps(sprite: nat, next: int, steps: int)

  /** Everything `Advance` reads or writes. */
  datatype Machine = Machine(blocks: seq<Block>, sprites: seq<Sprite>, stack: seq<int>, index: int)

  ghost predicate Ref(m: Machine, p: int)
  {
    p == -1 || 0 <= p < |m.blocks|
  }

  ghost function RankOf(rank: seq<nat>, p: int): nat
  {
    if 0 <= p < |rank| then rank[p] + 1 else 0
  }

  /**
   * The block graph can be run: links are in range, `rank` strictly
   * decreases along `next` (every sequence ends), and `depth` is the nesting
   * level of each block, below the stack capacity even for the body of a
   * `Repeat`.
   */
  ghost predicate Shaped(m: Machine, rank: seq<nat>, depth: seq<nat>)
  {
    && |rank| == |m.blocks| && |depth| == |m.blocks|
    && forall p :: 0 <= p < |m.blocks| ==>
         && m.blocks[p].sprite < |m.sprites|
         && Ref(m, m.blocks[p].next) && RankOf(rank, m.blocks[p].next) < RankOf(rank, p)
         && (m.blocks[p].next != -1 ==> depth[m.blocks[p].next] == depth[p])
         && depth[p] < |m.stack|
         && (m.blocks[p].Repeat? ==>
               && depth[p] + 1 < |m.stack|
               && Ref(m, m.blocks[p].subStack)
               && (m.blocks[p].subStack != -1 ==> depth[m.blocks[p].subStack] == depth[p] + 1))
  }

  /**
   * The open frames: each cursor up to `index` is null or a block of its own
   * nesting level, and every frame below the top rests on the `Repeat` whose
   * body is open above it.
   */
  ghost predicate Frames(m: Machine, depth: seq<nat>)
    requires |depth| == |m.blocks|
  {
    && 0 <= m.index < |m.stack|
    && (forall k :: 0 <= k <= m.index ==>
          Ref(m, m.stack[k]) && (m.stack[k] != -1 ==> depth[m.stack[k]] == k))
    && (forall k :: 0 <= k < m.index ==> m.stack[k] != -1 && m.blocks[m.stack[k]].Repeat?)
  }

  ghost predicate Runnable(m: Machine, rank: seq<nat>, depth: seq<nat>)
  {
    Shaped(m, rank, depth) && Frames(m, depth)
  }

  /** What one activation of `Advance` does: return, or go on with a new state and flag. */
  datatype Progress = Done(m: Machine) | Next(m: Machine, inSubstack: bool)

  /** The sprite `b` belongs to, moved by `b.steps`. */
  function Moved(m: Machine, b: Block): Machine
    requires b.MoveSteps? && b.sprite < |m.sprites|
  {
    m.(sprites := m.sprites[b.sprite := m.sprites[b.sprite].(x := m.sprites[b.sprite].x + b.steps)])
  }

  /**
   * The visit of the block under the top cursor: a `Repeat` with iterations
   * left pushes its body, counts one iteration and enters the body; an
   * exhausted `Repeat` moves the cursor to its `next`; a `MoveSteps` adds its
   * steps to its sprite's `x`, leaves every other sprite alone and moves the
   * cursor to its `next`.
   */
  ghost predicate VisitsTop(m: Machine, inSubstack: bool, r: Progress)
    requires 0 <= m.index < |m.stack| && 0 <= m.stack[m.index] < |m.blocks|
  {
    var p := m.stack[m.index];
    var b := m.blocks[p];
    && r.Next?
    && |r.m.blocks| == |m.blocks| && |r.m.sprites| == |m.sprites| && |r.m.stack| == |m.stack|
    && (b.Repeat? && b.iterations < b.times ==>
          && r.inSubstack && r.m.index == m.index + 1 < |m.stack| && r.m.stack[r.m.index] == b.subStack
          && r.m.blocks == m.blocks[p := b.(iterations := b.iterations + 1)] && r.m.sprites == m.sprites)
    && (!(b.Repeat? && b.iterations < b.times) ==>
          && r.inSubstack == inSubstack && r.m.index == m.index && r.m.stack[m.index] == b.next
          && r.m.blocks == m.blocks)
    && (b.Repeat? ==> r.m.sprites == m.sprites)
    && (b.MoveSteps? ==>
          && b.sprite < |m.sprites|
          && r.m.sprites[b.sprite].x == m.sprites[b.sprite].x + b.steps
          && r.m.sprites[b.sprite].y == m.sprites[b.sprite].y
          && forall q :: 0 <= q < |m.sprites| && q != b.sprite ==> r.m.sprites[q] == m.sprites[q])
  }

  /**
   * One activation of `Advance(stack_index, stack, dt_millis, is_in_substack)`
   * up to its recursive call. The cursor stack changes only at the index the
   * activation ends with, which differs by at most one from the index it
   * starts with.
   */
  function Step(m: Machine, inSubstack: bool, ghost rank: seq<nat>, ghost depth: seq<nat>): (r: Progress)
    requires Runnable(m, rank, depth)
    ensures |r.m.stack| == |m.stack| && |r.m.blocks| == |m.blocks| && |r.m.sprites| == |m.sprites|
    ensures m.index - 1 <= r.m.index <= m.index + 1
    ensures forall k :: 0 <= k < |m.stack| && k != r.m.index ==> r.m.stack[k] == m.stack[k]
    ensures r.Done? ==> r.m.blocks == m.blocks && r.m.sprites == m.sprites && r.m.stack == m.stack
    ensures m.stack[m.index] == -1 && inSubstack ==> r == Done(m)
    ensures m.stack[m.index] == -1 && !inSubstack && m.index == 0 ==> r == Done(m.(index := -1))
    ensures inSubstack ==> r.m.index >= m.index && (r.Next? ==> r.inSubstack)
  {
    if m.stack[m.index] == -1 && inSubstack then Done(m)
    else
      var m1 := if m.stack[m.index] == -1 then m.(index := m.index - 1) else m;
      if m1.index < 0 then Done(m1)
      else
        var p := m1.stack[m1.index];
        var b := m1.blocks[p];
        if b.Repeat? && b.iterations < b.times then
          Next(m1.(blocks := m1.blocks[p := b.(iterations := b.iterations + 1)],
                   stack := m1.stack[m1.index + 1 := b.subStack],
                   index := m1.index + 1), true)
        else
          var m2 := if b.MoveSteps? then Moved(m1, b) else m1;
          Next(m2.(stack := m2.stack[m2.index := b.next]), inSubstack)
  }

  /**
   * What an activation does with the block it visits: the one under a
   * non-null cursor, or at the top level, once a null cursor has popped its
   * frame, the `Repeat` that owns that frame.
   */
  lemma StepVisits(m: Machine, inSubstack: bool, rank: seq<nat>, depth: seq<nat>)
    requires Runnable(m, rank, depth)
    ensures m.stack[m.index] != -1 ==> VisitsTop(m, inSubstack, Step(m, inSubstack, rank, depth))
    ensures m.stack[m.index] == -1 && !inSubstack && m.index > 0 ==>
              VisitsTop(m.(index := m.index - 1), false, Step(m, inSubstack, rank, depth))
  {
  }

  /** The termination measure of `Advance`: the top level pops, a body pushes or moves on. */
  ghost predicate Smaller(m': Machine, s': bool, m: Machine, s: bool, rank: seq<nat>)
    requires 0 <= m'.index < |m'.stack| && 0 <= m.index < |m.stack|
  {
    || (!s && s')
    || (s == s' && s && m'.index > m.index)
    || (s == s' && !s && m'.index < m.index)
    || (s == s' && m'.index == m.index && RankOf(rank, m'.stack[m'.index]) < RankOf(rank, m.stack[m.index]))
  }

  /** The blocks differ only in the iteration counts of `Repeat` blocks. */
  ghost predicate SameGraph(m: Machine, m': Machine)
  {
    && |m'.blocks| == |m.blocks| && |m'.sprites| == |m.sprites| && |m'.stack| == |m.stack|
    && forall p :: 0 <= p < |m.blocks| ==>
         && m'.blocks[p].sprite == m.blocks[p].sprite && m'.blocks[p].next == m.blocks[p].next
         && m'.blocks[p].Repeat? == m.blocks[p].Repeat?
         && (m.blocks[p].Repeat? ==>
               m'.blocks[p].subStack == m.blocks[p].subStack && m'.blocks[p].times == m.blocks[p].times)
  }

  lemma SameGraphShaped(m: Machine, m': Machine, rank: seq<nat>, depth: seq<nat>)
    requires Shaped(m, rank, depth) && SameGraph(m, m')
    ensures Shaped(m', rank, depth)
  {
    forall p | 0 <= p < |m'.blocks|
      ensures m'.blocks[p].sprite < |m'.sprites| && Ref(m', m'.blocks[p].next)
    {
      assert m.blocks[p].sprite < |m.sprites| && Ref(m, m.blocks[p].next);
    }
  }

  /** An activation that goes on keeps the graph runnable and makes the measure smaller. */
  lemma StepNext(m: Machine, inSubstack: bool, rank: seq<nat>, depth: seq<nat>)
    requires Runnable(m, rank, depth) && Step(m, inSubstack, rank, depth).Next?
    ensures var r := Step(m, inSubstack, rank, depth);
            SameGraph(m, r.m) && Runnable(r.m, rank, depth)
            && Smaller(r.m, r.inSubstack, m, inSubstack, rank)
  {
    var r := Step(m, inSubstack, rank, depth);
    var m1 := if m.stack[m.index] == -1 then m.(index := m.index - 1) else m;
    var p := m1.stack[m1.index];
    assert SameGraph(m, r.m);
    SameGraphShaped(m, r.m, rank, depth);
  }

  /** `Advance`: activations until one returns. */
  ghost function Run(m: Machine, inSubstack: bool, rank: seq<nat>, depth: seq<nat>): (r: Machine)
    requires Runnable(m, rank, depth)
    ensures |r.stack| == |m.stack| && |r.blocks| == |m.blocks| && |r.sprites| == |m.sprites|
    decreases (if inSubstack then 0 else 1), (if inSubstack then |m.stack| - m.index else m.index),
              RankOf(rank, m.stack[m.index])
  {
    match Step(m, inSubstack, rank, depth)
    case Done(m') => m'
    case Next(m', s') =>
      StepNext(m, inSubstack, rank, depth);
      Run(m', s', rank, depth)
  }

  /** No `Repeat` has run its body more often than its `times`. */
  ghost predicate CountersWithin(m: Machine)
  {
    forall p :: 0 <= p < |m.blocks| && m.blocks[p].Repeat? ==> m.blocks[p].iterations <= m.blocks[p].times
  }

  /** Same graph, and no iteration count went down. */
  ghost predicate CountersGrow(m: Machine, m': Machine)
  {
    SameGraph(m, m')
    && forall p :: 0 <= p < |m.blocks| && m.blocks[p].Repeat? ==> m.blocks[p].iterations <= m'.blocks[p].iterations
  }

  /** An activation raises at most the counter of the `Repeat` it enters, and only below `times`. */
  lemma StepCounters(m: Machine, inSubstack: bool, rank: seq<nat>, depth: seq<nat>)
    requires Runnable(m, rank, depth)
    ensures var r := Step(m, inSubstack, rank, depth);
            SameGraph(m, r.m) ==>
            CountersGrow(m, r.m) && (CountersWithin(m) ==> CountersWithin(r.m))
  {
  }

  /**
   * An iteration count is never reset, and a `Repeat` that starts at zero
   * enters its body at most `times` times over the whole run.
   */
  lemma {:induction false} RunCounters(m: Machine, inSubstack: bool, rank: seq<nat>, depth: seq<nat>)
    requires Runnable(m, rank, depth)
    ensures CountersGrow(m, Run(m, inSubstack, rank, depth))
    ensures CountersWithin(m) ==> CountersWithin(Run(m, inSubstack, rank, depth))
    decreases (if inSubstack then 0 else 1), (if inSubstack then |m.stack| - m.index else m.index),
              RankOf(rank, m.stack[m.index])
  {
    match Step(m, inSubstack, rank, depth)
    case Done(m') =>
    case Next(m', s') =>
      StepNext(m, inSubstack, rank, depth);
      StepCounters(m, inSubstack, rank, depth);
      RunCounters(m', s', rank, depth);
  }

  /**
   * Inside a body (`is_in_substack` set) `Advance` never pops: it returns
   * with the frames below its starting cursor untouched.
   */
  lemma {:induction false} BodyRunKeepsOuterFrames(m: Machine, rank: seq<nat>, depth: seq<nat>)
    requires Runnable(m, rank, depth)
    ensures Run(m, true, rank, depth).index >= m.index
    ensures forall k :: 0 <= k < m.index ==> Run(m, true, rank, depth).stack[k] == m.stack[k]
    decreases |m.stack| - m.index, RankOf(rank, m.stack[m.index])
  {
    match Step(m, true, rank, depth)
    case Done(m') =>
    case Next(m', s') =>
      StepNext(m, true, rank, depth);
      BodyRunKeepsOuterFrames(m', rank, depth);
  }

  /** The machine of scratch-vm.c, with the block arena, the sprites and the cursor stack in arrays. */
  class Vm {
    const blocks: array<Block>
    const sprites: array<Sprite>
    const stack: array<int>
    var index: int
    ghost const rank: seq<nat>
    ghost const depth: seq<nat>

    function State(): Machine
      reads this, blocks, sprites, stack
    {
      Machine(blocks[..], sprites[..], stack[..], index)
    }

    constructor (blocks: array<Block>, sprites: array<Sprite>, stack: array<int>, index: int,
                 ghost rank: seq<nat>, ghost depth: seq<nat>)
      ensures this.blocks == blocks && this.sprites == sprites && this.stack == stack
      ensures this.index == index && this.rank == rank && this.depth == depth
    {
      this.blocks := blocks;
      this.sprites := sprites;
      this.stack := stack;
      this.index := index;
      this.rank := rank;
      this.depth := depth;
    }

    /**
     * `Advance(stack_index, stack, dt_millis, is_in_substack)`: each pass of
     * the loop is one activation of the recursive C function. `dt_millis` is
     * not used.
     */
    method Advance(dtMillis: int, isInSubstack: bool)
      requires Runnable(State(), rank, depth)
      modifies this, blocks, sprites, stack
      ensures State() == Run(old(State()), isInSubstack, rank, depth)
    {
      var inSubstack := isInSubstack;
      var done := false;
      while !done
        invariant !done ==> Runnable(State(), rank, depth)
        invariant !done ==> Run(old(State()), isInSubstack, rank, depth) == Run(State(), inSubstack, rank, depth)
        invariant done ==> State() == Run(old(State()), isInSubstack, rank, depth)
        decreases !done, (if done || inSubstack then 0 else 1),
                  (if done then 0 else if inSubstack then stack.Length - index else index),
                  (if done then 0 else RankOf(rank, stack[index]))
      {
        ghost var before := State();
        ghost var wasInSubstack := inSubstack;
        done, inSubstack := Activate(inSubstack);
        if !done {
          StepNext(before, wasInSubstack, rank, depth);
        }
      }
    }

    /** One activation of `Advance`, up to its recursive call or its return. */
    method Activate(isInSubstack: bool) returns (done: bool, inSubstack: bool)
      requires Runnable(State(), rank, depth)
      modifies this, blocks, sprites, stack
      ensures var r := Step(old(State()), isInSubstack, rank, depth);
              State() == r.m && done == r.Done? && (r.Next? ==> inSubstack == r.inSubstack)
    {
      ghost var before := State();
      ghost var m1 := if before.stack[before.index] == -1 then before.(index := before.index - 1) else before;
      inSubstack := isInSubstack;
      if stack[index] == -1 {
        if inSubstack {
          return true, inSubstack;
        }
        index := index - 1;
      }
      assert State() == m1;
      if index < 0 {
        return true, inSubstack;
      }
      var p := stack[index];
      var b := blocks[p];
      if b.Repeat? && b.iterations < b.times {
        index := index + 1;
        stack[index] := b.subStack;
        blocks[p] := b.(iterations := b.iterations + 1);
        inSubstack := true;
      } else {
        if b.MoveSteps? {
          sprites[b.sprite] := sprites[b.sprite].(x := sprites[b.sprite].x + b.steps);
        }
        stack[index] := b.next;
      }
      done := false;
    }
  }

  /**
   * The program built by `main` in scratch-vm.c: four moves of one step lead
   * to a `Repeat` of four whose body is four moves of two steps, all on one
   * sprite. The `next` of the `Repeat` is left unset by the C code; here it
   * is null.
   */
  const DemoBlocks: seq<Block> :=
    [MoveSteps(0, 1, 1), MoveSteps(0, 2, 1), MoveSteps(0, 3, 1), MoveSteps(0, 4, 1),
     Repeat(0, -1, 4, 0, 5),
     MoveSteps(0, 6, 2), MoveSteps(0, 7, 2), MoveSteps(0, 8, 2), MoveSteps(0, -1, 2)]

  const DemoRank: seq<nat> := [4, 3, 2, 1, 0, 3, 2, 1, 0]
  const DemoDepth: seq<nat> := [0, 0, 0, 0, 0, 1, 1, 1, 1]

  function DemoStart(): (m: Machine)
    ensures Runnable(m, DemoRank, DemoDepth)
  {
    Machine(DemoBlocks, [Sprite(0, 0)], [0, -1, -1, -1, -1], 0)
  }

  /** The demo after `n` calls: the body has run `n` times and its frame is closed. */
  function DemoAfter(n: int): (m: Machine)
    ensures Runnable(m, DemoRank, DemoDepth)
  {
    Machine(DemoBlocks[4 := Repeat(0, -1, 4, n, 5)], [Sprite(4 + 8 * n, 0)], [4, -1, -1, -1, -1], 1)
  }

  /** An activation that goes on leaves `Run` to the next one. */
  lemma Follows(m: Machine, s: bool, m': Machine, s': bool, rank: seq<nat>, depth: seq<nat>)
    requires Runnable(m, rank, depth) && Step(m, s, rank, depth) == Next(m', s')
    ensures Runnable(m', rank, depth) && Run(m, s, rank, depth) == Run(m', s', rank, depth)
  {
    StepNext(m, s, rank, depth);
  }

  /** The demo states met on the way: a top-level cursor, or the body open above the `Repeat`. */
  ghost predicate DemoReachable(top: int, body: int, index: int)
  {
    || (index == 0 && 0 <= top <= 4 && body == -1)
    || (index == 1 && top == 4 && (body == -1 || 5 <= body <= 8))
  }

  /** A demo state: the sprite at `x`, cursors `top` and `body`, and the counter of the `Repeat`. */
  ghost function DemoState(x: int, top: int, body: int, index: int, n: int): (m: Machine)
    requires DemoReachable(top, body, index)
    ensures Runnable(m, DemoRank, DemoDepth)
  {
    var m := Machine(DemoBlocks[4 := Repeat(0, -1, 4, n, 5)], [Sprite(x, 0)], [top, body, -1, -1, -1], index);
    SameGraphShaped(DemoStart(), m, DemoRank, DemoDepth);
    m
  }

  /** At the top level one of the first four blocks moves the sprite by one. */
  lemma DemoTopStep(x: int, p: int)
    requires 0 <= p < 4
    ensures Step(DemoState(x, p, -1, 0, 0), false, DemoRank, DemoDepth) == Next(DemoState(x + 1, p + 1, -1, 0, 0), false)
  {
  }

  /** The `Repeat` enters its body while its counter is below four. */
  lemma DemoEnter(x: int, index: int, n: int)
    requires 0 <= index <= 1 && 0 <= n < 4
    ensures Step(DemoState(x, 4, -1, index, n), false, DemoRank, DemoDepth) == Next(DemoState(x, 4, 5, 1, n + 1), true)
  {
  }

  /** In the body, block `p` moves the sprite by two and the cursor goes on to `p + 1`. */
  lemma DemoBodyStep(x: int, p: int, n: int)
    requires 5 <= p <= 8
    ensures Step(DemoState(x, 4, p, 1, n), true, DemoRank, DemoDepth)
         == Next(DemoState(x + 2, 4, if p == 8 then -1 else p + 1, 1, n), true)
  {
  }

  /** The body moves the sprite by two per block and returns without popping. */
  lemma DemoBody(x: int, n: int)
    ensures Run(DemoState(x, 4, 5, 1, n), true, DemoRank, DemoDepth) == DemoState(x + 8, 4, -1, 1, n)
  {
    DemoBodyStep(x, 5, n);
    Follows(DemoState(x, 4, 5, 1, n), true, DemoState(x + 2, 4, 6, 1, n), true, DemoRank, DemoDepth);
    DemoBodyStep(x + 2, 6, n);
    Follows(DemoState(x + 2, 4, 6, 1, n), true, DemoState(x + 4, 4, 7, 1, n), true, DemoRank, DemoDepth);
    DemoBodyStep(x + 4, 7, n);
    Follows(DemoState(x + 4, 4, 7, 1, n), true, DemoState(x + 6, 4, 8, 1, n), true, DemoRank, DemoDepth);
    DemoBodyStep(x + 6, 8, n);
    Follows(DemoState(x + 6, 4, 8, 1, n), true, DemoState(x + 8, 4, -1, 1, n), true, DemoRank, DemoDepth);
  }

  /** From its first block the script runs the four single steps to the `Repeat`. */
  lemma DemoTop(x: int)
    ensures Run(DemoState(x, 0, -1, 0, 0), false, DemoRank, DemoDepth)
         == Run(DemoState(x + 4, 4, -1, 0, 0), false, DemoRank, DemoDepth)
  {
    DemoTopStep(x, 0);
    Follows(DemoState(x, 0, -1, 0, 0), false, DemoState(x + 1, 1, -1, 0, 0), false, DemoRank, DemoDepth);
    DemoTopStep(x + 1, 1);
    Follows(DemoState(x + 1, 1, -1, 0, 0), false, DemoState(x + 2, 2, -1, 0, 0), false, DemoRank, DemoDepth);
    DemoTopStep(x + 2, 2);
    Follows(DemoState(x + 2, 2, -1, 0, 0), false, DemoState(x + 3, 3, -1, 0, 0), false, DemoRank, DemoDepth);
    DemoTopStep(x + 3, 3);
    Follows(DemoState(x + 3, 3, -1, 0, 0), false, DemoState(x + 4, 4, -1, 0, 0), false, DemoRank, DemoDepth);
  }

  /** From its first block the script runs the four single steps, enters the body and runs it once. */
  lemma DemoScript(x: int)
    ensures Run(DemoState(x, 0, -1, 0, 0), false, DemoRank, DemoDepth) == DemoState(x + 12, 4, -1, 1, 1)
  {
    DemoTop(x);
    DemoEnter(x + 4, 0, 0);
    Follows(DemoState(x + 4, 4, -1, 0, 0), false, DemoState(x + 4, 4, 5, 1, 1), true, DemoRank, DemoDepth);
    DemoBody(x + 4, 1);
  }

  /** The first call leaves the sprite at 12, the index above the `Repeat`'s frame on a null cursor. */
  lemma DemoFirstCall()
    ensures Run(DemoStart(), false, DemoRank, DemoDepth) == DemoAfter(1)
  {
    DemoScript(0);
    assert DemoStart() == DemoState(0, 0, -1, 0, 0);
    assert DemoAfter(1) == DemoState(12, 4, -1, 1, 1);
  }

  /** Every later call re-enters the body once, until the counter reaches `times`. */
  lemma DemoLaterCall(n: int)
    requires 1 <= n < 4
    ensures Run(DemoAfter(n), false, DemoRank, DemoDepth) == DemoAfter(n + 1)
  {
    var x := 4 + 8 * n;
    assert DemoAfter(n) == DemoState(x, 4, -1, 1, n);
    DemoEnter(x, 1, n);
    Follows(DemoState(x, 4, -1, 1, n), false, DemoState(x, 4, 5, 1, n + 1), true, DemoRank, DemoDepth);
    DemoBody(x, n + 1);
  }

  /** `main` of scratch-vm.c: three calls of `Advance` with `dt_millis` 16, reading the sprite after each. */
  method RunDemo() returns (x1: int, x2: int, x3: int)
    ensures x1 == 12 && x2 == 20 && x3 == 28
  {
    var blocks := new Block[|DemoBlocks|](i requires 0 <= i < |DemoBlocks| => DemoBlocks[i]);
    var sprites := new Sprite[1](_ => Sprite(0, 0));
    var stack := new int[StackCapacity](_ => -1);
    stack[0] := 0;
    var vm := new Vm(blocks, sprites, stack, 0, DemoRank, DemoDepth);
    assert vm.State() == DemoStart();
    DemoFirstCall();
    vm.Advance(16, false);
    x1 := vm.sprites[0].x;
    DemoLaterCall(1);
    vm.Advance(16, false);
    x2 := vm.sprites[0].x;
    DemoLaterCall(2);
    vm.Advance(16, false);
    x3 := vm.sprites[0].x;
  }
}
