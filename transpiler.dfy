/**
 * The block-graph builder of scratch-transpiler.py. It walks the blocks of
 * every target of a Scratch project, merges each maximal run of in-place
 * blocks into one `Inplace` block, names every block after the number of
 * blocks emitted before it, links blocks by name, and collects the variables
 * the in-place blocks assign, once per mangled name.
 */
module Transpiler {
  import opened Util

  /** A Python `float`; floating-point rounding is not modelled. */
  type Number = real

  /** A block of a target in project.json, with the keys the builder reads. */
  datatype ScratchBlock = ScratchBlock(
    opcode: string,
    /** `"next"`: `None` is JSON null. */
    next: Option<string>,
    topLevel: bool,
    /** `inputs["SUBSTACK"][1]`: `None` when the input is absent or null. */
    substack: Option<string>,
    /** `fields["VARIABLE"][1]`: `None` when the field is absent. */
    variableField: Option<string>)

  /** `[name, value]` of one entry of a target's `"variables"`. */
  datatype VariableEntry = VariableEntry(name: string, value: string)

  /** The stage or a sprite of project.json. */
  datatype ScratchTarget = ScratchTarget(
    name: string,
    blocks: map<string, ScratchBlock>,
    /** The order of the keys of `"blocks"`, which Python's dict iteration follows. */
    blockOrder: seq<string>,
    variables: map<string, VariableEntry>)

  /** The `KeyError`s the builder can raise on a malformed project. */
  datatype Error =
    | MissingBlock(id: string)
    | MissingSubstack(opcode: string)
    | MissingVariableField(opcode: string)
    | MissingVariable(id: string)

  datatype VarValue = NumberValue(n: Number) | TextValue(s: string)

  /** `class Variable`: `is_string` is `value.TextValue?`. */
  datatype Variable = Variable(variableName: string, value: VarValue)

  /** One entry of `scratch_inplace_blocks_helpers` built from a monitor. */
  datatype Helper = Helper(variableName: string, value: Number)

  /**
   * What the model leaves abstract: whether `float(value)` succeeds and what
   * it yields, and the helper the monitor lookup of `set_inplace_blocks`
   * builds for a `data_setvariableto` block.
   */
  datatype Environment = Environment(
    parsesAsNumber: string -> bool,
    parseNumber: string -> Number,
    monitorHelper: ScratchBlock -> Option<Helper>)

  /** `class Block` of the generator. */
  datatype GenBlock = GenBlock(
    /** `op_code`: `None` when `to_known_op_codes` does not know the opcode. */
    opCode: Option<string>,
    isTopLevel: bool,
    inplaceBlocks: seq<ScratchBlock>,
    inplaceOpCodes: seq<string>,
    helpers: seq<Option<Helper>>,
    blockName: string,
    nextBlockName: string,
    substackBlockName: string)

  /** `all_variables_and_cache`: the collected variables and the mangled names already seen. */
  datatype VarState = VarState(allVariables: seq<Variable>, cache: map<string, string>)

  /** Everything the builder has produced so far: `all_blocks` and `all_variables_and_cache`. */
  datatype Emission = Emission(blocks: seq<GenBlock>, vars: VarState)

  const kOpcodeRunInplace: string := "kScratchInPlace"

  // ----- Names -----

  /** `str.replace(" ", "_")`. */
  function ReplaceSpaces(s: string): (r: string)
    ensures |r| == |s|
    ensures forall i :: 0 <= i < |s| ==> r[i] == if s[i] == ' ' then '_' else s[i]
  {
    if |s| == 0 then "" else [if s[0] == ' ' then '_' else s[0]] + ReplaceSpaces(s[1..])
  }

  /** `extract_sprite_name`. */
  function ExtractSpriteName(t: ScratchTarget): (r: string)
    ensures |r| == |t.name| && ' ' !in r
    ensures forall i :: 0 <= i < |r| ==> r[i] == if t.name[i] == ' ' then '_' else t.name[i]
  {
    ReplaceSpaces(t.name)
  }

  /** `extract_variable_name`: the `KeyError` of an unknown variable id becomes an error. */
  function ExtractVariableName(t: ScratchTarget, id: string): (r: Result<string, Error>)
    ensures r.Err? <==> id !in t.variables
    ensures r.Err? ==> r.error == MissingVariable(id)
    ensures r.Ok? ==> && ' ' !in r.value
                      && |r.value| == |t.name| + 1 + |t.variables[id].name|
                      && r.value[..|t.name| + 1] == ExtractSpriteName(t) + "_"
                      && r.value[|t.name| + 1..] == ReplaceSpaces(t.variables[id].name)
  {
    if id in t.variables then Ok(ExtractSpriteName(t) + "_" + ReplaceSpaces(t.variables[id].name))
    else Err(MissingVariable(id))
  }

  predicate IsDigit(c: char)
  {
    '0' <= c <= '9'
  }

  /** `str(n)` of a non-negative `int`. */
  function DecimalString(n: nat): (s: string)
    decreases n
  {
    (if n < 10 then "" else DecimalString(n / 10)) + [(('0' as int) + n % 10) as char]
  }

  // ----- Opcode classification -----

  /** `can_run_inplace`. */
  predicate CanRunInplace(b: ScratchBlock)
  {
    b.opcode == "data_setvariableto" || b.opcode == "motion_setx"
  }

  /** `has_substack`. */
  predicate HasSubstack(b: ScratchBlock)
  {
    b.opcode == "control_forever" || b.opcode == "control_if"
  }

  /** `to_known_op_codes`: the implicit `return None` of an unknown opcode is `None`. */
  function ToKnownOpCodes(opcode: string): (r: Option<string>)
    ensures r.Some? <==> opcode in {"event_whenflagclicked", "control_forever", "control_if"}
    ensures opcode == "event_whenflagclicked" ==> r == Some("kScratchWhenFlagClicked")
    ensures opcode == "control_forever" ==> r == Some("kScratchControlForever")
    ensures opcode == "control_if" ==> r == Some("kScratchControlIf")
    ensures r != Some(kOpcodeRunInplace)
    ensures HasSubstack(ScratchBlock(opcode, None, false, None, None)) ==> r.Some?
  {
    if opcode == "event_whenflagclicked" then Some("kScratchWhenFlagClicked")
    else if opcode == "control_forever" then Some("kScratchControlForever")
    else if opcode == "control_if" then Some("kScratchControlIf")
    else None
  }

  /** `if not scratch_cur_block["next"]`: null and the empty string both end the sequence. */
  predicate Falsy(next: Option<string>)
  {
    next.None? || next.value == ""
  }

  /** The block the builder goes on to after `b`: `None` when `b` ends its sequence. */
  function NextOf(b: ScratchBlock): (r: Option<string>)
    ensures r.None? <==> Falsy(b.next)
    ensures r.Some? ==> r == b.next
  {
    if Falsy(b.next) then None else b.next
  }

  // ----- Variables -----

  /** `Variable(name, value)`: a number when `float(value)` succeeds, the text otherwise. */
  function MakeVariable(env: Environment, name: string, value: string): Variable
  {
    Variable(name, if env.parsesAsNumber(value) then NumberValue(env.parseNumber(value)) else TextValue(value))
  }

  /** What `access_variable` does to `all_variables_and_cache`. */
  function Access(env: Environment, t: ScratchTarget, id: string, vs: VarState): Result<VarState, Error>
  {
    match ExtractVariableName(t, id)
    case Err(e) => Err(e)
    case Ok(name) =>
      if name in vs.cache then Ok(vs)
      else Ok(VarState(vs.allVariables + [MakeVariable(env, name, t.variables[id].value)], vs.cache[name := id]))
  }

  /** The names of a list of variables. */
  function Names(vars: seq<Variable>): set<string>
  {
    set i | 0 <= i < |vars| :: vars[i].variableName
  }

  /**
   * The invariant of `all_variables_and_cache`: the cache holds exactly the
   * names of the collected variables, and no name is collected twice.
   */
  ghost predicate VarsValid(vs: VarState)
  {
    && vs.cache.Keys == Names(vs.allVariables)
    && forall i, j :: 0 <= i < j < |vs.allVariables| ==>
         vs.allVariables[i].variableName != vs.allVariables[j].variableName
  }

  // ----- set_inplace_blocks -----

  /**
   * The helper entry of one in-place block: a `data_setvariableto` block
   * first collects its variable, then gets the monitor helper; every other
   * block gets `None`.
   */
  function InplaceEntry(env: Environment, t: ScratchTarget, b: ScratchBlock, vs: VarState)
    : Result<(Option<Helper>, VarState), Error>
  {
    if b.opcode != "data_setvariableto" then Ok((None, vs))
    else if b.variableField.None? then Err(MissingVariableField(b.opcode))
    else
      match Access(env, t, b.variableField.value, vs)
      case Err(e) => Err(e)
      case Ok(vs') => Ok((env.monitorHelper(b), vs'))
  }

  /**
   * What `set_inplace_blocks` records for a run of in-place blocks: their
   * opcodes and one helper entry per block, in order, and the variables
   * collected on the way.
   */
  function InplaceEntries(env: Environment, t: ScratchTarget, run: seq<ScratchBlock>, vs: VarState)
    : (r: Result<(seq<string>, seq<Option<Helper>>, VarState), Error>)
    ensures r.Ok? ==> |r.value.0| == |run| && |r.value.1| == |run|
    ensures r.Ok? ==> forall i :: 0 <= i < |run| ==> r.value.0[i] == run[i].opcode
    decreases |run|
  {
    if |run| == 0 then Ok(([], [], vs))
    else
      match InplaceEntries(env, t, run[..|run| - 1], vs)
      case Err(e) => Err(e)
      case Ok((ops, helpers, vs1)) =>
        match InplaceEntry(env, t, run[|run| - 1], vs1)
        case Err(e) => Err(e)
        case Ok((helper, vs2)) => Ok((ops + [run[|run| - 1].opcode], helpers + [helper], vs2))
  }

  // ----- extract_blocks_and_variables_r -----

  /**
   * A strictly decreasing rank along `next` and `SUBSTACK` links between
   * blocks of the target: the chains the builder follows are finite.
   */
  ghost predicate Ranked(t: ScratchTarget, rank: map<string, nat>)
  {
    && t.blocks.Keys <= rank.Keys
    && forall id :: id in t.blocks ==>
      && (t.blocks[id].next.Some? && t.blocks[id].next.value in t.blocks ==>
            rank[t.blocks[id].next.value] < rank[id])
      && (t.blocks[id].substack.Some? && t.blocks[id].substack.value in t.blocks ==>
            rank[t.blocks[id].substack.value] < rank[id])
  }

  /** The result of one call of the builder: the block it returns, and everything emitted. */
  type Outcome = Result<(Option<nat>, Emission), Error>

  /**
   * A call of the builder only appends blocks, and the block it returns is
   * the first one it appended.
   */
  ghost predicate Grows(st: Emission, r: Outcome)
  {
    r.Ok? ==>
      && st.blocks <= r.value.1.blocks
      && (r.value.0.Some? ==> r.value.0.value == |st.blocks| < |r.value.1.blocks|)
  }

  /** The emission with the `next` link of block `idx` set to `name`. */
  function SetNext(st: Emission, idx: nat, name: string): Emission
    requires idx < |st.blocks|
  {
    st.(blocks := st.blocks[idx := st.blocks[idx].(nextBlockName := name)])
  }

  function SetSubstack(st: Emission, idx: nat, name: string): Emission
    requires idx < |st.blocks|
  {
    st.(blocks := st.blocks[idx := st.blocks[idx].(substackBlockName := name)])
  }

  /** The rank of the block a call starts from, as the termination measure. */
  ghost function Measure(rank: map<string, nat>, start: Option<string>): nat
    requires start.Some? ==> start.value in rank
  {
    if start.Some? then rank[start.value] + 1 else 0
  }

  /**
   * `extract_blocks_and_variables_r(…, scratch_block, …)` with `start` the id
   * of `scratch_block`, or `None` for Python's `None`.
   */
  ghost function Extract(env: Environment, t: ScratchTarget, rank: map<string, nat>, start: Option<string>, st: Emission)
    : (r: Outcome)
    requires Ranked(t, rank) && (start.Some? ==> start.value in t.blocks)
    ensures Grows(st, r)
    ensures r.Ok? ==> (r.value.0.Some? <==> start.Some?)
    decreases Measure(rank, start), 3
  {
    if start.None? then Ok((None, st)) else Walk(env, t, rank, start.value, [], st)
  }

  /**
   * One iteration of the `while` loop at block `cur`, with `run` the in-place
   * blocks met before it.
   */
  ghost function Walk(env: Environment, t: ScratchTarget, rank: map<string, nat>, cur: string,
                      run: seq<ScratchBlock>, st: Emission)
    : (r: Outcome)
    requires Ranked(t, rank) && cur in t.blocks
    ensures Grows(st, r)
    ensures r.Ok? ==> r.value.0.Some?
    decreases rank[cur] + 1, if |run| > 0 then 5 else 2
  {
    var b := t.blocks[cur];
    if !Falsy(b.next) && b.next.value !in t.blocks then Err(MissingBlock(b.next.value))
    else if CanRunInplace(b) then
      if Falsy(b.next) then Trailing(env, t, run + [b], st)
      else Walk(env, t, rank, b.next.value, run + [b], st)
    else if |run| > 0 then EmitInplace(env, t, rank, run, b.topLevel, cur, st)
    else EmitBlock(env, t, rank, cur, st)
  }

  /** The `Inplace` block of a run that ends the sequence (the code after the loop). */
  function Trailing(env: Environment, t: ScratchTarget, run: seq<ScratchBlock>, st: Emission)
    : (r: Outcome)
    requires |run| > 0
    ensures Grows(st, r) && (r.Ok? ==> r.value.0.Some?)
  {
    match InplaceEntries(env, t, run, st.vars)
    case Err(e) => Err(e)
    case Ok((ops, helpers, vs)) =>
      var idx := |st.blocks|;
      var block := GenBlock(Some(kOpcodeRunInplace), run[|run| - 1].topLevel, run, ops, helpers,
                            ExtractSpriteName(t) + "_Inplace" + DecimalString(idx), "", "");
      Ok((Some(idx), Emission(st.blocks + [block], vs)))
  }

  /**
   * A run followed by the non-in-place block `cur`: the `Inplace` block is
   * appended, the builder continues at `cur`, and the block it returns
   * becomes the `next` of the `Inplace` block.
   */
  ghost function EmitInplace(env: Environment, t: ScratchTarget, rank: map<string, nat>, run: seq<ScratchBlock>,
                             topLevel: bool, cur: string, st: Emission)
    : (r: Outcome)
    requires Ranked(t, rank) && cur in t.blocks && |run| > 0
    ensures Grows(st, r) && (r.Ok? ==> r.value.0.Some?)
    decreases rank[cur] + 1, 4
  {
    match InplaceEntries(env, t, run, st.vars)
    case Err(e) => Err(e)
    case Ok((ops, helpers, vs)) =>
      var idx := |st.blocks|;
      var block := GenBlock(Some(kOpcodeRunInplace), topLevel, run, ops, helpers,
                            ExtractSpriteName(t) + "_Inplace" + DecimalString(idx), "", "");
      match Extract(env, t, rank, Some(cur), Emission(st.blocks + [block], vs))
      case Err(e) => Err(e)
      case Ok((result, st1)) =>
        Ok((Some(idx), if result.Some? then SetNext(st1, idx, st1.blocks[result.value].blockName) else st1))
  }

  /**
   * A non-in-place block: it is appended, then its substack is built and
   * linked, then the rest of the sequence is built and linked as `next`.
   */
  ghost function EmitBlock(env: Environment, t: ScratchTarget, rank: map<string, nat>, cur: string, st: Emission)
    : (r: Outcome)
    requires Ranked(t, rank) && cur in t.blocks
    requires Falsy(t.blocks[cur].next) || t.blocks[cur].next.value in t.blocks
    ensures Grows(st, r) && (r.Ok? ==> r.value.0.Some?)
    decreases rank[cur] + 1, 1
  {
    var b := t.blocks[cur];
    var idx := |st.blocks|;
    var block := GenBlock(ToKnownOpCodes(b.opcode), b.topLevel, [], [], [],
                          ExtractSpriteName(t) + "_" + b.opcode + DecimalString(idx), "", "");
    var st1 := Emission(st.blocks + [block], st.vars);
    match Substack(env, t, rank, cur, idx, st1)
    case Err(e) => Err(e)
    case Ok(st2) =>
      var next := NextOf(b);
      match Extract(env, t, rank, next, st2)
      case Err(e) => Err(e)
      case Ok((result, st3)) =>
        Ok((Some(idx), if result.Some? then SetNext(st3, idx, st3.blocks[result.value].blockName) else st3))
  }

  /** The substack part of a non-in-place block emitted at `idx`. */
  ghost function Substack(env: Environment, t: ScratchTarget, rank: map<string, nat>, cur: string, idx: nat, st: Emission)
    : (r: Result<Emission, Error>)
    requires Ranked(t, rank) && cur in t.blocks && idx < |st.blocks|
    ensures r.Ok? ==> st.blocks[..idx] <= r.value.blocks && idx < |st.blocks| <= |r.value.blocks|
    decreases rank[cur] + 1, 0
  {
    var b := t.blocks[cur];
    if !HasSubstack(b) then Ok(st)
    else if b.substack.None? then Err(MissingSubstack(b.opcode))
    else if b.substack.value !in t.blocks then Err(MissingBlock(b.substack.value))
    else
      match Extract(env, t, rank, Some(b.substack.value), st)
      case Err(e) => Err(e)
      case Ok((result, st1)) =>
        Ok(if result.Some? then SetSubstack(st1, idx, st1.blocks[result.value].blockName) else st1)
  }

  /** What the loop of the builder still has to do: go on at `next` with the run met so far. */
  ghost function Continue(env: Environment, t: ScratchTarget, rank: map<string, nat>, next: Option<string>,
                          run: seq<ScratchBlock>, st: Emission): Outcome
    requires Ranked(t, rank) && (next.Some? ==> next.value in t.blocks)
  {
    if next.Some? then Walk(env, t, rank, next.value, run, st)
    else if |run| > 0 then Trailing(env, t, run, st)
    else Ok((None, st))
  }

  /** The blocks of a target the top-level loop starts from, in the order of `"blocks"`. */
  function TopLevelIds(order: seq<string>, blocks: map<string, ScratchBlock>): (ids: seq<string>)
    requires forall i :: 0 <= i < |order| ==> order[i] in blocks
    ensures forall id :: id in ids <==> id in order && blocks[id].topLevel
    ensures forall i :: 0 <= i < |ids| ==> ids[i] in blocks
    ensures |ids| <= |order|
  {
    if |order| == 0 then []
    else TopLevelIds(order[..|order| - 1], blocks)
         + (if blocks[order[|order| - 1]].topLevel then [order[|order| - 1]] else [])
  }

  /**
   * A target the builder can walk: ranked links, and a key order that lists
   * every block of the target once, as the keys of a Python dict are.
   */
  ghost predicate WellFormedTarget(t: ScratchTarget, rank: map<string, nat>)
  {
    && Ranked(t, rank)
    && (forall i :: 0 <= i < |t.blockOrder| ==> t.blockOrder[i] in t.blocks)
    && (forall id :: id in t.blocks ==> id in t.blockOrder)
    && (forall i, j :: 0 <= i < j < |t.blockOrder| ==> t.blockOrder[i] != t.blockOrder[j])
  }

  /** The second inner loop of `extract_blocks_and_variables`: one builder call per top-level block. */
  ghost function ExtractTops(env: Environment, t: ScratchTarget, rank: map<string, nat>, ids: seq<string>, st: Emission)
    : (r: Result<Emission, Error>)
    requires Ranked(t, rank) && forall i :: 0 <= i < |ids| ==> ids[i] in t.blocks
    ensures r.Ok? ==> st.blocks <= r.value.blocks
    decreases |ids|
  {
    if |ids| == 0 then Ok(st)
    else
      match Extract(env, t, rank, Some(ids[0]), st)
      case Err(e) => Err(e)
      case Ok((_, st1)) => ExtractTops(env, t, rank, ids[1..], st1)
  }

  /** The outer loop of `extract_blocks_and_variables`, over the targets in order. */
  ghost function ExtractTargets(env: Environment, targets: seq<ScratchTarget>, ranks: seq<map<string, nat>>, st: Emission)
    : (r: Result<Emission, Error>)
    requires |ranks| == |targets| && forall i :: 0 <= i < |targets| ==> WellFormedTarget(targets[i], ranks[i])
    ensures r.Ok? ==> st.blocks <= r.value.blocks
    decreases |targets|
  {
    if |targets| == 0 then Ok(st)
    else
      var t := targets[0];
      assert WellFormedTarget(t, ranks[0]);
      match ExtractTops(env, t, ranks[0], TopLevelIds(t.blockOrder, t.blocks), st)
      case Err(e) => Err(e)
      case Ok(st1) => ExtractTargets(env, targets[1..], ranks[1..], st1)
  }

  /** `extract_blocks_and_variables`: all blocks and all collected variables, or the first error. */
  ghost function ExtractProject(env: Environment, targets: seq<ScratchTarget>, ranks: seq<map<string, nat>>)
    : Result<(seq<GenBlock>, seq<Variable>), Error>
    requires |ranks| == |targets| && forall i :: 0 <= i < |targets| ==> WellFormedTarget(targets[i], ranks[i])
  {
    match ExtractTargets(env, targets, ranks, Emission([], VarState([], map[])))
    case Err(e) => Err(e)
    case Ok(st) => Ok((st.blocks, st.vars.allVariables))
  }

  function Lift(r: Result<Option<nat>, Error>, st: Emission): Outcome
  {
    match r
    case Ok(v) => Ok((v, st))
    case Err(e) => Err(e)
  }

  /** An error met at some prefix of a run is the error of the whole run. */
  lemma {:induction false} InplaceErrorPropagates(env: Environment, t: ScratchTarget, run: seq<ScratchBlock>, k: nat, vs: VarState)
    requires 0 < k <= |run| && InplaceEntries(env, t, run[..k], vs).Err?
    ensures InplaceEntries(env, t, run, vs) == InplaceEntries(env, t, run[..k], vs)
    decreases |run| - k
  {
    if k == |run| {
      assert run[..k] == run;
    } else {
      var front := run[..|run| - 1];
      assert front[..k] == run[..k];
      InplaceErrorPropagates(env, t, front, k, vs);
    }
  }

  /**
   * The mutable state of one run of `extract_blocks_and_variables`: the list
   * `all_blocks` and the dictionary `all_variables_and_cache`.
   */
  class Extraction {
    var allBlocks: seq<GenBlock>
    var allVariables: seq<Variable>
    var cache: map<string, string>
    const env: Environment

    constructor (env: Environment)
      ensures this.env == env && State() == Emission([], VarState([], map[]))
    {
      this.env := env;
      allBlocks := [];
      allVariables := [];
      cache := map[];
    }

    function Vars(): VarState
      reads this
    {
      VarState(allVariables, cache)
    }

    function State(): Emission
      reads this
    {
      Emission(allBlocks, Vars())
    }

    /** `access_variable`. */
    method AccessVariable(t: ScratchTarget, id: string) returns (err: Option<Error>)
      modifies this
      ensures allBlocks == old(allBlocks)
      ensures Access(env, t, id, old(Vars())) == if err.Some? then Err(err.value) else Ok(Vars())
    {
      var name := ExtractVariableName(t, id);
      if name.Err? {
        return Some(name.error);
      }
      if name.value in cache {
        return None;
      }
      allVariables := allVariables + [MakeVariable(env, name.value, t.variables[id].value)];
      cache := cache[name.value := id];
      return None;
    }

    /** `Block.set_inplace_blocks`: the opcode list and the helper list of an `Inplace` block. */
    method SetInplaceBlocks(t: ScratchTarget, run: seq<ScratchBlock>)
      returns (r: Result<(seq<string>, seq<Option<Helper>>), Error>)
      modifies this
      ensures allBlocks == old(allBlocks)
      ensures InplaceEntries(env, t, run, old(Vars()))
           == if r.Ok? then Ok((r.value.0, r.value.1, Vars())) else Err(r.error)
    {
      var ops: seq<string> := [];
      var helpers: seq<Option<Helper>> := [];
      var i := 0;
      while i < |run|
        invariant 0 <= i <= |run|
        invariant allBlocks == old(allBlocks)
        invariant InplaceEntries(env, t, run[..i], old(Vars())) == Ok((ops, helpers, Vars()))
      {
        var b := run[i];
        assert run[..i + 1][..i] == run[..i];
        ops := ops + [b.opcode];
        var helper: Option<Helper> := None;
        if b.opcode == "data_setvariableto" {
          if b.variableField.None? {
            InplaceErrorPropagates(env, t, run, i + 1, old(Vars()));
            return Err(MissingVariableField(b.opcode));
          }
          var err := AccessVariable(t, b.variableField.value);
          if err.Some? {
            InplaceErrorPropagates(env, t, run, i + 1, old(Vars()));
            return Err(err.value);
          }
          helper := env.monitorHelper(b);
        }
        helpers := helpers + [helper];
        i := i + 1;
      }
      assert run[..|run|] == run;
      return Ok((ops, helpers));
    }

    /** `extract_blocks_and_variables_r`, starting from the block `start`. */
    method ExtractR(t: ScratchTarget, ghost rank: map<string, nat>, start: Option<string>)
      returns (r: Result<Option<nat>, Error>)
      requires Ranked(t, rank) && (start.Some? ==> start.value in t.blocks)
      modifies this
      ensures Lift(r, State()) == Extract(env, t, rank, start, old(State()))
      decreases Measure(rank, start), 3
    {
      var run: seq<ScratchBlock> := [];
      var nextId := start;
      while nextId.Some?
        invariant nextId.Some? ==> nextId.value in t.blocks && Measure(rank, nextId) <= Measure(rank, start)
        invariant |run| > 0 && nextId.Some? ==> Measure(rank, nextId) < Measure(rank, start)
        invariant State() == old(State())
        invariant Extract(env, t, rank, start, State()) == Continue(env, t, rank, nextId, run, State())
        decreases Measure(rank, nextId)
      {
        var cur := nextId.value;
        var b := t.blocks[cur];
        if Falsy(b.next) {
          nextId := None;
        } else if b.next.value !in t.blocks {
          return Err(MissingBlock(b.next.value));
        } else {
          nextId := b.next;
        }
        if CanRunInplace(b) {
          run := run + [b];
        } else if |run| > 0 {
          r := EmitInplaceR(t, rank, run, b.topLevel, cur);
          return;
        } else {
          r := EmitBlockR(t, rank, cur);
          return;
        }
      }
      if |run| > 0 {
        var entries := SetInplaceBlocks(t, run);
        if entries.Err? {
          return Err(entries.error);
        }
        var idx := |allBlocks|;
        allBlocks := allBlocks + [GenBlock(Some(kOpcodeRunInplace), run[|run| - 1].topLevel, run,
                                           entries.value.0, entries.value.1,
                                           ExtractSpriteName(t) + "_Inplace" + DecimalString(idx), "", "")];
        return Ok(Some(idx));
      }
      return Ok(None);
    }

    /** The `Inplace` branch of the loop of `extract_blocks_and_variables_r`. */
    method EmitInplaceR(t: ScratchTarget, ghost rank: map<string, nat>, run: seq<ScratchBlock>, topLevel: bool, cur: string)
      returns (r: Result<Option<nat>, Error>)
      requires Ranked(t, rank) && cur in t.blocks && |run| > 0
      modifies this
      ensures Lift(r, State()) == EmitInplace(env, t, rank, run, topLevel, cur, old(State()))
      decreases rank[cur] + 1, 4
    {
      var entries := SetInplaceBlocks(t, run);
      if entries.Err? {
        return Err(entries.error);
      }
      var idx := |allBlocks|;
      allBlocks := allBlocks + [GenBlock(Some(kOpcodeRunInplace), topLevel, run, entries.value.0, entries.value.1,
                                         ExtractSpriteName(t) + "_Inplace" + DecimalString(idx), "", "")];
      var result := ExtractR(t, rank, Some(cur));
      if result.Err? {
        return Err(result.error);
      }
      if result.value.Some? {
        allBlocks := allBlocks[idx := allBlocks[idx].(nextBlockName := allBlocks[result.value.value].blockName)];
      }
      return Ok(Some(idx));
    }

    /** The branch of the loop of `extract_blocks_and_variables_r` for a block that is not in-place. */
    method EmitBlockR(t: ScratchTarget, ghost rank: map<string, nat>, cur: string)
      returns (r: Result<Option<nat>, Error>)
      requires Ranked(t, rank) && cur in t.blocks
      requires Falsy(t.blocks[cur].next) || t.blocks[cur].next.value in t.blocks
      modifies this
      ensures Lift(r, State()) == EmitBlock(env, t, rank, cur, old(State()))
      decreases rank[cur] + 1, 1
    {
      var b := t.blocks[cur];
      var idx := |allBlocks|;
      allBlocks := allBlocks + [GenBlock(ToKnownOpCodes(b.opcode), b.topLevel, [], [], [],
                                         ExtractSpriteName(t) + "_" + b.opcode + DecimalString(idx), "", "")];
      ghost var st1 := State();
      if HasSubstack(b) {
        if b.substack.None? {
          return Err(MissingSubstack(b.opcode));
        }
        if b.substack.value !in t.blocks {
          return Err(MissingBlock(b.substack.value));
        }
        var sub := ExtractR(t, rank, b.substack);
        if sub.Err? {
          return Err(sub.error);
        }
        if sub.value.Some? {
          allBlocks := allBlocks[idx := allBlocks[idx].(substackBlockName := allBlocks[sub.value.value].blockName)];
        }
      }
      assert Substack(env, t, rank, cur, idx, st1) == Ok(State());
      var next := NextOf(b);
      var result := ExtractR(t, rank, next);
      if result.Err? {
        return Err(result.error);
      }
      if result.value.Some? {
        allBlocks := allBlocks[idx := allBlocks[idx].(nextBlockName := allBlocks[result.value.value].blockName)];
      }
      return Ok(Some(idx));
    }
  }

  /** The first inner loop of `extract_blocks_and_variables`: the ids of the top-level blocks. */
  method CollectTopLevelIds(t: ScratchTarget) returns (ids: seq<string>)
    requires forall i :: 0 <= i < |t.blockOrder| ==> t.blockOrder[i] in t.blocks
    ensures ids == TopLevelIds(t.blockOrder, t.blocks)
  {
    ids := [];
    var i := 0;
    while i < |t.blockOrder|
      invariant 0 <= i <= |t.blockOrder|
      invariant ids == TopLevelIds(t.blockOrder[..i], t.blocks)
    {
      assert t.blockOrder[..i + 1][..i] == t.blockOrder[..i];
      if t.blocks[t.blockOrder[i]].topLevel {
        ids := ids + [t.blockOrder[i]];
      }
      i := i + 1;
    }
    assert t.blockOrder[..|t.blockOrder|] == t.blockOrder;
  }

  /** The second inner loop of `extract_blocks_and_variables`, on the state `x`. */
  method ExtractTopsR(x: Extraction, t: ScratchTarget, ghost rank: map<string, nat>, ids: seq<string>)
    returns (err: Option<Error>)
    requires Ranked(t, rank) && forall i :: 0 <= i < |ids| ==> ids[i] in t.blocks
    modifies x
    ensures ExtractTops(x.env, t, rank, ids, old(x.State())) == if err.Some? then Err(err.value) else Ok(x.State())
  {
    var j := 0;
    while j < |ids|
      invariant 0 <= j <= |ids|
      invariant ExtractTops(x.env, t, rank, ids, old(x.State())) == ExtractTops(x.env, t, rank, ids[j..], x.State())
    {
      assert ids[j..][1..] == ids[j + 1..];
      var result := x.ExtractR(t, rank, Some(ids[j]));
      if result.Err? {
        return Some(result.error);
      }
      j := j + 1;
    }
    return None;
  }

  /** `extract_blocks_and_variables`: the blocks and variables of all targets, or the first error. */
  method ExtractBlocksAndVariables(env: Environment, targets: seq<ScratchTarget>, ghost ranks: seq<map<string, nat>>)
    returns (r: Result<(seq<GenBlock>, seq<Variable>), Error>)
    requires |ranks| == |targets| && forall i :: 0 <= i < |targets| ==> WellFormedTarget(targets[i], ranks[i])
    ensures r == ExtractProject(env, targets, ranks)
  {
    var x := new Extraction(env);
    ghost var st0 := x.State();
    var k := 0;
    while k < |targets|
      invariant 0 <= k <= |targets| && x.env == env
      invariant ExtractTargets(env, targets, ranks, st0)
             == ExtractTargets(env, targets[k..], ranks[k..], x.State())
    {
      var t := targets[k];
      assert WellFormedTarget(t, ranks[k]);
      var ids := CollectTopLevelIds(t);
      var err := ExtractTopsR(x, t, ranks[k], ids);
      if err.Some? {
        return Err(err.value);
      }
      assert targets[k..][1..] == targets[k + 1..] && ranks[k..][1..] == ranks[k + 1..];
      k := k + 1;
    }
    return Ok((x.allBlocks, x.allVariables));
  }

  // ----- Invariants of the emitted graph -----

  predicate EndsInDigit(s: string)
  {
    |s| > 0 && IsDigit(s[|s| - 1])
  }

  /** The longest suffix of `s` made of digits. */
  function TrailingDigits(s: string): string
    decreases |s|
  {
    if EndsInDigit(s) then TrailingDigits(s[..|s| - 1]) + [s[|s| - 1]] else ""
  }

  /** The value of a decimal numeral. */
  function DigitsValue(d: string): nat
    decreases |d|
  {
    if |d| == 0 then 0
    else 10 * DigitsValue(d[..|d| - 1]) + (if IsDigit(d[|d| - 1]) then d[|d| - 1] as int - '0' as int else 0)
  }

  /** The number a block name ends with: the count of blocks emitted before it. */
  function NameIndex(name: string): nat
  {
    DigitsValue(TrailingDigits(name))
  }

  lemma {:induction false} DecimalIsDigits(n: nat)
    ensures |DecimalString(n)| > 0
    ensures forall k :: 0 <= k < |DecimalString(n)| ==> IsDigit(DecimalString(n)[k])
    decreases n
  {
    if n >= 10 {
      DecimalIsDigits(n / 10);
    }
  }

  lemma {:induction false} DigitsValueOfDecimal(n: nat)
    ensures DigitsValue(DecimalString(n)) == n
    decreases n
  {
    var d := DecimalString(n);
    assert d[..|d| - 1] == if n < 10 then "" else DecimalString(n / 10);
    if n >= 10 {
      DigitsValueOfDecimal(n / 10);
    }
  }

  lemma {:induction false} TrailingDigitsOfSuffix(p: string, d: string)
    requires !EndsInDigit(p) && forall k :: 0 <= k < |d| ==> IsDigit(d[k])
    ensures TrailingDigits(p + d) == d
    decreases |d|
  {
    if |d| > 0 {
      var front := d[..|d| - 1];
      assert (p + d)[..|p + d| - 1] == p + front;
      TrailingDigitsOfSuffix(p, front);
    } else {
      assert p + d == p;
    }
  }

  /** A name made of a prefix that does not end in a digit and `str(n)` yields `n` back. */
  lemma NameIndexOf(p: string, n: nat)
    requires !EndsInDigit(p)
    ensures NameIndex(p + DecimalString(n)) == n
  {
    DecimalIsDigits(n);
    TrailingDigitsOfSuffix(p, DecimalString(n));
    DigitsValueOfDecimal(n);
  }

  /** No opcode of the target ends in a digit, so a block name ends exactly with its index. */
  ghost predicate OpcodesEndInLetters(t: ScratchTarget)
  {
    forall id :: id in t.blocks ==> !EndsInDigit(t.blocks[id].opcode)
  }

  predicate IsInplace(b: GenBlock)
  {
    b.opCode == Some(kOpcodeRunInplace)
  }

  /**
   * An `Inplace` block lists one opcode and one helper entry per in-place
   * block and has no substack; any other block lists none.
   */
  ghost predicate BlockShape(b: GenBlock)
  {
    if IsInplace(b) then
      && |b.inplaceBlocks| > 0
      && |b.inplaceOpCodes| == |b.inplaceBlocks| && |b.helpers| == |b.inplaceBlocks|
      && (forall k :: 0 <= k < |b.inplaceBlocks| ==>
            CanRunInplace(b.inplaceBlocks[k]) && b.inplaceOpCodes[k] == b.inplaceBlocks[k].opcode)
      && b.substackBlockName == ""
    else
      b.inplaceBlocks == [] && b.inplaceOpCodes == [] && b.helpers == []
  }

  /** A link of block `i` is empty or names a block emitted after it. */
  ghost predicate Linked(blocks: seq<GenBlock>, i: nat, name: string)
  {
    name == "" || exists j :: i < j < |blocks| && blocks[j].blockName == name
  }

  /**
   * The invariant of `all_blocks`: every name ends with the block's index,
   * every link resolves to a later block, and the `next` of an `Inplace`
   * block is never another `Inplace` block. That the runs are exactly the
   * maximal chains is `ProjectBuilt`.
   */
  ghost predicate Wellformed(blocks: seq<GenBlock>)
  {
    && (forall i :: 0 <= i < |blocks| ==> blocks[i].blockName != "" && NameIndex(blocks[i].blockName) == i)
    && (forall i :: 0 <= i < |blocks| ==>
          BlockShape(blocks[i]) && Linked(blocks, i, blocks[i].nextBlockName)
          && Linked(blocks, i, blocks[i].substackBlockName))
    && (forall i, j :: (0 <= i < |blocks| && 0 <= j < |blocks| && IsInplace(blocks[i])
          && blocks[i].nextBlockName == blocks[j].blockName) ==> !IsInplace(blocks[j]))
  }

  ghost predicate Good(st: Emission)
  {
    Wellformed(st.blocks) && VarsValid(st.vars)
  }

  /** Names built from the count of earlier blocks are pairwise distinct. */
  lemma NamesUnique(blocks: seq<GenBlock>, i: nat, j: nat)
    requires Wellformed(blocks) && i < |blocks| && j < |blocks|
    requires blocks[i].blockName == blocks[j].blockName
    ensures i == j
  {
    assert NameIndex(blocks[i].blockName) == i && NameIndex(blocks[j].blockName) == j;
  }

  lemma AppendWellformed(blocks: seq<GenBlock>, b: GenBlock)
    requires Wellformed(blocks) && BlockShape(b) && b.blockName != "" && NameIndex(b.blockName) == |blocks|
    requires b.nextBlockName == "" && b.substackBlockName == ""
    ensures Wellformed(blocks + [b])
  {
    var bs := blocks + [b];
    forall i | 0 <= i < |blocks|
      ensures Linked(bs, i, bs[i].nextBlockName) && Linked(bs, i, bs[i].substackBlockName)
    {
      if blocks[i].nextBlockName != "" {
        var j :| i < j < |blocks| && blocks[j].blockName == blocks[i].nextBlockName;
        assert bs[j] == blocks[j];
      }
      if blocks[i].substackBlockName != "" {
        var j :| i < j < |blocks| && blocks[j].blockName == blocks[i].substackBlockName;
        assert bs[j] == blocks[j];
      }
    }
  }

  /** Links survive any change that keeps every block name. */
  lemma LinkedCarries(blocks: seq<GenBlock>, bs: seq<GenBlock>, i: nat, name: string)
    requires |bs| == |blocks| && forall k :: 0 <= k < |bs| ==> bs[k].blockName == blocks[k].blockName
    requires Linked(blocks, i, name)
    ensures Linked(bs, i, name)
  {
    if name != "" {
      var j :| i < j < |blocks| && blocks[j].blockName == name;
      assert bs[j].blockName == name;
    }
  }

  lemma SetNextWellformed(blocks: seq<GenBlock>, idx: nat, target: nat)
    requires Wellformed(blocks) && idx < target < |blocks|
    requires IsInplace(blocks[idx]) ==> !IsInplace(blocks[target])
    ensures Wellformed(blocks[idx := blocks[idx].(nextBlockName := blocks[target].blockName)])
  {
    var bs := blocks[idx := blocks[idx].(nextBlockName := blocks[target].blockName)];
    SetNextLinked(blocks, idx, target);
    forall i | 0 <= i < |bs|
      ensures bs[i].blockName == blocks[i].blockName && IsInplace(bs[i]) == IsInplace(blocks[i]) && BlockShape(bs[i])
      ensures i != idx ==> bs[i] == blocks[i]
    {
    }
    SetNextSeparate(blocks, idx, target);
  }

  /** Linking `next` of block `idx` to a non-`Inplace` block (when `idx` is one) keeps runs apart. */
  lemma SetNextSeparate(blocks: seq<GenBlock>, idx: nat, target: nat)
    requires Wellformed(blocks) && idx < target < |blocks|
    requires IsInplace(blocks[idx]) ==> !IsInplace(blocks[target])
    ensures var bs := blocks[idx := blocks[idx].(nextBlockName := blocks[target].blockName)];
            forall i, j :: 0 <= i < |bs| && 0 <= j < |bs| && IsInplace(bs[i]) && bs[i].nextBlockName == bs[j].blockName
              ==> !IsInplace(bs[j])
  {
    var bs := blocks[idx := blocks[idx].(nextBlockName := blocks[target].blockName)];
    forall i, j | 0 <= i < |bs| && 0 <= j < |bs| && IsInplace(bs[i]) && bs[i].nextBlockName == bs[j].blockName
      ensures !IsInplace(bs[j])
    {
      assert bs[j].opCode == blocks[j].opCode && bs[j].blockName == blocks[j].blockName;
      if i == idx {
        NamesUnique(blocks, j, target);
      } else {
        assert IsInplace(blocks[i]) && blocks[i].nextBlockName == blocks[j].blockName;
      }
    }
  }

  /** The links of every block still resolve once block `idx` links `next` to a later block. */
  lemma SetNextLinked(blocks: seq<GenBlock>, idx: nat, target: nat)
    requires Wellformed(blocks) && idx < target < |blocks|
    ensures var bs := blocks[idx := blocks[idx].(nextBlockName := blocks[target].blockName)];
            forall i :: 0 <= i < |bs| ==> Linked(bs, i, bs[i].nextBlockName) && Linked(bs, i, bs[i].substackBlockName)
  {
    var bs := blocks[idx := blocks[idx].(nextBlockName := blocks[target].blockName)];
    forall i | 0 <= i < |bs|
      ensures Linked(bs, i, bs[i].nextBlockName) && Linked(bs, i, bs[i].substackBlockName)
    {
      if i == idx {
        assert bs[target].blockName == bs[i].nextBlockName;
      } else {
        LinkedCarries(blocks, bs, i, bs[i].nextBlockName);
      }
      LinkedCarries(blocks, bs, i, bs[i].substackBlockName);
    }
  }

  lemma SetSubstackWellformed(blocks: seq<GenBlock>, idx: nat, target: nat)
    requires Wellformed(blocks) && idx < target < |blocks| && !IsInplace(blocks[idx])
    ensures Wellformed(blocks[idx := blocks[idx].(substackBlockName := blocks[target].blockName)])
  {
    var bs := blocks[idx := blocks[idx].(substackBlockName := blocks[target].blockName)];
    forall i | 0 <= i < |bs|
      ensures Linked(bs, i, bs[i].nextBlockName) && Linked(bs, i, bs[i].substackBlockName)
    {
      if i == idx {
        assert bs[target].blockName == bs[i].substackBlockName;
      } else {
        LinkedCarries(blocks, bs, i, bs[i].substackBlockName);
      }
      LinkedCarries(blocks, bs, i, bs[i].nextBlockName);
    }
    forall i | 0 <= i < |bs|
      ensures bs[i].blockName == blocks[i].blockName && bs[i].nextBlockName == blocks[i].nextBlockName
      ensures IsInplace(bs[i]) == IsInplace(blocks[i]) && BlockShape(bs[i])
    {
    }
  }

  // ----- Variables are collected once per mangled name -----

  lemma NamesAppend(vars: seq<Variable>, v: Variable)
    ensures Names(vars + [v]) == Names(vars) + {v.variableName}
  {
    var a := vars + [v];
    forall n | n in Names(a)
      ensures n in Names(vars) + {v.variableName}
    {
      var i :| 0 <= i < |a| && a[i].variableName == n;
      if i < |vars| {
        assert vars[i] == a[i];
      }
    }
    forall n | n in Names(vars)
      ensures n in Names(a)
    {
      var i :| 0 <= i < |vars| && vars[i].variableName == n;
      assert a[i] == vars[i];
    }
    assert a[|vars|] == v;
  }

  /**
   * `access_variable` appends a variable only when its mangled name is not
   * cached yet, then caches the name with the variable id; collecting keeps
   * the names distinct.
   */
  lemma AccessCollectsOnce(env: Environment, t: ScratchTarget, id: string, vs: VarState)
    requires VarsValid(vs) && Access(env, t, id, vs).Ok?
    ensures var vs' := Access(env, t, id, vs).value;
            var name := ExtractVariableName(t, id).value;
            && VarsValid(vs')
            && name in vs'.cache
            && (name in vs.cache ==> vs' == vs)
            && (name !in vs.cache ==>
                  && vs'.cache[name] == id
                  && vs'.allVariables == vs.allVariables + [MakeVariable(env, name, t.variables[id].value)])
  {
    var name := ExtractVariableName(t, id).value;
    if name !in vs.cache {
      var v := MakeVariable(env, name, t.variables[id].value);
      NamesAppend(vs.allVariables, v);
      var all := vs.allVariables + [v];
      forall i, j | 0 <= i < j < |all|
        ensures all[i].variableName != all[j].variableName
      {
        if j == |vs.allVariables| {
          assert all[i].variableName in Names(vs.allVariables);
        } else {
          assert all[i] == vs.allVariables[i] && all[j] == vs.allVariables[j];
        }
      }
    }
  }

  lemma {:induction false} InplaceEntriesValid(env: Environment, t: ScratchTarget, run: seq<ScratchBlock>, vs: VarState)
    requires VarsValid(vs)
    ensures InplaceEntries(env, t, run, vs).Ok? ==> VarsValid(InplaceEntries(env, t, run, vs).value.2)
    decreases |run|
  {
    if |run| > 0 {
      var front := run[..|run| - 1];
      InplaceEntriesValid(env, t, front, vs);
      match InplaceEntries(env, t, front, vs)
      case Err(_) =>
      case Ok((_, _, vs1)) =>
        var b := run[|run| - 1];
        if b.opcode == "data_setvariableto" && b.variableField.Some?
           && Access(env, t, b.variableField.value, vs1).Ok? {
          AccessCollectsOnce(env, t, b.variableField.value, vs1);
        }
    }
  }

  // ----- The builder keeps the invariants -----

  lemma PrefixEndsInLetter(sprite: string, opcode: string)
    requires !EndsInDigit(opcode)
    ensures !EndsInDigit(sprite + "_" + opcode)
  {
    var p := sprite + "_" + opcode;
    if |opcode| > 0 {
      assert p[|p| - 1] == opcode[|opcode| - 1];
    } else {
      assert p[|p| - 1] == '_';
    }
  }

  lemma InplaceNameIndex(t: ScratchTarget, idx: nat)
    ensures ExtractSpriteName(t) + "_Inplace" + DecimalString(idx) != ""
    ensures NameIndex(ExtractSpriteName(t) + "_Inplace" + DecimalString(idx)) == idx
  {
    var p := ExtractSpriteName(t) + "_Inplace";
    assert p[|p| - 1] == 'e';
    NameIndexOf(p, idx);
  }

  lemma BlockNameIndex(t: ScratchTarget, opcode: string, idx: nat)
    requires !EndsInDigit(opcode)
    ensures ExtractSpriteName(t) + "_" + opcode + DecimalString(idx) != ""
    ensures NameIndex(ExtractSpriteName(t) + "_" + opcode + DecimalString(idx)) == idx
  {
    PrefixEndsInLetter(ExtractSpriteName(t), opcode);
    NameIndexOf(ExtractSpriteName(t) + "_" + opcode, idx);
  }

  /**
   * A call of the builder keeps the invariants, and the block it returns is
   * an `Inplace` block exactly when its first block is an in-place block.
   */
  lemma {:induction false} ExtractGood(env: Environment, t: ScratchTarget, rank: map<string, nat>, start: Option<string>, st: Emission)
    requires Ranked(t, rank) && (start.Some? ==> start.value in t.blocks)
    requires OpcodesEndInLetters(t) && Good(st)
    ensures var r := Extract(env, t, rank, start, st);
            r.Ok? ==> Good(r.value.1) && (r.value.0.Some? ==>
              IsInplace(r.value.1.blocks[r.value.0.value]) == CanRunInplace(t.blocks[start.value]))
    decreases Measure(rank, start), 3
  {
    if start.Some? {
      WalkGood(env, t, rank, start.value, [], st);
    }
  }

  lemma {:induction false} WalkGood(env: Environment, t: ScratchTarget, rank: map<string, nat>, cur: string,
                                    run: seq<ScratchBlock>, st: Emission)
    requires Ranked(t, rank) && cur in t.blocks && OpcodesEndInLetters(t) && Good(st)
    requires forall k :: 0 <= k < |run| ==> CanRunInplace(run[k])
    ensures var r := Walk(env, t, rank, cur, run, st);
            r.Ok? ==> (Good(r.value.1) &&
              IsInplace(r.value.1.blocks[r.value.0.value]) == (|run| > 0 || CanRunInplace(t.blocks[cur])))
    decreases rank[cur] + 1, if |run| > 0 then 5 else 2
  {
    var b := t.blocks[cur];
    if !Falsy(b.next) && b.next.value !in t.blocks {
    } else if CanRunInplace(b) {
      if Falsy(b.next) {
        TrailingGood(env, t, run + [b], st);
      } else {
        WalkGood(env, t, rank, b.next.value, run + [b], st);
      }
    } else if |run| > 0 {
      EmitInplaceGood(env, t, rank, run, b.topLevel, cur, st);
    } else {
      EmitBlockGood(env, t, rank, cur, st);
    }
  }

  lemma TrailingGood(env: Environment, t: ScratchTarget, run: seq<ScratchBlock>, st: Emission)
    requires |run| > 0 && (forall k :: 0 <= k < |run| ==> CanRunInplace(run[k])) && Good(st)
    ensures var r := Trailing(env, t, run, st);
            r.Ok? ==> Good(r.value.1) && IsInplace(r.value.1.blocks[r.value.0.value])
  {
    InplaceEntriesValid(env, t, run, st.vars);
    InplaceNameIndex(t, |st.blocks|);
    match InplaceEntries(env, t, run, st.vars)
    case Err(_) =>
    case Ok((ops, helpers, vs)) =>
      var block := GenBlock(Some(kOpcodeRunInplace), run[|run| - 1].topLevel, run, ops, helpers,
                            ExtractSpriteName(t) + "_Inplace" + DecimalString(|st.blocks|), "", "");
      AppendWellformed(st.blocks, block);
  }

  lemma {:induction false} EmitInplaceGood(env: Environment, t: ScratchTarget, rank: map<string, nat>, run: seq<ScratchBlock>,
                                           topLevel: bool, cur: string, st: Emission)
    requires Ranked(t, rank) && cur in t.blocks && |run| > 0 && OpcodesEndInLetters(t) && Good(st)
    requires (forall k :: 0 <= k < |run| ==> CanRunInplace(run[k])) && !CanRunInplace(t.blocks[cur])
    ensures var r := EmitInplace(env, t, rank, run, topLevel, cur, st);
            r.Ok? ==> Good(r.value.1) && IsInplace(r.value.1.blocks[r.value.0.value])
    decreases rank[cur] + 1, 4
  {
    InplaceEntriesValid(env, t, run, st.vars);
    var idx := |st.blocks|;
    InplaceNameIndex(t, idx);
    match InplaceEntries(env, t, run, st.vars)
    case Err(_) =>
    case Ok((ops, helpers, vs)) =>
      var block := GenBlock(Some(kOpcodeRunInplace), topLevel, run, ops, helpers,
                            ExtractSpriteName(t) + "_Inplace" + DecimalString(idx), "", "");
      AppendWellformed(st.blocks, block);
      var st1 := Emission(st.blocks + [block], vs);
      ExtractGood(env, t, rank, Some(cur), st1);
      match Extract(env, t, rank, Some(cur), st1)
      case Err(_) =>
      case Ok((result, st2)) =>
        assert st2.blocks[idx] == block;
        if result.Some? {
          SetNextWellformed(st2.blocks, idx, result.value);
        }
  }

  lemma {:induction false} EmitBlockGood(env: Environment, t: ScratchTarget, rank: map<string, nat>, cur: string, st: Emission)
    requires Ranked(t, rank) && cur in t.blocks && OpcodesEndInLetters(t) && Good(st)
    requires Falsy(t.blocks[cur].next) || t.blocks[cur].next.value in t.blocks
    ensures var r := EmitBlock(env, t, rank, cur, st);
            r.Ok? ==> Good(r.value.1) && !IsInplace(r.value.1.blocks[r.value.0.value])
    decreases rank[cur] + 1, 1
  {
    var b := t.blocks[cur];
    var idx := |st.blocks|;
    var block := GenBlock(ToKnownOpCodes(b.opcode), b.topLevel, [], [], [],
                          ExtractSpriteName(t) + "_" + b.opcode + DecimalString(idx), "", "");
    BlockNameIndex(t, b.opcode, idx);
    AppendWellformed(st.blocks, block);
    var st1 := Emission(st.blocks + [block], st.vars);
    SubstackGood(env, t, rank, cur, idx, st1);
    match Substack(env, t, rank, cur, idx, st1)
    case Err(_) =>
    case Ok(st2) =>
      var next := NextOf(b);
      ExtractGood(env, t, rank, next, st2);
      match Extract(env, t, rank, next, st2)
      case Err(_) =>
      case Ok((result, st3)) =>
        assert st3.blocks[idx] == st2.blocks[idx];
        if result.Some? {
          SetNextWellformed(st3.blocks, idx, result.value);
        }
  }

  lemma {:induction false} SubstackGood(env: Environment, t: ScratchTarget, rank: map<string, nat>, cur: string, idx: nat, st: Emission)
    requires Ranked(t, rank) && cur in t.blocks && idx < |st.blocks| && !IsInplace(st.blocks[idx])
    requires OpcodesEndInLetters(t) && Good(st)
    ensures var r := Substack(env, t, rank, cur, idx, st);
            r.Ok? ==> Good(r.value) && r.value.blocks[idx].opCode == st.blocks[idx].opCode
    decreases rank[cur] + 1, 0
  {
    var b := t.blocks[cur];
    if HasSubstack(b) && b.substack.Some? && b.substack.value in t.blocks {
      ExtractGood(env, t, rank, b.substack, st);
      match Extract(env, t, rank, b.substack, st)
      case Err(_) =>
      case Ok((result, st1)) =>
        assert st1.blocks[idx] == st.blocks[idx];
        if result.Some? {
          SetSubstackWellformed(st1.blocks, idx, result.value);
        }
    }
  }

  lemma {:induction false} ExtractTopsGood(env: Environment, t: ScratchTarget, rank: map<string, nat>, ids: seq<string>, st: Emission)
    requires Ranked(t, rank) && (forall i :: 0 <= i < |ids| ==> ids[i] in t.blocks)
    requires OpcodesEndInLetters(t) && Good(st)
    ensures ExtractTops(env, t, rank, ids, st).Ok? ==> Good(ExtractTops(env, t, rank, ids, st).value)
    decreases |ids|
  {
    if |ids| > 0 {
      ExtractGood(env, t, rank, Some(ids[0]), st);
      match Extract(env, t, rank, Some(ids[0]), st)
      case Err(_) =>
      case Ok((_, st1)) => ExtractTopsGood(env, t, rank, ids[1..], st1);
    }
  }

  lemma {:induction false} ExtractTargetsGood(env: Environment, targets: seq<ScratchTarget>, ranks: seq<map<string, nat>>, st: Emission)
    requires |ranks| == |targets| && forall i :: 0 <= i < |targets| ==> WellFormedTarget(targets[i], ranks[i])
    requires (forall i :: 0 <= i < |targets| ==> OpcodesEndInLetters(targets[i])) && Good(st)
    ensures ExtractTargets(env, targets, ranks, st).Ok? ==> Good(ExtractTargets(env, targets, ranks, st).value)
    decreases |targets|
  {
    if |targets| > 0 {
      var t := targets[0];
      assert WellFormedTarget(t, ranks[0]) && OpcodesEndInLetters(t);
      var ids := TopLevelIds(t.blockOrder, t.blocks);
      ExtractTopsGood(env, t, ranks[0], ids, st);
      match ExtractTops(env, t, ranks[0], ids, st)
      case Err(_) =>
      case Ok(st1) => ExtractTargetsGood(env, targets[1..], ranks[1..], st1);
    }
  }

  /**
   * The output of `extract_blocks_and_variables`: block names are distinct,
   * every `next` and substack link names a block emitted later, no `Inplace`
   * block links to another, every `Inplace` block has one opcode and one helper entry per
   * in-place block, and no two collected variables share a name.
   */
  lemma ProjectWellformed(env: Environment, targets: seq<ScratchTarget>, ranks: seq<map<string, nat>>)
    requires |ranks| == |targets| && forall i :: 0 <= i < |targets| ==> WellFormedTarget(targets[i], ranks[i])
    requires forall i :: 0 <= i < |targets| ==> OpcodesEndInLetters(targets[i])
    ensures var r := ExtractProject(env, targets, ranks);
            r.Ok? ==>
              && Wellformed(r.value.0)
              && (forall i, j :: 0 <= i < |r.value.0| && 0 <= j < |r.value.0| && i != j ==>
                    r.value.0[i].blockName != r.value.0[j].blockName)
              && (forall i, j :: 0 <= i < j < |r.value.1| ==> r.value.1[i].variableName != r.value.1[j].variableName)
  {
    var st0 := Emission([], VarState([], map[]));
    assert Names([]) == {};
    ExtractTargetsGood(env, targets, ranks, st0);
  }

  // ----- The builder emits the block graph of the target -----

  /**
   * The maximal run of in-place blocks that starts at `s` and follows `next`;
   * empty when `s` itself cannot run in place.
   */
  ghost function Chain(t: ScratchTarget, rank: map<string, nat>, s: string): (r: seq<ScratchBlock>)
    requires Ranked(t, rank) && s in t.blocks
    ensures |r| > 0 <==> CanRunInplace(t.blocks[s])
    ensures |r| > 0 ==> r[0] == t.blocks[s]
    ensures forall i :: 0 <= i < |r| ==> CanRunInplace(r[i])
    decreases rank[s]
  {
    var b := t.blocks[s];
    if !CanRunInplace(b) then []
    else if Falsy(b.next) || b.next.value !in t.blocks then [b]
    else [b] + Chain(t, rank, b.next.value)
  }

  /**
   * The first block from `s` along `next` that cannot run in place, or `None`
   * when the sequence ends first: the block that follows `Chain(t, rank, s)`.
   */
  ghost function Follower(t: ScratchTarget, rank: map<string, nat>, s: string): (r: Option<string>)
    requires Ranked(t, rank) && s in t.blocks
    ensures r.Some? ==> r.value in t.blocks && !CanRunInplace(t.blocks[r.value])
    ensures !CanRunInplace(t.blocks[s]) ==> r == Some(s)
    ensures CanRunInplace(t.blocks[s]) ==>
              var c := Chain(t, rank, s);
              && (r.Some? ==> rank[r.value] < rank[s] && c[|c| - 1].next == r)
              && (r.None? ==> Falsy(c[|c| - 1].next) || c[|c| - 1].next.value !in t.blocks)
    decreases rank[s]
  {
    var b := t.blocks[s];
    if !CanRunInplace(b) then Some(s)
    else if Falsy(b.next) || b.next.value !in t.blocks then None
    else Follower(t, rank, b.next.value)
  }

  /**
   * A link of block `k`: empty when there is no block `f` to link to,
   * otherwise the name of a later block built from `f`.
   */
  ghost predicate Links(t: ScratchTarget, rank: map<string, nat>, f: Option<string>, blocks: seq<GenBlock>,
                        k: nat, name: string)
    requires Ranked(t, rank) && (f.Some? ==> f.value in t.blocks)
    decreases Measure(rank, f), 2
  {
    if f.None? then name == ""
    else exists j :: k < j < |blocks| && name == blocks[j].blockName && Built(t, rank, f.value, blocks, j)
  }

  /**
   * Block `k` is the `Inplace` block of the in-place blocks `run` met before
   * `s` together with the chain from `s`: it lists them all, is named after
   * its index, takes `topLevel` from the block after the run (or from the
   * last block of the run when the sequence ends), and links to the block
   * built from that next block.
   */
  ghost predicate InplaceBuilt(t: ScratchTarget, rank: map<string, nat>, run: seq<ScratchBlock>, s: string,
                               blocks: seq<GenBlock>, k: nat)
    requires Ranked(t, rank) && s in t.blocks
    decreases rank[s] + 1, if CanRunInplace(t.blocks[s]) then 0 else 3
  {
    var chain := run + Chain(t, rank, s);
    var f := Follower(t, rank, s);
    && k < |blocks| && |chain| > 0
    && blocks[k].opCode == Some(kOpcodeRunInplace)
    && blocks[k].inplaceBlocks == chain
    && blocks[k].isTopLevel == (if f.Some? then t.blocks[f.value].topLevel else chain[|chain| - 1].topLevel)
    && blocks[k].blockName == ExtractSpriteName(t) + "_Inplace" + DecimalString(k)
    && blocks[k].substackBlockName == ""
    && Links(t, rank, f, blocks, k, blocks[k].nextBlockName)
  }

  /**
   * Block `k` of `blocks` is the block the builder makes from block `s` of
   * the target: the `Inplace` block of the chain from `s` when `s` can run
   * in place, and otherwise a block with the known opcode and `topLevel` of
   * `s`, named after its index, whose substack and `next` links name the
   * blocks built from the substack and the `next` of `s`.
   */
  ghost predicate Built(t: ScratchTarget, rank: map<string, nat>, s: string, blocks: seq<GenBlock>, k: nat)
    requires Ranked(t, rank) && s in t.blocks
    decreases rank[s] + 1, 1
  {
    var b := t.blocks[s];
    if CanRunInplace(b) then InplaceBuilt(t, rank, [], s, blocks, k)
    else
      && k < |blocks|
      && blocks[k].opCode == ToKnownOpCodes(b.opcode)
      && blocks[k].isTopLevel == b.topLevel
      && blocks[k].inplaceBlocks == []
      && blocks[k].blockName == ExtractSpriteName(t) + "_" + b.opcode + DecimalString(k)
      && (if HasSubstack(b)
          then b.substack.Some? && b.substack.value in t.blocks
               && Links(t, rank, b.substack, blocks, k, blocks[k].substackBlockName)
          else blocks[k].substackBlockName == "")
      && (NextOf(b).Some? ==> NextOf(b).value in t.blocks)
      && Links(t, rank, NextOf(b), blocks, k, blocks[k].nextBlockName)
  }

  /** Block `k` of `blocks` is built from some block of the target. */
  ghost predicate HasOrigin(t: ScratchTarget, rank: map<string, nat>, blocks: seq<GenBlock>, k: nat)
  {
    Ranked(t, rank) && exists id :: id in t.blocks && Built(t, rank, id, blocks, k)
  }

  /** Every block of `blocks` with an index in `[from, to)` is built from some block of the target. */
  ghost predicate Origins(t: ScratchTarget, rank: map<string, nat>, blocks: seq<GenBlock>, from: nat, to: nat)
  {
    forall k :: from <= k < to ==> HasOrigin(t, rank, blocks, k)
  }

  /** `bs` keeps the blocks of `blocks` from index `from` on. */
  ghost predicate Agrees(blocks: seq<GenBlock>, bs: seq<GenBlock>, from: nat)
  {
    |blocks| <= |bs| && forall i :: from <= i < |blocks| ==> bs[i] == blocks[i]
  }

  lemma {:induction false} BuiltKept(t: ScratchTarget, rank: map<string, nat>, s: string,
                                     blocks: seq<GenBlock>, bs: seq<GenBlock>, k: nat)
    requires Ranked(t, rank) && s in t.blocks
    requires Built(t, rank, s, blocks, k) && Agrees(blocks, bs, k)
    ensures Built(t, rank, s, bs, k)
    decreases rank[s] + 1, 1
  {
    var b := t.blocks[s];
    if CanRunInplace(b) {
      InplaceKept(t, rank, [], s, blocks, bs, k);
    } else {
      assert bs[k] == blocks[k];
      if HasSubstack(b) {
        LinksKept(t, rank, b.substack, blocks, bs, k, blocks[k].substackBlockName);
      }
      LinksKept(t, rank, NextOf(b), blocks, bs, k, blocks[k].nextBlockName);
    }
  }

  lemma {:induction false} InplaceKept(t: ScratchTarget, rank: map<string, nat>, run: seq<ScratchBlock>, s: string,
                                       blocks: seq<GenBlock>, bs: seq<GenBlock>, k: nat)
    requires Ranked(t, rank) && s in t.blocks
    requires InplaceBuilt(t, rank, run, s, blocks, k) && Agrees(blocks, bs, k)
    ensures InplaceBuilt(t, rank, run, s, bs, k)
    decreases rank[s] + 1, if CanRunInplace(t.blocks[s]) then 0 else 3
  {
    assert bs[k] == blocks[k];
    LinksKept(t, rank, Follower(t, rank, s), blocks, bs, k, blocks[k].nextBlockName);
  }

  lemma {:induction false} LinksKept(t: ScratchTarget, rank: map<string, nat>, f: Option<string>,
                                     blocks: seq<GenBlock>, bs: seq<GenBlock>, k: nat, name: string)
    requires Ranked(t, rank) && (f.Some? ==> f.value in t.blocks)
    requires Links(t, rank, f, blocks, k, name) && Agrees(blocks, bs, k + 1)
    ensures Links(t, rank, f, bs, k, name)
    decreases Measure(rank, f), 2
  {
    if f.Some? {
      var j :| k < j < |blocks| && name == blocks[j].blockName && Built(t, rank, f.value, blocks, j);
      BuiltKept(t, rank, f.value, blocks, bs, j);
      assert bs[j] == blocks[j];
    }
  }

  lemma OriginsKept(t: ScratchTarget, rank: map<string, nat>, blocks: seq<GenBlock>, bs: seq<GenBlock>,
                    from: nat, to: nat)
    requires Ranked(t, rank) && Origins(t, rank, blocks, from, to) && to <= |blocks| && Agrees(blocks, bs, from)
    ensures Origins(t, rank, bs, from, to)
  {
    forall k | from <= k < to
      ensures HasOrigin(t, rank, bs, k)
    {
      assert HasOrigin(t, rank, blocks, k);
      var id :| id in t.blocks && Built(t, rank, id, blocks, k);
      BuiltKept(t, rank, id, blocks, bs, k);
    }
  }

  /**
   * The block a call of the builder returns is the block built from its
   * first block, and every block the call appends is built from some block.
   */
  lemma {:induction false} ExtractBuilt(env: Environment, t: ScratchTarget, rank: map<string, nat>,
                                        start: Option<string>, st: Emission)
    requires Ranked(t, rank) && (start.Some? ==> start.value in t.blocks)
    ensures var r := Extract(env, t, rank, start, st);
            r.Ok? ==> && (start.Some? ==> Built(t, rank, start.value, r.value.1.blocks, |st.blocks|))
                      && Origins(t, rank, r.value.1.blocks, |st.blocks|, |r.value.1.blocks|)
    decreases Measure(rank, start), 3
  {
    if start.Some? {
      WalkBuilt(env, t, rank, start.value, [], st);
      var r := Extract(env, t, rank, start, st);
      if r.Ok? {
        assert HasOrigin(t, rank, r.value.1.blocks, |st.blocks|);
      }
    }
  }

  /**
   * The loop at `cur` with the run `run` met before it returns the block
   * built from `cur` when the run is empty, and otherwise the `Inplace`
   * block of the run followed by the chain from `cur`; every block after it
   * is built from some block.
   */
  lemma {:induction false} WalkBuilt(env: Environment, t: ScratchTarget, rank: map<string, nat>, cur: string,
                                     run: seq<ScratchBlock>, st: Emission)
    requires Ranked(t, rank) && cur in t.blocks
    ensures var r := Walk(env, t, rank, cur, run, st);
            r.Ok? ==> && (if |run| > 0 then InplaceBuilt(t, rank, run, cur, r.value.1.blocks, |st.blocks|)
                          else Built(t, rank, cur, r.value.1.blocks, |st.blocks|))
                      && Origins(t, rank, r.value.1.blocks, |st.blocks| + 1, |r.value.1.blocks|)
    decreases rank[cur] + 1, if |run| > 0 then 5 else 2
  {
    var b := t.blocks[cur];
    if !Falsy(b.next) && b.next.value !in t.blocks {
    } else if CanRunInplace(b) {
      if Falsy(b.next) {
        TrailingBuilt(env, t, rank, run, cur, st);
      } else {
        WalkBuilt(env, t, rank, b.next.value, run + [b], st);
        var r := Walk(env, t, rank, b.next.value, run + [b], st);
        if r.Ok? {
          InplaceStep(t, rank, run, cur, r.value.1.blocks, |st.blocks|);
        }
      }
    } else if |run| > 0 {
      EmitInplaceBuilt(env, t, rank, run, b.topLevel, cur, st);
    } else {
      EmitBlockBuilt(env, t, rank, cur, st);
    }
  }

  /** The `Inplace` block of a run and the chain after it is the one of the run met one block earlier. */
  lemma InplaceStep(t: ScratchTarget, rank: map<string, nat>, run: seq<ScratchBlock>, cur: string,
                    blocks: seq<GenBlock>, k: nat)
    requires Ranked(t, rank) && cur in t.blocks && CanRunInplace(t.blocks[cur])
    requires !Falsy(t.blocks[cur].next) && t.blocks[cur].next.value in t.blocks
    requires InplaceBuilt(t, rank, run + [t.blocks[cur]], t.blocks[cur].next.value, blocks, k)
    ensures InplaceBuilt(t, rank, run, cur, blocks, k)
  {
    var b := t.blocks[cur];
    assert run + Chain(t, rank, cur) == (run + [b]) + Chain(t, rank, b.next.value);
  }

  /** A run that ends the sequence at `cur` becomes an `Inplace` block with an empty `next`. */
  lemma TrailingBuilt(env: Environment, t: ScratchTarget, rank: map<string, nat>, run: seq<ScratchBlock>,
                      cur: string, st: Emission)
    requires Ranked(t, rank) && cur in t.blocks
    requires CanRunInplace(t.blocks[cur]) && Falsy(t.blocks[cur].next)
    ensures var r := Trailing(env, t, run + [t.blocks[cur]], st);
            r.Ok? ==> InplaceBuilt(t, rank, run, cur, r.value.1.blocks, |st.blocks|)
                      && |r.value.1.blocks| == |st.blocks| + 1
  {
    assert Chain(t, rank, cur) == [t.blocks[cur]];
  }

  lemma {:induction false} EmitInplaceBuilt(env: Environment, t: ScratchTarget, rank: map<string, nat>,
                                            run: seq<ScratchBlock>, topLevel: bool, cur: string, st: Emission)
    requires Ranked(t, rank) && cur in t.blocks && |run| > 0
    requires !CanRunInplace(t.blocks[cur]) && topLevel == t.blocks[cur].topLevel
    ensures var r := EmitInplace(env, t, rank, run, topLevel, cur, st);
            r.Ok? ==> && InplaceBuilt(t, rank, run, cur, r.value.1.blocks, |st.blocks|)
                      && Origins(t, rank, r.value.1.blocks, |st.blocks| + 1, |r.value.1.blocks|)
    decreases rank[cur] + 1, 4
  {
    match InplaceEntries(env, t, run, st.vars)
    case Err(_) =>
    case Ok((ops, helpers, vs)) =>
      var idx := |st.blocks|;
      var block := GenBlock(Some(kOpcodeRunInplace), topLevel, run, ops, helpers,
                            ExtractSpriteName(t) + "_Inplace" + DecimalString(idx), "", "");
      var st1 := Emission(st.blocks + [block], vs);
      ExtractBuilt(env, t, rank, Some(cur), st1);
      match Extract(env, t, rank, Some(cur), st1)
      case Err(_) =>
      case Ok((result, st2)) =>
        assert st2.blocks[idx] == block;
        var bs := SetNext(st2, idx, st2.blocks[idx + 1].blockName).blocks;
        BuiltKept(t, rank, cur, st2.blocks, bs, idx + 1);
        assert Links(t, rank, Some(cur), bs, idx, bs[idx].nextBlockName);
        OriginsKept(t, rank, st2.blocks, bs, idx + 1, |st2.blocks|);
  }

  lemma {:induction false} EmitBlockBuilt(env: Environment, t: ScratchTarget, rank: map<string, nat>, cur: string,
                                          st: Emission)
    requires Ranked(t, rank) && cur in t.blocks && !CanRunInplace(t.blocks[cur])
    requires Falsy(t.blocks[cur].next) || t.blocks[cur].next.value in t.blocks
    ensures var r := EmitBlock(env, t, rank, cur, st);
            r.Ok? ==> && Built(t, rank, cur, r.value.1.blocks, |st.blocks|)
                      && Origins(t, rank, r.value.1.blocks, |st.blocks| + 1, |r.value.1.blocks|)
    decreases rank[cur] + 1, 1
  {
    var b := t.blocks[cur];
    var idx := |st.blocks|;
    var block := GenBlock(ToKnownOpCodes(b.opcode), b.topLevel, [], [], [],
                          ExtractSpriteName(t) + "_" + b.opcode + DecimalString(idx), "", "");
    var st1 := Emission(st.blocks + [block], st.vars);
    SubstackBuilt(env, t, rank, cur, idx, st1);
    match Substack(env, t, rank, cur, idx, st1)
    case Err(_) =>
    case Ok(st2) =>
      var next := NextOf(b);
      ExtractBuilt(env, t, rank, next, st2);
      match Extract(env, t, rank, next, st2)
      case Err(_) =>
      case Ok((result, st3)) =>
        var bs := if result.Some? then SetNext(st3, idx, st3.blocks[result.value].blockName).blocks else st3.blocks;
        assert st2.blocks[idx] == block.(substackBlockName := st2.blocks[idx].substackBlockName);
        EmitBlockLinked(t, rank, cur, idx, st2.blocks, st3.blocks, bs);
  }

  /**
   * The last step of `EmitBlock`: with the substack linked in `blocks` and
   * the rest of the sequence built in `blocks'`, setting the `next` link of
   * block `idx` gives the block built from `cur`.
   */
  lemma EmitBlockLinked(t: ScratchTarget, rank: map<string, nat>, cur: string, idx: nat,
                        blocks: seq<GenBlock>, blocks': seq<GenBlock>, bs: seq<GenBlock>)
    requires Ranked(t, rank) && cur in t.blocks && !CanRunInplace(t.blocks[cur])
    requires NextOf(t.blocks[cur]).Some? ==> NextOf(t.blocks[cur]).value in t.blocks
    requires idx < |blocks| && blocks <= blocks' && |bs| == |blocks'|
    requires var b := t.blocks[cur];
             blocks[idx] == GenBlock(ToKnownOpCodes(b.opcode), b.topLevel, [], [], [],
                                     ExtractSpriteName(t) + "_" + b.opcode + DecimalString(idx), "",
                                     blocks[idx].substackBlockName)
    requires var b := t.blocks[cur];
             if HasSubstack(b)
             then b.substack.Some? && b.substack.value in t.blocks
                  && Links(t, rank, b.substack, blocks, idx, blocks[idx].substackBlockName)
             else blocks[idx].substackBlockName == ""
    requires bs[idx] == blocks[idx].(nextBlockName := bs[idx].nextBlockName)
    requires forall i :: idx < i < |bs| ==> bs[i] == blocks'[i]
    requires var next := NextOf(t.blocks[cur]);
             if next.Some?
             then |blocks| < |blocks'| && Built(t, rank, next.value, blocks', |blocks|)
                  && bs[idx].nextBlockName == blocks'[|blocks|].blockName
             else bs[idx].nextBlockName == ""
    requires Origins(t, rank, blocks, idx + 1, |blocks|) && Origins(t, rank, blocks', |blocks|, |blocks'|)
    ensures Built(t, rank, cur, bs, idx) && Origins(t, rank, bs, idx + 1, |bs|)
  {
    var b := t.blocks[cur];
    var next := NextOf(b);
    assert Agrees(blocks, bs, idx + 1);
    if HasSubstack(b) {
      LinksKept(t, rank, b.substack, blocks, bs, idx, blocks[idx].substackBlockName);
    }
    if next.Some? {
      BuiltKept(t, rank, next.value, blocks', bs, |blocks|);
      assert Links(t, rank, next, bs, idx, bs[idx].nextBlockName);
    }
    OriginsAfter(t, rank, blocks, blocks', bs, idx + 1);
  }

  /**
   * The origins of the blocks two successive calls append survive a change
   * of the block before them.
   */
  lemma OriginsAfter(t: ScratchTarget, rank: map<string, nat>, blocks: seq<GenBlock>, blocks': seq<GenBlock>,
                     bs: seq<GenBlock>, from: nat)
    requires Ranked(t, rank) && from <= |blocks| && blocks <= blocks' && Agrees(blocks', bs, from) && |bs| == |blocks'|
    requires Origins(t, rank, blocks, from, |blocks|) && Origins(t, rank, blocks', |blocks|, |blocks'|)
    ensures Origins(t, rank, bs, from, |bs|)
  {
    OriginsKept(t, rank, blocks, blocks', from, |blocks|);
    assert forall k :: from <= k < |blocks'| ==> HasOrigin(t, rank, blocks', k) by {
      assert Origins(t, rank, blocks', from, |blocks|);
    }
    OriginsKept(t, rank, blocks', bs, from, |blocks'|);
  }

  /** The substack of the block at `idx` links to the block built from its `SUBSTACK` input. */
  lemma {:induction false} SubstackBuilt(env: Environment, t: ScratchTarget, rank: map<string, nat>, cur: string,
                                         idx: nat, st: Emission)
    requires Ranked(t, rank) && cur in t.blocks && idx + 1 == |st.blocks|
    ensures var r := Substack(env, t, rank, cur, idx, st);
            var b := t.blocks[cur];
            r.Ok? ==>
              && r.value.blocks[idx] == st.blocks[idx].(substackBlockName := r.value.blocks[idx].substackBlockName)
              && if HasSubstack(b)
                 then b.substack.Some? && b.substack.value in t.blocks
                      && Links(t, rank, b.substack, r.value.blocks, idx, r.value.blocks[idx].substackBlockName)
                      && Origins(t, rank, r.value.blocks, idx + 1, |r.value.blocks|)
                 else r.value == st
    decreases rank[cur] + 1, 0
  {
    var b := t.blocks[cur];
    if HasSubstack(b) && b.substack.Some? && b.substack.value in t.blocks {
      ExtractBuilt(env, t, rank, b.substack, st);
      match Extract(env, t, rank, b.substack, st)
      case Err(_) =>
      case Ok((result, st1)) =>
        assert st1.blocks[idx] == st.blocks[idx];
        var bs := SetSubstack(st1, idx, st1.blocks[idx + 1].blockName).blocks;
        BuiltKept(t, rank, b.substack.value, st1.blocks, bs, idx + 1);
        assert Links(t, rank, b.substack, bs, idx, bs[idx].substackBlockName);
        OriginsKept(t, rank, st1.blocks, bs, idx + 1, |st1.blocks|);
    }
  }

  /** Some block of `blocks` from index `from` on is built from block `id`. */
  ghost predicate BuiltSomewhere(t: ScratchTarget, rank: map<string, nat>, id: string, blocks: seq<GenBlock>, from: nat)
    requires Ranked(t, rank) && id in t.blocks
  {
    exists k :: from <= k < |blocks| && Built(t, rank, id, blocks, k)
  }

  /** Every top-level block of the target has a block built from it, from index `from` on. */
  ghost predicate TopBlocksBuilt(t: ScratchTarget, rank: map<string, nat>, blocks: seq<GenBlock>, from: nat)
    requires Ranked(t, rank)
  {
    forall id :: id in t.blocks && t.blocks[id].topLevel ==> BuiltSomewhere(t, rank, id, blocks, from)
  }

  lemma SomewhereKept(t: ScratchTarget, rank: map<string, nat>, id: string, blocks: seq<GenBlock>,
                      bs: seq<GenBlock>, from: nat, from': nat)
    requires Ranked(t, rank) && id in t.blocks
    requires BuiltSomewhere(t, rank, id, blocks, from) && blocks <= bs && from' <= from
    ensures BuiltSomewhere(t, rank, id, bs, from')
  {
    var k :| from <= k < |blocks| && Built(t, rank, id, blocks, k);
    BuiltKept(t, rank, id, blocks, bs, k);
  }

  /** Each top-level block of the loop over `ids` gets the block built from it. */
  lemma {:induction false} ExtractTopsBuilt(env: Environment, t: ScratchTarget, rank: map<string, nat>,
                                            ids: seq<string>, st: Emission)
    requires Ranked(t, rank) && forall i :: 0 <= i < |ids| ==> ids[i] in t.blocks
    ensures var r := ExtractTops(env, t, rank, ids, st);
            r.Ok? ==> forall i :: 0 <= i < |ids| ==> BuiltSomewhere(t, rank, ids[i], r.value.blocks, |st.blocks|)
    decreases |ids|
  {
    if |ids| > 0 {
      ExtractBuilt(env, t, rank, Some(ids[0]), st);
      match Extract(env, t, rank, Some(ids[0]), st)
      case Err(_) =>
      case Ok((_, st1)) =>
        ExtractTopsBuilt(env, t, rank, ids[1..], st1);
        match ExtractTops(env, t, rank, ids[1..], st1)
        case Err(_) =>
        case Ok(st2) =>
          assert BuiltSomewhere(t, rank, ids[0], st1.blocks, |st.blocks|);
          SomewhereKept(t, rank, ids[0], st1.blocks, st2.blocks, |st.blocks|, |st.blocks|);
          forall i | 1 <= i < |ids|
            ensures BuiltSomewhere(t, rank, ids[i], st2.blocks, |st.blocks|)
          {
            assert ids[1..][i - 1] == ids[i];
            SomewhereKept(t, rank, ids[i], st2.blocks, st2.blocks, |st1.blocks|, |st.blocks|);
          }
    }
  }

  /** The outer loop builds a block from every top-level block of every target. */
  lemma {:induction false} ExtractTargetsBuilt(env: Environment, targets: seq<ScratchTarget>,
                                               ranks: seq<map<string, nat>>, st: Emission)
    requires |ranks| == |targets| && forall i :: 0 <= i < |targets| ==> WellFormedTarget(targets[i], ranks[i])
    ensures var r := ExtractTargets(env, targets, ranks, st);
            r.Ok? ==> forall i :: 0 <= i < |targets| ==> TopBlocksBuilt(targets[i], ranks[i], r.value.blocks, |st.blocks|)
    decreases |targets|
  {
    if |targets| > 0 {
      var t := targets[0];
      assert WellFormedTarget(t, ranks[0]);
      var ids := TopLevelIds(t.blockOrder, t.blocks);
      ExtractTopsBuilt(env, t, ranks[0], ids, st);
      match ExtractTops(env, t, ranks[0], ids, st)
      case Err(_) =>
      case Ok(st1) =>
        ExtractTargetsBuilt(env, targets[1..], ranks[1..], st1);
        match ExtractTargets(env, targets[1..], ranks[1..], st1)
        case Err(_) =>
        case Ok(st2) =>
          TopsCovered(t, ranks[0], ids, st1.blocks, |st.blocks|);
          TopBlocksKept(t, ranks[0], st1.blocks, st2.blocks, |st.blocks|, |st.blocks|);
          forall i | 1 <= i < |targets|
            ensures TopBlocksBuilt(targets[i], ranks[i], st2.blocks, |st.blocks|)
          {
            assert targets[1..][i - 1] == targets[i] && ranks[1..][i - 1] == ranks[i];
            TopBlocksKept(targets[i], ranks[i], st2.blocks, st2.blocks, |st1.blocks|, |st.blocks|);
          }
    }
  }

  /** The ids `TopLevelIds` lists are all the top-level blocks of a well-formed target. */
  lemma TopsCovered(t: ScratchTarget, rank: map<string, nat>, ids: seq<string>, blocks: seq<GenBlock>, from: nat)
    requires WellFormedTarget(t, rank) && ids == TopLevelIds(t.blockOrder, t.blocks)
    requires forall i :: 0 <= i < |ids| ==> BuiltSomewhere(t, rank, ids[i], blocks, from)
    ensures TopBlocksBuilt(t, rank, blocks, from)
  {
    forall id | id in t.blocks && t.blocks[id].topLevel
      ensures BuiltSomewhere(t, rank, id, blocks, from)
    {
      assert id in ids;
      var p :| 0 <= p < |ids| && ids[p] == id;
    }
  }

  lemma TopBlocksKept(t: ScratchTarget, rank: map<string, nat>, blocks: seq<GenBlock>, bs: seq<GenBlock>,
                      from: nat, from': nat)
    requires Ranked(t, rank) && TopBlocksBuilt(t, rank, blocks, from) && blocks <= bs && from' <= from
    ensures TopBlocksBuilt(t, rank, bs, from')
  {
    forall id | id in t.blocks && t.blocks[id].topLevel
      ensures BuiltSomewhere(t, rank, id, bs, from')
    {
      SomewhereKept(t, rank, id, blocks, bs, from, from');
    }
  }

  /** Every block the loop over `ids` appends is built from some block of the target. */
  lemma {:induction false} ExtractTopsOrigins(env: Environment, t: ScratchTarget, rank: map<string, nat>,
                                              ids: seq<string>, st: Emission)
    requires Ranked(t, rank) && forall i :: 0 <= i < |ids| ==> ids[i] in t.blocks
    ensures var r := ExtractTops(env, t, rank, ids, st);
            r.Ok? ==> Origins(t, rank, r.value.blocks, |st.blocks|, |r.value.blocks|)
    decreases |ids|
  {
    if |ids| > 0 {
      ExtractBuilt(env, t, rank, Some(ids[0]), st);
      match Extract(env, t, rank, Some(ids[0]), st)
      case Err(_) =>
      case Ok((_, st1)) =>
        ExtractTopsOrigins(env, t, rank, ids[1..], st1);
        match ExtractTops(env, t, rank, ids[1..], st1)
        case Err(_) =>
        case Ok(st2) =>
          OriginsKept(t, rank, st1.blocks, st2.blocks, |st.blocks|, |st1.blocks|);
    }
  }

  /** Block `k` is built from some block of one of the targets. */
  ghost predicate FromSomeTarget(targets: seq<ScratchTarget>, ranks: seq<map<string, nat>>, blocks: seq<GenBlock>, k: nat)
  {
    exists i :: 0 <= i < |targets| && i < |ranks| && HasOrigin(targets[i], ranks[i], blocks, k)
  }

  /** Every block the outer loop appends is built from some block of one of the targets. */
  lemma {:induction false} ExtractTargetsOrigins(env: Environment, targets: seq<ScratchTarget>,
                                                 ranks: seq<map<string, nat>>, st: Emission)
    requires |ranks| == |targets| && forall i :: 0 <= i < |targets| ==> WellFormedTarget(targets[i], ranks[i])
    ensures var r := ExtractTargets(env, targets, ranks, st);
            r.Ok? ==> forall k :: |st.blocks| <= k < |r.value.blocks| ==> FromSomeTarget(targets, ranks, r.value.blocks, k)
    decreases |targets|
  {
    if |targets| > 0 {
      var t := targets[0];
      assert WellFormedTarget(t, ranks[0]);
      var ids := TopLevelIds(t.blockOrder, t.blocks);
      ExtractTopsOrigins(env, t, ranks[0], ids, st);
      match ExtractTops(env, t, ranks[0], ids, st)
      case Err(_) =>
      case Ok(st1) =>
        ExtractTargetsOrigins(env, targets[1..], ranks[1..], st1);
        match ExtractTargets(env, targets[1..], ranks[1..], st1)
        case Err(_) =>
        case Ok(st2) =>
          OriginsKept(t, ranks[0], st1.blocks, st2.blocks, |st.blocks|, |st1.blocks|);
          assert var r := ExtractTargets(env, targets[1..], ranks[1..], st1);
            r.Ok? ==> forall k :: |st1.blocks| <= k < |r.value.blocks| ==> FromSomeTarget(targets[1..], ranks[1..], r.value.blocks, k);
          FromTargets(targets, ranks, st2.blocks, |st.blocks|, |st1.blocks|);
    }
  }

  /**
   * Blocks built from the first target, followed by blocks built from the
   * later ones, are all built from some target.
   */
  lemma FromTargets(targets: seq<ScratchTarget>, ranks: seq<map<string, nat>>, blocks: seq<GenBlock>, from: nat, mid: nat)
    requires 0 < |targets| == |ranks|
    requires Origins(targets[0], ranks[0], blocks, from, mid)
    requires forall k :: mid <= k < |blocks| ==> FromSomeTarget(targets[1..], ranks[1..], blocks, k)
    ensures forall k :: from <= k < |blocks| ==> FromSomeTarget(targets, ranks, blocks, k)
  {
    forall k | from <= k < |blocks|
      ensures FromSomeTarget(targets, ranks, blocks, k)
    {
      if k < mid {
        assert HasOrigin(targets[0], ranks[0], blocks, k);
      } else {
        assert FromSomeTarget(targets[1..], ranks[1..], blocks, k);
        var i :| 0 <= i < |targets[1..]| && i < |ranks[1..]| && HasOrigin(targets[1..][i], ranks[1..][i], blocks, k);
        assert HasOrigin(targets[i + 1], ranks[i + 1], blocks, k);
      }
    }
  }

  /**
   * The output of `extract_blocks_and_variables` holds, for every top-level
   * block of every target, the block built from it, with the whole graph
   * below it as `Built` describes, and every block it holds is built from
   * some block of some target.
   */
  lemma ProjectBuilt(env: Environment, targets: seq<ScratchTarget>, ranks: seq<map<string, nat>>)
    requires |ranks| == |targets| && forall i :: 0 <= i < |targets| ==> WellFormedTarget(targets[i], ranks[i])
    ensures var r := ExtractProject(env, targets, ranks);
            r.Ok? ==> && (forall i :: 0 <= i < |targets| ==> TopBlocksBuilt(targets[i], ranks[i], r.value.0, 0))
                      && (forall k :: 0 <= k < |r.value.0| ==> FromSomeTarget(targets, ranks, r.value.0, k))
  {
    ExtractTargetsBuilt(env, targets, ranks, Emission([], VarState([], map[])));
    ExtractTargetsOrigins(env, targets, ranks, Emission([], VarState([], map[])));
  }
}
