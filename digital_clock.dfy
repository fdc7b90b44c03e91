/**
 * digital_clock.c: a program the generator produced for a clock project.
 * `Scratch_Init` gives its five variables their numbers and wires its seven
 * static blocks; `Scratch_FindVariable` knows no variable.
 */
module DigitalClock {
  import opened Heap
  import LegacyVariables
  import TemplateRuntime

  type RuntimeBlock = TemplateRuntime.RuntimeBlock

  /** Indices of the static blocks, in the order they are declared. */
  const FlagClicked0 := 0
  const Inplace1 := 1
  const Forever2 := 2
  const Inplace3 := 3
  const If4 := 4
  const Inplace5 := 5
  const Inplace6 := 6

  /** The globals of digital_clock.c. */
  class Program {
    const myVariable: LegacyVariables.ScratchVariable
    const minutes: LegacyVariables.ScratchVariable
    const seconds: LegacyVariables.ScratchVariable
    const prevTime: LegacyVariables.ScratchVariable
    const curTime: LegacyVariables.ScratchVariable
    const blocks: array<RuntimeBlock>

    ghost predicate Valid()
      reads this
    {
      && blocks.Length == 7
      && myVariable != minutes && myVariable != seconds && myVariable != prevTime && myVariable != curTime
      && minutes != seconds && minutes != prevTime && minutes != curTime
      && seconds != prevTime && seconds != curTime && prevTime != curTime
    }

    /** Static storage: zeroed variables and seven blocks. */
    constructor ()
      ensures Valid() && fresh(blocks)
      ensures fresh(myVariable) && fresh(minutes) && fresh(seconds) && fresh(prevTime) && fresh(curTime)
      ensures myVariable.strValue.None? && minutes.strValue.None? && seconds.strValue.None?
      ensures prevTime.strValue.None? && curTime.strValue.None?
      ensures myVariable.numberValue == 0.0 && minutes.numberValue == 0.0 && seconds.numberValue == 0.0
      ensures prevTime.numberValue == 0.0 && curTime.numberValue == 0.0
    {
      myVariable := new LegacyVariables.ScratchVariable();
      minutes := new LegacyVariables.ScratchVariable();
      seconds := new LegacyVariables.ScratchVariable();
      prevTime := new LegacyVariables.ScratchVariable();
      curTime := new LegacyVariables.ScratchVariable();
      blocks := new RuntimeBlock[7](_ => TemplateRuntime.RuntimeBlock(TemplateRuntime.WhenFlagClicked, -1, -1, false));
    }

    /**
     * `Scratch_Init`: the five numbers, then the four fields of every block.
     * No variable holds text before, so nothing is released.
     */
    method Init(mem: Memory)
      requires Valid() && mem.Valid()
      requires myVariable.strValue.None? && minutes.strValue.None? && seconds.strValue.None?
      requires prevTime.strValue.None? && curTime.strValue.None?
      modifies mem, myVariable, minutes, seconds, prevTime, curTime, blocks
      ensures mem.Valid() && mem.live == old(mem.live) && mem.released == old(mem.released)
      ensures myVariable.numberValue == 0.0 && minutes.numberValue == 4.0 && seconds.numberValue == 1.0
      ensures prevTime.numberValue == 20.096 && curTime.numberValue == 21.845
      ensures myVariable.strValue.None? && minutes.strValue.None? && seconds.strValue.None?
      ensures prevTime.strValue.None? && curTime.strValue.None?
      ensures blocks[..] == InitialGraph()
    {
      myVariable.AssignNumber(mem, 0.0);
      minutes.AssignNumber(mem, 4.0);
      seconds.AssignNumber(mem, 1.0);
      prevTime.AssignNumber(mem, 20.096);
      curTime.AssignNumber(mem, 21.845);
      blocks[FlagClicked0] := TemplateRuntime.RuntimeBlock(TemplateRuntime.WhenFlagClicked, Inplace1, -1, false);
      blocks[Inplace1] := TemplateRuntime.RuntimeBlock(TemplateRuntime.InPlace, Forever2, -1, true);
      blocks[Forever2] := TemplateRuntime.RuntimeBlock(TemplateRuntime.ControlForever, -1, Inplace3, false);
      blocks[Inplace3] := TemplateRuntime.RuntimeBlock(TemplateRuntime.InPlace, If4, -1, true);
      blocks[If4] := TemplateRuntime.RuntimeBlock(TemplateRuntime.ControlIf, Inplace6, Inplace5, false);
      blocks[Inplace5] := TemplateRuntime.RuntimeBlock(TemplateRuntime.InPlace, -1, -1, true);
      blocks[Inplace6] := TemplateRuntime.RuntimeBlock(TemplateRuntime.InPlace, -1, -1, true);
    }
  }

  /** The graph `Scratch_Init` builds, block by block. */
  function InitialGraph(): seq<RuntimeBlock>
  {
    [ TemplateRuntime.RuntimeBlock(TemplateRuntime.WhenFlagClicked, Inplace1, -1, false),
      TemplateRuntime.RuntimeBlock(TemplateRuntime.InPlace, Forever2, -1, true),
      TemplateRuntime.RuntimeBlock(TemplateRuntime.ControlForever, -1, Inplace3, false),
      TemplateRuntime.RuntimeBlock(TemplateRuntime.InPlace, If4, -1, true),
      TemplateRuntime.RuntimeBlock(TemplateRuntime.ControlIf, Inplace6, Inplace5, false),
      TemplateRuntime.RuntimeBlock(TemplateRuntime.InPlace, -1, -1, true),
      TemplateRuntime.RuntimeBlock(TemplateRuntime.InPlace, -1, -1, true) ]
  }

  /** `Scratch_FindVariable`: null for every pair of names. */
  function FindVariable(spriteName: string, variableName: string): (k: int)
    ensures k == TemplateRuntime.FindVariable([], spriteName, variableName)
  {
    -1
  }
}
