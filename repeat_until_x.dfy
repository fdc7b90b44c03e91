/**
 * repeat_until_x.c: a generated program with three variables and no blocks.
 * `Scratch_Init` assigns each of them a number.
 */
module RepeatUntilX {
  import opened Heap
  import LegacyVariables

  /** The globals of repeat_until_x.c. */
  class Program {
    const stageMyVariable: LegacyVariables.ScratchVariable
    const red100x70X: LegacyVariables.ScratchVariable
    const red100x70Y: LegacyVariables.ScratchVariable

    ghost predicate Valid()
      reads this
    {
      stageMyVariable != red100x70X && stageMyVariable != red100x70Y && red100x70X != red100x70Y
    }

    /** Static storage: zeroed variables. */
    constructor ()
      ensures Valid()
      ensures fresh(stageMyVariable) && fresh(red100x70X) && fresh(red100x70Y)
      ensures stageMyVariable.strValue.None? && red100x70X.strValue.None? && red100x70Y.strValue.None?
      ensures stageMyVariable.numberValue == 0.0 && red100x70X.numberValue == 0.0 && red100x70Y.numberValue == 0.0
    {
      stageMyVariable := new LegacyVariables.ScratchVariable();
      red100x70X := new LegacyVariables.ScratchVariable();
      red100x70Y := new LegacyVariables.ScratchVariable();
    }

    /**
     * `Scratch_Init`: `Stage_my_variable`, `red_100x70_x` and `red_100x70_y`
     * become 0, 51 and 0, with no text; any text they held is freed.
     */
    method Init(mem: Memory)
      requires Valid() && mem.Valid()
      requires stageMyVariable.Valid(mem) && red100x70X.Valid(mem) && red100x70Y.Valid(mem)
      requires stageMyVariable.Owned() !! red100x70X.Owned() && stageMyVariable.Owned() !! red100x70Y.Owned()
      requires red100x70X.Owned() !! red100x70Y.Owned()
      modifies mem, stageMyVariable, red100x70X, red100x70Y
      ensures mem.Valid()
      ensures stageMyVariable.numberValue == 0.0 && red100x70X.numberValue == 51.0 && red100x70Y.numberValue == 0.0
      ensures stageMyVariable.strValue.None? && red100x70X.strValue.None? && red100x70Y.strValue.None?
      ensures mem.live == old(mem.live) - old(stageMyVariable.Owned() + red100x70X.Owned() + red100x70Y.Owned())
    {
      stageMyVariable.AssignNumber(mem, 0.0);
      red100x70X.AssignNumber(mem, 51.0);
      red100x70Y.AssignNumber(mem, 0.0);
    }
  }
}
