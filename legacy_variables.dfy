/**
 * The older value functions that digital_clock.c and repeat_until_x.c carry
 * (the same code in both files): a `ScratchVariable` has only a number and a
 * text pointer, there is no borrowed flag, and text is always freed.
 */
module LegacyVariables {
  import opened Util
  import opened Heap

  class ScratchVariable {
    var numberValue: real
    /** `str_value`: `None` is the null pointer. */
    var strValue: Option<BufferId>

    /** A global of the generated program: static storage starts zeroed. */
    constructor ()
      ensures numberValue == 0.0 && strValue == None
    {
      numberValue := 0.0;
      strValue := None;
    }

    /** Every text such a variable holds is a live heap buffer it owns. */
    ghost predicate Valid(mem: Memory)
      reads this, mem
    {
      strValue.Some? ==> strValue.value in mem.live
    }

    ghost function Owned(): set<BufferId>
      reads this
    {
      if strValue.Some? then {strValue.value} else {}
    }

    /**
     * `Scratch_AssignNumberVariable` (digital_clock.c:35-42,
     * repeat_until_x.c:17-24): frees the text exactly when there is one,
     * leaves no text, and sets the number.
     */
    method AssignNumber(mem: Memory, n: real)
      requires mem.Valid() && Valid(mem)
      modifies this, mem
      ensures mem.Valid() && Valid(mem)
      ensures numberValue == n && strValue == None
      ensures mem.ReleasedAll(old(Owned()))
    {
      if strValue.Some? {
        mem.Release(strValue.value);
        strValue := None;
      }
      numberValue := n;
    }

    /**
     * `Scratch_AssignStringVariable` (digital_clock.c:44-53,
     * repeat_until_x.c:26-35): frees any prior text, then stores a fresh
     * buffer holding a copy of `str` (its terminator included, which the model
     * of a buffer leaves implicit). The number is not touched. `str` is read
     * after the free, so it must not be the variable's own buffer.
     */
    method AssignString(mem: Memory, str: BufferId)
      requires mem.Valid() && Valid(mem) && mem.Readable(str) && strValue != Some(str)
      modifies this, mem
      ensures mem.Valid() && Valid(mem)
      ensures numberValue == old(numberValue)
      ensures strValue == Some(|old(mem.contents)|)
      ensures mem.contents == old(mem.contents) + [old(mem.contents[str])]
      ensures mem.live == old(mem.live) - old(Owned()) + {strValue.value}
      ensures mem.released == old(mem.released) + old(Owned()) && mem.literals == old(mem.literals)
    {
      if strValue.Some? {
        mem.Release(strValue.value);
        strValue := None;
      }
      var copy := mem.Allocate(mem.contents[str]);
      strValue := Some(copy);
    }
  }
}
