/**
 * The value store of templates/scratch-vm-variables.c: a `ScratchVariable`
 * holds a number and possibly a text buffer, which it either owns (and must
 * release) or borrows from a string literal (and must never release).
 */
module Variables {
  import opened Util
  import opened Heap

  /** `ScratchNumber` is a C `double`; floating-point rounding is not modelled. */
  type Number = real

  class ScratchVariable {
    var numberValue: Number
    /** `str_value`: `None` is the null pointer. */
    var strValue: Option<BufferId>
    /** `is_const_str_value`: the text is a borrowed literal. */
    var isConstStrValue: bool

    /** A declared but not yet initialised variable: its fields are unknown. */
    constructor ()
    {
    }

    /** The ownership invariant: owned text is a live heap buffer, borrowed text a literal. */
    ghost predicate Valid(mem: Memory)
      reads this, mem
    {
      strValue.Some? ==>
        if isConstStrValue then strValue.value in mem.literals else strValue.value in mem.live
    }

    /** The buffers this variable is responsible for releasing. */
    ghost function Owned(): set<BufferId>
      reads this
    {
      if strValue.Some? && !isConstStrValue then {strValue.value} else {}
    }

    /** `Scratch_InitVariable`: number 0, no text, not borrowed. */
    method InitVariable()
      modifies this
      ensures numberValue == 0.0 && strValue == None && !isConstStrValue
    {
      numberValue := 0.0;
      strValue := None;
      isConstStrValue := false;
    }

    /** `Scratch_InitNumberVariable`. */
    method InitNumber(n: Number)
      modifies this
      ensures numberValue == n && strValue == None && !isConstStrValue
    {
      numberValue := n;
      strValue := None;
      isConstStrValue := false;
    }

    /**
     * `Scratch_InitStringVariable`: with the const flag the literal is borrowed
     * as it is; otherwise the variable owns a fresh duplicate. Any text the
     * variable held before is forgotten, not released.
     */
    method InitString(mem: Memory, str: BufferId, isConst: bool)
      requires mem.Valid()
      requires if isConst then str in mem.literals else mem.Readable(str)
      modifies this, mem
      ensures mem.Valid() && Valid(mem) && numberValue == 0.0
      ensures isConst ==> strValue == Some(str) && isConstStrValue && unchanged(mem)
      ensures !isConst ==> strValue.Some? && !isConstStrValue
                           && mem.Allocated(strValue.value, old(mem.contents[str]))
    {
      numberValue := 0.0;
      if isConst {
        strValue := Some(str);
        isConstStrValue := true;
      } else {
        var copy := mem.Duplicate(str);
        strValue := Some(copy);
        isConstStrValue := false;
      }
    }

    /**
     * `Scratch_AssignNumberVariable`: sets the number and drops the text,
     * releasing it only when it was owned.
     */
    method AssignNumber(mem: Memory, n: Number)
      requires mem.Valid() && Valid(mem)
      modifies this, mem
      ensures mem.Valid() && Valid(mem)
      ensures numberValue == n && strValue == None
      ensures isConstStrValue == (old(strValue).None? && old(isConstStrValue))
      ensures mem.ReleasedAll(old(Owned()))
    {
      numberValue := n;
      if strValue.Some? {
        if !isConstStrValue {
          mem.Release(strValue.value);
        }
        strValue := None;
        isConstStrValue := false;
      }
    }

    /** `Scratch_ReadNumberVariable`. */
    function ReadNumber(): Number
      reads this
    {
      numberValue
    }

    /** `Scratch_ReadStringVariable`: the text, or `""` when there is none (a number is not printed). */
    function ReadString(mem: Memory): (s: string)
      reads this, mem
      requires mem.Valid() && Valid(mem)
      ensures strValue.None? ==> s == ""
      ensures strValue.Some? ==> s == mem.contents[strValue.value]
    {
      if strValue.Some? then mem.contents[strValue.value] else ""
    }

    /**
     * `Scratch_AssignStringVariable`: the number becomes 0, owned text is
     * released, and the variable then owns a fresh copy of `str`. The copy is
     * taken after the release, so `str` must not be the buffer released.
     */
    method AssignString(mem: Memory, str: BufferId)
      requires mem.Valid() && Valid(mem) && mem.Readable(str)
      requires strValue == Some(str) ==> isConstStrValue
      modifies this, mem
      ensures mem.Valid() && Valid(mem)
      ensures numberValue == 0.0 && strValue.Some? && !isConstStrValue
      ensures strValue.value == |old(mem.contents)|
      ensures ReadString(mem) == old(mem.contents[str])
      ensures mem.contents == old(mem.contents) + [old(mem.contents[str])]
      ensures mem.literals == old(mem.literals)
      ensures mem.live == old(mem.live) - old(Owned()) + {strValue.value}
      ensures mem.released == old(mem.released) + old(Owned())
    {
      numberValue := 0.0;
      if strValue.Some? {
        if !isConstStrValue {
          mem.Release(strValue.value);
        }
        strValue := None;
      }
      var copy := mem.Duplicate(str);
      strValue := Some(copy);
      isConstStrValue := false;
    }

    /**
     * `Scratch_AssignVariable`: copies the text of `rhv` when it has any, and
     * its number otherwise.
     */
    method AssignVariable(mem: Memory, rhv: ScratchVariable)
      requires mem.Valid() && Valid(mem) && rhv.Valid(mem)
      requires rhv.strValue.Some? ==> !(strValue == rhv.strValue && !isConstStrValue)
      modifies this, mem
      ensures mem.Valid() && Valid(mem)
      ensures old(rhv.strValue).Some? ==>
        && numberValue == 0.0 && strValue.Some? && !isConstStrValue
        && strValue.value == |old(mem.contents)|
        && ReadString(mem) == old(rhv.ReadString(mem))
        && mem.contents == old(mem.contents) + [old(rhv.ReadString(mem))]
        && mem.live == old(mem.live) - old(Owned()) + {strValue.value}
      ensures old(rhv.strValue).None? ==>
        && numberValue == old(rhv.numberValue) && strValue == None
        && isConstStrValue == (old(strValue).None? && old(isConstStrValue))
        && mem.contents == old(mem.contents)
        && mem.live == old(mem.live) - old(Owned())
      ensures mem.released == old(mem.released) + old(Owned())
      ensures mem.literals == old(mem.literals)
      ensures mem.Extends()
    {
      if rhv.strValue.Some? {
        AssignString(mem, rhv.strValue.value);
      } else {
        AssignNumber(mem, rhv.numberValue);
      }
    }

    /**
     * `Scratch_FreeVariable`: releases owned text and leaves number 0 and no
     * text. From that state a second call changes nothing.
     */
    method Free(mem: Memory)
      requires mem.Valid() && Valid(mem)
      modifies this, mem
      ensures mem.Valid() && Valid(mem)
      ensures numberValue == 0.0 && strValue == None
      ensures isConstStrValue == (old(strValue).None? && old(isConstStrValue))
      ensures mem.ReleasedAll(old(Owned()))
    {
      numberValue := 0.0;
      if strValue.Some? {
        if !isConstStrValue {
          mem.Release(strValue.value);
        }
        strValue := None;
        isConstStrValue := false;
      }
    }
  }

  /**
   * `Scratch_JoinStringVariables`: a fresh owned variable whose text is the
   * text of `a` followed by the text of `b`. The concatenation is built in a
   * buffer of its own, which is then duplicated into the result and never
   * released: `joined` stays live without an owner.
   */
  method JoinStringVariables(mem: Memory, a: ScratchVariable, b: ScratchVariable)
    returns (result: ScratchVariable, ghost joined: BufferId)
    requires mem.Valid() && a.Valid(mem) && b.Valid(mem)
    modifies mem
    ensures mem.Valid() && fresh(result) && result.Valid(mem)
    ensures result.numberValue == 0.0 && result.strValue.Some? && !result.isConstStrValue
    ensures result.ReadString(mem) == old(a.ReadString(mem)) + old(b.ReadString(mem))
    ensures joined == |old(mem.contents)| && result.strValue.value == joined + 1
    ensures mem.live == old(mem.live) + {joined, result.strValue.value}
    ensures mem.literals == old(mem.literals) && mem.released == old(mem.released)
    ensures mem.Extends()
  {
    var s1 := a.ReadString(mem);
    var s2 := b.ReadString(mem);
    var newString := mem.Allocate(s1 + s2);
    joined := newString;
    result := new ScratchVariable();
    result.InitString(mem, newString, false);
  }

  /**
   * The string scenario of tests/scratch-vm-variables_gtest.cpp: two borrowed
   * literals, a copy of a borrowed value, an assigned owned text and two
   * joins, read back before everything is freed.
   */
  method StringsScenario() returns (r1: string, r2: string, r3: string, r4: string, r1b: string, r6: string)
    ensures r1 == "" && r2 == "chicken" && r3 == "banana" && r4 == "banana"
    ensures r1b == " " && r6 == "chicken banana"
  {
    var mem := new Memory();
    var s1, s2, s3, s4;
    s1, s2, s3, s4, r1, r2, r3, r4 := ScenarioDeclarations(mem);
    r1b := ScenarioAssignSpace(mem, s1);
    var s5, s6;
    r6, s5, s6 := ScenarioJoins(mem, s1, s2, s3);
    ScenarioRelease(mem, s1, s2, s3);
    ScenarioRelease(mem, s4, s5, s6);
  }

  /** The four declarations of the scenario, up to the first reads. */
  method ScenarioDeclarations(mem: Memory)
    returns (s1: ScratchVariable, s2: ScratchVariable, s3: ScratchVariable, s4: ScratchVariable,
             r1: string, r2: string, r3: string, r4: string)
    requires mem.Valid()
    modifies mem
    ensures mem.Valid() && fresh(s1) && fresh(s2) && fresh(s3) && fresh(s4)
    ensures s1.Valid(mem) && s2.Valid(mem) && s3.Valid(mem) && s4.Valid(mem)
    ensures s1 != s2 && s1 != s3 && s1 != s4 && s2 != s3 && s2 != s4 && s3 != s4
    ensures s1.Owned() == {} && s2.Owned() == {} && s3.Owned() == {} && s4.Owned() <= mem.live
    ensures s2.ReadString(mem) == "chicken" && s3.ReadString(mem) == "banana"
    ensures r1 == "" && r2 == "chicken" && r3 == "banana" && r4 == "banana"
  {
    var chicken := mem.Literal("chicken");
    var banana := mem.Literal("banana");
    s1 := new ScratchVariable();
    s1.InitVariable();
    s2 := new ScratchVariable();
    s2.InitString(mem, chicken, true);
    s3 := new ScratchVariable();
    s3.InitString(mem, banana, true);
    s4 := new ScratchVariable();
    s4.InitVariable();
    s4.AssignVariable(mem, s3);
    r1 := s1.ReadString(mem);
    r2 := s2.ReadString(mem);
    r3 := s3.ReadString(mem);
    r4 := s4.ReadString(mem);
  }

  /** `Scratch_AssignStringVariable(&s1, " ")` and its read-back. */
  method ScenarioAssignSpace(mem: Memory, s1: ScratchVariable) returns (r1b: string)
    requires mem.Valid() && s1.Valid(mem) && s1.Owned() == {}
    modifies mem, s1
    ensures mem.Valid() && s1.Valid(mem) && s1.ReadString(mem) == " " && r1b == " "
    ensures CreatedFrom(s1.Owned(), old(|mem.contents|)) && mem.live == old(mem.live) + s1.Owned()
    ensures old(mem.literals) <= mem.literals && mem.Extends()
  {
    var space := mem.Literal(" ");
    s1.AssignString(mem, space);
    r1b := s1.ReadString(mem);
  }

  /** The two joins of the scenario: `s2` with `s1`, then that result with `s3`. */
  method ScenarioJoins(mem: Memory, s1: ScratchVariable, s2: ScratchVariable, s3: ScratchVariable)
    returns (r6: string, s5: ScratchVariable, s6: ScratchVariable)
    requires mem.Valid() && s1.Valid(mem) && s2.Valid(mem) && s3.Valid(mem)
    requires s2.ReadString(mem) == "chicken" && s1.ReadString(mem) == " " && s3.ReadString(mem) == "banana"
    modifies mem
    ensures mem.Valid() && fresh(s5) && fresh(s6) && s5.Valid(mem) && s6.Valid(mem)
    ensures s5 != s6 && CreatedFrom(s5.Owned() + s6.Owned(), old(|mem.contents|)) && s5.Owned() !! s6.Owned()
    ensures mem.literals == old(mem.literals) && old(mem.live) <= mem.live
    ensures r6 == "chicken banana"
  {
    ghost var j5, j6;
    s5, j5 := JoinStringVariables(mem, s2, s1);
    s6, j6 := JoinStringVariables(mem, s5, s3);
    r6 := s6.ReadString(mem);
  }

  /**
   * Three of the final `Scratch_FreeVariable` calls of the scenario: every
   * owned buffer is released once and borrowed literals are not released.
   */
  method ScenarioRelease(mem: Memory, a: ScratchVariable, b: ScratchVariable, c: ScratchVariable)
    requires mem.Valid() && a.Valid(mem) && b.Valid(mem) && c.Valid(mem)
    requires a != b && a != c && b != c
    requires a.Owned() !! b.Owned() && a.Owned() !! c.Owned() && b.Owned() !! c.Owned()
    modifies mem, a, b, c
    ensures mem.Valid() && mem.literals == old(mem.literals)
    ensures mem.live == old(mem.live) - old(a.Owned() + b.Owned() + c.Owned())
  {
    a.Free(mem);
    b.Free(mem);
    c.Free(mem);
  }
}
