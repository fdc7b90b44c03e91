/**
 * The runtime that templates/scratch-transpiler-main-template.c puts in every
 * generated C program: its own copy of the value functions (which differ from
 * templates/scratch-vm-variables.c), the inplace-block helpers that evaluate
 * expressions through temporaries, `Scratch_Init` and `Scratch_FindVariable`.
 */
module TemplateRuntime {
  import opened Util
  import opened Heap
  import Transpiler

  /** A C `float`; floating-point rounding is not modelled. */
  type Number = real

  /** What a value reads as: its number and, when it holds a buffer, that buffer's text. */
  datatype Val = Val(number: Number, text: Option<string>)

  /** `Scratch_ReadStringVariable` on a value: the text, or `""` without one. */
  function TextOf(v: Val): string
  {
    if v.text.Some? then v.text.value else ""
  }

  class ScratchVariable {
    var numberValue: Number
    /** `str_value`: `None` is the null pointer. */
    var strValue: Option<BufferId>
    /** `is_const_str_value`: the text is a borrowed literal. */
    var isConstStrValue: bool

    /** A `ScratchVariable` local or temporary before any initialisation: its fields are unknown. */
    constructor ()
    {
    }

    /**
     * The ownership invariant against the literals and live heap buffers:
     * owned text is live, borrowed text a literal.
     */
    ghost predicate Within(literals: set<BufferId>, live: set<BufferId>)
      reads this
    {
      strValue.Some? ==>
        if isConstStrValue then strValue.value in literals else strValue.value in live
    }

    ghost predicate Valid(mem: Memory)
      reads this, mem
    {
      Within(mem.literals, mem.live)
    }

    /** The buffers this variable is responsible for releasing. */
    ghost function Owned(): set<BufferId>
      reads this
    {
      if strValue.Some? && !isConstStrValue then {strValue.value} else {}
    }

    /** The value this variable reads as when the buffers hold `contents`. */
    ghost function Value(contents: seq<string>): Val
      reads this
      requires strValue.Some? ==> strValue.value < |contents|
    {
      Val(numberValue, if strValue.Some? then Some(contents[strValue.value]) else None)
    }

    /** `Scratch_InitVariable`: number 0, no text, not borrowed. */
    method InitVariable()
      modifies this
      ensures numberValue == 0.0 && strValue == None && !isConstStrValue
    {
      numberValue := 0.0;
      strValue := None;
      isConstStrValue := false;
    }

    /** `Scratch_InitNumberVariable`: number and no text; the borrowed flag is not written. */
    method InitNumber(n: Number)
      modifies this
      ensures numberValue == n && strValue == None
      ensures isConstStrValue == old(isConstStrValue)
    {
      numberValue := n;
      strValue := None;
    }

    /**
     * `Scratch_AssignNumberVariable`: sets the number and drops the text,
     * releasing it only when it was owned; the borrowed flag keeps its value.
     */
    method AssignNumber(mem: Memory, n: Number)
      requires mem.Valid() && Valid(mem)
      modifies this, mem
      ensures mem.Valid() && Valid(mem)
      ensures numberValue == n && strValue == None
      ensures isConstStrValue == old(isConstStrValue)
      ensures mem.ReleasedAll(old(Owned()))
    {
      numberValue := n;
      if strValue.Some? {
        if !isConstStrValue {
          mem.Release(strValue.value);
        }
        strValue := None;
      }
    }

    /** `Scratch_ReadNumberVariable`. */
    function ReadNumber(): Number
      reads this
    {
      numberValue
    }

    /** `Scratch_ReadStringVariable`: the text, or `""` when there is none, whatever the number. */
    function ReadString(mem: Memory): (s: string)
      reads this, mem
      requires mem.Valid() && Valid(mem)
      ensures strValue.None? ==> s == ""
      ensures strValue.Some? ==> s == mem.contents[strValue.value]
      ensures s == TextOf(Value(mem.contents))
    {
      if strValue.Some? then mem.contents[strValue.value] else ""
    }

    /**
     * `Scratch_InitStringVariable`: stores the pointer as it is, without a
     * copy, together with the caller's flag. Without the flag the variable
     * takes over a live heap buffer; with it, it borrows a literal. Text the
     * variable held before is forgotten, not released.
     */
    method InitString(mem: Memory, str: BufferId, isConst: bool)
      requires if isConst then str in mem.literals else str in mem.live
      modifies this
      ensures Valid(mem) && numberValue == 0.0
      ensures strValue == Some(str) && isConstStrValue == isConst
      ensures Owned() == if isConst then {} else {str}
    {
      numberValue := 0.0;
      strValue := Some(str);
      isConstStrValue := isConst;
    }

    /**
     * `Scratch_AssignStringVariable`: the number becomes 0, owned text is
     * released, and the variable then owns a fresh `malloc`ed copy of `str`.
     * The copy is taken after the release, so `str` must not be the buffer released.
     */
    method AssignString(mem: Memory, str: BufferId)
      requires mem.Valid() && Valid(mem) && mem.Readable(str)
      requires strValue == Some(str) ==> isConstStrValue
      modifies this, mem
      ensures mem.Valid() && Valid(mem)
      ensures numberValue == 0.0 && strValue.Some? && !isConstStrValue
      ensures strValue.value == |old(mem.contents)|
      ensures ReadString(mem) == old(mem.contents[str])
      ensures mem.contents == old(mem.contents) + [old(mem.contents[str])]
      ensures mem.literals == old(mem.literals)
      ensures mem.live == old(mem.live) - old(Owned()) + {strValue.value}
      ensures mem.released == old(mem.released) + old(Owned())
    {
      numberValue := 0.0;
      if strValue.Some? {
        if !isConstStrValue {
          mem.Release(strValue.value);
        }
        strValue := None;
      }
      var copy := mem.Allocate(mem.contents[str]);
      strValue := Some(copy);
      isConstStrValue := false;
    }

    /**
     * `Scratch_AssignVariable`: copies the text of `rhv` when it has any, and
     * its number otherwise.
     */
    method AssignVariable(mem: Memory, rhv: ScratchVariable)
      requires mem.Valid() && Valid(mem) && rhv.Valid(mem)
      requires rhv.strValue.Some? ==> !(strValue == rhv.strValue && !isConstStrValue)
      modifies this, mem
      ensures mem.Valid() && Valid(mem)
      ensures old(rhv.strValue).Some? ==>
        && numberValue == 0.0 && strValue.Some? && !isConstStrValue
        && strValue.value == |old(mem.contents)|
        && ReadString(mem) == old(rhv.ReadString(mem))
        && mem.contents == old(mem.contents) + [old(rhv.ReadString(mem))]
        && mem.live == old(mem.live) - old(Owned()) + {strValue.value}
      ensures old(rhv.strValue).None? ==>
        && numberValue == old(rhv.numberValue) && strValue == None
        && isConstStrValue == old(isConstStrValue)
        && mem.contents == old(mem.contents)
        && mem.live == old(mem.live) - old(Owned())
      ensures mem.released == old(mem.released) + old(Owned())
      ensures mem.literals == old(mem.literals)
      ensures mem.Extends()
    {
      if rhv.strValue.Some? {
        AssignString(mem, rhv.strValue.value);
      } else {
        AssignNumber(mem, rhv.numberValue);
      }
    }

    /**
     * `Scratch_FreeVariable`: releases owned text and leaves number 0 and no
     * text; the borrowed flag keeps its value.
     */
    method Free(mem: Memory)
      requires mem.Valid() && Valid(mem)
      modifies this, mem
      ensures mem.Valid() && Valid(mem)
      ensures numberValue == 0.0 && strValue == None
      ensures isConstStrValue == old(isConstStrValue)
      ensures mem.ReleasedAll(old(Owned()))
    {
      numberValue := 0.0;
      if strValue.Some? {
        if !isConstStrValue {
          mem.Release(strValue.value);
        }
        strValue := None;
      }
    }
  }

  /**
   * `Scratch_JoinStringVariables`: the concatenation is built in a new heap
   * buffer that the result then owns, so the result owns exactly that buffer.
   */
  method JoinStringVariables(mem: Memory, a: ScratchVariable, b: ScratchVariable)
    returns (result: ScratchVariable)
    requires mem.Valid() && a.Valid(mem) && b.Valid(mem)
    modifies mem
    ensures mem.Valid() && fresh(result) && result.Valid(mem)
    ensures result.numberValue == 0.0 && result.strValue.Some? && !result.isConstStrValue
    ensures result.ReadString(mem) == old(a.ReadString(mem)) + old(b.ReadString(mem))
    ensures result.Owned() == {result.strValue.value}
    ensures result.strValue.value == |old(mem.contents)|
    ensures mem.live == old(mem.live) + result.Owned()
    ensures mem.literals == old(mem.literals) && mem.released == old(mem.released)
    ensures mem.Extends()
  {
    var s1 := a.ReadString(mem);
    var s2 := b.ReadString(mem);
    var newString := mem.Allocate(s1 + s2);
    result := new ScratchVariable();
    result.InitString(mem, newString, false);
  }

  // ----- Expressions of the inplace-block helpers -----

  /** The three arithmetic helpers `operator_add`, `operator_multiply` and `operator_divide`. */
  datatype ArithOp = Add | Multiply | Divide

  /** Floating-point arithmetic and `sqrt`, which the model keeps abstract. */
  datatype Numerics = Numerics(arith: (ArithOp, Number, Number) -> Number, sqrt: Number -> Number)

  /**
   * The tree of helper functions one generated helper calls: each helper's
   * arguments name other helpers, a literal or a global variable.
   */
  datatype Expr =
    | NumberLiteral(n: Number)                         // read_value_number
    | StringLiteral(literal: BufferId)                 // read_value_string
    | Variable(source: ScratchVariable)                // read_variable
    | Arithmetic(op: ArithOp, left: Expr, right: Expr) // operator_add, operator_multiply, operator_divide
    | Join(left: Expr, right: Expr)                    // operator_join
    | Sqrt(operand: Expr)                              // sqrt

  /** The number of helpers in an expression, which bounds the depth of helper calls. */
  function Size(e: Expr): nat
  {
    match e
    case NumberLiteral(_) => 1
    case StringLiteral(_) => 1
    case Variable(_) => 1
    case Arithmetic(_, l, r) => Size(l) + Size(r) + 1
    case Join(l, r) => Size(l) + Size(r) + 1
    case Sqrt(x) => Size(x) + 1
  }

  /** The global variables an expression reads. */
  ghost function VariablesOf(e: Expr): set<ScratchVariable>
  {
    match e
    case NumberLiteral(_) => {}
    case StringLiteral(_) => {}
    case Variable(v) => {v}
    case Arithmetic(_, l, r) => VariablesOf(l) + VariablesOf(r)
    case Join(l, r) => VariablesOf(l) + VariablesOf(r)
    case Sqrt(x) => VariablesOf(x)
  }

  /**
   * An expression that can be evaluated: its string literals are literals and
   * the variables it reads keep the ownership invariant.
   */
  ghost predicate Defined(e: Expr, literals: set<BufferId>, live: set<BufferId>)
    reads VariablesOf(e)
  {
    match e
    case NumberLiteral(_) => true
    case StringLiteral(p) => p in literals
    case Variable(v) => v.Within(literals, live)
    case Arithmetic(_, l, r) => Defined(l, literals, live) && Defined(r, literals, live)
    case Join(l, r) => Defined(l, literals, live) && Defined(r, literals, live)
    case Sqrt(x) => Defined(x, literals, live)
  }

  /** Every buffer an expression reads has contents in `contents`. */
  ghost predicate Resolved(e: Expr, contents: seq<string>)
    reads VariablesOf(e)
  {
    match e
    case NumberLiteral(_) => true
    case StringLiteral(p) => p < |contents|
    case Variable(v) => v.strValue.Some? ==> v.strValue.value < |contents|
    case Arithmetic(_, l, r) => Resolved(l, contents) && Resolved(r, contents)
    case Join(l, r) => Resolved(l, contents) && Resolved(r, contents)
    case Sqrt(x) => Resolved(x, contents)
  }

  /**
   * The value a helper returns, independently of how temporaries are managed:
   * #  a literal string is read as number 0 with that text;
   * #  reading a variable copies its text when it has one, and its number otherwise;
   * #  arithmetic and `sqrt` read their operands' numbers and yield no text;
   * #  a join yields number 0 and the operands' texts, `""` for a number.
   */
  ghost function Denote(e: Expr, contents: seq<string>, num: Numerics): (r: Val)
    reads VariablesOf(e)
    requires Resolved(e, contents)
    ensures e.NumberLiteral? || e.Arithmetic? || e.Sqrt? ==> r.text.None?
    ensures e.StringLiteral? || e.Join? ==> r.number == 0.0 && r.text.Some?
    ensures e.Variable? ==> (r.text.Some? <==> e.source.strValue.Some?)
  {
    match e
    case NumberLiteral(n) => Val(n, None)
    case StringLiteral(p) => Val(0.0, Some(contents[p]))
    case Variable(v) =>
      if v.strValue.Some? then Val(0.0, Some(contents[v.strValue.value])) else Val(v.numberValue, None)
    case Arithmetic(op, l, r) =>
      Val(num.arith(op, Denote(l, contents, num).number, Denote(r, contents, num).number), None)
    case Join(l, r) =>
      Val(0.0, Some(TextOf(Denote(l, contents, num)) + TextOf(Denote(r, contents, num))))
    case Sqrt(x) => Val(num.sqrt(Denote(x, contents, num).number), None)
  }

  /** An expression stays defined while the literals stay and live buffers are only added. */
  lemma {:induction false} DefinedMonotone(e: Expr, literals: set<BufferId>, live: set<BufferId>, live': set<BufferId>)
    requires Defined(e, literals, live) && live <= live'
    ensures Defined(e, literals, live')
  {
    match e
    case NumberLiteral(_) =>
    case StringLiteral(_) =>
    case Variable(_) =>
    case Arithmetic(_, l, r) =>
      DefinedMonotone(l, literals, live, live');
      DefinedMonotone(r, literals, live, live');
    case Join(l, r) =>
      DefinedMonotone(l, literals, live, live');
      DefinedMonotone(r, literals, live, live');
    case Sqrt(x) =>
      DefinedMonotone(x, literals, live, live');
  }

  /** A defined expression reads only buffers that have contents. */
  lemma {:induction false} DefinedResolved(e: Expr, literals: set<BufferId>, live: set<BufferId>, contents: seq<string>)
    requires Defined(e, literals, live) && CreatedBefore(literals + live, |contents|)
    ensures Resolved(e, contents)
  {
    match e
    case NumberLiteral(_) =>
    case StringLiteral(_) =>
    case Variable(_) =>
    case Arithmetic(_, l, r) =>
      DefinedResolved(l, literals, live, contents);
      DefinedResolved(r, literals, live, contents);
    case Join(l, r) =>
      DefinedResolved(l, literals, live, contents);
      DefinedResolved(r, literals, live, contents);
    case Sqrt(x) =>
      DefinedResolved(x, literals, live, contents);
  }

  /**
   * New allocations do not change what an expression denotes: buffers that
   * existed keep their contents.
   */
  lemma {:induction false} DenoteStable(e: Expr, c: seq<string>, c': seq<string>, num: Numerics)
    requires Resolved(e, c) && c <= c'
    ensures Resolved(e, c') && Denote(e, c', num) == Denote(e, c, num)
  {
    match e
    case NumberLiteral(_) =>
    case StringLiteral(_) =>
    case Variable(_) =>
    case Arithmetic(_, l, r) =>
      DenoteStable(l, c, c', num);
      DenoteStable(r, c, c', num);
    case Join(l, r) =>
      DenoteStable(l, c, c', num);
      DenoteStable(r, c, c', num);
    case Sqrt(x) =>
      DenoteStable(x, c, c', num);
  }

  /**
   * What every value-returning helper guarantees: a fresh temporary holding
   * the expression's value, owning nothing but buffers created for it, with
   * every other temporary released again.
   */
  twostate predicate Produced(mem: Memory, e: Expr, num: Numerics, new result: ScratchVariable)
    reads mem, result, VariablesOf(e)
  {
    && mem.Valid() && fresh(result) && result.Valid(mem)
    && CreatedFrom(result.Owned(), old(|mem.contents|))
    && mem.live == old(mem.live) + result.Owned()
    && mem.literals == old(mem.literals)
    && mem.Extends()
    && old(Resolved(e, mem.contents))
    && result.Value(mem.contents) == old(Denote(e, mem.contents, num))
  }

  /** read_value_number: `Scratch_InitNumberVariable` on a fresh temporary. */
  method ReadValueNumber(mem: Memory, num: Numerics, n: Number) returns (result: ScratchVariable)
    requires mem.Valid()
    ensures Produced(mem, NumberLiteral(n), num, result)
  {
    result := new ScratchVariable();
    result.InitNumber(n);
  }

  /** read_value_string: the temporary borrows the literal, so nothing is allocated. */
  method ReadValueString(mem: Memory, num: Numerics, literal: BufferId) returns (result: ScratchVariable)
    requires mem.Valid() && literal in mem.literals
    ensures Produced(mem, StringLiteral(literal), num, result)
    ensures result.isConstStrValue && result.strValue == Some(literal)
  {
    result := new ScratchVariable();
    result.InitString(mem, literal, true);
  }

  /** read_variable: a fresh temporary assigned from the global variable. */
  method ReadVariable(mem: Memory, num: Numerics, source: ScratchVariable) returns (result: ScratchVariable)
    requires mem.Valid() && source.Valid(mem)
    modifies mem
    ensures Produced(mem, Variable(source), num, result)
  {
    result := new ScratchVariable();
    result.InitVariable();
    result.AssignVariable(mem, source);
  }

  /**
   * The first half of every binary helper: the two argument helpers are
   * called one after the other, each into a fresh temporary.
   */
  method EvaluateOperands(mem: Memory, ghost globals: set<ScratchVariable>, num: Numerics, left: Expr, right: Expr)
    returns (num1: ScratchVariable, num2: ScratchVariable)
    requires mem.Valid() && Defined(left, mem.literals, mem.live) && Defined(right, mem.literals, mem.live)
    requires VariablesOf(left) <= globals && VariablesOf(right) <= globals
    modifies mem
    ensures mem.Valid() && fresh(num1) && fresh(num2) && num1 != num2
    ensures num1.Valid(mem) && num2.Valid(mem)
    ensures CreatedFrom(num1.Owned(), old(|mem.contents|)) && CreatedFrom(num2.Owned(), old(|mem.contents|))
    ensures num1.Owned() !! num2.Owned()
    ensures mem.live == old(mem.live) + num1.Owned() + num2.Owned()
    ensures mem.literals == old(mem.literals) && mem.Extends()
    ensures old(Resolved(left, mem.contents)) && old(Resolved(right, mem.contents))
    ensures num1.Value(mem.contents) == old(Denote(left, mem.contents, num))
    ensures num2.Value(mem.contents) == old(Denote(right, mem.contents, num))
    decreases Size(left) + Size(right), 3
  {
    num1 := Evaluate(mem, globals, num, left);
    DefinedMonotone(right, mem.literals, old(mem.live), mem.live);
    DefinedResolved(right, old(mem.literals), old(mem.live), old(mem.contents));
    DenoteStable(right, old(mem.contents), mem.contents, num);
    num2 := Evaluate(mem, globals, num, right);
  }

  /**
   * The buffer bookkeeping of a binary helper: two temporaries own buffers
   * created after the call began, the result owns buffers created after
   * them, and once both temporaries are released only the result's remain.
   */
  lemma TemporariesReleased(live0: set<BufferId>, n0: nat, o1: set<BufferId>, o2: set<BufferId>,
                            n1: nat, owned: set<BufferId>)
    requires CreatedBefore(live0, n0) && CreatedFrom(o1, n0) && CreatedFrom(o2, n0) && o1 !! o2
    requires n0 <= n1 && CreatedBefore(o1 + o2, n1) && CreatedFrom(owned, n1)
    ensures CreatedFrom(owned, n0)
    ensures live0 + o1 + o2 + owned - o1 - o2 == live0 + owned
  {
  }

  /**
   * operator_add, operator_multiply and operator_divide: both operands are
   * evaluated into temporaries, the number is computed, and then both
   * temporaries are freed, each once.
   */
  method OperatorArithmetic(mem: Memory, ghost globals: set<ScratchVariable>, num: Numerics, op: ArithOp, left: Expr, right: Expr)
    returns (result: ScratchVariable)
    requires mem.Valid() && Defined(Arithmetic(op, left, right), mem.literals, mem.live)
    requires VariablesOf(Arithmetic(op, left, right)) <= globals
    modifies mem
    ensures Produced(mem, Arithmetic(op, left, right), num, result)
    decreases Size(Arithmetic(op, left, right)), 1
  {
    var num1, num2 := EvaluateOperands(mem, globals, num, left, right);
    ghost var o1, o2, n1 := num1.Owned(), num2.Owned(), |mem.contents|;
    result := ArithmeticOfOperands(mem, num, op, num1, num2);
    TemporariesReleased(old(mem.live), old(|mem.contents|), o1, o2, n1, result.Owned());
  }

  /** The rest of an arithmetic helper once its operands are evaluated. */
  method ArithmeticOfOperands(mem: Memory, num: Numerics, op: ArithOp, num1: ScratchVariable, num2: ScratchVariable)
    returns (result: ScratchVariable)
    requires mem.Valid() && num1.Valid(mem) && num2.Valid(mem) && num1 != num2
    requires num1.Owned() !! num2.Owned()
    modifies mem, num1, num2
    ensures mem.Valid() && fresh(result) && result.Valid(mem) && result.Owned() == {}
    ensures mem.live == old(mem.live) - old(num1.Owned()) - old(num2.Owned())
    ensures mem.literals == old(mem.literals) && mem.contents == old(mem.contents)
    ensures result.Value(mem.contents) == Val(num.arith(op, old(num1.numberValue), old(num2.numberValue)), None)
  {
    result := new ScratchVariable();
    result.InitNumber(num.arith(op, num1.ReadNumber(), num2.ReadNumber()));
    num1.Free(mem);
    num2.Free(mem);
  }

  /**
   * operator_join: both operands are evaluated into temporaries, joined into
   * a new owned buffer, and then both temporaries are freed, each once.
   */
  method OperatorJoin(mem: Memory, ghost globals: set<ScratchVariable>, num: Numerics, left: Expr, right: Expr)
    returns (result: ScratchVariable)
    requires mem.Valid() && Defined(Join(left, right), mem.literals, mem.live)
    requires VariablesOf(Join(left, right)) <= globals
    modifies mem
    ensures Produced(mem, Join(left, right), num, result)
    decreases Size(Join(left, right)), 1
  {
    var num1, num2 := EvaluateOperands(mem, globals, num, left, right);
    ghost var o1, o2, n1 := num1.Owned(), num2.Owned(), |mem.contents|;
    result := JoinOfOperands(mem, num1, num2);
    TemporariesReleased(old(mem.live), old(|mem.contents|), o1, o2, n1, result.Owned());
  }

  /** The rest of the join helper once its operands are evaluated. */
  method JoinOfOperands(mem: Memory, num1: ScratchVariable, num2: ScratchVariable)
    returns (result: ScratchVariable)
    requires mem.Valid() && num1.Valid(mem) && num2.Valid(mem) && num1 != num2
    requires num1.Owned() !! num2.Owned()
    modifies mem, num1, num2
    ensures mem.Valid() && fresh(result) && result.Valid(mem)
    ensures result.Owned() == {|old(mem.contents)|}
    ensures mem.live == old(mem.live) + result.Owned() - old(num1.Owned()) - old(num2.Owned())
    ensures mem.literals == old(mem.literals) && mem.Extends()
    ensures result.Value(mem.contents) == Val(0.0, Some(old(num1.ReadString(mem)) + old(num2.ReadString(mem))))
  {
    result := JoinStringVariables(mem, num1, num2);
    num1.Free(mem);
    num2.Free(mem);
  }

  /** sqrt: the operand is evaluated into a temporary, which is freed afterwards. */
  method SquareRoot(mem: Memory, ghost globals: set<ScratchVariable>, num: Numerics, operand: Expr) returns (result: ScratchVariable)
    requires mem.Valid() && Defined(Sqrt(operand), mem.literals, mem.live)
    requires VariablesOf(Sqrt(operand)) <= globals
    modifies mem
    ensures Produced(mem, Sqrt(operand), num, result)
    decreases Size(Sqrt(operand)), 1
  {
    var n := Evaluate(mem, globals, num, operand);
    result := new ScratchVariable();
    result.InitNumber(num.sqrt(n.ReadNumber()));
    n.Free(mem);
  }

  /**
   * The call of a helper named by another helper's argument. The ghost set
   * `globals` holds the program's variables: naming it lets the proof see
   * that every variable an expression reads was allocated before the call,
   * so no temporary a helper creates is one of them.
   */
  method Evaluate(mem: Memory, ghost globals: set<ScratchVariable>, num: Numerics, e: Expr) returns (result: ScratchVariable)
    requires mem.Valid() && Defined(e, mem.literals, mem.live) && VariablesOf(e) <= globals
    modifies mem
    ensures Produced(mem, e, num, result)
    decreases Size(e), 2
  {
    match e
    case NumberLiteral(n) => result := ReadValueNumber(mem, num, n);
    case StringLiteral(p) => result := ReadValueString(mem, num, p);
    case Variable(v) => result := ReadVariable(mem, num, v);
    case Arithmetic(op, l, r) => result := OperatorArithmetic(mem, globals, num, op, l, r);
    case Join(l, r) => result := OperatorJoin(mem, globals, num, l, r);
    case Sqrt(x) => result := SquareRoot(mem, globals, num, x);
  }

  /**
   * set_variable: the expression is evaluated into a temporary, copied into
   * the target, and the temporary is freed. The target ends up with the
   * expression's value and owns at most one new buffer; nothing else stays
   * allocated.
   */
  method SetVariable(mem: Memory, ghost globals: set<ScratchVariable>, num: Numerics, e: Expr, target: ScratchVariable)
    requires mem.Valid() && target.Valid(mem) && Defined(e, mem.literals, mem.live) && VariablesOf(e) <= globals
    modifies mem, target
    ensures mem.Valid() && target.Valid(mem)
    ensures old(Resolved(e, mem.contents))
    ensures old(Denote(e, mem.contents, num)).text.Some? ==>
      && target.numberValue == 0.0 && target.strValue.Some? && !target.isConstStrValue
      && target.strValue.value >= old(|mem.contents|)
      && target.ReadString(mem) == old(Denote(e, mem.contents, num)).text.value
    ensures old(Denote(e, mem.contents, num)).text.None? ==>
      target.numberValue == old(Denote(e, mem.contents, num)).number && target.strValue == None
    ensures mem.live == old(mem.live) - old(target.Owned()) + target.Owned()
    ensures mem.literals == old(mem.literals)
  {
    DefinedResolved(e, mem.literals, mem.live, mem.contents);
    var n := Evaluate(mem, globals, num, e);
    target.AssignVariable(mem, n);
    n.Free(mem);
  }

  // ----- Scratch_Init and Scratch_FindVariable -----

  /** `enum ScratchOpCode`. */
  datatype OpCode = WhenFlagClicked | InPlace | ControlForever | ControlIf | ControlWait

  /** The enumerator a generated `op_code = …;` line names, if it is one. */
  function OpCodeNamed(name: string): (r: Option<OpCode>)
    ensures r == Some(InPlace) <==> name == Transpiler.kOpcodeRunInplace
  {
    if name == "kScratchWhenFlagClicked" then Some(WhenFlagClicked)
    else if name == "kScratchInPlace" then Some(InPlace)
    else if name == "kScratchControlForever" then Some(ControlForever)
    else if name == "kScratchControlIf" then Some(ControlIf)
    else if name == "kScratchControlWait" then Some(ControlWait)
    else None
  }

  /**
   * A `ScratchBlock` after `Scratch_Init`: `next` and `substack` are indices
   * into the static blocks, or -1 for the null pointer, and
   * `hasInplaceFunction` says whether `inplace_function` is non-null.
   */
  datatype RuntimeBlock = RuntimeBlock(opCode: OpCode, next: int, substack: int, hasInplaceFunction: bool)

  /** The first static block named `name`, or -1: the target of `&name`. */
  function IndexOfName(blocks: seq<Transpiler.GenBlock>, name: string): (k: int)
    ensures -1 <= k < |blocks|
    ensures k >= 0 ==> blocks[k].blockName == name && forall j :: 0 <= j < k ==> blocks[j].blockName != name
    ensures k == -1 ==> forall j :: 0 <= j < |blocks| ==> blocks[j].blockName != name
    decreases |blocks|
  {
    if |blocks| == 0 then -1
    else if blocks[0].blockName == name then 0
    else
      var k := IndexOfName(blocks[1..], name);
      if k == -1 then -1 else k + 1
  }

  /** A link the generated C can take the address of: empty, or the name of a block. */
  ghost predicate Resolvable(blocks: seq<Transpiler.GenBlock>, name: string)
  {
    name == "" || exists j :: 0 <= j < |blocks| && blocks[j].blockName == name
  }

  /** Blocks the template turns into a C program that compiles: known opcodes, resolvable links. */
  ghost predicate Renderable(blocks: seq<Transpiler.GenBlock>)
  {
    forall i :: 0 <= i < |blocks| ==>
      && blocks[i].opCode.Some? && OpCodeNamed(blocks[i].opCode.value).Some?
      && Resolvable(blocks, blocks[i].nextBlockName)
      && Resolvable(blocks, blocks[i].substackBlockName)
  }

  /** `{% if link %}` `&link` `{% else %}` `0`. */
  function Link(blocks: seq<Transpiler.GenBlock>, name: string): (k: int)
    requires Resolvable(blocks, name)
    ensures k == -1 <==> name == ""
    ensures k != -1 ==> 0 <= k < |blocks| && blocks[k].blockName == name
  {
    if name == "" then -1 else IndexOfName(blocks, name)
  }

  /** The four assignments `Scratch_Init` makes to block `i`. */
  function Wire(blocks: seq<Transpiler.GenBlock>, i: nat): RuntimeBlock
    requires Renderable(blocks) && i < |blocks|
  {
    var b := blocks[i];
    RuntimeBlock(OpCodeNamed(b.opCode.value).value, Link(blocks, b.nextBlockName), Link(blocks, b.substackBlockName),
                 b.opCode.value == "kScratchInPlace")
  }

  /**
   * What those assignments mean: a link is null exactly when its name is
   * empty and otherwise points at the block of that name, and only
   * `kScratchInPlace` blocks get an inplace function.
   */
  lemma WireLinks(blocks: seq<Transpiler.GenBlock>, i: nat)
    requires Renderable(blocks) && i < |blocks|
    ensures var r := Wire(blocks, i);
            && (r.next == -1 <==> blocks[i].nextBlockName == "")
            && (r.next != -1 ==> 0 <= r.next < |blocks| && blocks[r.next].blockName == blocks[i].nextBlockName)
            && (r.substack == -1 <==> blocks[i].substackBlockName == "")
            && (r.substack != -1 ==> 0 <= r.substack < |blocks| && blocks[r.substack].blockName == blocks[i].substackBlockName)
            && (r.hasInplaceFunction <==> r.opCode == InPlace)
            && (r.hasInplaceFunction <==> blocks[i].opCode == Some(Transpiler.kOpcodeRunInplace))
  {
  }

  /** The block part of `Scratch_Init`: one group of four assignments per block. */
  method InitBlocks(blocks: seq<Transpiler.GenBlock>, graph: array<RuntimeBlock>)
    requires Renderable(blocks) && graph.Length == |blocks|
    modifies graph
    ensures forall i :: 0 <= i < |blocks| ==> graph[i] == Wire(blocks, i)
  {
    for i := 0 to |blocks|
      invariant forall j :: 0 <= j < i ==> graph[j] == Wire(blocks, j)
    {
      graph[i] := Wire(blocks, i);
    }
  }

  /**
   * The blocks the builder emits, wired by `Scratch_Init`: when every opcode
   * is known, every link points at a later block, and an `Inplace` block
   * never continues into another `Inplace` block.
   */
  lemma BuilderGraphWires(blocks: seq<Transpiler.GenBlock>)
    requires Transpiler.Wellformed(blocks)
    requires forall i :: 0 <= i < |blocks| ==> blocks[i].opCode.Some? && OpCodeNamed(blocks[i].opCode.value).Some?
    ensures Renderable(blocks)
    ensures forall i :: 0 <= i < |blocks| ==>
      && (Wire(blocks, i).next == -1 || i < Wire(blocks, i).next)
      && (Wire(blocks, i).substack == -1 || i < Wire(blocks, i).substack)
    ensures forall i :: 0 <= i < |blocks| && Wire(blocks, i).opCode == InPlace && Wire(blocks, i).next != -1 ==>
      Wire(blocks, Wire(blocks, i).next).opCode != InPlace
  {
    BuilderRenderable(blocks);
    forall i | 0 <= i < |blocks|
      ensures Wire(blocks, i).next == -1 || i < Wire(blocks, i).next
      ensures Wire(blocks, i).substack == -1 || i < Wire(blocks, i).substack
    {
      LinkForward(blocks, i, blocks[i].nextBlockName);
      LinkForward(blocks, i, blocks[i].substackBlockName);
    }
    forall i | 0 <= i < |blocks| && Wire(blocks, i).opCode == InPlace && Wire(blocks, i).next != -1
      ensures Wire(blocks, Wire(blocks, i).next).opCode != InPlace
    {
      WireLinks(blocks, i);
      WireLinks(blocks, Wire(blocks, i).next);
    }
  }

  /** The builder's output with known opcodes is a compilable program: every link names a block. */
  lemma BuilderRenderable(blocks: seq<Transpiler.GenBlock>)
    requires Transpiler.Wellformed(blocks)
    requires forall i :: 0 <= i < |blocks| ==> blocks[i].opCode.Some? && OpCodeNamed(blocks[i].opCode.value).Some?
    ensures Renderable(blocks)
  {
    forall i | 0 <= i < |blocks|
      ensures Resolvable(blocks, blocks[i].nextBlockName) && Resolvable(blocks, blocks[i].substackBlockName)
    {
      assert Transpiler.Linked(blocks, i, blocks[i].nextBlockName);
      assert Transpiler.Linked(blocks, i, blocks[i].substackBlockName);
    }
  }

  /** A link of a block the builder emitted resolves to a later block. */
  lemma LinkForward(blocks: seq<Transpiler.GenBlock>, i: nat, name: string)
    requires Transpiler.Wellformed(blocks) && i < |blocks| && Transpiler.Linked(blocks, i, name)
    ensures Resolvable(blocks, name)
    ensures Link(blocks, name) == -1 || i < Link(blocks, name)
  {
    if name != "" {
      var j :| i < j < |blocks| && blocks[j].blockName == name;
      Transpiler.NamesUnique(blocks, j, Link(blocks, name));
    }
  }

  /** The value a collected variable starts with: its number, or its text with number 0. */
  function InitialValue(v: Transpiler.Variable): Val
  {
    match v.value
    case NumberValue(n) => Val(n, None)
    case TextValue(s) => Val(0.0, Some(s))
  }

  /**
   * The variable part of `Scratch_Init`: each global is initialised, then
   * assigned its value; a text value is copied from its string literal into
   * a buffer the variable owns. Nothing is released.
   */
  method InitVariables(mem: Memory, globals: seq<ScratchVariable>, initial: seq<Transpiler.Variable>, literals: seq<BufferId>)
    requires mem.Valid() && |globals| == |initial| && |literals| == |initial|
    requires forall i, j :: 0 <= i < j < |globals| ==> globals[i] != globals[j]
    requires forall i :: 0 <= i < |initial| && initial[i].value.TextValue? ==>
      literals[i] in mem.literals && mem.contents[literals[i]] == initial[i].value.s
    modifies mem, set i | 0 <= i < |globals| :: globals[i]
    ensures mem.Valid() && mem.Extends()
    ensures mem.literals == old(mem.literals) && mem.released == old(mem.released) && old(mem.live) <= mem.live
    ensures forall i :: 0 <= i < |globals| ==>
      && globals[i].Valid(mem) && CreatedFrom(globals[i].Owned(), old(|mem.contents|))
      && CreatedBefore(globals[i].Owned(), |mem.contents|)
      && globals[i].Value(mem.contents) == InitialValue(initial[i])
    ensures forall i, j :: 0 <= i < j < |globals| ==> globals[i].Owned() !! globals[j].Owned()
  {
    for i := 0 to |globals|
      invariant mem.Valid() && old(mem.contents) <= mem.contents
      invariant mem.literals == old(mem.literals) && mem.released == old(mem.released) && old(mem.live) <= mem.live
      invariant forall j :: 0 <= j < i ==>
        && globals[j].Valid(mem) && CreatedFrom(globals[j].Owned(), old(|mem.contents|))
        && CreatedBefore(globals[j].Owned(), |mem.contents|)
        && globals[j].Value(mem.contents) == InitialValue(initial[j])
      invariant forall j, k :: 0 <= j < k < i ==> globals[j].Owned() !! globals[k].Owned()
    {
      InitGlobal(mem, globals[i], initial[i], literals[i]);
    }
  }

  /** The two lines `Scratch_Init` emits for one global. */
  method InitGlobal(mem: Memory, g: ScratchVariable, init: Transpiler.Variable, literal: BufferId)
    requires mem.Valid()
    requires init.value.TextValue? ==> literal in mem.literals && mem.contents[literal] == init.value.s
    modifies mem, g
    ensures mem.Valid() && old(mem.contents) <= mem.contents
    ensures mem.literals == old(mem.literals) && mem.released == old(mem.released)
    ensures mem.live == old(mem.live) + g.Owned()
    ensures g.Valid(mem) && CreatedFrom(g.Owned(), old(|mem.contents|)) && CreatedBefore(g.Owned(), |mem.contents|)
    ensures g.Value(mem.contents) == InitialValue(init)
  {
    g.InitVariable();
    if init.value.TextValue? {
      g.AssignString(mem, literal);
    } else {
      g.AssignNumber(mem, init.value.n);
    }
  }

  /**
   * `Scratch_FindVariable` over its table of `(sprite, variable)` names: the
   * first entry whose two names both match, or -1 for the null pointer.
   */
  function FindVariable(table: seq<(string, string)>, spriteName: string, variableName: string): (k: int)
    ensures -1 <= k < |table|
    ensures k >= 0 ==> table[k] == (spriteName, variableName)
    ensures k >= 0 ==> forall j :: 0 <= j < k ==> table[j] != (spriteName, variableName)
    ensures k == -1 <==> forall j :: 0 <= j < |table| ==> table[j] != (spriteName, variableName)
    decreases |table|
  {
    if |table| == 0 then -1
    else if table[0].0 == spriteName && table[0].1 == variableName then 0
    else
      var k := FindVariable(table[1..], spriteName, variableName);
      if k == -1 then -1 else k + 1
  }
}
