/**
 * What individual instructions of the interpreter do, stated against the
 * operand stack and locals they start from, and compared with section 6.5 of
 * The Java Virtual Machine Specification where the interpreter departs from
 * it.
 */
module InstructionFacts {
  import opened Wrappers
  import opened Bytes
  import opened StackValues
  import opened Bytecodes
  import opened Oops
  import opened Frames
  import opened Semantics

  /** The machine is about to execute op. */
  predicate At(ctx: Context, m: Machine, op: Op)
  {
    0 <= m.pc < |ctx.codes| && ctx.codes[m.pc] == Code(op)
  }

  /** The signed 16-bit branch offset that follows the opcode at pc. */
  function Offset(ctx: Context, pc: int): int
    requires 0 <= pc && pc + 2 < |ctx.codes|
  {
    Int16(ctx.codes[pc + 1] as int * 256 + ctx.codes[pc + 2] as int)
  }

  function IntSlot(i: int): Slot
    requires IsInt32(i)
  {
    Some(OfInt(T_INT, i))
  }

  function LongSlot(l: int): Slot
    requires IsInt64(l)
  {
    Some(OfLong(T_LONG, l))
  }

  /** A byte that decodes to op runs op's case of the switch. */
  lemma StepDecodes(ctx: Context, m: Machine, op: Op)
    requires MachineWellFormed(m) && At(ctx, m, op)
    ensures Step(ctx, m) == Instruction(ctx, m, op)
  {
    DecodeCode(op);
  }

  /* One lemma per opcode family: a step at an opcode of the family is that family's case. */

  lemma ConstantStep(ctx: Context, m: Machine, x: ConstantOp)
    requires MachineWellFormed(m) && At(ctx, m, Constant(x))
    ensures Step(ctx, m) == StepConstant(ctx, m.(pc := m.pc + 1), x)
  {
    StepDecodes(ctx, m, Constant(x));
  }

  lemma LoadStep(ctx: Context, m: Machine, x: LoadOp)
    requires MachineWellFormed(m) && At(ctx, m, Load(x))
    ensures Step(ctx, m) == StepLoad(ctx, m.(pc := m.pc + 1), x)
  {
    StepDecodes(ctx, m, Load(x));
  }

  lemma StoreStep(ctx: Context, m: Machine, x: StoreOp)
    requires MachineWellFormed(m) && At(ctx, m, Store(x))
    ensures Step(ctx, m) == StepStore(ctx, m.(pc := m.pc + 1), x)
  {
    StepDecodes(ctx, m, Store(x));
  }

  lemma StackStep(ctx: Context, m: Machine, x: StackOp)
    requires MachineWellFormed(m) && At(ctx, m, Stack(x))
    ensures Step(ctx, m) == StepStack(m.(pc := m.pc + 1), x)
  {
    StepDecodes(ctx, m, Stack(x));
  }

  lemma MathStep(ctx: Context, m: Machine, x: MathOp)
    requires MachineWellFormed(m) && At(ctx, m, Math(x))
    ensures Step(ctx, m) == StepMath(ctx, m.(pc := m.pc + 1), x)
  {
    StepDecodes(ctx, m, Math(x));
  }

  lemma ConversionStep(ctx: Context, m: Machine, x: ConversionOp)
    requires MachineWellFormed(m) && At(ctx, m, Conversion(x))
    ensures Step(ctx, m) == StepConversion(ctx, m.(pc := m.pc + 1), x)
  {
    StepDecodes(ctx, m, Conversion(x));
    assert Instruction(ctx, m, Conversion(x)) == StepConversion(ctx, m.(pc := m.pc + 1), x);
  }

  lemma ComparisonStep(ctx: Context, m: Machine, x: ComparisonOp)
    requires MachineWellFormed(m) && At(ctx, m, Comparison(x))
    ensures Step(ctx, m) == StepComparison(ctx, m.(pc := m.pc + 1), m.pc, x)
  {
    StepDecodes(ctx, m, Comparison(x));
  }

  lemma ControlStep(ctx: Context, m: Machine, x: ControlOp)
    requires MachineWellFormed(m) && At(ctx, m, Control(x))
    ensures Step(ctx, m) == StepControl(ctx, m.(pc := m.pc + 1), m.pc, x)
  {
    StepDecodes(ctx, m, Control(x));
  }

  lemma ReferenceStep(ctx: Context, m: Machine, x: ReferenceOp)
    requires MachineWellFormed(m) && At(ctx, m, Reference(x))
    ensures Step(ctx, m) == StepReference(ctx, m.(pc := m.pc + 1), x)
  {
    StepDecodes(ctx, m, Reference(x));
  }

  lemma ExtendedStep(ctx: Context, m: Machine, x: ExtendedOp)
    requires MachineWellFormed(m) && At(ctx, m, Extended(x))
    ensures Step(ctx, m) == StepExtended(ctx, m.(pc := m.pc + 1), m.pc, x)
  {
    StepDecodes(ctx, m, Extended(x));
  }

  /* ----------------------------------------------------------------- */
  /* Arithmetic                                                        */
  /* ----------------------------------------------------------------- */

  predicate IsIntArith(op: MathOp)
  {
    op in {IADD, ISUB, IMUL, IDIV, IREM}
  }

  predicate IsLongArith(op: MathOp)
  {
    op in {LADD, LSUB, LMUL, LDIV, LREM}
  }

  /**
   * IADD ... IREM on two ints compute second op top (the deeper operand on
   * the left), wrapped to 32 bits; a zero divisor throws ArithmeticException.
   */
  lemma IntArithmetic(ctx: Context, m: Machine, op: MathOp, rest: seq<Slot>, second: int, top: int)
    requires IsIntArith(op) && IsInt32(second) && IsInt32(top)
    requires m.stack == rest + [IntSlot(second), IntSlot(top)] && MachineWellFormed(m) && At(ctx, m, Math(op))
    ensures ArithOf(op) in {Div, Rem} && top == 0 ==> Step(ctx, m) == Err(Arithmetic)
    ensures !(ArithOf(op) in {Div, Rem} && top == 0) ==>
      exists v :: (IsInt32(v) && (v - Exact(ArithOf(op), second, top)) % TWO_32 == 0
        && Step(ctx, m) == Ok((m.(pc := m.pc + 1, stack := rest + [IntSlot(v)]), Next)))
  {
    IntStep(ctx, m, op);
    var next := m.(pc := m.pc + 1);
    PopTwoOn(next, T_INT, rest, OfInt(T_INT, second), OfInt(T_INT, top));
    var r := IntArith(ArithOf(op), top, second);
    if r.Ok? {
      assert IsInt32(r.value) && (r.value - Exact(ArithOf(op), second, top)) % TWO_32 == 0;
    }
  }

  /** LADD ... LREM: the same on longs, wrapped to 64 bits. */
  lemma LongArithmetic(ctx: Context, m: Machine, op: MathOp, rest: seq<Slot>, second: int, top: int)
    requires IsLongArith(op) && IsInt64(second) && IsInt64(top)
    requires m.stack == rest + [LongSlot(second), LongSlot(top)] && MachineWellFormed(m) && At(ctx, m, Math(op))
    ensures ArithOf(op) in {Div, Rem} && top == 0 ==> Step(ctx, m) == Err(Arithmetic)
    ensures !(ArithOf(op) in {Div, Rem} && top == 0) ==>
      exists v :: (IsInt64(v) && (v - Exact(ArithOf(op), second, top)) % TWO_64 == 0
        && Step(ctx, m) == Ok((m.(pc := m.pc + 1, stack := rest + [LongSlot(v)]), Next)))
  {
    LongStep(ctx, m, op);
    LongBinaryOn(m.(pc := m.pc + 1), op, rest, second, top);
    var r := LongArith(ArithOf(op), top, second);
    if r.Ok? {
      assert Step(ctx, m) == Ok((m.(pc := m.pc + 1, stack := rest + [LongSlot(r.value)]), Next));
    }
  }

  /** LongBinary on two longs pushes LongArith's result in their place. */
  lemma LongBinaryOn(m: Machine, op: MathOp, rest: seq<Slot>, second: int, top: int)
    requires IsInt64(second) && IsInt64(top)
    requires m.stack == rest + [LongSlot(second), LongSlot(top)] && MachineWellFormed(m)
    ensures LongArith(ArithOf(op), top, second).Err? ==> LongBinary(m, op) == Err(Arithmetic)
    ensures LongArith(ArithOf(op), top, second).Ok? ==>
      LongBinary(m, op) == Ok((m.(stack := rest + [LongSlot(LongArith(ArithOf(op), top, second).value)]), Next))
  {
    LongRoundTrip(second);
    LongRoundTrip(top);
    PopTwoOn(m, T_LONG, rest, OfLong(T_LONG, second), OfLong(T_LONG, top));
  }

  /** Two operands of tag t on top of rest pop as the pair (top, deeper), leaving rest. */
  lemma PopTwoOn(m: Machine, t: BasicType, rest: seq<Slot>, deeper: StackValue, top: StackValue)
    requires MachineWellFormed(m) && m.stack == rest + [Some(deeper), Some(top)] && deeper.tag == t && top.tag == t
    ensures PopTwo(m, t) == Ok((top, deeper, m.(stack := rest)))
  {
    assert m.stack[..|m.stack| - 1] == rest + [Some(deeper)];
    assert (rest + [Some(deeper)])[..|rest|] == rest;
    var p1 := Pop(m).value;
    var p2 := Pop(p1.1).value;
    assert p2.1 == m.(stack := rest);
  }

  /** A slot that holds a value carrying tag t. */
  predicate Tagged(slot: Slot, t: BasicType)
  {
    slot.Some? && slot.value.tag == t
  }

  /** Popping two operands of tag t fails on fewer than two slots, and as the type check says on operands of another tag. */
  lemma PopTwoChecks(m: Machine, t: BasicType)
    requires MachineWellFormed(m)
    ensures |m.stack| < 2 ==> PopTwo(m, t) == Err(EmptyStack)
    ensures |m.stack| >= 2 ==>
      var top, deeper := m.stack[|m.stack| - 1], m.stack[|m.stack| - 2];
      !(Tagged(top, t) && Tagged(deeper, t)) ==> PopTwo(m, t) == Err(BothTagged(top, deeper, t).fault)
  {
    if |m.stack| < 2 {
      if m.stack != [] {
        assert Pop(m).value.1.stack == [];
      }
    } else {
      var top, deeper := m.stack[|m.stack| - 1], m.stack[|m.stack| - 2];
      if !(Tagged(top, t) && Tagged(deeper, t)) {
        PopTwoMismatch(m, t);
      }
    }
  }

  lemma PopTwoMismatch(m: Machine, t: BasicType)
    requires MachineWellFormed(m) && |m.stack| >= 2
    requires !(Tagged(m.stack[|m.stack| - 1], t) && Tagged(m.stack[|m.stack| - 2], t))
    ensures PopTwo(m, t) == Err(BothTagged(m.stack[|m.stack| - 1], m.stack[|m.stack| - 2], t).fault)
  {
    var p1 := Pop(m).value;
    assert p1.1.stack[|p1.1.stack| - 1] == m.stack[|m.stack| - 2];
    var p2 := Pop(p1.1).value;
    assert BothTagged(p1.0, p2.0, t).Err?;
  }

  /**
   * IADD ... IREM check both popped operands before computing anything:
   * fewer than two slots is an empty stack, and unless both are ints the
   * instruction throws, NullPointerException for a null operand and a type
   * fault otherwise, the top operand looked at first.
   */
  lemma IntArithmeticChecksOperands(ctx: Context, m: Machine, op: MathOp)
    requires IsIntArith(op) && MachineWellFormed(m) && At(ctx, m, Math(op))
    ensures |m.stack| < 2 ==> Step(ctx, m) == Err(EmptyStack)
    ensures |m.stack| >= 2 ==>
      var top, deeper := m.stack[|m.stack| - 1], m.stack[|m.stack| - 2];
      !(Tagged(top, T_INT) && Tagged(deeper, T_INT)) ==> Step(ctx, m) == Err(BothTagged(top, deeper, T_INT).fault)
  {
    IntStep(ctx, m, op);
    PopTwoChecks(m.(pc := m.pc + 1), T_INT);
  }

  /** A step at IADD ... IREM is IntBinary just past the opcode. */
  lemma IntStep(ctx: Context, m: Machine, op: MathOp)
    requires IsIntArith(op) && MachineWellFormed(m) && At(ctx, m, Math(op))
    ensures Step(ctx, m) == IntBinary(m.(pc := m.pc + 1), op)
  {
    MathStep(ctx, m, op);
    var next := m.(pc := m.pc + 1);
    match op
    case IADD => assert StepMath(ctx, next, op) == IntBinary(next, op);
    case ISUB => assert StepMath(ctx, next, op) == IntBinary(next, op);
    case IMUL => assert StepMath(ctx, next, op) == IntBinary(next, op);
    case IDIV => assert StepMath(ctx, next, op) == IntBinary(next, op);
    case IREM => assert StepMath(ctx, next, op) == IntBinary(next, op);
  }

  /** LADD ... LREM: the same check, for two longs. */
  lemma LongArithmeticChecksOperands(ctx: Context, m: Machine, op: MathOp)
    requires IsLongArith(op) && MachineWellFormed(m) && At(ctx, m, Math(op))
    ensures |m.stack| < 2 ==> Step(ctx, m) == Err(EmptyStack)
    ensures |m.stack| >= 2 ==>
      var top, deeper := m.stack[|m.stack| - 1], m.stack[|m.stack| - 2];
      !(Tagged(top, T_LONG) && Tagged(deeper, T_LONG)) ==> Step(ctx, m) == Err(BothTagged(top, deeper, T_LONG).fault)
  {
    LongStep(ctx, m, op);
    LongBinaryChecks(m.(pc := m.pc + 1), op);
  }

  /** A step at LADD ... LREM is LongBinary just past the opcode. */
  lemma LongStep(ctx: Context, m: Machine, op: MathOp)
    requires IsLongArith(op) && MachineWellFormed(m) && At(ctx, m, Math(op))
    ensures Step(ctx, m) == LongBinary(m.(pc := m.pc + 1), op)
  {
    MathStep(ctx, m, op);
    var next := m.(pc := m.pc + 1);
    match op
    case LADD => assert StepMath(ctx, next, op) == LongBinary(next, op);
    case LSUB => assert StepMath(ctx, next, op) == LongBinary(next, op);
    case LMUL => assert StepMath(ctx, next, op) == LongBinary(next, op);
    case LDIV => assert StepMath(ctx, next, op) == LongBinary(next, op);
    case LREM => assert StepMath(ctx, next, op) == LongBinary(next, op);
  }

  lemma LongBinaryChecks(m: Machine, op: MathOp)
    requires MachineWellFormed(m)
    ensures |m.stack| < 2 ==> LongBinary(m, op) == Err(EmptyStack)
    ensures |m.stack| >= 2 ==>
      var top, deeper := m.stack[|m.stack| - 1], m.stack[|m.stack| - 2];
      !(Tagged(top, T_LONG) && Tagged(deeper, T_LONG)) ==> LongBinary(m, op) == Err(BothTagged(top, deeper, T_LONG).fault)
  {
    PopTwoChecks(m, T_LONG);
  }

  /* ----------------------------------------------------------------- */
  /* Comparisons and branches                                          */
  /* ----------------------------------------------------------------- */

  /**
   * lcmp as section 6.5 of The Java Virtual Machine Specification defines it:
   * value1 is the deeper operand, value2 the top one, and the result is 1
   * when value1 > value2.
   */
  function JvmsLcmp(value1: int, value2: int): int
  {
    if value1 > value2 then 1 else if value1 == value2 then 0 else -1
  }

  /**
   * The interpreter's LCMP pushes the opposite of the specified result: it
   * calls the top operand l1 and pushes 1 when the top is the greater.
   */
  lemma LcmpIsReversed(ctx: Context, m: Machine, rest: seq<Slot>, deeper: int, top: int)
    requires IsInt64(deeper) && IsInt64(top)
    requires m.stack == rest + [LongSlot(deeper), LongSlot(top)] && MachineWellFormed(m) && At(ctx, m, Comparison(LCMP))
    ensures Step(ctx, m) == Ok((m.(pc := m.pc + 1, stack := rest + [IntSlot(-JvmsLcmp(deeper, top))]), Next))
    ensures deeper != top ==> -JvmsLcmp(deeper, top) != JvmsLcmp(deeper, top)
  {
    ComparisonStep(ctx, m, LCMP);
    LongRoundTrip(deeper);
    LongRoundTrip(top);
    var next := m.(pc := m.pc + 1);
    assert next.stack[..|next.stack| - 1] == rest + [LongSlot(deeper)];
    assert (rest + [LongSlot(deeper)])[..|rest|] == rest;
  }

  /** The conditions of if_icmp<cond> in JVMS §6.5, value1 being the deeper operand. */
  predicate JvmsIcmp(op: ComparisonOp, value1: int, value2: int)
  {
    match op
    case IF_ICMPEQ => value1 == value2
    case IF_ICMPNE => value1 != value2
    case IF_ICMPGE => value1 >= value2
    case IF_ICMPGT => value1 > value2
    case _ => value1 <= value2
  }

  /**
   * IF_ICMPEQ, NE, GE, GT and LE branch to the instruction's own address plus
   * the signed offset exactly when the specified condition holds, and
   * otherwise go on with the next instruction; both ints are consumed.
   */
  lemma IntCompareBranch(ctx: Context, m: Machine, op: ComparisonOp, rest: seq<Slot>, deeper: int, top: int)
    requires op in {IF_ICMPEQ, IF_ICMPNE, IF_ICMPGE, IF_ICMPGT, IF_ICMPLE} && IsInt32(deeper) && IsInt32(top)
    requires m.stack == rest + [IntSlot(deeper), IntSlot(top)] && MachineWellFormed(m) && At(ctx, m, Comparison(op))
    requires m.pc + 2 < |ctx.codes|
    ensures Step(ctx, m) == Ok((m.(stack := rest, pc := if JvmsIcmp(op, deeper, top) then m.pc + Offset(ctx, m.pc) else m.pc + 3), Next))
  {
    IntCompareStep(ctx, m, op);
    PairBranch(ctx, m.(pc := m.pc + 1), m.pc, op, rest, deeper, top);
  }

  /**
   * IF_ICMPxx pops both values and reads its operand before it checks their
   * types: with the operand in the code, unless both values are ints the
   * instruction throws as the type check says.
   */
  lemma IntCompareChecksOperands(ctx: Context, m: Machine, op: ComparisonOp)
    requires op in {IF_ICMPEQ, IF_ICMPNE, IF_ICMPGE, IF_ICMPGT, IF_ICMPLE}
    requires MachineWellFormed(m) && At(ctx, m, Comparison(op)) && m.pc + 2 < |ctx.codes|
    ensures |m.stack| < 2 ==> Step(ctx, m) == Err(EmptyStack)
    ensures |m.stack| >= 2 ==>
      var top, deeper := m.stack[|m.stack| - 1], m.stack[|m.stack| - 2];
      !(Tagged(top, T_INT) && Tagged(deeper, T_INT)) ==> Step(ctx, m) == Err(BothTagged(top, deeper, T_INT).fault)
  {
    IntCompareStep(ctx, m, op);
    PairChecks(ctx, m.(pc := m.pc + 1), m.pc, op);
  }

  /** A step at IF_ICMPxx is BranchOnInts just past the opcode. */
  lemma IntCompareStep(ctx: Context, m: Machine, op: ComparisonOp)
    requires op in {IF_ICMPEQ, IF_ICMPNE, IF_ICMPGE, IF_ICMPGT, IF_ICMPLE}
    requires MachineWellFormed(m) && At(ctx, m, Comparison(op))
    ensures Step(ctx, m) == BranchOnInts(ctx, m.(pc := m.pc + 1), m.pc, op)
  {
    ComparisonStep(ctx, m, op);
    var next := m.(pc := m.pc + 1);
    match op
    case IF_ICMPEQ => assert StepComparison(ctx, next, m.pc, op) == BranchOnInts(ctx, next, m.pc, op);
    case IF_ICMPNE => assert StepComparison(ctx, next, m.pc, op) == BranchOnInts(ctx, next, m.pc, op);
    case IF_ICMPGE => assert StepComparison(ctx, next, m.pc, op) == BranchOnInts(ctx, next, m.pc, op);
    case IF_ICMPGT => assert StepComparison(ctx, next, m.pc, op) == BranchOnInts(ctx, next, m.pc, op);
    case IF_ICMPLE => assert StepComparison(ctx, next, m.pc, op) == BranchOnInts(ctx, next, m.pc, op);
  }

  lemma PairChecks(ctx: Context, m: Machine, start: int, op: ComparisonOp)
    requires MachineWellFormed(m) && 1 <= m.pc && m.pc + 1 < |ctx.codes|
    ensures |m.stack| < 2 ==> BranchOnInts(ctx, m, start, op) == Err(EmptyStack)
    ensures |m.stack| >= 2 ==>
      var top, deeper := m.stack[|m.stack| - 1], m.stack[|m.stack| - 2];
      !(Tagged(top, T_INT) && Tagged(deeper, T_INT)) ==> BranchOnInts(ctx, m, start, op) == Err(BothTagged(top, deeper, T_INT).fault)
  {
    if |m.stack| < 2 {
      if m.stack != [] {
        assert Pop(m).value.1.stack == [];
      }
    } else {
      var p1 := Pop(m).value;
      assert p1.1.stack[|p1.1.stack| - 1] == m.stack[|m.stack| - 2];
      var p2 := Pop(p1.1).value;
      assert S2(ctx.codes, m.pc).Ok?;
    }
  }

  lemma PairBranch(ctx: Context, m: Machine, start: int, op: ComparisonOp, rest: seq<Slot>, deeper: int, top: int)
    requires op in {IF_ICMPEQ, IF_ICMPNE, IF_ICMPGE, IF_ICMPGT, IF_ICMPLE} && IsInt32(deeper) && IsInt32(top)
    requires m.stack == rest + [IntSlot(deeper), IntSlot(top)] && MachineWellFormed(m)
    requires 1 <= m.pc && m.pc + 1 < |ctx.codes|
    ensures BranchOnInts(ctx, m, start, op) == Ok((m.(stack := rest, pc := if JvmsIcmp(op, deeper, top) then start + Offset(ctx, m.pc - 1) else start + 3), Next))
  {
    assert m.stack[..|m.stack| - 1] == rest + [IntSlot(deeper)];
    assert (rest + [IntSlot(deeper)])[..|rest|] == rest;
  }

  /** The conditions of if<cond> in JVMS §6.5. */
  predicate JvmsIf(op: ComparisonOp, value: int)
  {
    match op
    case IFEQ => value == 0
    case IFNE => value != 0
    case IFLT => value < 0
    case IFGE => value >= 0
    case IFGT => value > 0
    case _ => value <= 0
  }

  /** IFEQ ... IFLE branch to the instruction's address plus the offset exactly when the condition holds. */
  lemma IntZeroBranch(ctx: Context, m: Machine, op: ComparisonOp, rest: seq<Slot>, value: int)
    requires op in {IFEQ, IFNE, IFLT, IFGE, IFGT, IFLE} && IsInt32(value)
    requires m.stack == rest + [IntSlot(value)] && MachineWellFormed(m) && At(ctx, m, Comparison(op))
    requires m.pc + 2 < |ctx.codes|
    ensures Step(ctx, m) == Ok((m.(stack := rest, pc := if JvmsIf(op, value) then m.pc + Offset(ctx, m.pc) else m.pc + 3), Next))
  {
    ComparisonStep(ctx, m, op);
  }

  /** GOTO moves the cursor to its own address plus the offset and touches nothing else. */
  lemma GotoTarget(ctx: Context, m: Machine)
    requires MachineWellFormed(m) && At(ctx, m, Control(GOTO)) && m.pc + 2 < |ctx.codes|
    ensures Step(ctx, m) == Ok((m.(pc := m.pc + Offset(ctx, m.pc)), Next))
  {
    ControlStep(ctx, m, GOTO);
  }

  /**
   * IFNONNULL tests getData(), which is null for every reference: it never
   * branches on an object or array reference, null or not, and it does branch
   * on an int, a long or a float.
   */
  lemma IfNonNullTestsData(ctx: Context, m: Machine, rest: seq<Slot>, v: StackValue)
    requires WellFormed(v) && m.stack == rest + [Some(v)] && MachineWellFormed(m) && At(ctx, m, Extended(IFNONNULL))
    requires m.pc + 2 < |ctx.codes|
    ensures v.tag in {T_OBJECT, T_ARRAY} ==> Step(ctx, m) == Ok((m.(stack := rest, pc := m.pc + 3), Next))
    ensures v.tag in {T_INT, T_LONG, T_FLOAT} ==> Step(ctx, m) == Ok((m.(stack := rest, pc := m.pc + Offset(ctx, m.pc)), Next))
  {
    ExtendedStep(ctx, m, IFNONNULL);
  }

  /* ----------------------------------------------------------------- */
  /* Constants, locals and the stack                                   */
  /* ----------------------------------------------------------------- */

  /**
   * BIPUSH pushes its operand byte zero-extended, where JVMS §6.5 sign-extends
   * it: a byte of 0x80 or more pushes 128 ... 255 rather than -128 ... -1.
   */
  lemma BipushZeroExtends(ctx: Context, m: Machine)
    requires MachineWellFormed(m) && At(ctx, m, Constant(BIPUSH)) && m.pc + 1 < |ctx.codes|
    ensures Step(ctx, m) == Ok((m.(pc := m.pc + 2, stack := m.stack + [IntSlot(ctx.codes[m.pc + 1])]), Next))
    ensures ctx.codes[m.pc + 1] >= 128 ==> ctx.codes[m.pc + 1] != Int8(ctx.codes[m.pc + 1])
  {
    ConstantStep(ctx, m, BIPUSH);
  }

  /**
   * LDC of a String entry pushes the text of the Utf8 entry it names, and the
   * null reference when the pool has no entry there; an entry of another kind
   * throws ClassCastException. LDC of any kind other than Float and String
   * (an Integer, say) pushes nothing at all.
   */
  lemma LdcEffect(ctx: Context, m: Machine)
    requires MachineWellFormed(m) && At(ctx, m, Constant(LDC)) && m.pc + 1 < |ctx.codes|
    requires ctx.codes[m.pc + 1] < |ctx.tags|
    ensures var index := ctx.codes[m.pc + 1];
      var tag := ctx.tags[index];
      && (tag == CONSTANT_String && index in ctx.data && ctx.data[index].IntegerData? ==>
            var target := ctx.data[index].i;
            Step(ctx, m) == (if target !in ctx.data then Ok((m.(pc := m.pc + 2, stack := m.stack + [Some(OfObject(T_OBJECT, NullRef))]), Next))
                             else if ctx.data[target].Utf8Data? then Ok((m.(pc := m.pc + 2, stack := m.stack + [Some(OfObject(T_OBJECT, StringRef(ctx.data[target].s)))]), Next))
                             else Err(ClassCast)))
      && (tag != CONSTANT_String && tag != CONSTANT_Float ==> Step(ctx, m) == Ok((m.(pc := m.pc + 2), Next)))
  {
    ConstantStep(ctx, m, LDC);
  }

  /** The single-slot store opcodes with their local index. */
  function StoreOf(n: nat): StoreOp
    requires n < 4
  {
    [ISTORE_0, ISTORE_1, ISTORE_2, ISTORE_3][n]
  }

  function LoadOf(n: nat): LoadOp
    requires n < 4
  {
    [ILOAD_0, ILOAD_1, ILOAD_2, ILOAD_3][n]
  }

  /** ISTORE_n moves the top slot into local n. */
  lemma StoreEffect(ctx: Context, m: Machine, n: nat)
    requires n < 4 && n < |m.locals| && m.stack != [] && MachineWellFormed(m) && At(ctx, m, Store(StoreOf(n)))
    ensures Step(ctx, m) == Ok((m.(pc := m.pc + 1, stack := m.stack[..|m.stack| - 1], locals := m.locals[n := m.stack[|m.stack| - 1]]), Next))
  {
    StoreStep(ctx, m, StoreOf(n));
    var next := m.(pc := m.pc + 1);
    assert Step(ctx, m) == StoreSlot(next, n) by {
      if n == 0 {
        assert StoreOf(n) == ISTORE_0;
      } else if n == 1 {
        assert StoreOf(n) == ISTORE_1;
      } else if n == 2 {
        assert StoreOf(n) == ISTORE_2;
      } else {
        assert StoreOf(n) == ISTORE_3;
      }
    }
  }

  /** ILOAD_n pushes local n. */
  lemma LoadEffect(ctx: Context, m: Machine, n: nat)
    requires n < 4 && n < |m.locals| && MachineWellFormed(m) && At(ctx, m, Load(LoadOf(n)))
    ensures Step(ctx, m) == Ok((m.(pc := m.pc + 1, stack := m.stack + [m.locals[n]]), Next))
  {
    LoadStep(ctx, m, LoadOf(n));
    var next := m.(pc := m.pc + 1);
    assert Step(ctx, m) == LoadSlot(next, n) by {
      if n == 0 {
        assert LoadOf(n) == ILOAD_0;
      } else if n == 1 {
        assert LoadOf(n) == ILOAD_1;
      } else if n == 2 {
        assert LoadOf(n) == ILOAD_2;
      } else {
        assert LoadOf(n) == ILOAD_3;
      }
    }
  }

  /** ISTORE_n then ILOAD_n leaves the stack as it was, with the value now also in local n. */
  lemma {:induction false} StoreThenLoad(ctx: Context, m: Machine, n: nat)
    requires n < 4 && n < |m.locals| && m.stack != [] && MachineWellFormed(m)
    requires At(ctx, m, Store(StoreOf(n))) && At(ctx, m.(pc := m.pc + 1), Load(LoadOf(n)))
    ensures Step(ctx, m).Ok? && MachineWellFormed(Step(ctx, m).value.0)
    ensures var m1 := Step(ctx, m).value.0;
      && m1.locals == m.locals[n := m.stack[|m.stack| - 1]]
      && Step(ctx, m1) == Ok((m.(pc := m.pc + 2, locals := m1.locals), Next))
  {
    StoreEffect(ctx, m, n);
    var m1 := Step(ctx, m).value.0;
    LoadEffect(ctx, m1, n);
    assert m1.stack + [m1.locals[n]] == m.stack;
  }

  /** The double stores and loads with their first local index. */
  function DoubleStoreOf(n: nat): StoreOp
    requires n < 3
  {
    [DSTORE_0, DSTORE_1, DSTORE_2][n]
  }

  function DoubleLoadOf(n: nat): LoadOp
    requires n < 3
  {
    [DLOAD_0, DLOAD_1, DLOAD_2][n]
  }

  /** DSTORE_n puts the deeper of the two top slots in local n and the top one in local n + 1. */
  lemma DoubleStoreEffect(ctx: Context, m: Machine, n: nat)
    requires n < 3 && n + 1 < |m.locals| && |m.stack| >= 2 && MachineWellFormed(m) && At(ctx, m, Store(DoubleStoreOf(n)))
    ensures var s := m.stack;
      Step(ctx, m) == Ok((m.(pc := m.pc + 1, stack := s[..|s| - 2], locals := m.locals[n := s[|s| - 2]][n + 1 := s[|s| - 1]]), Next))
  {
    StoreStep(ctx, m, DoubleStoreOf(n));
    var next := m.(pc := m.pc + 1);
    assert Step(ctx, m) == StorePair(next, n) by {
      if n == 0 {
        assert DoubleStoreOf(n) == DSTORE_0;
      } else if n == 1 {
        assert DoubleStoreOf(n) == DSTORE_1;
      } else {
        assert DoubleStoreOf(n) == DSTORE_2;
      }
    }
  }

  /** DLOAD_n pushes local n, then local n + 1. */
  lemma DoubleLoadEffect(ctx: Context, m: Machine, n: nat)
    requires n < 3 && n + 1 < |m.locals| && MachineWellFormed(m) && At(ctx, m, Load(DoubleLoadOf(n)))
    ensures Step(ctx, m) == Ok((m.(pc := m.pc + 1, stack := m.stack + [m.locals[n], m.locals[n + 1]]), Next))
  {
    LoadStep(ctx, m, DoubleLoadOf(n));
  }

  /** DSTORE_n then DLOAD_n: the pair returns to the stack as it was, in the same order. */
  lemma {:induction false} DoubleStoreThenLoad(ctx: Context, m: Machine, n: nat)
    requires n < 3 && n + 1 < |m.locals| && |m.stack| >= 2 && MachineWellFormed(m)
    requires At(ctx, m, Store(DoubleStoreOf(n))) && At(ctx, m.(pc := m.pc + 1), Load(DoubleLoadOf(n)))
    ensures Step(ctx, m).Ok? && MachineWellFormed(Step(ctx, m).value.0)
    ensures var m1 := Step(ctx, m).value.0;
      && m1.stack == m.stack[..|m.stack| - 2]
      && Step(ctx, m1) == Ok((m.(pc := m.pc + 2, locals := m1.locals), Next))
  {
    DoubleStoreEffect(ctx, m, n);
    var s := m.stack;
    var m1 := Step(ctx, m).value.0;
    DoubleLoadEffect(ctx, m1, n);
    assert m1.stack + [m1.locals[n], m1.locals[n + 1]] == s;
  }

  /** IINC adds the signed operand byte to the int in the local, wrapping, and leaves the stack alone. */
  lemma IncrementLocal(ctx: Context, m: Machine, index: nat, value: int)
    requires MachineWellFormed(m) && At(ctx, m, Math(IINC)) && m.pc + 2 < |ctx.codes|
    requires index == ctx.codes[m.pc + 1] && index < |m.locals| && IsInt32(value) && m.locals[index] == IntSlot(value)
    ensures Step(ctx, m) == Ok((m.(pc := m.pc + 3, locals := m.locals[index := IntSlot(Int32(value + Int8(ctx.codes[m.pc + 2])))]), Next))
  {
    MathStep(ctx, m, IINC);
  }

  /** DUP pushes the top slot again, whatever it holds. */
  lemma DupCopiesTop(ctx: Context, m: Machine)
    requires MachineWellFormed(m) && At(ctx, m, Stack(DUP)) && m.stack != []
    ensures Step(ctx, m) == Ok((m.(pc := m.pc + 1, stack := m.stack + [m.stack[|m.stack| - 1]]), Next))
  {
    StackStep(ctx, m, DUP);
  }

  /** DCONST_0 and DCONST_1 push the two slots pushDouble writes for 0.0 and 1.0. */
  lemma DoubleConstantEffect(ctx: Context, m: Machine, op: ConstantOp)
    requires op in {DCONST_0, DCONST_1} && MachineWellFormed(m) && At(ctx, m, Constant(op))
    ensures Step(ctx, m) == Ok((m.(pc := m.pc + 1, stack := m.stack + DoubleSlots(if op == DCONST_0 then 0 else ONE_IMAGE)), Next))
  {
    ConstantStep(ctx, m, op);
  }

  /** DUP2 on a double pops it with popDouble and pushes it back twice. */
  lemma Dup2OfDouble(ctx: Context, m: Machine)
    requires MachineWellFormed(m) && At(ctx, m, Stack(DUP2)) && m.stack != [] && m.stack[|m.stack| - 1].Some?
    requires m.stack[|m.stack| - 1].value.tag == T_DOUBLE
    ensures var r := StackPopDouble(m.stack);
      && (r.Err? ==> Step(ctx, m) == Err(r.fault))
      && (r.Ok? ==> Step(ctx, m) == Ok((m.(pc := m.pc + 1, stack := r.value.1 + DoubleSlots(r.value.0) + DoubleSlots(r.value.0)), Next)))
  {
    StackStep(ctx, m, DUP2);
    var next := m.(pc := m.pc + 1);
    var r := StackPopDouble(m.stack);
    var d := PopDouble(next);
    if r.Ok? {
      assert d.Ok? && d.value.0 as nat == r.value.0 && d.value.1.stack == r.value.1;
      assert d.value.1 == next.(stack := r.value.1);
      assert StepStack(next, DUP2) == Continue(Push(d.value.1, DoubleSlots(d.value.0) + DoubleSlots(d.value.0)));
      var two := DoubleSlots(r.value.0);
      assert r.value.1 + (two + two) == r.value.1 + two + two;
    } else {
      assert StepStack(next, DUP2) == Err(r.fault);
    }
  }

  /** DUP2 after DCONST_0 leaves two copies of 0.0 ... */
  lemma {:induction false} Dup2OfZero(ctx: Context, m: Machine)
    requires MachineWellFormed(m) && At(ctx, m, Constant(DCONST_0)) && At(ctx, m.(pc := m.pc + 1), Stack(DUP2))
    ensures Step(ctx, m).Ok? && MachineWellFormed(Step(ctx, m).value.0)
    ensures Step(ctx, Step(ctx, m).value.0) == Ok((m.(pc := m.pc + 2, stack := m.stack + DoubleSlots(0) + DoubleSlots(0)), Next))
  {
    DoubleConstantEffect(ctx, m, DCONST_0);
    var m1 := Step(ctx, m).value.0;
    PopDoubleAfterPushZero(m.stack);
    Dup2OfDouble(ctx, m1);
  }

  /** ... but DUP2 after DCONST_1 throws, because popDouble cannot read back the slots pushDouble wrote. */
  lemma {:induction false} Dup2OfOneThrows(ctx: Context, m: Machine)
    requires MachineWellFormed(m) && At(ctx, m, Constant(DCONST_1)) && At(ctx, m.(pc := m.pc + 1), Stack(DUP2))
    ensures Step(ctx, m).Ok? && MachineWellFormed(Step(ctx, m).value.0)
    ensures Step(ctx, Step(ctx, m).value.0).Err?
  {
    DoubleConstantEffect(ctx, m, DCONST_1);
    var m1 := Step(ctx, m).value.0;
    PopDoubleAfterPushOne(m.stack);
    Dup2OfDouble(ctx, m1);
  }

  /* ----------------------------------------------------------------- */
  /* Conversions                                                       */
  /* ----------------------------------------------------------------- */

  /** I2L pushes the same value as a long. */
  lemma IntToLong(ctx: Context, m: Machine, rest: seq<Slot>, v: int)
    requires IsInt32(v) && m.stack == rest + [IntSlot(v)] && MachineWellFormed(m) && At(ctx, m, Conversion(I2L))
    ensures Step(ctx, m) == Ok((m.(pc := m.pc + 1, stack := rest + [LongSlot(v)]), Next))
  {
    ConversionStep(ctx, m, I2L);
  }

  /** L2I pushes the int with the long's low 32 bits. */
  lemma LongToInt(ctx: Context, m: Machine, rest: seq<Slot>, v: int)
    requires IsInt64(v) && m.stack == rest + [LongSlot(v)] && MachineWellFormed(m) && At(ctx, m, Conversion(L2I))
    ensures exists r :: (IsInt32(r) && (r - v) % TWO_32 == 0
      && Step(ctx, m) == Ok((m.(pc := m.pc + 1, stack := rest + [IntSlot(r)]), Next)))
  {
    ConversionStep(ctx, m, L2I);
    LongRoundTrip(v);
    var r := Int32(v);
    assert Step(ctx, m) == Ok((m.(pc := m.pc + 1, stack := rest + [IntSlot(r)]), Next));
  }

  /** I2B pushes the low 8 bits, sign-extended. */
  lemma IntToByte(ctx: Context, m: Machine, rest: seq<Slot>, v: int)
    requires IsInt32(v) && m.stack == rest + [IntSlot(v)] && MachineWellFormed(m) && At(ctx, m, Conversion(I2B))
    ensures exists r :: (-128 <= r < 128 && (r - v) % 256 == 0
      && Step(ctx, m) == Ok((m.(pc := m.pc + 1, stack := rest + [IntSlot(r)]), Next)))
  {
    ConversionStep(ctx, m, I2B);
    var r := Int8(v);
    assert Step(ctx, m) == Ok((m.(pc := m.pc + 1, stack := rest + [IntSlot(r)]), Next));
  }

  /** I2S pushes the low 16 bits, sign-extended. */
  lemma IntToShort(ctx: Context, m: Machine, rest: seq<Slot>, v: int)
    requires IsInt32(v) && m.stack == rest + [IntSlot(v)] && MachineWellFormed(m) && At(ctx, m, Conversion(I2S))
    ensures exists r :: (-0x8000 <= r < 0x8000 && (r - v) % 0x1_0000 == 0
      && Step(ctx, m) == Ok((m.(pc := m.pc + 1, stack := rest + [IntSlot(r)]), Next)))
  {
    ConversionStep(ctx, m, I2S);
    var r := Int16(v);
    assert Step(ctx, m) == Ok((m.(pc := m.pc + 1, stack := rest + [IntSlot(r)]), Next));
  }

  /** I2C pushes the low 16 bits, zero-extended. */
  lemma IntToChar(ctx: Context, m: Machine, rest: seq<Slot>, v: int)
    requires IsInt32(v) && m.stack == rest + [IntSlot(v)] && MachineWellFormed(m) && At(ctx, m, Conversion(I2C))
    ensures exists r :: (0 <= r < 0x1_0000 && (r - v) % 0x1_0000 == 0
      && Step(ctx, m) == Ok((m.(pc := m.pc + 1, stack := rest + [IntSlot(r)]), Next)))
  {
    ConversionStep(ctx, m, I2C);
    var r := Uint16(v);
    assert Step(ctx, m) == Ok((m.(pc := m.pc + 1, stack := rest + [IntSlot(r)]), Next));
  }

  /* ----------------------------------------------------------------- */
  /* Arrays                                                            */
  /* ----------------------------------------------------------------- */

  /** NEWARRAY allocates an empty array of the popped size at the next address; ARRAYLENGTH reads the size back. */
  lemma NewArrayThenLength(ctx: Context, m: Machine, rest: seq<Slot>, size: int)
    requires IsInt32(size) && m.stack == rest + [IntSlot(size)] && MachineWellFormed(m)
    requires At(ctx, m, Reference(NEWARRAY)) && m.pc + 1 < |ctx.codes| && At(ctx, m.(pc := m.pc + 2), Reference(ARRAYLENGTH))
    ensures Step(ctx, m).Ok? && MachineWellFormed(Step(ctx, m).value.0)
    ensures var m1 := Step(ctx, m).value.0;
      && m1.arrays == m.arrays + [ArrayOop(ctx.codes[m.pc + 1], size, [])]
      && m1.stack == rest + [Some(OfObject(T_ARRAY, ArrayRef(|m.arrays|)))]
      && Step(ctx, m1) == Ok((m1.(pc := m.pc + 3, stack := rest + [IntSlot(size)]), Next))
  {
    ReferenceStep(ctx, m, NEWARRAY);
    var m1 := Step(ctx, m).value.0;
    ReferenceStep(ctx, m1, ARRAYLENGTH);
    assert (rest + [Some(OfObject(T_ARRAY, ArrayRef(|m.arrays|)))])[..|rest|] == rest;
  }

  /**
   * BASTORE into an index within the array's size: an index that has an
   * element replaces it, any other one appends the value to the element list.
   */
  lemma ByteArrayStoreEffect(ctx: Context, m: Machine, rest: seq<Slot>, addr: nat, index: int, val: int)
    requires IsInt32(index) && IsInt32(val) && addr < |m.arrays|
    requires m.stack == rest + [Some(OfObject(T_ARRAY, ArrayRef(addr))), IntSlot(index), IntSlot(val)]
    requires MachineWellFormed(m) && At(ctx, m, Store(BASTORE))
    ensures index > Int32(m.arrays[addr].size - 1) ==> Step(ctx, m) == Err(ArrayBounds)
    ensures var a := m.arrays[addr];
      index <= Int32(a.size - 1) ==>
      Step(ctx, m) == Ok((m.(pc := m.pc + 1, stack := rest,
                              arrays := m.arrays[addr := a.(data := if 0 <= index < |a.data| then a.data[index := val] else a.data + [val])]), Next))
  {
    StoreStep(ctx, m, BASTORE);
    assert StepStore(ctx, m.(pc := m.pc + 1), BASTORE) == ByteArrayStore(m.(pc := m.pc + 1));
    ByteArrayStoreOn(m.(pc := m.pc + 1), rest, addr, index, val);
  }

  lemma ByteArrayStoreOn(m: Machine, rest: seq<Slot>, addr: nat, index: int, val: int)
    requires IsInt32(index) && IsInt32(val) && addr < |m.arrays|
    requires m.stack == rest + [Some(OfObject(T_ARRAY, ArrayRef(addr))), IntSlot(index), IntSlot(val)]
    requires MachineWellFormed(m)
    ensures index > Int32(m.arrays[addr].size - 1) ==> ByteArrayStore(m) == Err(ArrayBounds)
    ensures var a := m.arrays[addr];
      index <= Int32(a.size - 1) ==>
      ByteArrayStore(m) == Ok((m.(stack := rest,
                              arrays := m.arrays[addr := a.(data := if 0 <= index < |a.data| then a.data[index := val] else a.data + [val])]), Next))
  {
    var s := m.stack;
    assert s[..|s| - 1][..|s| - 2] == rest + [Some(OfObject(T_ARRAY, ArrayRef(addr)))];
    assert (rest + [Some(OfObject(T_ARRAY, ArrayRef(addr)))])[..|rest|] == rest;
  }

  /** BALOAD pushes the element at an index the element list has, and throws for one past the size. */
  lemma ByteArrayLoadEffect(ctx: Context, m: Machine, rest: seq<Slot>, addr: nat, index: int)
    requires IsInt32(index) && addr < |m.arrays|
    requires m.stack == rest + [Some(OfObject(T_ARRAY, ArrayRef(addr))), IntSlot(index)]
    requires MachineWellFormed(m) && At(ctx, m, Load(BALOAD))
    ensures index > Int32(m.arrays[addr].size - 1) ==> Step(ctx, m) == Err(ArrayBounds)
    ensures index <= Int32(m.arrays[addr].size - 1) && 0 <= index < |m.arrays[addr].data| ==>
      Step(ctx, m) == Ok((m.(pc := m.pc + 1, stack := rest + [IntSlot(m.arrays[addr].data[index])]), Next))
  {
    LoadStep(ctx, m, BALOAD);
    assert m.stack[..|m.stack| - 1] == rest + [Some(OfObject(T_ARRAY, ArrayRef(addr)))];
    assert (rest + [Some(OfObject(T_ARRAY, ArrayRef(addr)))])[..|rest|] == rest;
  }

  /* ----------------------------------------------------------------- */
  /* Calls and returns                                                 */
  /* ----------------------------------------------------------------- */

  /** RETURN changes nothing in the frame and asks the run loop to pop the thread's top frame. */
  lemma ReturnPopsFrame(ctx: Context, m: Machine)
    requires MachineWellFormed(m) && At(ctx, m, Control(RETURN))
    ensures Step(ctx, m) == Ok((m.(pc := m.pc + 1), PopFrame))
  {
    ControlStep(ctx, m, RETURN);
  }

  /**
   * INVOKESTATIC of a method of a class outside "java" consumes its operand,
   * leaves the stack alone (the callee's frame starts with empty locals) and
   * asks the run loop to call the method the Methodref names.
   */
  lemma InvokeStaticCallsLoadedClass(ctx: Context, m: Machine, ref: MemberRef)
    requires MachineWellFormed(m) && At(ctx, m, Reference(INVOKESTATIC)) && m.pc + 2 < |ctx.codes|
    requires MemberRefAt(ctx.data, Offset(ctx, m.pc)) == Ok(ref) && !IsHostClass(ref.className)
    ensures Step(ctx, m) == Ok((m.(pc := m.pc + 3), CallStatic(ref)))
  {
    ReferenceStep(ctx, m, INVOKESTATIC);
  }

  /**
   * INVOKESTATIC of a method of a "java" class hands the host the slots its
   * descriptor asks for, taken from the top of the stack in stack order, and
   * pushes what the host returns, if it returns a value; an exception the
   * interpreter does not catch ends the run with that fault.
   */
  lemma InvokeStaticOnHost(ctx: Context, m: Machine, ref: MemberRef)
    requires MachineWellFormed(m) && At(ctx, m, Reference(INVOKESTATIC)) && m.pc + 2 < |ctx.codes|
    requires MemberRefAt(ctx.data, Offset(ctx, m.pc)) == Ok(ref) && IsHostClass(ref.className)
    ensures var n := ctx.host.parameterSlots(ref.descriptor);
      && (n > |m.stack| ==> Step(ctx, m) == Err(EmptyStack))
      && (n <= |m.stack| ==>
            var args := m.stack[|m.stack| - n..];
            var result := ctx.host.invokeStatic(ref, args);
            && (result.Err? ==> Step(ctx, m) == Err(result.fault))
            && (result.Ok? ==>
                  Step(ctx, m) == Ok((m.(pc := m.pc + 3, stack := m.stack[..|m.stack| - n] + ResultSlots(result.value)), Next))))
  {
    ReferenceStep(ctx, m, INVOKESTATIC);
    var n := ctx.host.parameterSlots(ref.descriptor);
    if n <= |m.stack| {
      var args := m.stack[|m.stack| - n..];
      assert m.stack[..|m.stack| - n] + args == m.stack;
    }
  }

  /**
   * GETSTATIC pushes the object the host holds in the named static field,
   * nothing when the read throws an exception the interpreter catches, and
   * ends the run with the fault of any other exception.
   */
  lemma GetStaticEffect(ctx: Context, m: Machine, ref: MemberRef)
    requires MachineWellFormed(m) && At(ctx, m, Reference(GETSTATIC)) && m.pc + 2 < |ctx.codes|
    requires MemberRefAt(ctx.data, Offset(ctx, m.pc)) == Ok(ref)
    ensures var field := ctx.host.staticField(ref);
      && (field.Err? ==> Step(ctx, m) == Err(field.fault))
      && (field.Ok? ==>
            Step(ctx, m) == Ok((m.(pc := m.pc + 3, stack := m.stack + if field.value.None? then [] else [Some(OfObject(T_OBJECT, field.value.value))]), Next)))
  {
    ReferenceStep(ctx, m, GETSTATIC);
    assert m.stack + [] == m.stack;
  }

  /** INVOKEVIRTUAL of a method of a class outside "java" does nothing but consume its operand. */
  lemma InvokeVirtualOutsideJavaIsSkipped(ctx: Context, m: Machine, ref: MemberRef)
    requires MachineWellFormed(m) && At(ctx, m, Reference(INVOKEVIRTUAL)) && m.pc + 2 < |ctx.codes|
    requires MemberRefAt(ctx.data, Offset(ctx, m.pc)) == Ok(ref) && !IsHostClass(ref.className)
    ensures Step(ctx, m) == Ok((m.(pc := m.pc + 3), Next))
  {
    ReferenceStep(ctx, m, INVOKEVIRTUAL);
    var next := m.(pc := m.pc + 1);
    assert S2(ctx.codes, next.pc) == Ok(Offset(ctx, m.pc));
  }

  /* ----------------------------------------------------------------- */
  /* The default case                                                  */
  /* ----------------------------------------------------------------- */

  /** The opcodes the switch has a case for. */
  predicate Handled(op: Op)
  {
    match op
    case Constant(x) => x !in {NOP, SIPUSH, LDC_W}
    case Load(x) => x !in {FLOAD_3, DLOAD_3, ALOAD_2, ALOAD_3, IALOAD, LALOAD, FALOAD, DALOAD, AALOAD, CALOAD, SALOAD}
    case Store(x) => x !in {FSTORE_3, DSTORE_3, ASTORE_2, ASTORE_3, IASTORE, LASTORE, FASTORE, DASTORE, AASTORE}
    case Stack(_) => true
    case Math(_) => true
    case Conversion(_) => true
    case Comparison(x) => x !in {IF_ICMPLT, IF_ACMPEQ, IF_ACMPNE}
    case Control(x) => x in {GOTO, RETURN}
    case Reference(x) => x in {GETSTATIC, INVOKEVIRTUAL, INVOKESTATIC, NEWARRAY, ARRAYLENGTH}
    case Extended(_) => true
  }

  /** An opcode without a case, or a byte that is no opcode, ends the run with "invalid instruction". */
  lemma UnhandledOpcodeThrows(ctx: Context, m: Machine)
    requires MachineWellFormed(m) && 0 <= m.pc < |ctx.codes|
    requires Decode(ctx.codes[m.pc]).None? || !Handled(Decode(ctx.codes[m.pc]).value)
    ensures Step(ctx, m) == Err(InvalidOpcode(ctx.codes[m.pc]))
  {
    var c := ctx.codes[m.pc];
    if Decode(c).Some? {
      var op := Decode(c).value;
      DecodeComplete(c);
      var op' :| Code(op') == c;
      DecodeCode(op');
      assert op' == op;
    }
  }
}
