/**
 * What one instruction of BytecodeInterpreter.run does, as a function from the
 * interpreter's state before the instruction to its state after it.
 *
 * The state an instruction sees is the current frame's operand stack and
 * locals table, the cursor into the method's code, and the arrays NEWARRAY
 * has allocated. It reads, and never changes, the method's code, the tags and
 * data map of the class's constant pool, and the host Java runtime the
 * interpreter reaches by reflection for classes whose names start with "java".
 *
 * An instruction either completes, with an effect on the thread that the run
 * loop carries out (nothing, RETURN's frame pop, or a call of a static method
 * of a loaded class), or throws; every throw ends the run.
 */
module Semantics {
  import opened Wrappers
  import opened Bytes
  import opened StackValues
  import opened Bytecodes
  import opened Oops
  import opened Frames

  /* ----------------------------------------------------------------- */
  /* Arrays and the machine state                                      */
  /* ----------------------------------------------------------------- */

  /**
   * An ArrayOop: its element type code, the size NEWARRAY gave it and its
   * element list, which starts out empty and which BASTORE fills.
   */
  datatype ArrayOop = ArrayOop(elementType: int, size: int, data: seq<int>)

  predicate ArrayWellFormed(a: ArrayOop)
  {
    IsInt32(a.size) && forall i :: 0 <= i < |a.data| ==> IsInt32(a.data[i])
  }

  predicate HeapWellFormed(arrays: seq<ArrayOop>)
  {
    forall i :: 0 <= i < |arrays| ==> ArrayWellFormed(arrays[i])
  }

  /** An array reference names an allocated array. */
  predicate RefInHeap(r: Ref, heapSize: nat)
  {
    r.ArrayRef? ==> r.addr < heapSize
  }

  predicate SlotsInHeap(ss: seq<Slot>, heapSize: nat)
  {
    forall i :: 0 <= i < |ss| ==> ss[i].Some? ==> RefInHeap(ss[i].value.obj, heapSize)
  }

  /** The current frame's operand stack and locals, the code cursor, and the heap of arrays. */
  datatype Machine = Machine(stack: seq<Slot>, locals: seq<Slot>, pc: int, arrays: seq<ArrayOop>)

  predicate MachineWellFormed(m: Machine)
  {
    && AllWellFormed(m.stack) && AllWellFormed(m.locals)
    && SlotsInHeap(m.stack, |m.arrays|) && SlotsInHeap(m.locals, |m.arrays|)
    && HeapWellFormed(m.arrays)
  }

  /** What every completed instruction keeps: well-formedness, the locals' size, every allocated array. */
  predicate Evolves(m: Machine, m': Machine)
  {
    MachineWellFormed(m') && |m'.locals| == |m.locals| && |m.arrays| <= |m'.arrays|
  }

  /* ----------------------------------------------------------------- */
  /* The host Java runtime                                             */
  /* ----------------------------------------------------------------- */

  type JavaInt = x: int | IsInt32(x)

  /** The 64-bit image of a Java double. */
  type DoubleBits = x: int | 0 <= x < TWO_64

  /** An object of the host runtime, which is never one of the interpreter's arrays. */
  type HostObject = r: Ref | !r.ArrayRef? witness NullRef

  /** What a reflective call returns: nothing for a void method, or a value pushField pushes. */
  datatype HostValue = HostVoid | HostInt(i: JavaInt) | HostLong(l: JavaLong) | HostReference(o: HostObject)

  /**
   * The interpreter's dealings with the Java runtime it runs on, as
   * parameters: static fields and methods of "java" classes reached by
   * reflection, the number of stack slots getParamsVal pops for a
   * descriptor, and float and double arithmetic on IEEE 754 images, operands
   * given in the order they are popped (the top of the stack first).
   * A reflective call gives Ok(Some(..)) when it completes, Ok(None) when it
   * throws one of the exceptions the interpreter catches (ClassNotFound,
   * NoSuchField, NoSuchMethod, IllegalAccess, InvocationTarget), and Err for
   * any other exception, thrown by Class.forName, Field.get, Method.invoke,
   * getParamsVal's conversions or pushField, which ends the run.
   */
  datatype Host = Host(
    staticField: MemberRef -> Result<Option<HostObject>>,
    parameterSlots: string -> nat,
    invokeStatic: (MemberRef, seq<Slot>) -> Result<Option<HostValue>>,
    invokeVirtual: (MemberRef, Ref, seq<Slot>) -> Result<Option<HostValue>>,
    floatArith: (MathOp, FloatImage, FloatImage) -> FloatImage,
    doubleArith: (MathOp, DoubleBits, DoubleBits) -> DoubleBits,
    toFloat: (ConversionOp, int) -> FloatImage,
    toDouble: (ConversionOp, int) -> DoubleBits,
    toInt: (ConversionOp, int) -> JavaInt,
    toLong: (ConversionOp, int) -> JavaLong)

  /** What an instruction reads and never changes: the method's code, its class's constant pool, the host. */
  datatype Context = Context(codes: seq<byte>, tags: seq<int>, data: map<int, PoolData>, host: Host)

  /** What the run loop does after an instruction completes. */
  datatype Effect = Next | PopFrame | CallStatic(target: MemberRef)

  /* ----------------------------------------------------------------- */
  /* Operands, constants and values                                    */
  /* ----------------------------------------------------------------- */

  /** getU1Code: the next byte, unsigned. */
  function U1(codes: seq<byte>, at: int): (r: Result<nat>)
    ensures r.Ok? <==> 0 <= at < |codes|
    ensures r.Ok? ==> r.value == codes[at] < 256
  {
    if 0 <= at < |codes| then Ok(codes[at] as nat) else Err(IndexOutOfBounds)
  }

  /** getU1Code2: the next byte, sign-extended. */
  function S1(codes: seq<byte>, at: int): (r: Result<int>)
    ensures r.Ok? <==> 0 <= at < |codes|
    ensures r.Ok? ==> r.value == Int8(codes[at]) && -128 <= r.value < 128
  {
    if 0 <= at < |codes| then Ok(Int8(codes[at])) else Err(IndexOutOfBounds)
  }

  /** getUnsignedShort: the next two bytes, big-endian, as a Java short. */
  function S2(codes: seq<byte>, at: int): (r: Result<int>)
    ensures r.Ok? <==> 0 <= at && at + 1 < |codes|
    ensures r.Ok? ==> r.value == Int16(codes[at] as int * 256 + codes[at + 1] as int) && -0x8000 <= r.value < 0x8000
  {
    if 0 <= at && at + 1 < |codes| then Ok(Int16(codes[at] as int * 256 + codes[at + 1] as int)) else Err(IndexOutOfBounds)
  }

  /** (float) dataMap.get(i) */
  function FloatConstant(data: map<int, PoolData>, i: int): (r: Result<FloatImage>)
    ensures r.Ok? <==> i in data && data[i].FloatData?
    ensures r.Ok? ==> r.value == data[i].bits
    ensures r.Err? ==> r.fault == if i in data then ClassCast else NullPointer
  {
    if i !in data then Err(NullPointer)
    else if data[i].FloatData? then Ok(data[i].bits)
    else Err(ClassCast)
  }

  /** (long) dataMap.get(i) */
  function LongConstant(data: map<int, PoolData>, i: int): (r: Result<JavaLong>)
    ensures r.Ok? <==> i in data && data[i].LongData?
    ensures r.Ok? ==> r.value == data[i].l
    ensures r.Err? ==> r.fault == if i in data then ClassCast else NullPointer
  {
    if i !in data then Err(NullPointer)
    else if data[i].LongData? then Ok(data[i].l)
    else Err(ClassCast)
  }

  /** (double) dataMap.get(i), as the big-endian image the parser read. */
  function DoubleConstant(data: map<int, PoolData>, i: int): (r: Result<DoubleImage>)
    ensures r.Ok? <==> i in data && data[i].DoubleData?
    ensures r.Ok? ==> r.value == data[i].image
    ensures r.Err? ==> r.fault == if i in data then ClassCast else NullPointer
  {
    if i !in data then Err(NullPointer)
    else if data[i].DoubleData? then Ok(data[i].image)
    else Err(ClassCast)
  }

  /** getVal() on a popped slot: the int payload, whatever the tag. */
  function ValOf(s: Slot): (r: Result<int>)
    requires SlotWellFormed(s)
    ensures r.Ok? <==> s.Some?
    ensures r.Ok? ==> r.value == s.value.val && IsInt32(r.value)
    ensures r.Err? ==> r.fault == NullPointer
  {
    if s.None? then Err(NullPointer) else Ok(s.value.val)
  }

  /** (int) getData(): only a T_INT value unboxes to an int; a null payload throws NullPointerException. */
  function IntOf(s: Slot): (r: Result<int>)
    requires SlotWellFormed(s)
    ensures r.Ok? <==> s.Some? && s.value.tag == T_INT
    ensures r.Ok? ==> r.value == s.value.val && IsInt32(r.value)
    ensures r.Err? ==> r.fault == if s.Some? && s.value.tag in {T_FLOAT, T_LONG} then ClassCast else NullPointer
  {
    if s.None? then Err(NullPointer)
    else match GetData(s.value)
      case IntData(i) => Ok(i)
      case NoData => Err(NullPointer)
      case _ => Err(ClassCast)
  }

  /** (long) getData() */
  function LongOf(s: Slot): (r: Result<int>)
    requires SlotWellFormed(s)
    ensures r.Ok? <==> s.Some? && s.value.tag == T_LONG
    ensures r.Ok? ==> r.value == BytesToLong(s.value.data.value) && IsInt64(r.value)
    ensures r.Err? ==> r.fault == if s.Some? && s.value.tag in {T_FLOAT, T_INT} then ClassCast else NullPointer
  {
    if s.None? then Err(NullPointer)
    else match GetData(s.value)
      case LongData(l) => Ok(l)
      case NoData => Err(NullPointer)
      case _ => Err(ClassCast)
  }

  /** (float) getData() */
  function FloatOf(s: Slot): (r: Result<FloatImage>)
    requires SlotWellFormed(s)
    ensures r.Ok? <==> s.Some? && s.value.tag == T_FLOAT
    ensures r.Ok? ==> r.value == s.value.data.value
    ensures r.Err? ==> r.fault == if s.Some? && s.value.tag in {T_LONG, T_INT} then ClassCast else NullPointer
  {
    if s.None? then Err(NullPointer)
    else match GetData(s.value)
      case FloatData(bits) => var image: FloatImage := bits; Ok(image)
      case NoData => Err(NullPointer)
      case _ => Err(ClassCast)
  }

  /**
   * (ArrayOop) getObject() and the first use of the array: null throws
   * NullPointerException there, and anything but an array fails the cast.
   */
  function Deref(arrays: seq<ArrayOop>, r: Ref): (a: Result<nat>)
    requires RefInHeap(r, |arrays|)
    ensures a.Ok? <==> r.ArrayRef?
    ensures a.Ok? ==> a.value == r.addr < |arrays|
    ensures a.Err? ==> a.fault == if r.NullRef? then NullPointer else ClassCast
  {
    match r
    case NullRef => Err(NullPointer)
    case ArrayRef(addr) => Ok(addr)
    case _ => Err(ClassCast)
  }

  /** A class the interpreter hands to the host runtime rather than loading itself. */
  predicate IsHostClass(name: string)
  {
    |name| >= 4 && name[..4] == "java"
  }

  /** What pushField pushes for a reflective call's result. */
  function ResultSlots(v: Option<HostValue>): (r: seq<Slot>)
    ensures |r| <= 1 && AllWellFormed(r) && SlotsInHeap(r, 0)
    ensures |r| == 1 <==> v.Some? && !v.value.HostVoid?
  {
    match v
    case None => []
    case Some(HostVoid) => []
    case Some(HostInt(i)) => [Some(OfInt(T_INT, i))]
    case Some(HostLong(l)) => [Some(OfLong(T_LONG, l))]
    case Some(HostReference(o)) => [Some(OfObject(T_OBJECT, o))]
  }

  /* ----------------------------------------------------------------- */
  /* The operand stack of a well-formed machine                        */
  /* ----------------------------------------------------------------- */

  function Push(m: Machine, slots: seq<Slot>): (m': Machine)
    requires MachineWellFormed(m) && AllWellFormed(slots) && SlotsInHeap(slots, |m.arrays|)
    ensures MachineWellFormed(m') && m' == m.(stack := m.stack + slots)
  {
    m.(stack := m.stack + slots)
  }

  /** pop() */
  function Pop(m: Machine): (r: Result<(Slot, Machine)>)
    requires MachineWellFormed(m)
    ensures r.Ok? <==> m.stack != []
    ensures r.Ok? ==> r.value.0 == m.stack[|m.stack| - 1] && r.value.1 == m.(stack := m.stack[..|m.stack| - 1])
    ensures r.Ok? ==> MachineWellFormed(r.value.1) && SlotWellFormed(r.value.0) && SlotsInHeap([r.value.0], |m.arrays|)
    ensures r.Err? ==> r.fault == EmptyStack
  {
    var p :- StackPop(m.stack);
    Ok((p.0, m.(stack := p.1)))
  }

  /** popDouble() */
  function PopDouble(m: Machine): (r: Result<(DoubleBits, Machine)>)
    requires MachineWellFormed(m)
    ensures r.Ok? <==> StackPopDouble(m.stack).Ok?
    ensures r.Ok? ==> StackPopDouble(m.stack) == Ok((r.value.0 as nat, r.value.1.stack))
    ensures r.Ok? ==> MachineWellFormed(r.value.1) && r.value.1 == m.(stack := m.stack[..|m.stack| - 2])
    ensures r.Err? ==> StackPopDouble(m.stack) == Err(r.fault)
  {
    var p :- StackPopDouble(m.stack);
    Ok((p.0, m.(stack := p.1)))
  }

  /** popArray(frame) */
  function PopArray(m: Machine): (r: Result<(Ref, Machine)>)
    requires MachineWellFormed(m)
    ensures r.Ok? ==> StackPopArray(m.stack) == Ok((r.value.0, r.value.1.stack)) && RefInHeap(r.value.0, |m.arrays|)
    ensures r.Ok? ==> MachineWellFormed(r.value.1) && r.value.1 == m.(stack := m.stack[..|m.stack| - 1])
    ensures r.Err? ==> StackPopArray(m.stack) == Err(r.fault)
  {
    var p :- StackPopArray(m.stack);
    Ok((p.0, m.(stack := p.1)))
  }

  /** getParamsVal: the top n slots, the deepest first. */
  function PopParams(m: Machine, n: nat): (r: Result<(seq<Slot>, Machine)>)
    requires MachineWellFormed(m)
    ensures r.Ok? <==> n <= |m.stack|
    ensures r.Ok? ==> r.value.1.stack + r.value.0 == m.stack && |r.value.0| == n
    ensures r.Ok? ==> MachineWellFormed(r.value.1) && r.value.1 == m.(stack := m.stack[..|m.stack| - n])
    ensures r.Err? ==> r.fault == EmptyStack
  {
    if n > |m.stack| then Err(EmptyStack)
    else Ok((m.stack[|m.stack| - n..], m.(stack := m.stack[..|m.stack| - n])))
  }

  function Continue(m: Machine): Result<(Machine, Effect)>
  {
    Ok((m, Next))
  }

  /** The default branch of the switch: an opcode the interpreter has no case for. */
  function Unhandled(op: Op): (r: Result<(Machine, Effect)>)
  {
    Err(InvalidOpcode(Code(op)))
  }

  /** The cursor after a branch: code.inc(operand - 3) from just past the operand lands at start + operand. */
  function BranchTarget(start: int, operand: int, taken: bool): int
  {
    if taken then start + operand else start + 3
  }

  /* ----------------------------------------------------------------- */
  /* One instruction                                                   */
  /* ----------------------------------------------------------------- */

  /** Whether the instruction may write the locals table. */
  predicate WritesLocals(op: Op)
  {
    op.Store? || op == Math(IINC)
  }

  /**
   * One turn of the loop in run: the opcode at the cursor, then its case of
   * the switch; a byte that is no opcode falls to the default case.
   */
  function Step(ctx: Context, m: Machine): (r: Result<(Machine, Effect)>)
    requires MachineWellFormed(m)
    ensures r.Ok? ==> Evolves(m, r.value.0)
    ensures !(0 <= m.pc < |ctx.codes|) ==> r == Err(IndexOutOfBounds)
    ensures 0 <= m.pc < |ctx.codes| && Decode(ctx.codes[m.pc]).None? ==> r == Err(InvalidOpcode(ctx.codes[m.pc]))
  {
    var c :- U1(ctx.codes, m.pc);
    match Decode(c)
    case None => Err(InvalidOpcode(c))
    case Some(op) => Instruction(ctx, m, op)
  }

  /**
   * The case of the switch for op, on the machine at the start of the
   * instruction. Each case is given the machine with its cursor just past the
   * opcode, and branches also the instruction's start.
   */
  function Instruction(ctx: Context, m: Machine, op: Op): (r: Result<(Machine, Effect)>)
    requires MachineWellFormed(m)
    ensures r.Ok? ==> Evolves(m, r.value.0)
    ensures r.Ok? && !WritesLocals(op) ==> r.value.0.locals == m.locals
  {
    var next := m.(pc := m.pc + 1);
    match op
    case Constant(x) => StepConstant(ctx, next, x)
    case Load(x) => StepLoad(ctx, next, x)
    case Store(x) => StepStore(ctx, next, x)
    case Stack(x) => StepStack(next, x)
    case Math(x) => StepMath(ctx, next, x)
    case Conversion(x) => StepConversion(ctx, next, x)
    case Comparison(x) => StepComparison(ctx, next, m.pc, x)
    case Control(x) => StepControl(ctx, next, m.pc, x)
    case Reference(x) => StepReference(ctx, next, x)
    case Extended(x) => StepExtended(ctx, next, m.pc, x)
  }

  /** The four-byte images of 0.0f, 1.0f and 2.0f. */
  const FLOAT_ZERO: FloatImage := [0, 0, 0, 0]
  const FLOAT_ONE: FloatImage := [0x3F, 0x80, 0, 0]
  const FLOAT_TWO: FloatImage := [0x40, 0, 0, 0]

  function PushInt(m: Machine, v: int): (r: Result<(Machine, Effect)>)
    requires MachineWellFormed(m) && IsInt32(v)
  {
    Continue(Push(m, [Some(OfInt(T_INT, v))]))
  }

  function StepConstant(ctx: Context, m: Machine, op: ConstantOp): (r: Result<(Machine, Effect)>)
    requires MachineWellFormed(m)
    ensures r.Ok? ==> Evolves(m, r.value.0) && r.value.0.locals == m.locals && r.value.1 == Next
  {
    match op
    case ACONST_NULL => Continue(Push(m, [Some(OfObject(T_OBJECT, NullRef))]))
    case ICONST_0 => PushInt(m, 0)
    case ICONST_1 => PushInt(m, 1)
    case ICONST_2 => PushInt(m, 2)
    case ICONST_3 => PushInt(m, 3)
    case ICONST_4 => PushInt(m, 4)
    case ICONST_5 => PushInt(m, 5)
    case LCONST_0 => Continue(Push(m, [Some(OfLong(T_LONG, 0))]))
    case LCONST_1 => Continue(Push(m, [Some(OfLong(T_LONG, 1))]))
    case FCONST_0 => Continue(Push(m, [Some(OfFloat(T_FLOAT, FLOAT_ZERO))]))
    case FCONST_1 => Continue(Push(m, [Some(OfFloat(T_FLOAT, FLOAT_ONE))]))
    case FCONST_2 => Continue(Push(m, [Some(OfFloat(T_FLOAT, FLOAT_TWO))]))
    case DCONST_0 => Continue(Push(m, DoubleSlots(0)))
    case DCONST_1 => Continue(Push(m, DoubleSlots(ONE_IMAGE)))
    case BIPUSH =>
      var v :- U1(ctx.codes, m.pc);
      PushInt(m.(pc := m.pc + 1), v)
    case LDC => LoadConstant(ctx, m)
    case LDC2_W => LoadWideConstant(ctx, m)
    case _ => Unhandled(Constant(op))
  }

  /**
   * LDC: a Float entry is pushed as a float; a String entry holds the index
   * of its Utf8 entry, whose string (or null, when there is none) is pushed as
   * an object; a Class entry, and any other tag, pushes nothing.
   */
  function LoadConstant(ctx: Context, m: Machine): (r: Result<(Machine, Effect)>)
    requires MachineWellFormed(m)
    ensures r.Ok? ==> Evolves(m, r.value.0) && r.value.0.locals == m.locals && r.value.1 == Next
  {
    var operand :- U1(ctx.codes, m.pc);
    var m1 := m.(pc := m.pc + 1);
    var tag :- ElementAt(ctx.tags, operand);
    if tag == CONSTANT_Float then
      var bits :- FloatConstant(ctx.data, operand);
      Continue(Push(m1, [Some(OfFloat(T_FLOAT, bits))]))
    else if tag == CONSTANT_String then
      var index :- IntegerAt(ctx.data, operand);
      var content :- CastString(ctx.data, index);
      Continue(Push(m1, [Some(OfObject(T_OBJECT, if content.Some? then StringRef(content.value) else NullRef))]))
    else
      Continue(m1)
  }

  /** LDC2_W: a Long entry is pushed as a long and a Double entry as two slots; any other tag throws. */
  function LoadWideConstant(ctx: Context, m: Machine): (r: Result<(Machine, Effect)>)
    requires MachineWellFormed(m)
    ensures r.Ok? ==> Evolves(m, r.value.0) && r.value.0.locals == m.locals && r.value.1 == Next
  {
    var operand :- S2(ctx.codes, m.pc);
    var m1 := m.(pc := m.pc + 2);
    var tag :- ElementAt(ctx.tags, operand);
    if tag == CONSTANT_Long then
      var l :- LongConstant(ctx.data, operand);
      Continue(Push(m1, [Some(OfLong(T_LONG, l))]))
    else if tag == CONSTANT_Double then
      var image :- DoubleConstant(ctx.data, operand);
      Pow256Widths();
      Continue(Push(m1, DoubleSlots(FromBE(image))))
    else
      Err(UnknownFormat)
  }

  /** get(n) on the locals, then push. */
  function LoadSlot(m: Machine, n: int): (r: Result<(Machine, Effect)>)
    requires MachineWellFormed(m)
    ensures r.Ok? <==> 0 <= n < |m.locals|
    ensures r.Ok? ==> r.value == (m.(stack := m.stack + [m.locals[n]]), Next)
    ensures r.Ok? ==> MachineWellFormed(r.value.0)
    ensures r.Err? ==> r.fault == IndexOutOfBounds
  {
    var v :- ElementAt(m.locals, n);
    Continue(Push(m, [v]))
  }

  /** get(n) and get(n + 1) on the locals, then both pushed in that order. */
  function LoadPair(m: Machine, n: int): (r: Result<(Machine, Effect)>)
    requires MachineWellFormed(m)
    ensures r.Ok? <==> 0 <= n && n + 1 < |m.locals|
    ensures r.Ok? ==> r.value == (m.(stack := m.stack + [m.locals[n], m.locals[n + 1]]), Next)
    ensures r.Ok? ==> MachineWellFormed(r.value.0)
    ensures r.Err? ==> r.fault == IndexOutOfBounds
  {
    var v1 :- ElementAt(m.locals, n);
    var v2 :- ElementAt(m.locals, n + 1);
    Continue(Push(m, [v1, v2]))
  }

  /** (array) BALOAD: pops the index, then the array. */
  function ByteArrayLoad(m: Machine): (r: Result<(Machine, Effect)>)
    requires MachineWellFormed(m)
    ensures r.Ok? ==> Evolves(m, r.value.0) && r.value.0.locals == m.locals && r.value.1 == Next
  {
    var p1 :- Pop(m);
    var index :- ValOf(p1.0);
    var p2 :- PopArray(p1.1);
    var addr :- Deref(m.arrays, p2.0);
    var a := m.arrays[addr];
    if index > Int32(a.size - 1) then Err(ArrayBounds)
    else if !(0 <= index < |a.data|) then Err(IndexOutOfBounds)
    else PushInt(p2.1, a.data[index])
  }

  function StepLoad(ctx: Context, m: Machine, op: LoadOp): (r: Result<(Machine, Effect)>)
    requires MachineWellFormed(m)
    ensures r.Ok? ==> Evolves(m, r.value.0) && r.value.0.locals == m.locals && r.value.1 == Next
  {
    match op
    case ILOAD =>
      var index :- U1(ctx.codes, m.pc);
      LoadSlot(m.(pc := m.pc + 1), index)
    case DLOAD =>
      var index :- U1(ctx.codes, m.pc);
      LoadPair(m.(pc := m.pc + 1), index)
    case ILOAD_0 => LoadSlot(m, 0)
    case ILOAD_1 => LoadSlot(m, 1)
    case ILOAD_2 => LoadSlot(m, 2)
    case ILOAD_3 => LoadSlot(m, 3)
    case LLOAD_0 => LoadSlot(m, 0)
    case LLOAD_1 => LoadSlot(m, 1)
    case LLOAD_2 => LoadSlot(m, 2)
    case LLOAD_3 => LoadSlot(m, 3)
    case FLOAD_0 => LoadSlot(m, 0)
    case FLOAD_1 => LoadSlot(m, 1)
    case FLOAD_2 => LoadSlot(m, 2)
    case DLOAD_0 => LoadPair(m, 0)
    case DLOAD_1 => LoadPair(m, 1)
    case DLOAD_2 => LoadPair(m, 2)
    case ALOAD_0 => LoadSlot(m, 0)
    case ALOAD_1 => LoadSlot(m, 1)
    case BALOAD => ByteArrayLoad(m)
    case _ => Unhandled(Load(op))
  }

  /** pop, then add(n, value) on the locals. */
  function StoreSlot(m: Machine, n: int): (r: Result<(Machine, Effect)>)
    requires MachineWellFormed(m)
    ensures r.Ok? <==> m.stack != [] && 0 <= n < |m.locals|
    ensures r.Ok? ==> r.value.1 == Next && MachineWellFormed(r.value.0)
    ensures r.Ok? ==> r.value.0 == m.(stack := m.stack[..|m.stack| - 1], locals := m.locals[n := m.stack[|m.stack| - 1]])
    ensures r.Err? ==> r.fault == if m.stack == [] then EmptyStack else IndexOutOfBounds
  {
    var p :- Pop(m);
    var locals :- LocalSet(p.1.locals, n, p.0);
    Continue(p.1.(locals := locals))
  }

  /** popDouble2, then add(n, values[1]) and add(n + 1, values[0]): the deeper slot goes to n. */
  function StorePair(m: Machine, n: int): (r: Result<(Machine, Effect)>)
    requires MachineWellFormed(m)
    ensures r.Ok? <==> |m.stack| >= 2 && 0 <= n && n + 1 < |m.locals|
    ensures r.Ok? ==> r.value.1 == Next && MachineWellFormed(r.value.0)
    ensures r.Ok? ==> r.value.0 == m.(stack := m.stack[..|m.stack| - 2],
                                      locals := m.locals[n := m.stack[|m.stack| - 2]][n + 1 := m.stack[|m.stack| - 1]])
  {
    var values :- StackPopDouble2(m.stack);
    var rest := m.(stack := values.1);
    var l1 :- LocalSet(rest.locals, n, values.0[1]);
    var l2 :- LocalSet(l1, n + 1, values.0[0]);
    Continue(rest.(locals := l2))
  }

  /** BASTORE: pops the value, the index and the array; an index past the element list appends. */
  function ByteArrayStore(m: Machine): (r: Result<(Machine, Effect)>)
    requires MachineWellFormed(m)
    ensures r.Ok? ==> Evolves(m, r.value.0) && r.value.0.locals == m.locals && r.value.1 == Next
  {
    var p1 :- Pop(m);
    var val :- ValOf(p1.0);
    var p2 :- Pop(p1.1);
    var index :- ValOf(p2.0);
    var p3 :- Pop(p2.1);
    var obj :- if p3.0.None? then Err(NullPointer) else Ok(p3.0.value.obj);
    var addr :- Deref(m.arrays, obj);
    var a := m.arrays[addr];
    if index > Int32(a.size - 1) then Err(ArrayBounds)
    else
      var data := if 0 <= index < |a.data| then a.data[index := val] else a.data + [val];
      Continue(p3.1.(arrays := m.arrays[addr := a.(data := data)]))
  }

  function StepStore(ctx: Context, m: Machine, op: StoreOp): (r: Result<(Machine, Effect)>)
    requires MachineWellFormed(m)
    ensures r.Ok? ==> Evolves(m, r.value.0) && r.value.1 == Next
  {
    match op
    case ISTORE =>
      var index :- U1(ctx.codes, m.pc);
      StoreSlot(m.(pc := m.pc + 1), index)
    case DSTORE =>
      var index :- U1(ctx.codes, m.pc);
      StorePair(m.(pc := m.pc + 1), index)
    case ISTORE_0 => StoreSlot(m, 0)
    case ISTORE_1 => StoreSlot(m, 1)
    case ISTORE_2 => StoreSlot(m, 2)
    case ISTORE_3 => StoreSlot(m, 3)
    case LSTORE_0 => StoreSlot(m, 0)
    case LSTORE_1 => StoreSlot(m, 1)
    case LSTORE_2 => StoreSlot(m, 2)
    case LSTORE_3 => StoreSlot(m, 3)
    case FSTORE_0 => StoreSlot(m, 0)
    case FSTORE_1 => StoreSlot(m, 1)
    case FSTORE_2 => StoreSlot(m, 2)
    case DSTORE_0 => StorePair(m, 0)
    case DSTORE_1 => StorePair(m, 1)
    case DSTORE_2 => StorePair(m, 2)
    case ASTORE_0 => StoreSlot(m, 0)
    case ASTORE_1 => StoreSlot(m, 1)
    case BASTORE => ByteArrayStore(m)
    case _ => Unhandled(Store(op))
  }

  function StepStack(m: Machine, op: StackOp): (r: Result<(Machine, Effect)>)
    requires MachineWellFormed(m)
    ensures r.Ok? ==> Evolves(m, r.value.0) && r.value.0.locals == m.locals && r.value.1 == Next
  {
    var top :- StackPeek(m.stack);
    match op
    case DUP => Continue(Push(m, [top]))
    case DUP2 =>
      if top.None? then Err(NullPointer)
      else if top.value.tag == T_DOUBLE then
        var d :- PopDouble(m);
        Continue(Push(d.1, DoubleSlots(d.0) + DoubleSlots(d.0)))
      else if top.value.tag == T_LONG then Continue(Push(m, [top]))
      else Err(UnknownType)
  }

  /* ----------------------------------------------------------------- */
  /* Arithmetic                                                        */
  /* ----------------------------------------------------------------- */

  datatype Arith = Add | Sub | Mul | Div | Rem

  /** The arithmetic of an opcode of the int, long, float or double column. */
  function ArithOf(op: MathOp): Arith
  {
    match op
    case IADD | LADD | FADD | DADD => Add
    case ISUB | LSUB | FSUB | DSUB => Sub
    case IMUL | LMUL | FMUL | DMUL => Mul
    case IDIV | LDIV | FDIV | DDIV => Div
    case _ => Rem
  }

  /** The exact result of second op top, with the quotient rounded toward zero. */
  function Exact(k: Arith, second: int, top: int): int
    requires k in {Div, Rem} ==> top != 0
  {
    match k
    case Add => second + top
    case Sub => second - top
    case Mul => second * top
    case Div => TruncDiv(second, top)
    case Rem => TruncRem(second, top)
  }

  /**
   * Java int arithmetic on value1 (popped first) and value2: the sum and
   * product as value1 op value2, the difference, quotient and remainder as
   * value2 op value1, each wrapped to 32 bits; a zero divisor throws.
   */
  function IntArith(k: Arith, value1: int, value2: int): (r: Result<int>)
    requires IsInt32(value1) && IsInt32(value2)
    ensures r.Err? <==> k in {Div, Rem} && value1 == 0
    ensures r.Err? ==> r.fault == Arithmetic
    ensures r.Ok? ==> IsInt32(r.value) && (r.value - Exact(k, value2, value1)) % TWO_32 == 0
  {
    match k
    case Add => Ok(Int32(value1 + value2))
    case Sub => Ok(Int32(value2 - value1))
    case Mul => Ok(Int32(value1 * value2))
    case Div => if value1 == 0 then Err(Arithmetic) else Ok(Int32(TruncDiv(value2, value1)))
    case Rem => if value1 == 0 then Err(Arithmetic) else Ok(Int32(TruncRem(value2, value1)))
  }

  /** The same on Java longs, wrapped to 64 bits. */
  function LongArith(k: Arith, value1: int, value2: int): (r: Result<int>)
    requires IsInt64(value1) && IsInt64(value2)
    ensures r.Err? <==> k in {Div, Rem} && value1 == 0
    ensures r.Err? ==> r.fault == Arithmetic
    ensures r.Ok? ==> IsInt64(r.value) && (r.value - Exact(k, value2, value1)) % TWO_64 == 0
  {
    match k
    case Add => Ok(Int64(value1 + value2))
    case Sub => Ok(Int64(value2 - value1))
    case Mul => Ok(Int64(value1 * value2))
    case Div => if value1 == 0 then Err(Arithmetic) else Ok(Int64(TruncDiv(value2, value1)))
    case Rem => if value1 == 0 then Err(Arithmetic) else Ok(Int64(TruncRem(value2, value1)))
  }

  /** Pops value1 then value2, and checks that both carry tag t. */
  function PopTwo(m: Machine, t: BasicType): (r: Result<(StackValue, StackValue, Machine)>)
    requires MachineWellFormed(m)
    ensures r.Ok? ==> |m.stack| >= 2 && r.value.2 == m.(stack := m.stack[..|m.stack| - 2]) && MachineWellFormed(r.value.2)
    ensures r.Ok? ==> Some(r.value.0) == m.stack[|m.stack| - 1] && Some(r.value.1) == m.stack[|m.stack| - 2]
    ensures r.Ok? ==> WellFormed(r.value.0) && WellFormed(r.value.1) && r.value.0.tag == t && r.value.1.tag == t
  {
    var p1 :- Pop(m);
    var p2 :- Pop(p1.1);
    var values :- BothTagged(p1.0, p2.0, t);
    Ok((values.0, values.1, p2.1))
  }

  function IntBinary(m: Machine, op: MathOp): (r: Result<(Machine, Effect)>)
    requires MachineWellFormed(m)
    ensures r.Ok? ==> Evolves(m, r.value.0) && r.value.0.locals == m.locals && r.value.1 == Next
  {
    var values :- PopTwo(m, T_INT);
    var v :- IntArith(ArithOf(op), values.0.val, values.1.val);
    PushInt(values.2, v)
  }

  function LongBinary(m: Machine, op: MathOp): (r: Result<(Machine, Effect)>)
    requires MachineWellFormed(m)
    ensures r.Ok? ==> Evolves(m, r.value.0) && r.value.0.locals == m.locals && r.value.1 == Next
  {
    var values :- PopTwo(m, T_LONG);
    var v :- LongArith(ArithOf(op), BytesToLong(values.0.data.value), BytesToLong(values.1.data.value));
    Continue(Push(values.2, [Some(OfLong(T_LONG, v))]))
  }

  function FloatBinary(ctx: Context, m: Machine, op: MathOp): (r: Result<(Machine, Effect)>)
    requires MachineWellFormed(m)
    ensures r.Ok? ==> Evolves(m, r.value.0) && r.value.0.locals == m.locals && r.value.1 == Next
  {
    var values :- PopTwo(m, T_FLOAT);
    var v := ctx.host.floatArith(op, values.0.data.value, values.1.data.value);
    Continue(Push(values.2, [Some(OfFloat(T_FLOAT, v))]))
  }

  function DoubleBinary(ctx: Context, m: Machine, op: MathOp): (r: Result<(Machine, Effect)>)
    requires MachineWellFormed(m)
    ensures r.Ok? ==> Evolves(m, r.value.0) && r.value.0.locals == m.locals && r.value.1 == Next
  {
    var d1 :- PopDouble(m);
    var d2 :- PopDouble(d1.1);
    var v := ctx.host.doubleArith(op, d1.0, d2.0);
    Continue(Push(d2.1, DoubleSlots(v)))
  }

  /** IINC: the local at index, which must hold an int, plus the signed step, wrapped. */
  function Increment(ctx: Context, m: Machine): (r: Result<(Machine, Effect)>)
    requires MachineWellFormed(m)
    ensures r.Ok? ==> Evolves(m, r.value.0) && r.value.1 == Next
  {
    var index :- U1(ctx.codes, m.pc);
    var step :- S1(ctx.codes, m.pc + 1);
    var slot :- ElementAt(m.locals, index);
    var i :- IntOf(slot);
    Continue(m.(pc := m.pc + 2, locals := m.locals[index := Some(OfInt(T_INT, Int32(i + step)))]))
  }

  function StepMath(ctx: Context, m: Machine, op: MathOp): (r: Result<(Machine, Effect)>)
    requires MachineWellFormed(m)
    ensures r.Ok? ==> Evolves(m, r.value.0) && r.value.1 == Next
    ensures r.Ok? && op != IINC ==> r.value.0.locals == m.locals
  {
    match op
    case IADD | ISUB | IMUL | IDIV | IREM => IntBinary(m, op)
    case LADD | LSUB | LMUL | LDIV | LREM => LongBinary(m, op)
    case FADD | FSUB | FMUL | FDIV | FREM => FloatBinary(ctx, m, op)
    case DADD | DSUB | DMUL | DDIV | DREM => DoubleBinary(ctx, m, op)
    case IINC => Increment(ctx, m)
  }

  /* ----------------------------------------------------------------- */
  /* Conversions                                                       */
  /* ----------------------------------------------------------------- */

  function PushLong(m: Machine, v: int): (r: Result<(Machine, Effect)>)
    requires MachineWellFormed(m) && IsInt64(v)
  {
    Continue(Push(m, [Some(OfLong(T_LONG, v))]))
  }

  function PushFloat(m: Machine, bits: FloatImage): (r: Result<(Machine, Effect)>)
    requires MachineWellFormed(m)
  {
    Continue(Push(m, [Some(OfFloat(T_FLOAT, bits))]))
  }

  function PushDouble(m: Machine, image: DoubleBits): (r: Result<(Machine, Effect)>)
    requires MachineWellFormed(m)
  {
    Continue(Push(m, DoubleSlots(image)))
  }

  function StepConversion(ctx: Context, m: Machine, op: ConversionOp): (r: Result<(Machine, Effect)>)
    requires MachineWellFormed(m)
    ensures r.Ok? ==> Evolves(m, r.value.0) && r.value.0.locals == m.locals && r.value.1 == Next
  {
    var h := ctx.host;
    match op
    case I2L => var p :- Pop(m); var i :- IntOf(p.0); PushLong(p.1, i)
    case I2F => var p :- Pop(m); var i :- IntOf(p.0); PushFloat(p.1, h.toFloat(op, i))
    case I2D => var p :- Pop(m); var i :- ValOf(p.0); PushDouble(p.1, h.toDouble(op, i))
    case L2I => var p :- Pop(m); var l :- LongOf(p.0); PushInt(p.1, Int32(l))
    case L2F => var p :- Pop(m); var l :- LongOf(p.0); PushFloat(p.1, h.toFloat(op, l))
    case L2D => var p :- Pop(m); var l :- LongOf(p.0); PushDouble(p.1, h.toDouble(op, l))
    case F2I => var p :- Pop(m); var f :- FloatOf(p.0); PushInt(p.1, h.toInt(op, FromBE(f)))
    case F2L => var p :- Pop(m); var f :- FloatOf(p.0); PushLong(p.1, h.toLong(op, FromBE(f)))
    case F2D => var p :- Pop(m); var f :- FloatOf(p.0); PushDouble(p.1, h.toDouble(op, FromBE(f)))
    case D2I => var d :- PopDouble(m); PushInt(d.1, h.toInt(op, d.0))
    case D2L => var d :- PopDouble(m); PushLong(d.1, h.toLong(op, d.0))
    case D2F => var d :- PopDouble(m); PushFloat(d.1, h.toFloat(op, d.0))
    case I2B => var p :- Pop(m); var i :- IntOf(p.0); PushInt(p.1, Int8(i))
    case I2C => var p :- Pop(m); var i :- IntOf(p.0); PushInt(p.1, Uint16(i))
    case I2S => var p :- Pop(m); var i :- IntOf(p.0); PushInt(p.1, Int16(i))
  }

  /* ----------------------------------------------------------------- */
  /* Comparisons and control                                           */
  /* ----------------------------------------------------------------- */

  /** LCMP as written: l1 is popped first, and 1 is pushed when l1 > l2. */
  function LongCompare(l1: int, l2: int): (r: int)
    ensures r in {-1, 0, 1}
    ensures r == 1 <==> l1 > l2
    ensures r == 0 <==> l1 == l2
    ensures r == -1 <==> l1 < l2
  {
    if l1 > l2 then 1 else if l1 == l2 then 0 else -1
  }

  /** The condition of IFEQ ... IFLE on the popped int. */
  predicate ZeroTest(op: ComparisonOp, i: int)
  {
    match op
    case IFEQ => i == 0
    case IFNE => i != 0
    case IFLT => i < 0
    case IFGE => i >= 0
    case IFGT => i > 0
    case _ => i <= 0
  }

  /** The condition of IF_ICMPxx on value1 (popped first) and value2. */
  predicate PairTest(op: ComparisonOp, value1: int, value2: int)
  {
    match op
    case IF_ICMPEQ => value1 == value2
    case IF_ICMPNE => value1 != value2
    case IF_ICMPGE => value2 >= value1
    case IF_ICMPGT => value2 > value1
    case _ => value2 <= value1
  }

  /** LCMP: l1 popped first, then l2, each unboxed as it is popped. */
  function CompareLongs(m: Machine): (r: Result<(Machine, Effect)>)
    requires MachineWellFormed(m)
    ensures r.Ok? ==> Evolves(m, r.value.0) && r.value.0.locals == m.locals && r.value.1 == Next
  {
    var p1 :- Pop(m);
    var l1 :- LongOf(p1.0);
    var p2 :- Pop(p1.1);
    var l2 :- LongOf(p2.0);
    PushInt(p2.1, LongCompare(l1, l2))
  }

  /** IFEQ ... IFLE: the popped value is unboxed as an int before the operand is read. */
  function BranchOnInt(ctx: Context, m: Machine, start: int, op: ComparisonOp): (r: Result<(Machine, Effect)>)
    requires MachineWellFormed(m)
    ensures r.Ok? ==> Evolves(m, r.value.0) && r.value.0.locals == m.locals && r.value.1 == Next
  {
    var p :- Pop(m);
    var i :- IntOf(p.0);
    var operand :- S2(ctx.codes, m.pc);
    Continue(p.1.(pc := BranchTarget(start, operand, ZeroTest(op, i))))
  }

  /** IF_ICMPxx: both values are popped and the operand read before their types are checked. */
  function BranchOnInts(ctx: Context, m: Machine, start: int, op: ComparisonOp): (r: Result<(Machine, Effect)>)
    requires MachineWellFormed(m)
    ensures r.Ok? ==> Evolves(m, r.value.0) && r.value.0.locals == m.locals && r.value.1 == Next
  {
    var p1 :- Pop(m);
    var p2 :- Pop(p1.1);
    var operand :- S2(ctx.codes, m.pc);
    var values :- BothTagged(p1.0, p2.0, T_INT);
    Continue(p2.1.(pc := BranchTarget(start, operand, PairTest(op, values.0.val, values.1.val))))
  }

  function StepComparison(ctx: Context, m: Machine, start: int, op: ComparisonOp): (r: Result<(Machine, Effect)>)
    requires MachineWellFormed(m)
    ensures r.Ok? ==> Evolves(m, r.value.0) && r.value.0.locals == m.locals && r.value.1 == Next
  {
    match op
    case LCMP => CompareLongs(m)
    case IFEQ | IFNE | IFLT | IFGE | IFGT | IFLE => BranchOnInt(ctx, m, start, op)
    case IF_ICMPEQ | IF_ICMPNE | IF_ICMPGE | IF_ICMPGT | IF_ICMPLE => BranchOnInts(ctx, m, start, op)
    case _ => Unhandled(Comparison(op))
  }

  function StepControl(ctx: Context, m: Machine, start: int, op: ControlOp): (r: Result<(Machine, Effect)>)
    requires MachineWellFormed(m)
    ensures r.Ok? ==> Evolves(m, r.value.0) && r.value.0.locals == m.locals && r.value.1 in {Next, PopFrame}
  {
    match op
    case GOTO =>
      var operand :- S2(ctx.codes, m.pc);
      Continue(m.(pc := start + operand))
    case RETURN => Ok((m, PopFrame))
    case _ => Unhandled(Control(op))
  }

  /* ----------------------------------------------------------------- */
  /* References                                                        */
  /* ----------------------------------------------------------------- */

  function StepReference(ctx: Context, m: Machine, op: ReferenceOp): (r: Result<(Machine, Effect)>)
    requires MachineWellFormed(m)
    ensures r.Ok? ==> Evolves(m, r.value.0) && r.value.0.locals == m.locals
  {
    var h := ctx.host;
    match op
    case GETSTATIC =>
      var operand :- S2(ctx.codes, m.pc);
      var m1 := m.(pc := m.pc + 2);
      var ref :- MemberRefAt(ctx.data, operand);
      var field :- h.staticField(ref);
      if field.None? then Continue(m1)
      else Continue(Push(m1, [Some(OfObject(T_OBJECT, field.value))]))
    case INVOKESTATIC =>
      var operand :- S2(ctx.codes, m.pc);
      var m1 := m.(pc := m.pc + 2);
      var ref :- MemberRefAt(ctx.data, operand);
      if IsHostClass(ref.className) then
        var params :- PopParams(m1, h.parameterSlots(ref.descriptor));
        var result :- h.invokeStatic(ref, params.0);
        Continue(Push(params.1, ResultSlots(result)))
      else
        Ok((m1, CallStatic(ref)))
    case INVOKEVIRTUAL =>
      var operand :- S2(ctx.codes, m.pc);
      var m1 := m.(pc := m.pc + 2);
      var ref :- MemberRefAt(ctx.data, operand);
      if IsHostClass(ref.className) then
        var params :- PopParams(m1, h.parameterSlots(ref.descriptor));
        var receiver :- Pop(params.1);
        if receiver.0.None? || receiver.0.value.obj.NullRef? then Err(NullPointer)
        else
          var result :- h.invokeVirtual(ref, receiver.0.value.obj, params.0);
          Continue(Push(receiver.1, ResultSlots(result)))
      else
        Continue(m1)
    case NEWARRAY =>
      var p :- Pop(m);
      var size :- ValOf(p.0);
      var arrType :- U1(ctx.codes, m.pc);
      var grown := p.1.(pc := m.pc + 1, arrays := m.arrays + [ArrayOop(arrType, size, [])]);
      Continue(Push(grown, [Some(OfObject(T_ARRAY, ArrayRef(|m.arrays|)))]))
    case ARRAYLENGTH =>
      var p :- PopArray(m);
      var addr :- Deref(m.arrays, p.0);
      PushInt(p.1, m.arrays[addr].size)
    case _ => Unhandled(Reference(op))
  }

  /** IFNONNULL: the operand is read first; the branch is taken when getData() is not null. */
  function StepExtended(ctx: Context, m: Machine, start: int, op: ExtendedOp): (r: Result<(Machine, Effect)>)
    requires MachineWellFormed(m)
    ensures r.Ok? ==> Evolves(m, r.value.0) && r.value.0.locals == m.locals && r.value.1 == Next
  {
    var operand :- S2(ctx.codes, m.pc);
    var p :- Pop(m);
    if p.0.None? then Err(NullPointer)
    else Continue(p.1.(pc := BranchTarget(start, operand, !GetData(p.0.value).NoData?)))
  }
}
