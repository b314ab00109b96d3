/**
 * The opcode table: every opcode the interpreter names, with its byte value.
 *
 * The values are those of section 6.5 of The Java Virtual Machine
 * Specification. The table in interpreter/Bytecodes.java declares a subset of
 * them (NOP through CHECKCAST, with gaps); the interpreter also dispatches on
 * opcodes that table does not declare (LCONST_0, ISUB, LCMP, IFEQ, ...), and
 * those carry their JVMS §6.5 values here. Opcodes are grouped in the
 * families of chapter 7 of that specification ("Opcode Mnemonics by Opcode").
 */
module Bytecodes {
  import opened Wrappers

  /** The value Bytecodes.ILLEGAL gives to "no opcode"; no byte decodes to it. */
  const ILLEGAL: int := -1

  datatype Op =
    | Constant(constant: ConstantOp)
    | Load(load: LoadOp)
    | Store(store: StoreOp)
    | Stack(stackOp: StackOp)
    | Math(math: MathOp)
    | Conversion(conversion: ConversionOp)
    | Comparison(comparison: ComparisonOp)
    | Control(control: ControlOp)
    | Reference(reference: ReferenceOp)
    | Extended(extended: ExtendedOp)

  /** The constants (JVMS chapter 7, 0x00-0x14). */
  datatype ConstantOp =
    | NOP
    | ACONST_NULL
    | ICONST_0
    | ICONST_1
    | ICONST_2
    | ICONST_3
    | ICONST_4
    | ICONST_5
    | LCONST_0
    | LCONST_1
    | FCONST_0
    | FCONST_1
    | FCONST_2
    | DCONST_0
    | DCONST_1
    | BIPUSH
    | SIPUSH
    | LDC
    | LDC_W
    | LDC2_W

  /** The loads (0x15-0x35). */
  datatype LoadOp =
    | ILOAD
    | DLOAD
    | ILOAD_0
    | ILOAD_1
    | ILOAD_2
    | ILOAD_3
    | LLOAD_0
    | LLOAD_1
    | LLOAD_2
    | LLOAD_3
    | FLOAD_0
    | FLOAD_1
    | FLOAD_2
    | FLOAD_3
    | DLOAD_0
    | DLOAD_1
    | DLOAD_2
    | DLOAD_3
    | ALOAD_0
    | ALOAD_1
    | ALOAD_2
    | ALOAD_3
    | IALOAD
    | LALOAD
    | FALOAD
    | DALOAD
    | AALOAD
    | BALOAD
    | CALOAD
    | SALOAD

  /** The stores (0x36-0x56). */
  datatype StoreOp =
    | ISTORE
    | DSTORE
    | ISTORE_0
    | ISTORE_1
    | ISTORE_2
    | ISTORE_3
    | LSTORE_0
    | LSTORE_1
    | LSTORE_2
    | LSTORE_3
    | FSTORE_0
    | FSTORE_1
    | FSTORE_2
    | FSTORE_3
    | DSTORE_0
    | DSTORE_1
    | DSTORE_2
    | DSTORE_3
    | ASTORE_0
    | ASTORE_1
    | ASTORE_2
    | ASTORE_3
    | IASTORE
    | LASTORE
    | FASTORE
    | DASTORE
    | AASTORE
    | BASTORE

  /** The operand-stack management (0x57-0x5f). */
  datatype StackOp =
    DUP | DUP2

  /** The arithmetic (0x60-0x84). */
  datatype MathOp =
    | IADD
    | LADD
    | FADD
    | DADD
    | ISUB
    | LSUB
    | FSUB
    | DSUB
    | IMUL
    | LMUL
    | FMUL
    | DMUL
    | IDIV
    | LDIV
    | FDIV
    | DDIV
    | IREM
    | LREM
    | FREM
    | DREM
    | IINC

  /** The conversions (0x85-0x93). */
  datatype ConversionOp =
    | I2L
    | I2F
    | I2D
    | L2I
    | L2F
    | L2D
    | F2I
    | F2L
    | F2D
    | D2I
    | D2L
    | D2F
    | I2B
    | I2C
    | I2S

  /** The comparisons (0x94-0xa6). */
  datatype ComparisonOp =
    | LCMP
    | IFEQ
    | IFNE
    | IFLT
    | IFGE
    | IFGT
    | IFLE
    | IF_ICMPEQ
    | IF_ICMPNE
    | IF_ICMPLT
    | IF_ICMPGE
    | IF_ICMPGT
    | IF_ICMPLE
    | IF_ACMPEQ
    | IF_ACMPNE

  /** The control (0xa7-0xb1). */
  datatype ControlOp =
    GOTO | IRETURN | ARETURN | RETURN

  /** The references (0xb2-0xc3). */
  datatype ReferenceOp =
    | GETSTATIC
    | PUTSTATIC
    | GETFIELD
    | PUTFIELD
    | INVOKEVIRTUAL
    | INVOKESPECIAL
    | INVOKESTATIC
    | INVOKEINTERFACE
    | INVOKEDYNAMIC
    | NEW
    | NEWARRAY
    | ANEWARRAY
    | ARRAYLENGTH
    | ATHROW
    | CHECKCAST

  /** The extended (0xc4-0xc9). */
  datatype ExtendedOp =
    IFNONNULL

  /** The byte that encodes an opcode. */
  function Code(op: Op): (b: int)
    ensures 0 <= b < 256 && b != ILLEGAL
  {
    match op
    case Constant(x) => ConstantCode(x)
    case Load(x) => LoadCode(x)
    case Store(x) => StoreCode(x)
    case Stack(x) => StackCode(x)
    case Math(x) => MathCode(x)
    case Conversion(x) => ConversionCode(x)
    case Comparison(x) => ComparisonCode(x)
    case Control(x) => ControlCode(x)
    case Reference(x) => ReferenceCode(x)
    case Extended(x) => ExtendedCode(x)
  }

  function ConstantCode(x: ConstantOp): (b: int)
    ensures 0 <= b < 21
  {
    match x
    case NOP => 0
    case ACONST_NULL => 1
    case ICONST_0 => 3
    case ICONST_1 => 4
    case ICONST_2 => 5
    case ICONST_3 => 6
    case ICONST_4 => 7
    case ICONST_5 => 8
    case LCONST_0 => 9
    case LCONST_1 => 10
    case FCONST_0 => 11
    case FCONST_1 => 12
    case FCONST_2 => 13
    case DCONST_0 => 14
    case DCONST_1 => 15
    case BIPUSH => 16
    case SIPUSH => 17
    case LDC => 18
    case LDC_W => 19
    case LDC2_W => 20
  }

  function LoadCode(x: LoadOp): (b: int)
    ensures 21 <= b < 54
  {
    match x
    case ILOAD => 21
    case DLOAD => 24
    case ILOAD_0 => 26
    case ILOAD_1 => 27
    case ILOAD_2 => 28
    case ILOAD_3 => 29
    case LLOAD_0 => 30
    case LLOAD_1 => 31
    case LLOAD_2 => 32
    case LLOAD_3 => 33
    case FLOAD_0 => 34
    case FLOAD_1 => 35
    case FLOAD_2 => 36
    case FLOAD_3 => 37
    case DLOAD_0 => 38
    case DLOAD_1 => 39
    case DLOAD_2 => 40
    case DLOAD_3 => 41
    case ALOAD_0 => 42
    case ALOAD_1 => 43
    case ALOAD_2 => 44
    case ALOAD_3 => 45
    case IALOAD => 46
    case LALOAD => 47
    case FALOAD => 48
    case DALOAD => 49
    case AALOAD => 50
    case BALOAD => 51
    case CALOAD => 52
    case SALOAD => 53
  }

  function StoreCode(x: StoreOp): (b: int)
    ensures 54 <= b < 87
  {
    match x
    case ISTORE => 54
    case DSTORE => 57
    case ISTORE_0 => 59
    case ISTORE_1 => 60
    case ISTORE_2 => 61
    case ISTORE_3 => 62
    case LSTORE_0 => 63
    case LSTORE_1 => 64
    case LSTORE_2 => 65
    case LSTORE_3 => 66
    case FSTORE_0 => 67
    case FSTORE_1 => 68
    case FSTORE_2 => 69
    case FSTORE_3 => 70
    case DSTORE_0 => 71
    case DSTORE_1 => 72
    case DSTORE_2 => 73
    case DSTORE_3 => 74
    case ASTORE_0 => 75
    case ASTORE_1 => 76
    case ASTORE_2 => 77
    case ASTORE_3 => 78
    case IASTORE => 79
    case LASTORE => 80
    case FASTORE => 81
    case DASTORE => 82
    case AASTORE => 83
    case BASTORE => 84
  }

  function StackCode(x: StackOp): (b: int)
    ensures 87 <= b < 96
  {
    match x
    case DUP => 89
    case DUP2 => 92
  }

  function MathCode(x: MathOp): (b: int)
    ensures 96 <= b < 133
  {
    match x
    case IADD => 96
    case LADD => 97
    case FADD => 98
    case DADD => 99
    case ISUB => 100
    case LSUB => 101
    case FSUB => 102
    case DSUB => 103
    case IMUL => 104
    case LMUL => 105
    case FMUL => 106
    case DMUL => 107
    case IDIV => 108
    case LDIV => 109
    case FDIV => 110
    case DDIV => 111
    case IREM => 112
    case LREM => 113
    case FREM => 114
    case DREM => 115
    case IINC => 132
  }

  function ConversionCode(x: ConversionOp): (b: int)
    ensures 133 <= b < 148
  {
    match x
    case I2L => 133
    case I2F => 134
    case I2D => 135
    case L2I => 136
    case L2F => 137
    case L2D => 138
    case F2I => 139
    case F2L => 140
    case F2D => 141
    case D2I => 142
    case D2L => 143
    case D2F => 144
    case I2B => 145
    case I2C => 146
    case I2S => 147
  }

  function ComparisonCode(x: ComparisonOp): (b: int)
    ensures 148 <= b < 167
  {
    match x
    case LCMP => 148
    case IFEQ => 153
    case IFNE => 154
    case IFLT => 155
    case IFGE => 156
    case IFGT => 157
    case IFLE => 158
    case IF_ICMPEQ => 159
    case IF_ICMPNE => 160
    case IF_ICMPLT => 161
    case IF_ICMPGE => 162
    case IF_ICMPGT => 163
    case IF_ICMPLE => 164
    case IF_ACMPEQ => 165
    case IF_ACMPNE => 166
  }

  function ControlCode(x: ControlOp): (b: int)
    ensures 167 <= b < 178
  {
    match x
    case GOTO => 167
    case IRETURN => 172
    case ARETURN => 176
    case RETURN => 177
  }

  function ReferenceCode(x: ReferenceOp): (b: int)
    ensures 178 <= b < 196
  {
    match x
    case GETSTATIC => 178
    case PUTSTATIC => 179
    case GETFIELD => 180
    case PUTFIELD => 181
    case INVOKEVIRTUAL => 182
    case INVOKESPECIAL => 183
    case INVOKESTATIC => 184
    case INVOKEINTERFACE => 185
    case INVOKEDYNAMIC => 186
    case NEW => 187
    case NEWARRAY => 188
    case ANEWARRAY => 189
    case ARRAYLENGTH => 190
    case ATHROW => 191
    case CHECKCAST => 192
  }

  function ExtendedCode(x: ExtendedOp): (b: int)
    ensures 196 <= b < 202
  {
    match x
    case IFNONNULL => 199
  }

  /** The opcode a byte encodes, if any. */
  function Decode(b: int): (r: Option<Op>)
    ensures r.Some? ==> Code(r.value) == b
  {
    if b < 0 then None
    else if b < 21 then ConstantDecode(b)
    else if b < 54 then LoadDecode(b)
    else if b < 87 then StoreDecode(b)
    else if b < 96 then StackDecode(b)
    else if b < 133 then MathDecode(b)
    else if b < 148 then ConversionDecode(b)
    else if b < 167 then ComparisonDecode(b)
    else if b < 178 then ControlDecode(b)
    else if b < 196 then ReferenceDecode(b)
    else ExtendedDecode(b)
  }

  function ConstantDecode(b: int): (r: Option<Op>)
    ensures r.Some? ==> Code(r.value) == b
  {
    if b < 9 then ConstantDecode1(b)
    else if b < 17 then ConstantDecode2(b)
    else ConstantDecode3(b)
  }

  function ConstantDecode1(b: int): (r: Option<Op>)
    ensures r.Some? ==> Code(r.value) == b
  {
    match b
    case 0 => Some(Constant(NOP))
    case 1 => Some(Constant(ACONST_NULL))
    case 3 => Some(Constant(ICONST_0))
    case 4 => Some(Constant(ICONST_1))
    case 5 => Some(Constant(ICONST_2))
    case 6 => Some(Constant(ICONST_3))
    case 7 => Some(Constant(ICONST_4))
    case 8 => Some(Constant(ICONST_5))
    case _ => None
  }

  function ConstantDecode2(b: int): (r: Option<Op>)
    ensures r.Some? ==> Code(r.value) == b
  {
    match b
    case 9 => Some(Constant(LCONST_0))
    case 10 => Some(Constant(LCONST_1))
    case 11 => Some(Constant(FCONST_0))
    case 12 => Some(Constant(FCONST_1))
    case 13 => Some(Constant(FCONST_2))
    case 14 => Some(Constant(DCONST_0))
    case 15 => Some(Constant(DCONST_1))
    case 16 => Some(Constant(BIPUSH))
    case _ => None
  }

  function ConstantDecode3(b: int): (r: Option<Op>)
    ensures r.Some? ==> Code(r.value) == b
  {
    match b
    case 17 => Some(Constant(SIPUSH))
    case 18 => Some(Constant(LDC))
    case 19 => Some(Constant(LDC_W))
    case 20 => Some(Constant(LDC2_W))
    case _ => None
  }

  function LoadDecode(b: int): (r: Option<Op>)
    ensures r.Some? ==> Code(r.value) == b
  {
    if b < 32 then LoadDecode1(b)
    else if b < 40 then LoadDecode2(b)
    else if b < 48 then LoadDecode3(b)
    else LoadDecode4(b)
  }

  function LoadDecode1(b: int): (r: Option<Op>)
    ensures r.Some? ==> Code(r.value) == b
  {
    match b
    case 21 => Some(Load(ILOAD))
    case 24 => Some(Load(DLOAD))
    case 26 => Some(Load(ILOAD_0))
    case 27 => Some(Load(ILOAD_1))
    case 28 => Some(Load(ILOAD_2))
    case 29 => Some(Load(ILOAD_3))
    case 30 => Some(Load(LLOAD_0))
    case 31 => Some(Load(LLOAD_1))
    case _ => None
  }

  function LoadDecode2(b: int): (r: Option<Op>)
    ensures r.Some? ==> Code(r.value) == b
  {
    match b
    case 32 => Some(Load(LLOAD_2))
    case 33 => Some(Load(LLOAD_3))
    case 34 => Some(Load(FLOAD_0))
    case 35 => Some(Load(FLOAD_1))
    case 36 => Some(Load(FLOAD_2))
    case 37 => Some(Load(FLOAD_3))
    case 38 => Some(Load(DLOAD_0))
    case 39 => Some(Load(DLOAD_1))
    case _ => None
  }

  function LoadDecode3(b: int): (r: Option<Op>)
    ensures r.Some? ==> Code(r.value) == b
  {
    match b
    case 40 => Some(Load(DLOAD_2))
    case 41 => Some(Load(DLOAD_3))
    case 42 => Some(Load(ALOAD_0))
    case 43 => Some(Load(ALOAD_1))
    case 44 => Some(Load(ALOAD_2))
    case 45 => Some(Load(ALOAD_3))
    case 46 => Some(Load(IALOAD))
    case 47 => Some(Load(LALOAD))
    case _ => None
  }

  function LoadDecode4(b: int): (r: Option<Op>)
    ensures r.Some? ==> Code(r.value) == b
  {
    match b
    case 48 => Some(Load(FALOAD))
    case 49 => Some(Load(DALOAD))
    case 50 => Some(Load(AALOAD))
    case 51 => Some(Load(BALOAD))
    case 52 => Some(Load(CALOAD))
    case 53 => Some(Load(SALOAD))
    case _ => None
  }

  function StoreDecode(b: int): (r: Option<Op>)
    ensures r.Some? ==> Code(r.value) == b
  {
    if b < 65 then StoreDecode1(b)
    else if b < 73 then StoreDecode2(b)
    else if b < 81 then StoreDecode3(b)
    else StoreDecode4(b)
  }

  function StoreDecode1(b: int): (r: Option<Op>)
    ensures r.Some? ==> Code(r.value) == b
  {
    match b
    case 54 => Some(Store(ISTORE))
    case 57 => Some(Store(DSTORE))
    case 59 => Some(Store(ISTORE_0))
    case 60 => Some(Store(ISTORE_1))
    case 61 => Some(Store(ISTORE_2))
    case 62 => Some(Store(ISTORE_3))
    case 63 => Some(Store(LSTORE_0))
    case 64 => Some(Store(LSTORE_1))
    case _ => None
  }

  function StoreDecode2(b: int): (r: Option<Op>)
    ensures r.Some? ==> Code(r.value) == b
  {
    match b
    case 65 => Some(Store(LSTORE_2))
    case 66 => Some(Store(LSTORE_3))
    case 67 => Some(Store(FSTORE_0))
    case 68 => Some(Store(FSTORE_1))
    case 69 => Some(Store(FSTORE_2))
    case 70 => Some(Store(FSTORE_3))
    case 71 => Some(Store(DSTORE_0))
    case 72 => Some(Store(DSTORE_1))
    case _ => None
  }

  function StoreDecode3(b: int): (r: Option<Op>)
    ensures r.Some? ==> Code(r.value) == b
  {
    match b
    case 73 => Some(Store(DSTORE_2))
    case 74 => Some(Store(DSTORE_3))
    case 75 => Some(Store(ASTORE_0))
    case 76 => Some(Store(ASTORE_1))
    case 77 => Some(Store(ASTORE_2))
    case 78 => Some(Store(ASTORE_3))
    case 79 => Some(Store(IASTORE))
    case 80 => Some(Store(LASTORE))
    case _ => None
  }

  function StoreDecode4(b: int): (r: Option<Op>)
    ensures r.Some? ==> Code(r.value) == b
  {
    match b
    case 81 => Some(Store(FASTORE))
    case 82 => Some(Store(DASTORE))
    case 83 => Some(Store(AASTORE))
    case 84 => Some(Store(BASTORE))
    case _ => None
  }

  function StackDecode(b: int): (r: Option<Op>)
    ensures r.Some? ==> Code(r.value) == b
  {
    match b
    case 89 => Some(Stack(DUP))
    case 92 => Some(Stack(DUP2))
    case _ => None
  }

  function MathDecode(b: int): (r: Option<Op>)
    ensures r.Some? ==> Code(r.value) == b
  {
    if b < 104 then MathDecode1(b)
    else if b < 112 then MathDecode2(b)
    else MathDecode3(b)
  }

  function MathDecode1(b: int): (r: Option<Op>)
    ensures r.Some? ==> Code(r.value) == b
  {
    match b
    case 96 => Some(Math(IADD))
    case 97 => Some(Math(LADD))
    case 98 => Some(Math(FADD))
    case 99 => Some(Math(DADD))
    case 100 => Some(Math(ISUB))
    case 101 => Some(Math(LSUB))
    case 102 => Some(Math(FSUB))
    case 103 => Some(Math(DSUB))
    case _ => None
  }

  function MathDecode2(b: int): (r: Option<Op>)
    ensures r.Some? ==> Code(r.value) == b
  {
    match b
    case 104 => Some(Math(IMUL))
    case 105 => Some(Math(LMUL))
    case 106 => Some(Math(FMUL))
    case 107 => Some(Math(DMUL))
    case 108 => Some(Math(IDIV))
    case 109 => Some(Math(LDIV))
    case 110 => Some(Math(FDIV))
    case 111 => Some(Math(DDIV))
    case _ => None
  }

  function MathDecode3(b: int): (r: Option<Op>)
    ensures r.Some? ==> Code(r.value) == b
  {
    match b
    case 112 => Some(Math(IREM))
    case 113 => Some(Math(LREM))
    case 114 => Some(Math(FREM))
    case 115 => Some(Math(DREM))
    case 132 => Some(Math(IINC))
    case _ => None
  }

  function ConversionDecode(b: int): (r: Option<Op>)
    ensures r.Some? ==> Code(r.value) == b
  {
    if b < 141 then ConversionDecode1(b)
    else ConversionDecode2(b)
  }

  function ConversionDecode1(b: int): (r: Option<Op>)
    ensures r.Some? ==> Code(r.value) == b
  {
    match b
    case 133 => Some(Conversion(I2L))
    case 134 => Some(Conversion(I2F))
    case 135 => Some(Conversion(I2D))
    case 136 => Some(Conversion(L2I))
    case 137 => Some(Conversion(L2F))
    case 138 => Some(Conversion(L2D))
    case 139 => Some(Conversion(F2I))
    case 140 => Some(Conversion(F2L))
    case _ => None
  }

  function ConversionDecode2(b: int): (r: Option<Op>)
    ensures r.Some? ==> Code(r.value) == b
  {
    match b
    case 141 => Some(Conversion(F2D))
    case 142 => Some(Conversion(D2I))
    case 143 => Some(Conversion(D2L))
    case 144 => Some(Conversion(D2F))
    case 145 => Some(Conversion(I2B))
    case 146 => Some(Conversion(I2C))
    case 147 => Some(Conversion(I2S))
    case _ => None
  }

  function ComparisonDecode(b: int): (r: Option<Op>)
    ensures r.Some? ==> Code(r.value) == b
  {
    if b < 160 then ComparisonDecode1(b)
    else ComparisonDecode2(b)
  }

  function ComparisonDecode1(b: int): (r: Option<Op>)
    ensures r.Some? ==> Code(r.value) == b
  {
    match b
    case 148 => Some(Comparison(LCMP))
    case 153 => Some(Comparison(IFEQ))
    case 154 => Some(Comparison(IFNE))
    case 155 => Some(Comparison(IFLT))
    case 156 => Some(Comparison(IFGE))
    case 157 => Some(Comparison(IFGT))
    case 158 => Some(Comparison(IFLE))
    case 159 => Some(Comparison(IF_ICMPEQ))
    case _ => None
  }

  function ComparisonDecode2(b: int): (r: Option<Op>)
    ensures r.Some? ==> Code(r.value) == b
  {
    match b
    case 160 => Some(Comparison(IF_ICMPNE))
    case 161 => Some(Comparison(IF_ICMPLT))
    case 162 => Some(Comparison(IF_ICMPGE))
    case 163 => Some(Comparison(IF_ICMPGT))
    case 164 => Some(Comparison(IF_ICMPLE))
    case 165 => Some(Comparison(IF_ACMPEQ))
    case 166 => Some(Comparison(IF_ACMPNE))
    case _ => None
  }

  function ControlDecode(b: int): (r: Option<Op>)
    ensures r.Some? ==> Code(r.value) == b
  {
    match b
    case 167 => Some(Control(GOTO))
    case 172 => Some(Control(IRETURN))
    case 176 => Some(Control(ARETURN))
    case 177 => Some(Control(RETURN))
    case _ => None
  }

  function ReferenceDecode(b: int): (r: Option<Op>)
    ensures r.Some? ==> Code(r.value) == b
  {
    if b < 186 then ReferenceDecode1(b)
    else ReferenceDecode2(b)
  }

  function ReferenceDecode1(b: int): (r: Option<Op>)
    ensures r.Some? ==> Code(r.value) == b
  {
    match b
    case 178 => Some(Reference(GETSTATIC))
    case 179 => Some(Reference(PUTSTATIC))
    case 180 => Some(Reference(GETFIELD))
    case 181 => Some(Reference(PUTFIELD))
    case 182 => Some(Reference(INVOKEVIRTUAL))
    case 183 => Some(Reference(INVOKESPECIAL))
    case 184 => Some(Reference(INVOKESTATIC))
    case 185 => Some(Reference(INVOKEINTERFACE))
    case _ => None
  }

  function ReferenceDecode2(b: int): (r: Option<Op>)
    ensures r.Some? ==> Code(r.value) == b
  {
    match b
    case 186 => Some(Reference(INVOKEDYNAMIC))
    case 187 => Some(Reference(NEW))
    case 188 => Some(Reference(NEWARRAY))
    case 189 => Some(Reference(ANEWARRAY))
    case 190 => Some(Reference(ARRAYLENGTH))
    case 191 => Some(Reference(ATHROW))
    case 192 => Some(Reference(CHECKCAST))
    case _ => None
  }

  function ExtendedDecode(b: int): (r: Option<Op>)
    ensures r.Some? ==> Code(r.value) == b
  {
    match b
    case 199 => Some(Extended(IFNONNULL))
    case _ => None
  }

  lemma {:induction false} ConstantDecodeCode(x: ConstantOp)
    ensures Decode(ConstantCode(x)) == Some(Constant(x))
  {
    match x
    case NOP => assert ConstantCode(x) == 0;
    case ACONST_NULL => assert ConstantCode(x) == 1;
    case ICONST_0 => assert ConstantCode(x) == 3;
    case ICONST_1 => assert ConstantCode(x) == 4;
    case ICONST_2 => assert ConstantCode(x) == 5;
    case ICONST_3 => assert ConstantCode(x) == 6;
    case ICONST_4 => assert ConstantCode(x) == 7;
    case ICONST_5 => assert ConstantCode(x) == 8;
    case LCONST_0 => assert ConstantCode(x) == 9;
    case LCONST_1 => assert ConstantCode(x) == 10;
    case FCONST_0 => assert ConstantCode(x) == 11;
    case FCONST_1 => assert ConstantCode(x) == 12;
    case FCONST_2 => assert ConstantCode(x) == 13;
    case DCONST_0 => assert ConstantCode(x) == 14;
    case DCONST_1 => assert ConstantCode(x) == 15;
    case BIPUSH => assert ConstantCode(x) == 16;
    case SIPUSH => assert ConstantCode(x) == 17;
    case LDC => assert ConstantCode(x) == 18;
    case LDC_W => assert ConstantCode(x) == 19;
    case LDC2_W => assert ConstantCode(x) == 20;
  }

  lemma {:induction false} LoadDecodeCode(x: LoadOp)
    ensures Decode(LoadCode(x)) == Some(Load(x))
  {
    match x
    case ILOAD => assert LoadCode(x) == 21;
    case DLOAD => assert LoadCode(x) == 24;
    case ILOAD_0 => assert LoadCode(x) == 26;
    case ILOAD_1 => assert LoadCode(x) == 27;
    case ILOAD_2 => assert LoadCode(x) == 28;
    case ILOAD_3 => assert LoadCode(x) == 29;
    case LLOAD_0 => assert LoadCode(x) == 30;
    case LLOAD_1 => assert LoadCode(x) == 31;
    case LLOAD_2 => assert LoadCode(x) == 32;
    case LLOAD_3 => assert LoadCode(x) == 33;
    case FLOAD_0 => assert LoadCode(x) == 34;
    case FLOAD_1 => assert LoadCode(x) == 35;
    case FLOAD_2 => assert LoadCode(x) == 36;
    case FLOAD_3 => assert LoadCode(x) == 37;
    case DLOAD_0 => assert LoadCode(x) == 38;
    case DLOAD_1 => assert LoadCode(x) == 39;
    case DLOAD_2 => assert LoadCode(x) == 40;
    case DLOAD_3 => assert LoadCode(x) == 41;
    case ALOAD_0 => assert LoadCode(x) == 42;
    case ALOAD_1 => assert LoadCode(x) == 43;
    case ALOAD_2 => assert LoadCode(x) == 44;
    case ALOAD_3 => assert LoadCode(x) == 45;
    case IALOAD => assert LoadCode(x) == 46;
    case LALOAD => assert LoadCode(x) == 47;
    case FALOAD => assert LoadCode(x) == 48;
    case DALOAD => assert LoadCode(x) == 49;
    case AALOAD => assert LoadCode(x) == 50;
    case BALOAD => assert LoadCode(x) == 51;
    case CALOAD => assert LoadCode(x) == 52;
    case SALOAD => assert LoadCode(x) == 53;
  }

  lemma {:induction false} StoreDecodeCode(x: StoreOp)
    ensures Decode(StoreCode(x)) == Some(Store(x))
  {
    match x
    case ISTORE => assert StoreCode(x) == 54;
    case DSTORE => assert StoreCode(x) == 57;
    case ISTORE_0 => assert StoreCode(x) == 59;
    case ISTORE_1 => assert StoreCode(x) == 60;
    case ISTORE_2 => assert StoreCode(x) == 61;
    case ISTORE_3 => assert StoreCode(x) == 62;
    case LSTORE_0 => assert StoreCode(x) == 63;
    case LSTORE_1 => assert StoreCode(x) == 64;
    case LSTORE_2 => assert StoreCode(x) == 65;
    case LSTORE_3 => assert StoreCode(x) == 66;
    case FSTORE_0 => assert StoreCode(x) == 67;
    case FSTORE_1 => assert StoreCode(x) == 68;
    case FSTORE_2 => assert StoreCode(x) == 69;
    case FSTORE_3 => assert StoreCode(x) == 70;
    case DSTORE_0 => assert StoreCode(x) == 71;
    case DSTORE_1 => assert StoreCode(x) == 72;
    case DSTORE_2 => assert StoreCode(x) == 73;
    case DSTORE_3 => assert StoreCode(x) == 74;
    case ASTORE_0 => assert StoreCode(x) == 75;
    case ASTORE_1 => assert StoreCode(x) == 76;
    case ASTORE_2 => assert StoreCode(x) == 77;
    case ASTORE_3 => assert StoreCode(x) == 78;
    case IASTORE => assert StoreCode(x) == 79;
    case LASTORE => assert StoreCode(x) == 80;
    case FASTORE => assert StoreCode(x) == 81;
    case DASTORE => assert StoreCode(x) == 82;
    case AASTORE => assert StoreCode(x) == 83;
    case BASTORE => assert StoreCode(x) == 84;
  }

  lemma {:induction false} StackDecodeCode(x: StackOp)
    ensures Decode(StackCode(x)) == Some(Stack(x))
  {
    match x
    case DUP => assert StackCode(x) == 89;
    case DUP2 => assert StackCode(x) == 92;
  }

  lemma {:induction false} MathDecodeCode(x: MathOp)
    ensures Decode(MathCode(x)) == Some(Math(x))
  {
    match x
    case IADD => assert MathCode(x) == 96;
    case LADD => assert MathCode(x) == 97;
    case FADD => assert MathCode(x) == 98;
    case DADD => assert MathCode(x) == 99;
    case ISUB => assert MathCode(x) == 100;
    case LSUB => assert MathCode(x) == 101;
    case FSUB => assert MathCode(x) == 102;
    case DSUB => assert MathCode(x) == 103;
    case IMUL => assert MathCode(x) == 104;
    case LMUL => assert MathCode(x) == 105;
    case FMUL => assert MathCode(x) == 106;
    case DMUL => assert MathCode(x) == 107;
    case IDIV => assert MathCode(x) == 108;
    case LDIV => assert MathCode(x) == 109;
    case FDIV => assert MathCode(x) == 110;
    case DDIV => assert MathCode(x) == 111;
    case IREM => assert MathCode(x) == 112;
    case LREM => assert MathCode(x) == 113;
    case FREM => assert MathCode(x) == 114;
    case DREM => assert MathCode(x) == 115;
    case IINC => assert MathCode(x) == 132;
  }

  lemma {:induction false} ConversionDecodeCode(x: ConversionOp)
    ensures Decode(ConversionCode(x)) == Some(Conversion(x))
  {
    match x
    case I2L => assert ConversionCode(x) == 133;
    case I2F => assert ConversionCode(x) == 134;
    case I2D => assert ConversionCode(x) == 135;
    case L2I => assert ConversionCode(x) == 136;
    case L2F => assert ConversionCode(x) == 137;
    case L2D => assert ConversionCode(x) == 138;
    case F2I => assert ConversionCode(x) == 139;
    case F2L => assert ConversionCode(x) == 140;
    case F2D => assert ConversionCode(x) == 141;
    case D2I => assert ConversionCode(x) == 142;
    case D2L => assert ConversionCode(x) == 143;
    case D2F => assert ConversionCode(x) == 144;
    case I2B => assert ConversionCode(x) == 145;
    case I2C => assert ConversionCode(x) == 146;
    case I2S => assert ConversionCode(x) == 147;
  }

  lemma {:induction false} ComparisonDecodeCode(x: ComparisonOp)
    ensures Decode(ComparisonCode(x)) == Some(Comparison(x))
  {
    match x
    case LCMP => assert ComparisonCode(x) == 148;
    case IFEQ => assert ComparisonCode(x) == 153;
    case IFNE => assert ComparisonCode(x) == 154;
    case IFLT => assert ComparisonCode(x) == 155;
    case IFGE => assert ComparisonCode(x) == 156;
    case IFGT => assert ComparisonCode(x) == 157;
    case IFLE => assert ComparisonCode(x) == 158;
    case IF_ICMPEQ => assert ComparisonCode(x) == 159;
    case IF_ICMPNE => assert ComparisonCode(x) == 160;
    case IF_ICMPLT => assert ComparisonCode(x) == 161;
    case IF_ICMPGE => assert ComparisonCode(x) == 162;
    case IF_ICMPGT => assert ComparisonCode(x) == 163;
    case IF_ICMPLE => assert ComparisonCode(x) == 164;
    case IF_ACMPEQ => assert ComparisonCode(x) == 165;
    case IF_ACMPNE => assert ComparisonCode(x) == 166;
  }

  lemma {:induction false} ControlDecodeCode(x: ControlOp)
    ensures Decode(ControlCode(x)) == Some(Control(x))
  {
    match x
    case GOTO => assert ControlCode(x) == 167;
    case IRETURN => assert ControlCode(x) == 172;
    case ARETURN => assert ControlCode(x) == 176;
    case RETURN => assert ControlCode(x) == 177;
  }

  lemma {:induction false} ReferenceDecodeCode(x: ReferenceOp)
    ensures Decode(ReferenceCode(x)) == Some(Reference(x))
  {
    match x
    case GETSTATIC => assert ReferenceCode(x) == 178;
    case PUTSTATIC => assert ReferenceCode(x) == 179;
    case GETFIELD => assert ReferenceCode(x) == 180;
    case PUTFIELD => assert ReferenceCode(x) == 181;
    case INVOKEVIRTUAL => assert ReferenceCode(x) == 182;
    case INVOKESPECIAL => assert ReferenceCode(x) == 183;
    case INVOKESTATIC => assert ReferenceCode(x) == 184;
    case INVOKEINTERFACE => assert ReferenceCode(x) == 185;
    case INVOKEDYNAMIC => assert ReferenceCode(x) == 186;
    case NEW => assert ReferenceCode(x) == 187;
    case NEWARRAY => assert ReferenceCode(x) == 188;
    case ANEWARRAY => assert ReferenceCode(x) == 189;
    case ARRAYLENGTH => assert ReferenceCode(x) == 190;
    case ATHROW => assert ReferenceCode(x) == 191;
    case CHECKCAST => assert ReferenceCode(x) == 192;
  }

  lemma {:induction false} ExtendedDecodeCode(x: ExtendedOp)
    ensures Decode(ExtendedCode(x)) == Some(Extended(x))
  {
    match x
    case IFNONNULL => assert ExtendedCode(x) == 199;
  }

  /** Decoding inverts encoding: every opcode is recognised from its own byte. */
  lemma DecodeCode(op: Op)
    ensures Decode(Code(op)) == Some(op)
  {
    match op
    case Constant(x) => ConstantDecodeCode(x);
    case Load(x) => LoadDecodeCode(x);
    case Store(x) => StoreDecodeCode(x);
    case Stack(x) => StackDecodeCode(x);
    case Math(x) => MathDecodeCode(x);
    case Conversion(x) => ConversionDecodeCode(x);
    case Comparison(x) => ComparisonDecodeCode(x);
    case Control(x) => ControlDecodeCode(x);
    case Reference(x) => ReferenceDecodeCode(x);
    case Extended(x) => ExtendedDecodeCode(x);
  }

  /** No two opcodes share a byte. */
  lemma CodeInjective(a: Op, b: Op)
    ensures Code(a) == Code(b) ==> a == b
  {
    DecodeCode(a);
    DecodeCode(b);
  }

  /** A byte is an opcode exactly when it decodes; ILLEGAL never does. */
  lemma DecodeComplete(b: int)
    ensures Decode(b).Some? <==> exists op :: Code(op) == b
    ensures Decode(ILLEGAL) == None
  {
    if op :| Code(op) == b {
      DecodeCode(op);
    }
  }
}
