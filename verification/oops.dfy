/**
 * The loaded form of a class: its constant pool, its methods with their Code
 * attributes, and the bytecode cursor each Code attribute owns.
 *
 * The bytecode cursor (interpreter/BytecodeStream.java) lives in this module
 * because it and the Code attribute refer to each other.
 */
module Oops {
  import opened Wrappers
  import opened Bytes

  /* Constant-pool tags, table 4.4-B of The Java Virtual Machine Specification. */
  const CONSTANT_Utf8: int := 1
  const CONSTANT_Integer: int := 3
  const CONSTANT_Float: int := 4
  const CONSTANT_Long: int := 5
  const CONSTANT_Double: int := 6
  const CONSTANT_Class: int := 7
  const CONSTANT_String: int := 8
  const CONSTANT_Fieldref: int := 9
  const CONSTANT_Methodref: int := 10
  const CONSTANT_InterfaceMethodref: int := 11
  const CONSTANT_NameAndType: int := 12

  /** ACC_STATIC, table 4.6-A of The Java Virtual Machine Specification. */
  const ACC_STATIC: int := 0x0008

  /**
   * A value in the constant pool's data map: a decoded string, a boxed Integer
   * (an index, or two packed indices), the byte image of a Float or a Double,
   * or a Long.
   */
  datatype PoolData = Utf8Data(s: string) | IntegerData(i: int) | FloatData(bits: FloatImage) | LongData(l: JavaLong) | DoubleData(image: DoubleImage)

  /** The four-byte image of a Java float. */
  type FloatImage = s: seq<byte> | |s| == 4 witness [0, 0, 0, 0]

  /** The eight-byte image of a Java double. */
  type DoubleImage = s: seq<byte> | |s| == 8 witness [0, 0, 0, 0, 0, 0, 0, 0]

  type JavaLong = x: int | IsInt64(x)

  /** Two u2 indices packed into one Java int as hi << 16 | lo. */
  function Pack(hi: int, lo: int): int
    requires 0 <= hi < 0x1_0000 && 0 <= lo < 0x1_0000
  {
    Int32(hi * 0x1_0000 + lo)
  }

  /** The upper index of a packed pair. */
  function High(packed: int): int
  {
    (packed % TWO_32) / 0x1_0000
  }

  /** The lower index of a packed pair. */
  function Low(packed: int): int
  {
    packed % 0x1_0000
  }

  /** Packing loses neither index, even when the upper one sets the sign bit. */
  lemma PackUnpack(hi: int, lo: int)
    requires 0 <= hi < 0x1_0000 && 0 <= lo < 0x1_0000
    ensures High(Pack(hi, lo)) == hi && Low(Pack(hi, lo)) == lo
  {
    var x := hi * 0x1_0000 + lo;
    assert 0 <= x < TWO_32;
    var p := Pack(hi, lo);
    assert p % TWO_32 == x;
    assert p % 0x1_0000 == x % 0x1_0000 by {
      assert p == x || p == x - TWO_32;
    }
  }

  /** The string a Utf8 entry holds; a missing entry is Java's null, a non-string a failed cast. */
  function Utf8At(data: map<int, PoolData>, i: int): Result<string>
  {
    if i !in data then Err(NullPointer)
    else if data[i].Utf8Data? then Ok(data[i].s)
    else Err(ClassCast)
  }

  /** (String) dataMap.get(i): a missing entry casts to null, a non-string fails the cast. */
  function CastString(data: map<int, PoolData>, i: int): (r: Result<Option<string>>)
    ensures r.Err? <==> i in data && !data[i].Utf8Data?
    ensures r.Ok? ==> (r.value.Some? <==> i in data) && (r.value.Some? ==> r.value.value == data[i].s)
  {
    if i !in data then Ok(None)
    else if data[i].Utf8Data? then Ok(Some(data[i].s))
    else Err(ClassCast)
  }

  /** The Integer an entry holds. */
  function IntegerAt(data: map<int, PoolData>, i: int): Result<int>
  {
    if i !in data then Err(NullPointer)
    else if data[i].IntegerData? then Ok(data[i].i)
    else Err(ClassCast)
  }

  /** getClassName: a Class entry holds the index of the Utf8 entry naming the class. */
  function ClassNameAt(data: map<int, PoolData>, classIndex: int): Result<string>
  {
    var nameIndex :- IntegerAt(data, classIndex);
    Utf8At(data, nameIndex)
  }

  /** A symbolic reference to a field or method. */
  datatype MemberRef = MemberRef(className: string, name: string, descriptor: string)

  /**
   * The class name, member name and descriptor of a Fieldref or Methodref:
   * the entry packs a Class index over a NameAndType index, which packs a
   * name index over a descriptor index.
   */
  function MemberRefAt(data: map<int, PoolData>, refIndex: int): Result<MemberRef>
  {
    var packed :- IntegerAt(data, refIndex);
    var className :- ClassNameAt(data, High(packed));
    var nameAndType :- IntegerAt(data, Low(packed));
    var name :- Utf8At(data, High(nameAndType));
    var descriptor :- Utf8At(data, Low(nameAndType));
    Ok(MemberRef(className, name, descriptor))
  }

  class ConstantPool {
    var klass: InstanceKlass?
    var length: int
    var tag: array?<int>
    var dataMap: map<int, PoolData>

    constructor ()
      ensures klass == null && length == 0 && tag == null && dataMap == map[]
    {
      klass := null;
      length := 0;
      tag := null;
      dataMap := map[];
    }

    /** initContainer: a zeroed tag per pool slot. */
    method InitContainer()
      requires length >= 0
      modifies this
      ensures fresh(tag) && tag.Length == length && (forall i :: 0 <= i < length ==> tag[i] == 0)
      ensures klass == old(klass) && length == old(length) && dataMap == old(dataMap)
    {
      tag := new int[length](_ => 0);
    }
  }

  datatype InterfaceInfo = InterfaceInfo(interfaceIndex: int, name: string)

  datatype FieldInfo = FieldInfo(accessFlags: int, nameIndex: int, descriptorIndex: int, attributesCount: int)

  /** A class attribute; the only one read is SourceFile, whose data is two bytes. */
  datatype AttributeInfo = AttributeInfo(attrNameIndex: int, attrLength: int, container: seq<byte>)

  datatype LineNumberItem = LineNumberItem(startPc: int, lineNumber: int)

  datatype LocalVariableItem = LocalVariableItem(startPc: int, length: int, nameIndex: int, descriptorIndex: int, index: int)

  /** The two attributes a Code attribute records, keyed by their names. */
  datatype DebugTable =
    | LineNumberTable(attrNameIndex: int, attrLength: int, tableLength: int, lines: seq<LineNumberItem>)
    | LocalVariableTable(attrNameIndex: int, attrLength: int, tableLength: int, variables: seq<LocalVariableItem>)

  datatype ExceptionItem = ExceptionItem(startPc: int, endPc: int, handlerPc: int, catchType: int)

  /** The position of the first entry whose range [startPc, endPc] covers current, if any. */
  function FirstHandler(table: seq<ExceptionItem>, current: int): (r: Option<nat>)
    ensures r.Some? ==> r.value < |table| && table[r.value].startPc <= current <= table[r.value].endPc
    ensures r.Some? ==> forall j :: 0 <= j < r.value ==> !(table[j].startPc <= current <= table[j].endPc)
  {
    if table == [] then None
    else if table[0].startPc <= current <= table[0].endPc then Some(0)
    else match FirstHandler(table[1..], current)
      case None => None
      case Some(k) => Some(k + 1)
  }

  /** FirstHandler finds nothing only when no entry covers current. */
  lemma {:induction false} FirstHandlerNone(table: seq<ExceptionItem>, current: int)
    ensures FirstHandler(table, current).None? <==> forall j :: 0 <= j < |table| ==> !(table[j].startPc <= current <= table[j].endPc)
  {
    if table != [] {
      FirstHandlerNone(table[1..], current);
      if FirstHandler(table, current).None? {
        forall j | 0 <= j < |table|
          ensures !(table[j].startPc <= current <= table[j].endPc)
        {
          if j > 0 {
            assert table[j] == table[1..][j - 1];
          }
        }
      }
    }
  }

  datatype CodeAttributeInfo = CodeAttributeInfo(
    attrNameIndex: int,
    attrLength: int,
    maxStack: int,
    maxLocals: int,
    codeLength: int,
    code: BytecodeStream,
    exceptionTableLength: int,
    exceptionTable: seq<ExceptionItem>,
    attributesCount: int,
    attributes: map<string, DebugTable>)

  /** findExceptionHandle: the first entry of the exception table that covers current. */
  method FindExceptionHandle(attr: CodeAttributeInfo, current: int) returns (r: Option<ExceptionItem>)
    ensures r == (match FirstHandler(attr.exceptionTable, current)
                  case None => None
                  case Some(k) => Some(attr.exceptionTable[k]))
  {
    var table := attr.exceptionTable;
    var i := 0;
    while i < |table|
      invariant 0 <= i <= |table|
      invariant FirstHandler(table, current) == (match FirstHandler(table[i..], current)
                                                 case None => None
                                                 case Some(k) => Some(k + i))
    {
      if table[i].startPc <= current && table[i].endPc >= current {
        return Some(table[i]);
      }
      assert table[i..][1..] == table[i + 1..];
      i := i + 1;
    }
    return None;
  }

  datatype MethodInfo = MethodInfo(
    belongKlass: InstanceKlass,
    accessFlags: int,
    nameIndex: int,
    descriptorIndex: int,
    attributesCount: int,
    attributes: seq<CodeAttributeInfo>,
    methodName: Option<string>)
  {
    /** AccessFlags.isStatic */
    predicate IsStatic()
    {
      (accessFlags / ACC_STATIC) % 2 == 1
    }
  }

  /**
   * The cursor over one method's bytecode. It records its owner by the class
   * and the method's slot in that class's method table.
   */
  class BytecodeStream {
    const belongKlass: InstanceKlass
    const belongMethod: nat
    const length: int
    const codes: array<byte>
    var index: int

    /** A zeroed buffer as long as the Code attribute says, with the cursor at 0. */
    constructor (klass: InstanceKlass, methodIndex: nat, codeLength: int)
      requires codeLength >= 0
      ensures belongKlass == klass && belongMethod == methodIndex
      ensures length == codeLength && index == 0
      ensures fresh(codes) && codes.Length == codeLength
      ensures forall i :: 0 <= i < codeLength ==> codes[i] == 0
    {
      belongKlass := klass;
      belongMethod := methodIndex;
      length := codeLength;
      index := 0;
      codes := new byte[codeLength](_ => 0);
    }

    /** end(): the cursor has reached the end of the code. */
    predicate End()
      reads this
    {
      index >= length
    }

    /** reset(): back to the first instruction. */
    method Reset()
      modifies this`index
      ensures index == 0
    {
      index := 0;
    }
  }

  class InstanceKlass {
    const magic: array<byte>
    const minorVersion: array<byte>
    const majorVersion: array<byte>
    const constantPool: ConstantPool
    var accessFlag: int
    var thisClass: int
    var superClass: int
    var interfacesLength: int
    var interfaceInfos: seq<InterfaceInfo>
    var fieldsLength: int
    var fields: seq<FieldInfo>
    var methodLength: int
    var methods: array?<Option<MethodInfo>>
    var attributeLength: int
    var attributeInfos: seq<AttributeInfo>

    /** A fresh class with an empty constant pool that points back to it. */
    constructor ()
      ensures fresh(magic) && fresh(minorVersion) && fresh(majorVersion) && fresh(constantPool)
      ensures magic.Length == 4 && minorVersion.Length == 2 && majorVersion.Length == 2
      ensures magic != minorVersion && magic != majorVersion && minorVersion != majorVersion
      ensures constantPool.klass == this && constantPool.length == 0
      ensures constantPool.tag == null && constantPool.dataMap == map[]
      ensures interfaceInfos == [] && fields == [] && attributeInfos == [] && methods == null
    {
      magic := new byte[4](_ => 0);
      minorVersion := new byte[2](_ => 0);
      majorVersion := new byte[2](_ => 0);
      constantPool := new ConstantPool();
      interfaceInfos := [];
      fields := [];
      methods := null;
      attributeInfos := [];
      new;
      constantPool.klass := this;
    }

    /** initMethodsContainer: an empty slot per declared method. */
    method InitMethodsContainer()
      requires methodLength >= 0
      modifies this`methods
      ensures fresh(methods) && methods.Length == methodLength
      ensures forall i :: 0 <= i < methodLength ==> methods[i] == None
    {
      methods := new Option<MethodInfo>[methodLength](_ => None);
    }

    /**
     * The shape the interpreter relies on once the class is parsed: every
     * method slot is filled, and every method belongs to this class and has
     * exactly one (Code) attribute whose buffer has the declared length.
     */
    ghost predicate Valid()
      reads this, constantPool, methods
    {
      && constantPool.tag != null
      && methods != null
      && forall i :: 0 <= i < methods.Length ==> methods[i].Some? && MethodValid(methods[i].value)
    }

    /** The code cursors of the methods in the method array. */
    ghost function Streams(): set<BytecodeStream>
      reads this`methods, methods
    {
      if methods == null then {}
      else set i | 0 <= i < methods.Length && methods[i].Some? && |methods[i].value.attributes| >= 1
        :: methods[i].value.attributes[0].code
    }

    ghost predicate MethodValid(m: MethodInfo)
    {
      && m.belongKlass == this
      && |m.attributes| == 1
      && m.attributes[0].maxLocals >= 0
      && m.attributes[0].code.codes.Length == m.attributes[0].code.length
    }
  }
}
