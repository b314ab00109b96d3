/**
 * The class-file layout the parser reads, as pure functions of the file's
 * bytes and a running offset.
 *
 * Each function decodes one structure of chapter 4 of The Java Virtual
 * Machine Specification (Java SE 8) starting at an offset and returns the
 * decoded value together with the offset just past it, or the fault the
 * parser raises. The imperative parser in module Classfile is proved to
 * compute exactly these values; the lemmas below state what the layout
 * implies (sizes, the two-slot rule, the abort conditions).
 */
module ClassFileFormat {
  import opened Wrappers
  import opened Bytes
  import opened Oops

  /* Readers of the unsigned big-endian items u1, u2 and of signed u4 lengths. */

  /** Stream.readSimple: n bytes from offset at; a read past the end throws. */
  function ReadBytes(content: seq<byte>, at: nat, n: nat): (r: Result<seq<byte>>)
    ensures r.Ok? <==> at + n <= |content|
    ensures r.Ok? ==> r.value == content[at..at + n]
  {
    if at + n <= |content| then Ok(content[at..at + n]) else Err(Truncated)
  }

  /** Stream.readU1Simple: one unsigned byte. */
  function U1(content: seq<byte>, at: nat): (r: Result<nat>)
    ensures r.Ok? <==> at < |content|
    ensures r.Ok? ==> r.value == content[at]
  {
    if at < |content| then Ok(content[at]) else Err(Truncated)
  }

  /** readU2Simple followed by byteToUnsignedShort. */
  function U2(content: seq<byte>, at: nat): (r: Result<nat>)
    ensures r.Ok? <==> at + 2 <= |content|
    ensures r.Ok? ==> r.value == FromBE(content[at..at + 2]) && r.value < 0x1_0000
  {
    Pow256Widths();
    var bs :- ReadBytes(content, at, 2);
    Ok(FromBE(bs))
  }

  /** readU4Simple followed by byteArrayToInt: a signed Java int. */
  function S4(content: seq<byte>, at: nat): (r: Result<int>)
    ensures r.Ok? <==> at + 4 <= |content|
    ensures r.Ok? ==> r.value == Int32BE(content[at..at + 4])
  {
    var bs :- ReadBytes(content, at, 4);
    Ok(Int32BE(bs))
  }

  /** new String(bytes): each byte becomes the character with that code. */
  function Utf8Decode(bs: seq<byte>): (s: string)
    ensures |s| == |bs| && forall i :: 0 <= i < |bs| ==> s[i] as int == bs[i]
  {
    seq(|bs|, i requires 0 <= i < |bs| => bs[i] as char)
  }

  /* ---------------------------------------------------------------- */
  /* The constant pool (JVMS §4.4)                                */

  /** The tags the parser accepts: every tag of Java SE 8 up to 12 except Integer. */
  predicate SupportedTag(t: int)
  {
    t == CONSTANT_Utf8 || (CONSTANT_Float <= t <= CONSTANT_NameAndType)
  }

  /** Long and Double take two pool slots (JVMS §4.4.5). */
  predicate WideTag(t: int)
  {
    t == CONSTANT_Long || t == CONSTANT_Double
  }

  /** One decoded pool entry: its tag, its value and the offset just past it. */
  datatype PoolEntry = PoolEntry(tag: int, value: PoolData, wide: bool, next: nat)

  /** The entry starting at offset at: a tag byte followed by its tag's payload. */
  function PoolEntryAt(content: seq<byte>, at: nat): (r: Result<PoolEntry>)
    ensures r.Ok? ==> at < |content| && r.value.tag == content[at] && SupportedTag(r.value.tag)
    ensures r.Ok? ==> r.value.next > at && (r.value.wide <==> WideTag(r.value.tag))
    ensures r.Ok? && r.value.wide ==> r.value.next == at + 9
    ensures at < |content| && !SupportedTag(content[at]) ==> r == Err(UnsupportedConstant(content[at]))
  {
    var tag :- U1(content, at);
    var p := at + 1;
    if tag == CONSTANT_Utf8 then
      var len :- U2(content, p);
      var bs :- ReadBytes(content, p + 2, len);
      Ok(PoolEntry(tag, Utf8Data(Utf8Decode(bs)), false, p + 2 + len))
    else if tag == CONSTANT_Float then
      var bs :- ReadBytes(content, p, 4);
      Ok(PoolEntry(tag, PoolData.FloatData(bs), false, p + 4))
    else if tag == CONSTANT_Long then
      var bs :- ReadBytes(content, p, 8);
      Ok(PoolEntry(tag, PoolData.LongData(BytesToLong(bs)), true, p + 8))
    else if tag == CONSTANT_Double then
      var bs :- ReadBytes(content, p, 8);
      Ok(PoolEntry(tag, DoubleData(bs), true, p + 8))
    else if tag == CONSTANT_Class || tag == CONSTANT_String then
      var index :- U2(content, p);
      Ok(PoolEntry(tag, IntegerData(index), false, p + 2))
    else if CONSTANT_Fieldref <= tag <= CONSTANT_NameAndType then
      var hi :- U2(content, p);
      var lo :- U2(content, p + 2);
      Ok(PoolEntry(tag, IntegerData(Pack(hi, lo)), false, p + 4))
    else
      Err(UnsupportedConstant(tag))
  }

  /** A reference entry keeps both of its u2 indices, recoverable from the packed Integer. */
  lemma RefEntryUnpacks(content: seq<byte>, at: nat)
    requires PoolEntryAt(content, at).Ok?
    requires CONSTANT_Fieldref <= content[at] <= CONSTANT_NameAndType
    ensures PoolEntryAt(content, at).value.value.IntegerData?
    ensures High(PoolEntryAt(content, at).value.value.i) == FromBE(content[at + 1..at + 3])
    ensures Low(PoolEntryAt(content, at).value.value.i) == FromBE(content[at + 3..at + 5])
  {
    PackUnpack(FromBE(content[at + 1..at + 3]), FromBE(content[at + 3..at + 5]));
  }

  /**
   * The pool loop from slot i on, reading at offset at: slots i..length-1 are
   * filled in order; a wide entry fills its slot and the next one, and one in
   * the last slot writes past the tag array.
   */
  function PoolFrom(content: seq<byte>, length: nat, i: nat, at: nat, tags: seq<int>, data: map<int, PoolData>)
    : (r: Result<(seq<int>, map<int, PoolData>, nat)>)
    requires |tags| == length
    ensures r.Ok? ==> |r.value.0| == length && r.value.2 >= at
    decreases length - i
  {
    if i >= length then Ok((tags, data, at))
    else
      var e :- PoolEntryAt(content, at);
      if !e.wide then
        PoolFrom(content, length, i + 1, e.next, tags[i := e.tag], data[i := e.value])
      else if i + 1 >= length then
        Err(IndexOutOfBounds)
      else
        PoolFrom(content, length, i + 2, e.next, tags[i := e.tag][i + 1 := e.tag], data[i := e.value][i + 1 := e.value])
  }

  /** The pool loop never writes a slot below the one it starts at. */
  lemma {:induction false} PoolFromKeepsLower(content: seq<byte>, length: nat, i: nat, at: nat, tags: seq<int>, data: map<int, PoolData>)
    requires |tags| == length
    requires PoolFrom(content, length, i, at, tags, data).Ok?
    ensures var r := PoolFrom(content, length, i, at, tags, data).value;
      forall j :: 0 <= j < i && j < length ==> r.0[j] == tags[j]
    ensures var r := PoolFrom(content, length, i, at, tags, data).value;
      forall j :: j < i ==> (j in r.1 <==> j in data) && (j in data ==> r.1[j] == data[j])
    decreases length - i
  {
    if i < length {
      var e := PoolEntryAt(content, at).value;
      if !e.wide {
        PoolFromKeepsLower(content, length, i + 1, e.next, tags[i := e.tag], data[i := e.value]);
      } else {
        PoolFromKeepsLower(content, length, i + 2, e.next, tags[i := e.tag][i + 1 := e.tag], data[i := e.value][i + 1 := e.value]);
      }
    }
  }

  /** A successful pool loop leaves every slot from i on filled with a supported tag and a value. */
  lemma {:induction false} PoolFromFills(content: seq<byte>, length: nat, i: nat, at: nat, tags: seq<int>, data: map<int, PoolData>)
    requires |tags| == length
    requires PoolFrom(content, length, i, at, tags, data).Ok?
    ensures var r := PoolFrom(content, length, i, at, tags, data).value;
      forall j :: i <= j < length ==> SupportedTag(r.0[j]) && j in r.1
    decreases length - i
  {
    if i < length {
      var e := PoolEntryAt(content, at).value;
      if !e.wide {
        PoolFromFills(content, length, i + 1, e.next, tags[i := e.tag], data[i := e.value]);
        PoolFromKeepsLower(content, length, i + 1, e.next, tags[i := e.tag], data[i := e.value]);
      } else {
        PoolFromFills(content, length, i + 2, e.next, tags[i := e.tag][i + 1 := e.tag], data[i := e.value][i + 1 := e.value]);
        PoolFromKeepsLower(content, length, i + 2, e.next, tags[i := e.tag][i + 1 := e.tag], data[i := e.value][i + 1 := e.value]);
      }
    }
  }

  /**
   * Section 4.4.5: a Long or Double at slot i puts the same tag and the same
   * value in slots i and i + 1, and the next entry is read nine bytes on, into
   * slot i + 2.
   */
  lemma WideEntryTakesTwoSlots(content: seq<byte>, length: nat, i: nat, at: nat, tags: seq<int>, data: map<int, PoolData>)
    requires |tags| == length && i + 1 < length
    requires PoolEntryAt(content, at).Ok? && WideTag(content[at])
    requires PoolFrom(content, length, i, at, tags, data).Ok?
    ensures var e := PoolEntryAt(content, at).value;
      var r := PoolFrom(content, length, i, at, tags, data).value;
      && r == PoolFrom(content, length, i + 2, at + 9, tags[i := e.tag][i + 1 := e.tag], data[i := e.value][i + 1 := e.value]).value
      && r.0[i] == r.0[i + 1] == content[at]
      && i in r.1 && i + 1 in r.1 && r.1[i] == r.1[i + 1] == e.value
  {
    var e := PoolEntryAt(content, at).value;
    PoolFromKeepsLower(content, length, i + 2, e.next, tags[i := e.tag][i + 1 := e.tag], data[i := e.value][i + 1 := e.value]);
  }

  /** A wide entry in the last slot makes the parser write past the tag array. */
  lemma WideEntryInLastSlotFails(content: seq<byte>, length: nat, at: nat, tags: seq<int>, data: map<int, PoolData>)
    requires |tags| == length && length >= 1
    requires PoolEntryAt(content, at).Ok? && WideTag(content[at])
    ensures PoolFrom(content, length, length - 1, at, tags, data) == Err(IndexOutOfBounds)
  {
  }

  /** The initial tag array: one zero per slot. */
  function ZeroTags(length: nat): (r: seq<int>)
    ensures |r| == length && forall j :: 0 <= j < length ==> r[j] == 0
  {
    seq(length, _ => 0)
  }

  /** The whole pool: slots 1..length-1 from offset at into a zeroed tag array and an empty map. */
  function ConstantPoolAt(content: seq<byte>, length: nat, at: nat): (r: Result<(seq<int>, map<int, PoolData>, nat)>)
    ensures r.Ok? ==> |r.value.0| == length
  {
    PoolFrom(content, length, 1, at, ZeroTags(length), map[])
  }

  /** Slot 0 is never written: its tag stays 0 and it has no value. */
  lemma SlotZeroUnused(content: seq<byte>, length: nat, at: nat)
    requires length >= 1 && ConstantPoolAt(content, length, at).Ok?
    ensures ConstantPoolAt(content, length, at).value.0[0] == 0
    ensures 0 !in ConstantPoolAt(content, length, at).value.1
  {
    PoolFromKeepsLower(content, length, 1, at, ZeroTags(length), map[]);
  }

  /* ---------------------------------------------------------------- */
  /* Interfaces and fields (JVMS §4.1 and §4.5)                   */

  /** The interface loop: each entry is a u2 Class index whose name is looked up. */
  function InterfacesFrom(content: seq<byte>, data: map<int, PoolData>, count: nat, at: nat, acc: seq<InterfaceInfo>)
    : (r: Result<(seq<InterfaceInfo>, nat)>)
    ensures r.Ok? ==> |r.value.0| == |acc| + count && r.value.0[..|acc|] == acc && r.value.1 == at + 2 * count
    ensures r.Ok? ==> forall k :: |acc| <= k < |r.value.0| ==>
      ClassNameAt(data, r.value.0[k].interfaceIndex) == Ok(r.value.0[k].name)
    decreases count
  {
    if count == 0 then Ok((acc, at))
    else
      var index :- U2(content, at);
      var name :- ClassNameAt(data, index);
      InterfacesFrom(content, data, count - 1, at + 2, acc + [InterfaceInfo(index, name)])
  }

  /** One field_info: four u2 items; a field that has attributes aborts the parse. */
  function FieldAt(content: seq<byte>, at: nat): (r: Result<FieldInfo>)
    ensures r.Ok? ==> at + 8 <= |content| && r.value.attributesCount == 0
    ensures r.Ok? ==>
      && r.value.accessFlags == FromBE(content[at..at + 2])
      && r.value.nameIndex == FromBE(content[at + 2..at + 4])
      && r.value.descriptorIndex == FromBE(content[at + 4..at + 6])
    ensures at + 8 <= |content| ==> (r.Ok? <==> FromBE(content[at + 6..at + 8]) == 0)
    ensures at + 8 <= |content| && r.Err? ==> r.fault == FieldAttributes
  {
    var flags :- U2(content, at);
    var name :- U2(content, at + 2);
    var descriptor :- U2(content, at + 4);
    var attributes :- U2(content, at + 6);
    if attributes != 0 then Err(FieldAttributes)
    else Ok(FieldInfo(flags, name, descriptor, attributes))
  }

  /** The field loop: fields are appended in order, eight bytes each. */
  function FieldsFrom(content: seq<byte>, count: nat, at: nat, acc: seq<FieldInfo>): (r: Result<(seq<FieldInfo>, nat)>)
    ensures r.Ok? ==> |r.value.0| == |acc| + count && r.value.0[..|acc|] == acc && r.value.1 == at + 8 * count
    decreases count
  {
    if count == 0 then Ok((acc, at))
    else
      var f :- FieldAt(content, at);
      FieldsFrom(content, count - 1, at + 8, acc + [f])
  }

  /** Field k of a successful field loop is the field_info at offset at + 8k. */
  lemma {:induction false} FieldsDecoded(content: seq<byte>, count: nat, at: nat, acc: seq<FieldInfo>)
    requires FieldsFrom(content, count, at, acc).Ok?
    ensures var r := FieldsFrom(content, count, at, acc).value;
      forall k :: 0 <= k < count ==> FieldAt(content, at + 8 * k) == Ok(r.0[|acc| + k])
    decreases count
  {
    if count > 0 {
      var f := FieldAt(content, at).value;
      FieldsDecoded(content, count - 1, at + 8, acc + [f]);
      var r := FieldsFrom(content, count, at, acc).value;
      assert r.0[..|acc| + 1] == acc + [f] by {
        assert r.0[..|acc| + 1] == FieldsFrom(content, count - 1, at + 8, acc + [f]).value.0[..|acc + [f]|];
      }
      forall k | 0 <= k < count
        ensures FieldAt(content, at + 8 * k) == Ok(r.0[|acc| + k])
      {
        if k == 0 {
          assert r.0[|acc|] == r.0[..|acc| + 1][|acc|];
        } else {
          assert at + 8 * k == (at + 8) + 8 * (k - 1);
        }
      }
    }
  }

  /* ---------------------------------------------------------------- */
  /* LineNumberTable and LocalVariableTable (JVMS §4.7.12, §4.7.13)  */

  function LineNumbersFrom(content: seq<byte>, count: nat, at: nat, acc: seq<LineNumberItem>)
    : (r: Result<(seq<LineNumberItem>, nat)>)
    ensures r.Ok? ==> |r.value.0| == |acc| + count && r.value.0[..|acc|] == acc && r.value.1 == at + 4 * count
    decreases count
  {
    if count == 0 then Ok((acc, at))
    else
      var startPc :- U2(content, at);
      var line :- U2(content, at + 2);
      LineNumbersFrom(content, count - 1, at + 4, acc + [LineNumberItem(startPc, line)])
  }

  /** A LineNumberTable: name index, length, table length, then four bytes per entry. */
  function LineNumberTableAt(content: seq<byte>, at: nat): (r: Result<(DebugTable, nat)>)
    ensures r.Ok? ==> r.value.0.LineNumberTable? && |r.value.0.lines| == r.value.0.tableLength
    ensures r.Ok? ==> r.value.1 == at + 8 + 4 * r.value.0.tableLength
    ensures r.Ok? ==> at + 8 <= |content| && r.value.0.tableLength == FromBE(content[at + 6..at + 8])
  {
    var nameIndex :- U2(content, at);
    var length :- S4(content, at + 2);
    var n :- U2(content, at + 6);
    var items :- LineNumbersFrom(content, n, at + 8, []);
    Ok((LineNumberTable(nameIndex, length, n, items.0), items.1))
  }

  function LocalVariablesFrom(content: seq<byte>, count: nat, at: nat, acc: seq<LocalVariableItem>)
    : (r: Result<(seq<LocalVariableItem>, nat)>)
    ensures r.Ok? ==> |r.value.0| == |acc| + count && r.value.0[..|acc|] == acc && r.value.1 == at + 10 * count
    decreases count
  {
    if count == 0 then Ok((acc, at))
    else
      var startPc :- U2(content, at);
      var length :- U2(content, at + 2);
      var nameIndex :- U2(content, at + 4);
      var descriptorIndex :- U2(content, at + 6);
      var index :- U2(content, at + 8);
      LocalVariablesFrom(content, count - 1, at + 10,
        acc + [LocalVariableItem(startPc, length, nameIndex, descriptorIndex, index)])
  }

  /** A LocalVariableTable: name index, length, table length, then ten bytes per entry. */
  function LocalVariableTableAt(content: seq<byte>, at: nat): (r: Result<(DebugTable, nat)>)
    ensures r.Ok? ==> r.value.0.LocalVariableTable? && |r.value.0.variables| == r.value.0.tableLength
    ensures r.Ok? ==> r.value.1 == at + 8 + 10 * r.value.0.tableLength
    ensures r.Ok? ==> at + 8 <= |content| && r.value.0.tableLength == FromBE(content[at + 6..at + 8])
  {
    var nameIndex :- U2(content, at);
    var length :- S4(content, at + 2);
    var n :- U2(content, at + 6);
    var items :- LocalVariablesFrom(content, n, at + 8, []);
    Ok((LocalVariableTable(nameIndex, length, n, items.0), items.1))
  }

  const LINE_NUMBER_TABLE: string := "LineNumberTable"
  const LOCAL_VARIABLE_TABLE: string := "LocalVariableTable"

  /**
   * The Code attribute's sub-attribute loop. The name is read without
   * advancing; the two known tables are parsed from the name on, and any
   * other name leaves the offset where it was.
   */
  function SubAttributesFrom(content: seq<byte>, data: map<int, PoolData>, count: nat, at: nat, attrs: map<string, DebugTable>)
    : (r: Result<(map<string, DebugTable>, nat)>)
    ensures r.Ok? ==> r.value.1 >= at
    ensures r.Ok? ==> forall name :: name in r.value.0 && name !in attrs ==> name in {LINE_NUMBER_TABLE, LOCAL_VARIABLE_TABLE}
    decreases count
  {
    if count == 0 then Ok((attrs, at))
    else
      var nameIndex :- U2(content, at);
      var name :- Utf8At(data, nameIndex);
      if name == LINE_NUMBER_TABLE then
        var t :- LineNumberTableAt(content, at);
        SubAttributesFrom(content, data, count - 1, t.1, attrs[name := t.0])
      else if name == LOCAL_VARIABLE_TABLE then
        var t :- LocalVariableTableAt(content, at);
        SubAttributesFrom(content, data, count - 1, t.1, attrs[name := t.0])
      else
        SubAttributesFrom(content, data, count - 1, at, attrs)
  }

  /**
   * An unrecognised sub-attribute is never skipped: the loop reads the same
   * name on every remaining turn, so it consumes nothing and records nothing.
   */
  lemma {:induction false} UnknownSubAttributeStalls(content: seq<byte>, data: map<int, PoolData>, count: nat, at: nat, attrs: map<string, DebugTable>)
    requires at + 2 <= |content|
    requires var name := Utf8At(data, FromBE(content[at..at + 2]));
      name.Ok? && name.value != LINE_NUMBER_TABLE && name.value != LOCAL_VARIABLE_TABLE
    ensures SubAttributesFrom(content, data, count, at, attrs) == Ok((attrs, at))
    decreases count
  {
    if count > 0 {
      UnknownSubAttributeStalls(content, data, count - 1, at, attrs);
    }
  }

  /* ---------------------------------------------------------------- */
  /* Methods and the Code attribute (JVMS §4.6 and §4.7.3)        */

  /** The Code attribute as decoded; the bytecode is kept as the bytes read. */
  datatype CodeDecl = CodeDecl(
    attrNameIndex: int,
    attrLength: int,
    maxStack: int,
    maxLocals: int,
    codeLength: int,
    code: seq<byte>,
    exceptionTableLength: int,
    attributesCount: int,
    attributes: map<string, DebugTable>)

  /**
   * The Code attribute at offset at. A negative code length cannot size the
   * code buffer. The exception-table length is read but its entries are not:
   * the attribute count is read from the two bytes right after it.
   */
  function CodeAttributeAt(content: seq<byte>, data: map<int, PoolData>, at: nat): (r: Result<(CodeDecl, nat)>)
    ensures r.Ok? ==> 0 <= r.value.0.codeLength && 0 <= r.value.0.maxLocals
    ensures r.Ok? ==> var len := r.value.0.codeLength;
      && at + 18 + len <= |content|
      && r.value.0.code == content[at + 14..at + 14 + len]
      && r.value.0.maxLocals == FromBE(content[at + 8..at + 10])
      && r.value.0.exceptionTableLength == FromBE(content[at + 14 + len..at + 16 + len])
      && r.value.0.attributesCount == FromBE(content[at + 16 + len..at + 18 + len])
      && r.value.1 >= at + 18 + len
      && (r.value.0.attributesCount == 0 ==> r.value.1 == at + 18 + len)
  {
    var nameIndex :- U2(content, at);
    var length :- S4(content, at + 2);
    var maxStack :- U2(content, at + 6);
    var maxLocals :- U2(content, at + 8);
    var codeLength :- S4(content, at + 10);
    if codeLength < 0 then Err(NegativeSize)
    else
      var code :- ReadBytes(content, at + 14, codeLength);
      var p := at + 14 + codeLength;
      var exceptionTableLength :- U2(content, p);
      var attributesCount :- U2(content, p + 2);
      var sub :- SubAttributesFrom(content, data, attributesCount, p + 4, map[]);
      Ok((CodeDecl(nameIndex, length, maxStack, maxLocals, codeLength, code, exceptionTableLength, attributesCount, sub.0), sub.1))
  }

  const MAIN_NAME: string := "main"
  const MAIN_DESCRIPTOR: string := "([Ljava/lang/String;)V"

  /**
   * The main-method test after a method is read. Both names are cast first;
   * a missing name, or a missing descriptor once the name is "main", is
   * dereferenced and throws.
   */
  function IsMainMethod(data: map<int, PoolData>, nameIndex: int, descriptorIndex: int): (r: Result<bool>)
    ensures r == Ok(true) <==> Utf8At(data, nameIndex) == Ok(MAIN_NAME) && Utf8At(data, descriptorIndex) == Ok(MAIN_DESCRIPTOR)
    ensures r == Ok(false) <==>
      || (Utf8At(data, nameIndex).Ok? && Utf8At(data, nameIndex) != Ok(MAIN_NAME) && CastString(data, descriptorIndex).Ok?)
      || (Utf8At(data, nameIndex) == Ok(MAIN_NAME) && Utf8At(data, descriptorIndex).Ok? && Utf8At(data, descriptorIndex) != Ok(MAIN_DESCRIPTOR))
  {
    var name :- CastString(data, nameIndex);
    var descriptor :- CastString(data, descriptorIndex);
    if name.None? then Err(NullPointer)
    else if name.value != MAIN_NAME then Ok(false)
    else if descriptor.None? then Err(NullPointer)
    else Ok(descriptor.value == MAIN_DESCRIPTOR)
  }

  /** A method as decoded: its four u2 items, the name the pool gives it, its Code attribute. */
  datatype MethodDecl = MethodDecl(
    accessFlags: int,
    nameIndex: int,
    descriptorIndex: int,
    attributesCount: int,
    methodName: Option<string>,
    code: CodeDecl,
    isMain: bool)

  /** One method_info: it must carry exactly one attribute, which is read as its Code attribute. */
  function MethodAt(content: seq<byte>, data: map<int, PoolData>, at: nat): (r: Result<(MethodDecl, nat)>)
    ensures r.Ok? ==> r.value.0.attributesCount == 1 && r.value.1 >= at + 26
    ensures r.Ok? ==>
      && at + 8 <= |content|
      && r.value.0.accessFlags == FromBE(content[at..at + 2])
      && r.value.0.nameIndex == FromBE(content[at + 2..at + 4])
      && r.value.0.descriptorIndex == FromBE(content[at + 4..at + 6])
    ensures (at + 8 <= |content| && CastString(data, FromBE(content[at + 2..at + 4])).Ok?
      && FromBE(content[at + 6..at + 8]) != 1) ==> r == Err(MethodAttributes)
  {
    var flags :- U2(content, at);
    var nameIndex :- U2(content, at + 2);
    var methodName :- CastString(data, nameIndex);
    var descriptorIndex :- U2(content, at + 4);
    var attributesCount :- U2(content, at + 6);
    if attributesCount != 1 then Err(MethodAttributes)
    else
      var code :- CodeAttributeAt(content, data, at + 8);
      var isMain :- IsMainMethod(data, nameIndex, descriptorIndex);
      Ok((MethodDecl(flags, nameIndex, descriptorIndex, attributesCount, methodName, code.0, isMain), code.1))
  }

  /** The method loop: methods are read in order into consecutive slots. */
  function MethodsFrom(content: seq<byte>, data: map<int, PoolData>, count: nat, at: nat, acc: seq<MethodDecl>)
    : (r: Result<(seq<MethodDecl>, nat)>)
    ensures r.Ok? ==> |r.value.0| == |acc| + count && r.value.0[..|acc|] == acc && r.value.1 >= at
    decreases count, 1
  {
    if count == 0 then Ok((acc, at)) else NextMethod(content, data, count, at, acc)
  }

  /** One pass of the method loop: a method at offset at, then the count - 1 after it. */
  function NextMethod(content: seq<byte>, data: map<int, PoolData>, count: nat, at: nat, acc: seq<MethodDecl>)
    : (r: Result<(seq<MethodDecl>, nat)>)
    requires count > 0
    ensures r.Ok? ==> |r.value.0| == |acc| + count && r.value.0[..|acc|] == acc && r.value.1 >= at
    decreases count, 0
  {
    var m :- MethodAt(content, data, at);
    MethodsFrom(content, data, count - 1, m.1, acc + [m.0])
  }

  lemma MethodsFromFails(content: seq<byte>, data: map<int, PoolData>, count: nat, at: nat, acc: seq<MethodDecl>)
    requires count > 0 && MethodAt(content, data, at).Err?
    ensures MethodsFrom(content, data, count, at, acc) == Err(MethodAt(content, data, at).fault)
  {
  }

  lemma MethodsFromStep(content: seq<byte>, data: map<int, PoolData>, count: nat, at: nat, acc: seq<MethodDecl>, decl: MethodDecl, next: nat)
    requires count > 0 && MethodAt(content, data, at) == Ok((decl, next))
    ensures MethodsFrom(content, data, count, at, acc) == MethodsFrom(content, data, count - 1, next, acc + [decl])
  {
  }

  /* ---------------------------------------------------------------- */
  /* Class attributes (JVMS §4.1 and §4.7.10)                     */

  const SOURCE_FILE: string := "SourceFile"

  /** A SourceFile attribute: name index, length, and the two-byte source-file index. */
  function SourceFileAt(content: seq<byte>, at: nat): (r: Result<(AttributeInfo, nat)>)
    ensures r.Ok? <==> at + 8 <= |content|
    ensures r.Ok? ==> r.value.1 == at + 8 && r.value.0.container == content[at + 6..at + 8]
  {
    var nameIndex :- U2(content, at);
    var length :- S4(content, at + 2);
    var container :- ReadBytes(content, at + 6, 2);
    Ok((AttributeInfo(nameIndex, length, container), at + 8))
  }

  /** The class-attribute loop: only SourceFile is understood; any other name aborts. */
  function ClassAttributesFrom(content: seq<byte>, data: map<int, PoolData>, count: nat, at: nat, acc: seq<AttributeInfo>)
    : (r: Result<(seq<AttributeInfo>, nat)>)
    ensures r.Ok? ==> |r.value.0| == |acc| + count && r.value.0[..|acc|] == acc && r.value.1 == at + 8 * count
    ensures r.Ok? ==> forall k :: |acc| <= k < |r.value.0| ==> Utf8At(data, r.value.0[k].attrNameIndex) == Ok(SOURCE_FILE)
    ensures (count > 0 && at + 2 <= |content| && Utf8At(data, FromBE(content[at..at + 2])).Ok?
      && Utf8At(data, FromBE(content[at..at + 2])) != Ok(SOURCE_FILE)) ==> r == Err(UnknownClassAttribute)
    decreases count
  {
    if count == 0 then Ok((acc, at))
    else
      var nameIndex :- U2(content, at);
      var name :- Utf8At(data, nameIndex);
      if name != SOURCE_FILE then Err(UnknownClassAttribute)
      else
        var a :- SourceFileAt(content, at);
        ClassAttributesFrom(content, data, count - 1, a.1, acc + [a.0])
  }

  /* ---------------------------------------------------------------- */
  /* The whole file (JVMS §4.1)                                      */

  /** access_flags, this_class, super_class, and the interface and field tables. */
  datatype ClassHead = ClassHead(
    accessFlag: int,
    thisClass: int,
    superClass: int,
    interfacesLength: nat,
    interfaces: seq<InterfaceInfo>,
    fieldsLength: nat,
    fields: seq<FieldInfo>)

  /** Everything a class file holds after its constant pool. */
  datatype ClassBody = ClassBody(
    head: ClassHead,
    methodLength: nat,
    methods: seq<MethodDecl>,
    attributeLength: nat,
    attributes: seq<AttributeInfo>)

  /** The magic number, the two version numbers, and the constant pool. */
  datatype Preamble = Preamble(
    magic: seq<byte>,
    minorVersion: seq<byte>,
    majorVersion: seq<byte>,
    poolLength: nat,
    tags: seq<int>,
    data: map<int, PoolData>)

  datatype ClassFile = ClassFile(preamble: Preamble, body: ClassBody)
  {
    /** Some method registers the class as the one holding main. */
    predicate HasMain()
    {
      exists k :: 0 <= k < |body.methods| && body.methods[k].isMain
    }
  }

  /** The interface list: read only when the count is not zero. */
  function InterfacesAt(content: seq<byte>, data: map<int, PoolData>, count: nat, at: nat): (r: Result<(seq<InterfaceInfo>, nat)>)
    ensures r.Ok? ==> |r.value.0| == count && r.value.1 == at + 2 * count
  {
    if count != 0 then InterfacesFrom(content, data, count, at, []) else Ok(([], at))
  }

  /** A counted table: the u2 count, the entries that follow it, and the offset after them. */
  datatype Table<T> = Table(length: nat, items: seq<T>, next: nat)

  /** interfaces_count and the interfaces; the loop is skipped when the count is zero. */
  function InterfaceTableAt(content: seq<byte>, data: map<int, PoolData>, at: nat): (r: Result<Table<InterfaceInfo>>)
    ensures r.Ok? ==> |r.value.items| == r.value.length && r.value.next == at + 2 + 2 * r.value.length
  {
    var length :- U2(content, at);
    var interfaces :- InterfacesAt(content, data, length, at + 2);
    Ok(Table(length, interfaces.0, interfaces.1))
  }

  /** fields_count and the fields. */
  function FieldTableAt(content: seq<byte>, at: nat): (r: Result<Table<FieldInfo>>)
    ensures r.Ok? ==> |r.value.items| == r.value.length && r.value.next == at + 2 + 8 * r.value.length
  {
    var length :- U2(content, at);
    var fields :- FieldsFrom(content, length, at + 2, []);
    Ok(Table(length, fields.0, fields.1))
  }

  /** methods_count and the methods. */
  function MethodTableAt(content: seq<byte>, data: map<int, PoolData>, at: nat): (r: Result<Table<MethodDecl>>)
    ensures r.Ok? ==> |r.value.items| == r.value.length && r.value.next >= at + 2
  {
    var length :- U2(content, at);
    var methods :- MethodsFrom(content, data, length, at + 2, []);
    Ok(Table(length, methods.0, methods.1))
  }

  /** attributes_count and the class attributes. */
  function AttributeTableAt(content: seq<byte>, data: map<int, PoolData>, at: nat): (r: Result<Table<AttributeInfo>>)
    ensures r.Ok? ==> |r.value.items| == r.value.length && r.value.next == at + 2 + 8 * r.value.length
  {
    var length :- U2(content, at);
    var attributes :- ClassAttributesFrom(content, data, length, at + 2, []);
    Ok(Table(length, attributes.0, attributes.1))
  }

  /** The head of the body, and the offset after it. */
  function ClassHeadAt(content: seq<byte>, data: map<int, PoolData>, at: nat): (r: Result<(ClassHead, nat)>)
    ensures r.Ok? ==> |r.value.0.interfaces| == r.value.0.interfacesLength && |r.value.0.fields| == r.value.0.fieldsLength
    ensures r.Ok? ==> r.value.1 == at + 10 + 2 * r.value.0.interfacesLength + 8 * r.value.0.fieldsLength
  {
    var accessFlag :- U2(content, at);
    var thisClass :- U2(content, at + 2);
    var superClass :- U2(content, at + 4);
    var interfaces :- InterfaceTableAt(content, data, at + 6);
    var fields :- FieldTableAt(content, interfaces.next);
    Ok((ClassHead(accessFlag, thisClass, superClass, interfaces.length, interfaces.items, fields.length, fields.items), fields.next))
  }

  /** Everything after the pool, each part at the offset the previous one ends at. */
  function ClassBodyAt(content: seq<byte>, data: map<int, PoolData>, at: nat): (r: Result<ClassBody>)
    ensures r.Ok? ==> |r.value.head.interfaces| == r.value.head.interfacesLength && |r.value.head.fields| == r.value.head.fieldsLength
    ensures r.Ok? ==> |r.value.methods| == r.value.methodLength && |r.value.attributes| == r.value.attributeLength
  {
    var head :- ClassHeadAt(content, data, at);
    var methods :- MethodTableAt(content, data, head.1);
    var attributes :- AttributeTableAt(content, data, methods.next);
    Ok(ClassBody(head.0, methods.length, methods.items, attributes.length, attributes.items))
  }

  /** The header at fixed offsets, then the constant pool from offset 10; and the offset after the pool. */
  function PreambleAt(content: seq<byte>): (r: Result<(Preamble, nat)>)
    ensures r.Ok? ==> |r.value.0.tags| == r.value.0.poolLength && r.value.1 >= 10
  {
    var magic :- ReadBytes(content, 0, 4);
    var minor :- ReadBytes(content, 4, 2);
    var major :- ReadBytes(content, 6, 2);
    var poolLength :- U2(content, 8);
    var pool :- ConstantPoolAt(content, poolLength, 10);
    Ok((Preamble(magic, minor, major, poolLength, pool.0, pool.1), pool.2))
  }

  /** parseClassFile: the preamble, then the body from where the pool ends. */
  function ClassFileAt(content: seq<byte>): (r: Result<ClassFile>)
    ensures r.Ok? ==> |r.value.preamble.tags| == r.value.preamble.poolLength
  {
    var preamble :- PreambleAt(content);
    var body :- ClassBodyAt(content, preamble.0.data, preamble.1);
    Ok(ClassFile(preamble.0, body))
  }

  /** The header sits at fixed offsets: magic 0-3, minor 4-5, major 6-7, pool count 8-9. */
  lemma HeaderLayout(content: seq<byte>)
    requires ClassFileAt(content).Ok?
    ensures var p := ClassFileAt(content).value.preamble;
      && p.magic == content[0..4] && p.minorVersion == content[4..6] && p.majorVersion == content[6..8]
      && p.poolLength == FromBE(content[8..10])
  {
  }

  /** The smallest file the parser accepts: an empty pool and no members, and a zero magic number. */
  const EMPTY_CLASS: seq<byte> := [0, 0, 0, 0, 0, 0, 0, 0, 0, 1, 0, 0, 0, 0, 0, 0, 0, 0, 0, 0, 0, 0, 0, 0]

  /** The preamble of EMPTY_CLASS: a zero header and a pool of one unused slot, ending at offset 10. */
  lemma EmptyClassPreamble()
    ensures PreambleAt(EMPTY_CLASS) == Ok((Preamble([0, 0, 0, 0], [0, 0], [0, 0], 1, [0], map[]), 10))
  {
    var c := EMPTY_CLASS;
    assert FromBE([0, 1]) == 1;
    assert c[8..10] == [0, 1];
    assert ZeroTags(1) == [0];
    assert ConstantPoolAt(c, 1, 10) == Ok(([0], map[], 10));
    assert c[0..4] == [0, 0, 0, 0] && c[4..6] == [0, 0] && c[6..8] == [0, 0];
  }

  /** The body of EMPTY_CLASS: seven zero u2 words, so no interfaces, fields, methods or attributes. */
  lemma EmptyClassBody()
    ensures ClassBodyAt(EMPTY_CLASS, map[], 10) == Ok(ClassBody(ClassHead(0, 0, 0, 0, [], 0, []), 0, [], 0, []))
  {
    var c := EMPTY_CLASS;
    assert FromBE([0, 0]) == 0;
    forall at | at in {10, 12, 14, 16, 18, 20, 22}
      ensures U2(c, at) == Ok(0)
    {
      assert c[at..at + 2] == [0, 0];
    }
    assert InterfaceTableAt(c, map[], 16) == Ok(Table(0, [], 18));
    assert FieldTableAt(c, 18) == Ok(Table(0, [], 20));
    assert ClassHeadAt(c, map[], 10) == Ok((ClassHead(0, 0, 0, 0, [], 0, []), 20));
    assert MethodTableAt(c, map[], 20) == Ok(Table(0, [], 22));
  }

  /** The magic number is copied but never compared with 0xCAFEBABE. */
  lemma MagicNotChecked()
    ensures ClassFileAt(EMPTY_CLASS).Ok?
    ensures ClassFileAt(EMPTY_CLASS).value.preamble.magic == [0, 0, 0, 0]
  {
    EmptyClassPreamble();
    EmptyClassBody();
  }
}
