/**
 * The class-file parser and the boot class loader.
 *
 * ParseClassFile walks the file with one running offset, filling a fresh
 * InstanceKlass as it goes: the tag array and data map of its constant pool,
 * its interface, field and attribute lists, and its method array, where each
 * method gets a fresh bytecode buffer. Every step is proved to compute what
 * module ClassFileFormat says the bytes decode to, so the properties proved
 * there hold of the objects built here.
 *
 * The loader caches parsed classes by name. Reading a file is abstracted
 * as a function from a path to its bytes, or to nothing when the file
 * cannot be read.
 */
module Classfile {
  import opened Wrappers
  import opened Bytes
  import opened Oops
  import opened ClassFileFormat

  /* ---------------------------------------------------------------- */
  /* What a parsed class holds                                         */

  /** The bytecode buffers of the methods in a class's method array. */
  ghost function CodeBuffers(k: InstanceKlass): set<array<byte>>
    reads k`methods, k.methods
  {
    if k.methods == null then {}
    else set i | 0 <= i < k.methods.Length && k.methods[i].Some? && |k.methods[i].value.attributes| == 1
      :: k.methods[i].value.attributes[0].code.codes
  }

  /**
   * A Code attribute object holds the decoded attribute: its items, a buffer
   * owned by the method in slot `slot` whose bytes are the code read, and an
   * exception table the parser left empty.
   */
  ghost predicate CodeMatches(k: InstanceKlass, slot: nat, a: CodeAttributeInfo, d: CodeDecl)
  {
    && a.attrNameIndex == d.attrNameIndex && a.attrLength == d.attrLength
    && a.maxStack == d.maxStack && a.maxLocals == d.maxLocals && a.codeLength == d.codeLength
    && a.code.belongKlass == k && a.code.belongMethod == slot
    && a.code.length == d.codeLength && a.code.codes.Length == a.code.length
    && a.maxLocals >= 0
    && a.exceptionTableLength == d.exceptionTableLength && a.exceptionTable == []
    && a.attributesCount == d.attributesCount && a.attributes == d.attributes
  }

  ghost predicate CodeRealizes(k: InstanceKlass, slot: nat, a: CodeAttributeInfo, d: CodeDecl)
    reads a.code.codes
  {
    CodeMatches(k, slot, a, d) && a.code.codes[..] == d.code
  }

  ghost predicate MethodMatches(k: InstanceKlass, slot: nat, m: MethodInfo, d: MethodDecl)
  {
    && m.belongKlass == k
    && m.accessFlags == d.accessFlags && m.nameIndex == d.nameIndex && m.descriptorIndex == d.descriptorIndex
    && m.attributesCount == d.attributesCount && m.methodName == d.methodName
    && |m.attributes| == 1
    && CodeMatches(k, slot, m.attributes[0], d.code)
  }

  ghost predicate MethodRealizes(k: InstanceKlass, slot: nat, m: MethodInfo, d: MethodDecl)
    reads if |m.attributes| == 1 then {m.attributes[0].code.codes} else {}
  {
    MethodMatches(k, slot, m, d) && m.attributes[0].code.codes[..] == d.code.code
  }

  /** Slot i of the method array holds the i-th decoded method. */
  ghost predicate MethodsRealize(k: InstanceKlass, decls: seq<MethodDecl>)
    reads k`methods, k.methods, CodeBuffers(k)
  {
    && k.methods != null && k.methods.Length == |decls|
    && forall i :: 0 <= i < |decls| ==> k.methods[i].Some? && MethodRealizes(k, i, k.methods[i].value, decls[i])
  }

  /** The class's own fields hold the decoded head of the body. */
  ghost predicate HeadRealizes(k: InstanceKlass, h: ClassHead)
    reads k`accessFlag, k`thisClass, k`superClass, k`interfacesLength, k`interfaceInfos, k`fieldsLength, k`fields
  {
    && k.accessFlag == h.accessFlag && k.thisClass == h.thisClass && k.superClass == h.superClass
    && k.interfacesLength == h.interfacesLength && k.interfaceInfos == h.interfaces
    && k.fieldsLength == h.fieldsLength && k.fields == h.fields
  }

  /** The class's own fields and tables hold the decoded body. */
  ghost predicate BodyRealizes(k: InstanceKlass, b: ClassBody)
    reads k, k.methods, CodeBuffers(k)
  {
    && HeadRealizes(k, b.head)
    && k.methodLength == b.methodLength && MethodsRealize(k, b.methods)
    && k.attributeLength == b.attributeLength && k.attributeInfos == b.attributes
  }

  /** The class's header arrays and constant pool hold the decoded preamble. */
  ghost predicate PreambleRealizes(k: InstanceKlass, p: Preamble)
    reads k.magic, k.minorVersion, k.majorVersion, k.constantPool, k.constantPool.tag
  {
    && k.magic[..] == p.magic && k.minorVersion[..] == p.minorVersion && k.majorVersion[..] == p.majorVersion
    && k.constantPool.length == p.poolLength && k.constantPool.tag != null && k.constantPool.tag[..] == p.tags
    && k.constantPool.dataMap == p.data
  }

  /** A class object holds the decoded class file. */
  ghost predicate KlassRealizes(k: InstanceKlass, cf: ClassFile)
    reads k, k.magic, k.minorVersion, k.majorVersion, k.constantPool, k.constantPool.tag, k.methods, CodeBuffers(k)
  {
    PreambleRealizes(k, cf.preamble) && BodyRealizes(k, cf.body)
  }

  /** A class built from a decoded file has the shape the interpreter relies on. */
  lemma RealizedKlassValid(k: InstanceKlass, cf: ClassFile)
    requires KlassRealizes(k, cf)
    ensures k.Valid()
  {
    forall i | 0 <= i < k.methods.Length
      ensures k.methods[i].Some? && k.MethodValid(k.methods[i].value)
    {
      var m := k.methods[i].value;
      assert MethodRealizes(k, i, m, cf.body.methods[i]);
    }
  }

  /** The parser never fills an exception table, so no parsed method has a handler for any pc. */
  lemma ParsedMethodsHaveNoHandlers(k: InstanceKlass, decls: seq<MethodDecl>, i: nat, current: int)
    requires MethodsRealize(k, decls) && i < |decls|
    ensures FirstHandler(k.methods[i].value.attributes[0].exceptionTable, current) == None
  {
    assert MethodRealizes(k, i, k.methods[i].value, decls[i]);
  }

  /* ---------------------------------------------------------------- */
  /* The parser                                                        */

  /** Stream.readSimple: copies n bytes from offset at into a buffer of n bytes. */
  method ReadSimple(content: seq<byte>, at: nat, n: nat, dest: array<byte>) returns (r: Result<()>)
    requires dest.Length == n
    modifies dest
    ensures r.Ok? <==> at + n <= |content|
    ensures r.Ok? ==> dest[..] == content[at..at + n]
    ensures r.Err? ==> r.fault == Truncated && dest[..] == old(dest[..])
  {
    if at + n > |content| {
      return Err(Truncated);
    }
    forall j | 0 <= j < n {
      dest[j] := content[at + j];
    }
    return Ok(());
  }

  /** parseConstantPool: slots 1..length-1, each entry decoded at the running offset. */
  method ParseConstantPool(content: seq<byte>, klass: InstanceKlass, index: nat) returns (r: Result<nat>)
    requires klass.constantPool.length >= 0
    requires klass.constantPool.tag != null && klass.constantPool.tag.Length == klass.constantPool.length
    modifies klass.constantPool`dataMap, klass.constantPool.tag
    ensures var spec := PoolFrom(content, klass.constantPool.length, 1, index, old(klass.constantPool.tag[..]), old(klass.constantPool.dataMap));
      && (spec.Ok? ==> r == Ok(spec.value.2) && klass.constantPool.tag[..] == spec.value.0 && klass.constantPool.dataMap == spec.value.1)
      && (spec.Err? ==> r == Err(spec.fault))
  {
    var pool := klass.constantPool;
    var tag := pool.tag;
    var length: nat := pool.length;
    var i: nat := 1;
    var at := index;
    while i < length
      invariant pool.tag == tag
      invariant PoolFrom(content, length, i, at, tag[..], pool.dataMap)
             == PoolFrom(content, length, 1, index, old(tag[..]), old(pool.dataMap))
      decreases length - i
    {
      var entry :- PoolEntryAt(content, at);
      at := entry.next;
      tag[i] := entry.tag;
      pool.dataMap := pool.dataMap[i := entry.value];
      if entry.wide {
        if i + 1 >= length {
          return Err(IndexOutOfBounds);
        }
        i := i + 1;
        tag[i] := entry.tag;
        pool.dataMap := pool.dataMap[i := entry.value];
      }
      i := i + 1;
    }
    return Ok(at);
  }

  /** parseInterface: a u2 Class index per interface, with the name it resolves to. */
  method ParseInterface(content: seq<byte>, klass: InstanceKlass, index: nat) returns (r: Result<nat>)
    requires klass.interfacesLength >= 0
    modifies klass`interfaceInfos
    ensures var spec := InterfacesFrom(content, klass.constantPool.dataMap, klass.interfacesLength, index, old(klass.interfaceInfos));
      && (spec.Ok? ==> r == Ok(spec.value.1) && klass.interfaceInfos == spec.value.0)
      && (spec.Err? ==> r == Err(spec.fault))
  {
    var data := klass.constantPool.dataMap;
    var count: nat := klass.interfacesLength;
    var i: nat := 0;
    var at := index;
    while i < count
      invariant i <= count
      invariant InterfacesFrom(content, data, count - i, at, klass.interfaceInfos)
             == InterfacesFrom(content, data, count, index, old(klass.interfaceInfos))
    {
      var val :- U2(content, at);
      at := at + 2;
      var name :- ClassNameAt(data, val);
      klass.interfaceInfos := klass.interfaceInfos + [InterfaceInfo(val, name)];
      i := i + 1;
    }
    return Ok(at);
  }

  /** parseFields: four u2 items per field; a field with attributes aborts. */
  method ParseFields(content: seq<byte>, klass: InstanceKlass, index: nat) returns (r: Result<nat>)
    requires klass.fieldsLength >= 0
    modifies klass`fields
    ensures var spec := FieldsFrom(content, klass.fieldsLength, index, old(klass.fields));
      && (spec.Ok? ==> r == Ok(spec.value.1) && klass.fields == spec.value.0)
      && (spec.Err? ==> r == Err(spec.fault))
  {
    var count: nat := klass.fieldsLength;
    var i: nat := 0;
    var at := index;
    while i < count
      invariant i <= count
      invariant FieldsFrom(content, count - i, at, klass.fields) == FieldsFrom(content, count, index, old(klass.fields))
    {
      var accessFlags :- U2(content, at);
      var nameIndex :- U2(content, at + 2);
      var descriptorIndex :- U2(content, at + 4);
      var attributesCount :- U2(content, at + 6);
      at := at + 8;
      if attributesCount != 0 {
        return Err(FieldAttributes);
      }
      klass.fields := klass.fields + [FieldInfo(accessFlags, nameIndex, descriptorIndex, attributesCount)];
      i := i + 1;
    }
    return Ok(at);
  }

  /** parseLineNumberTable: the header, then a (start pc, line) pair per entry. */
  method ParseLineNumberTable(content: seq<byte>, index: nat) returns (r: Result<(DebugTable, nat)>)
    ensures r == LineNumberTableAt(content, index)
  {
    var attrNameIndex :- U2(content, index);
    var attrLength :- S4(content, index + 2);
    var tableLength :- U2(content, index + 6);
    var at: nat := index + 8;
    var items: seq<LineNumberItem> := [];
    if tableLength != 0 {
      var l := 0;
      while l < tableLength
        invariant l <= tableLength
        invariant LineNumbersFrom(content, tableLength - l, at, items) == LineNumbersFrom(content, tableLength, index + 8, [])
      {
        var startPc :- U2(content, at);
        var lineNumber :- U2(content, at + 2);
        at := at + 4;
        items := items + [LineNumberItem(startPc, lineNumber)];
        l := l + 1;
      }
    }
    return Ok((LineNumberTable(attrNameIndex, attrLength, tableLength, items), at));
  }

  /** parseLocalVariableTable: the header, then five u2 items per entry. */
  method ParseLocalVariableTable(content: seq<byte>, index: nat) returns (r: Result<(DebugTable, nat)>)
    ensures r == LocalVariableTableAt(content, index)
  {
    var attrNameIndex :- U2(content, index);
    var attrLength :- S4(content, index + 2);
    var tableLength :- U2(content, index + 6);
    var at: nat := index + 8;
    if tableLength == 0 {
      return Ok((LocalVariableTable(attrNameIndex, attrLength, 0, []), at));
    }
    var items: seq<LocalVariableItem> := [];
    var i := 0;
    while i < tableLength
      invariant i <= tableLength
      invariant LocalVariablesFrom(content, tableLength - i, at, items) == LocalVariablesFrom(content, tableLength, index + 8, [])
    {
      var startPc :- U2(content, at);
      var length :- U2(content, at + 2);
      var nameIndex :- U2(content, at + 4);
      var descriptorIndex :- U2(content, at + 6);
      var slot :- U2(content, at + 8);
      at := at + 10;
      items := items + [LocalVariableItem(startPc, length, nameIndex, descriptorIndex, slot)];
      i := i + 1;
    }
    return Ok((LocalVariableTable(attrNameIndex, attrLength, tableLength, items), at));
  }

  /**
   * The sub-attribute loop of a Code attribute: LineNumberTable and
   * LocalVariableTable are read and recorded by name; any other name is
   * skipped without moving the offset.
   */
  method ParseSubAttributes(content: seq<byte>, data: map<int, PoolData>, count: nat, index: nat)
    returns (r: Result<(map<string, DebugTable>, nat)>)
    ensures r == SubAttributesFrom(content, data, count, index, map[])
  {
    var at := index;
    var attributes: map<string, DebugTable> := map[];
    var k := 0;
    ghost var left: nat := count;
    while k < count
      invariant k <= count && left == count - k
      invariant SubAttributesFrom(content, data, left, at, attributes) == SubAttributesFrom(content, data, count, index, map[])
    {
      var nameIndex :- U2(content, at);
      var attrName :- Utf8At(data, nameIndex);
      if attrName == LINE_NUMBER_TABLE {
        var table :- ParseLineNumberTable(content, at);
        attributes := attributes[attrName := table.0];
        at := table.1;
      } else if attrName == LOCAL_VARIABLE_TABLE {
        var table :- ParseLocalVariableTable(content, at);
        attributes := attributes[attrName := table.0];
        at := table.1;
      }
      left := left - 1;
      k := k + 1;
    }
    return Ok((attributes, at));
  }

  /**
   * The Code attribute of the method in slot `slot` (the body of the inner
   * loop of parseMethods): its items, a fresh buffer filled with the code,
   * and the sub-attribute loop.
   */
  method ParseCodeAttribute(content: seq<byte>, klass: InstanceKlass, slot: nat, index: nat)
    returns (r: Result<(CodeAttributeInfo, nat)>)
    ensures var spec := CodeAttributeAt(content, klass.constantPool.dataMap, index);
      && (spec.Ok? ==> r.Ok? && r.value.1 == spec.value.1 && CodeRealizes(klass, slot, r.value.0, spec.value.0))
      && (spec.Err? ==> r == Err(spec.fault))
    ensures r.Ok? ==> fresh(r.value.0.code.codes) && fresh(r.value.0.code)
  {
    var data := klass.constantPool.dataMap;
    var attrNameIndex :- U2(content, index);
    var attrLength :- S4(content, index + 2);
    var maxStack :- U2(content, index + 6);
    var maxLocals :- U2(content, index + 8);
    var codeLength :- S4(content, index + 10);
    if codeLength < 0 {
      return Err(NegativeSize);
    }
    var stream := new BytecodeStream(klass, slot, codeLength);
    var copied := ReadSimple(content, index + 14, codeLength, stream.codes);
    if copied.Err? {
      return Err(copied.fault);
    }
    var at: nat := index + 14 + codeLength;
    var exceptionTableLength :- U2(content, at);
    var attributesCount :- U2(content, at + 2);
    at := at + 4;
    var sub :- ParseSubAttributes(content, data, attributesCount, at);
    var info := CodeAttributeInfo(attrNameIndex, attrLength, maxStack, maxLocals, codeLength, stream,
      exceptionTableLength, [], attributesCount, sub.0);
    return Ok((info, sub.1));
  }

  /**
   * One turn of parseMethods' loop: the method's items, its single Code
   * attribute, and whether it is main. The slot records the method's
   * position in the class's method array.
   */
  method ParseMethod(content: seq<byte>, klass: InstanceKlass, data: map<int, PoolData>, slot: nat, index: nat) returns (r: Result<(MethodInfo, bool, nat)>)
    requires data == klass.constantPool.dataMap
    ensures var spec := MethodAt(content, data, index);
      && (spec.Ok? ==>
            && r.Ok? && MethodRealizes(klass, slot, r.value.0, spec.value.0)
            && r.value.1 == spec.value.0.isMain && r.value.2 == spec.value.1)
      && (spec.Err? ==> r == Err(spec.fault))
    ensures r.Ok? ==> |r.value.0.attributes| == 1 && fresh(r.value.0.attributes[0].code.codes) && fresh(r.value.0.attributes[0].code)
  {
    var accessFlags :- U2(content, index);
    var nameIndex :- U2(content, index + 2);
    var methodName :- CastString(data, nameIndex);
    var descriptorIndex :- U2(content, index + 4);
    var attributesCount :- U2(content, index + 6);
    if attributesCount != 1 {
      return Err(MethodAttributes);
    }
    var code :- ParseCodeAttribute(content, klass, slot, index + 8);
    var isMain :- IsMainMethod(data, nameIndex, descriptorIndex);
    var info := MethodInfo(klass, accessFlags, nameIndex, descriptorIndex, attributesCount, [code.0], methodName);
    return Ok((info, isMain, code.1));
  }

  /** Some decoded method is public static void main(String[]). */
  ghost predicate AnyMain(decls: seq<MethodDecl>)
  {
    exists j :: 0 <= j < |decls| && decls[j].isMain
  }

  /** parseMethods: the methods in order into the method array; a main method registers the class. */
  ghost predicate MethodsRemain(content: seq<byte>, data: map<int, PoolData>, left: nat, at: nat, decls: seq<MethodDecl>, spec: Result<(seq<MethodDecl>, nat)>)
  {
    MethodsFrom(content, data, left, at, decls) == spec
  }

  /** One pass of the method loop: slot i receives the method read at offset at. */
  method ParseMethodInto(content: seq<byte>, klass: InstanceKlass, data: map<int, PoolData>, i: nat, at: nat, loader: BootClassLoader,
                         ghost left: nat, ghost decls: seq<MethodDecl>, ghost spec: Result<(seq<MethodDecl>, nat)>)
    returns (r: Result<nat>, ghost decl: MethodDecl)
    requires data == klass.constantPool.dataMap
    requires klass.methods != null && i < klass.methods.Length
    requires left > 0 && MethodsRemain(content, data, left, at, decls, spec)
    modifies klass.methods, loader`mainKlass
    ensures r.Ok? ==> MethodsRemain(content, data, left - 1, r.value, decls + [decl], spec)
    ensures r.Err? ==> spec == Err(r.fault)
    ensures r.Ok? ==>
      && klass.methods[i].Some? && MethodMatches(klass, i, klass.methods[i].value, decl)
      && klass.methods[i].value.attributes[0].code.codes[..] == decl.code.code
      && fresh(klass.methods[i].value.attributes[0].code.codes) && fresh(klass.methods[i].value.attributes[0].code)
      && loader.mainKlass == if decl.isMain then klass else old(loader.mainKlass)
    ensures forall j :: 0 <= j < klass.methods.Length && j != i ==> klass.methods[j] == old(klass.methods[j])
  {
    decl :| true;
    var parsed := ParseMethod(content, klass, data, i, at);
    if parsed.Err? {
      MethodsFromFails(content, data, left, at, decls);
      return Err(parsed.fault), decl;
    }
    decl := MethodAt(content, data, at).value.0;
    MethodsFromStep(content, data, left, at, decls, decl, parsed.value.2);
    klass.methods[i] := Some(parsed.value.0);
    if parsed.value.1 {
      loader.SetMainKlass(klass);
    }
    return Ok(parsed.value.2), decl;
  }

  method ParseMethods(content: seq<byte>, klass: InstanceKlass, data: map<int, PoolData>, count: nat, index: nat, loader: BootClassLoader)
    returns (r: Result<nat>)
    requires data == klass.constantPool.dataMap && count == klass.methodLength
    requires klass.methods != null && klass.methods.Length == count
    modifies klass.methods, loader`mainKlass
    ensures var spec := MethodsFrom(content, data, count, index, []);
      && (spec.Ok? ==> r == Ok(spec.value.1) && MethodsRealize(klass, spec.value.0))
      && (spec.Ok? ==> forall j :: 0 <= j < count ==> fresh(klass.methods[j].value.attributes[0].code))
      && (spec.Ok? ==> loader.mainKlass == if AnyMain(spec.value.0) then klass else old(loader.mainKlass))
      && (spec.Err? ==> r == Err(spec.fault))
  {
    var methods := klass.methods;
    var i: nat := 0;
    var at := index;
    ghost var decls: seq<MethodDecl> := [];
    ghost var spec := MethodsFrom(content, data, count, index, []);
    ghost var left: nat := count;
    while i < count
      invariant i <= count && |decls| == i && left == count - i
      invariant MethodsRemain(content, data, left, at, decls, spec)
      invariant forall j :: 0 <= j < i ==> methods[j].Some? && MethodMatches(klass, j, methods[j].value, decls[j])
      invariant forall j :: 0 <= j < i ==> methods[j].value.attributes[0].code.codes[..] == decls[j].code.code
      invariant forall j :: 0 <= j < i ==> fresh(methods[j].value.attributes[0].code)
      invariant loader.mainKlass == if AnyMain(decls) then klass else old(loader.mainKlass)
    {
      var next, decl := ParseMethodInto(content, klass, data, i, at, loader, left, decls, spec);
      if next.Err? {
        return Err(next.fault);
      }
      ghost var extended := decls + [decl];
      if decl.isMain {
        assert extended[i].isMain;
      } else {
        assert forall j :: 0 <= j < i ==> extended[j] == decls[j];
      }
      decls := extended;
      at := next.value;
      left := left - 1;
      i := i + 1;
    }
    return Ok(at);
  }


  /** parseSourceFile: a SourceFile attribute of eight bytes, appended to the class's attributes. */
  method ParseSourceFile(content: seq<byte>, index: nat, klass: InstanceKlass) returns (r: Result<nat>)
    modifies klass`attributeInfos
    ensures var spec := SourceFileAt(content, index);
      && (spec.Ok? ==> r == Ok(spec.value.1) && klass.attributeInfos == old(klass.attributeInfos) + [spec.value.0])
      && (spec.Err? ==> r == Err(spec.fault))
  {
    var attrNameIndex :- U2(content, index);
    var attrLength :- S4(content, index + 2);
    var container :- ReadBytes(content, index + 6, 2);
    klass.attributeInfos := klass.attributeInfos + [AttributeInfo(attrNameIndex, attrLength, container)];
    return Ok(index + 8);
  }

  /** The header arrays, the pool count, a zeroed tag array of that size, and the pool loop. */
  method ParsePreamble(content: seq<byte>, klass: InstanceKlass) returns (r: Result<nat>)
    requires klass.magic.Length == 4 && klass.minorVersion.Length == 2 && klass.majorVersion.Length == 2
    requires klass.magic != klass.minorVersion && klass.magic != klass.majorVersion && klass.minorVersion != klass.majorVersion
    requires klass.constantPool.tag == null && klass.constantPool.dataMap == map[]
    modifies klass.magic, klass.minorVersion, klass.majorVersion, klass.constantPool
    ensures r.Ok? <==> PreambleAt(content).Ok?
    ensures r.Err? ==> r.fault == PreambleAt(content).fault
    ensures r.Ok? ==> r.value == PreambleAt(content).value.1 && PreambleRealizes(klass, PreambleAt(content).value.0)
    ensures klass.constantPool.tag != null ==> fresh(klass.constantPool.tag)
  {
    var copied := ReadSimple(content, 0, 4, klass.magic);
    if copied.Err? {
      return Err(copied.fault);
    }
    copied := ReadSimple(content, 4, 2, klass.minorVersion);
    if copied.Err? {
      return Err(copied.fault);
    }
    copied := ReadSimple(content, 6, 2, klass.majorVersion);
    if copied.Err? {
      return Err(copied.fault);
    }
    var poolLength :- U2(content, 8);
    klass.constantPool.length := poolLength;
    klass.constantPool.InitContainer();
    assert klass.constantPool.tag[..] == ZeroTags(poolLength);
    r := ParseConstantPool(content, klass, 10);
  }

  /**
   * parseClassFile: a fresh class holding exactly what the file decodes to;
   * if some method is main, the loader's main class becomes this class.
   */
  method ParseClassFile(content: seq<byte>, loader: BootClassLoader) returns (r: Result<InstanceKlass>)
    modifies loader`mainKlass
    ensures r.Ok? <==> ClassFileAt(content).Ok?
    ensures r.Err? ==> r.fault == ClassFileAt(content).fault
    ensures r.Ok? ==> fresh(r.value) && KlassRealizes(r.value, ClassFileAt(content).value) && r.value.Valid()
    ensures r.Ok? ==> fresh(r.value.Streams())
    ensures r.Ok? ==> loader.mainKlass == if ClassFileAt(content).value.HasMain() then r.value else old(loader.mainKlass)
  {
    var klass := new InstanceKlass();
    var index :- ParsePreamble(content, klass);
    var parsed :- ParseClassBody(content, klass, klass.constantPool.dataMap, index, loader);
    ghost var cf := ClassFileAt(content).value;
    RealizedKlassValid(klass, cf);
    return Ok(klass);
  }

  /** interfaces_count and, when it is not zero, the interface loop. */
  method ParseInterfaceTable(content: seq<byte>, klass: InstanceKlass, data: map<int, PoolData>, index: nat) returns (r: Result<nat>)
    requires data == klass.constantPool.dataMap
    modifies klass`interfacesLength, klass`interfaceInfos
    ensures var spec := InterfaceTableAt(content, data, index);
      && (spec.Ok? ==> r == Ok(spec.value.next))
      && (spec.Ok? ==> klass.interfacesLength == spec.value.length && klass.interfaceInfos == spec.value.items)
      && (spec.Err? ==> r == Err(spec.fault))
  {
    var interfacesLength :- U2(content, index);
    klass.interfacesLength := interfacesLength;
    klass.interfaceInfos := [];
    r := Ok(index + 2);
    if klass.interfacesLength != 0 {
      r := ParseInterface(content, klass, index + 2);
    }
  }

  /** fields_count and the field loop. */
  method ParseFieldTable(content: seq<byte>, klass: InstanceKlass, index: nat) returns (r: Result<nat>)
    modifies klass`fieldsLength, klass`fields
    ensures var spec := FieldTableAt(content, index);
      && (spec.Ok? ==> r == Ok(spec.value.next) && klass.fieldsLength == spec.value.length && klass.fields == spec.value.items)
      && (spec.Err? ==> r == Err(spec.fault))
  {
    var fieldsLength :- U2(content, index);
    klass.fieldsLength := fieldsLength;
    klass.fields := [];
    r := ParseFields(content, klass, index + 2);
  }

  /** methods_count, a fresh method array of that size, and the method loop. */
  method ParseMethodTable(content: seq<byte>, klass: InstanceKlass, data: map<int, PoolData>, index: nat, loader: BootClassLoader, ghost head: ClassHead)
    returns (r: Result<nat>)
    requires data == klass.constantPool.dataMap
    modifies klass`methodLength, klass`methods, loader`mainKlass
    ensures old(HeadRealizes(klass, head)) ==> HeadRealizes(klass, head)
    ensures var spec := MethodTableAt(content, data, index);
      && (spec.Ok? ==> r == Ok(spec.value.next) && klass.methodLength == spec.value.length)
      && (spec.Ok? ==> MethodsRealize(klass, spec.value.items) && fresh(klass.methods) && fresh(klass.Streams()))
      && (spec.Ok? ==> loader.mainKlass == if AnyMain(spec.value.items) then klass else old(loader.mainKlass))
      && (spec.Err? ==> r == Err(spec.fault))
  {
    var methodLength :- U2(content, index);
    klass.methodLength := methodLength;
    klass.InitMethodsContainer();
    r := ParseMethods(content, klass, data, methodLength, index + 2, loader);
  }

  /** attributes_count and the class-attribute loop. */
  method ParseAttributeTable(content: seq<byte>, klass: InstanceKlass, data: map<int, PoolData>, index: nat, ghost head: ClassHead, ghost methods: seq<MethodDecl>)
    returns (r: Result<nat>)
    requires data == klass.constantPool.dataMap
    modifies klass`attributeLength, klass`attributeInfos
    ensures old(HeadRealizes(klass, head)) ==> HeadRealizes(klass, head)
    ensures old(MethodsRealize(klass, methods)) ==> MethodsRealize(klass, methods)
    ensures var spec := AttributeTableAt(content, data, index);
      && (spec.Ok? ==> r == Ok(spec.value.next))
      && (spec.Ok? ==> klass.attributeLength == spec.value.length && klass.attributeInfos == spec.value.items)
      && (spec.Err? ==> r == Err(spec.fault))
  {
    var attributeLength :- U2(content, index);
    klass.attributeLength := attributeLength;
    klass.attributeInfos := [];
    r := ParseClassAttributes(content, klass, index + 2);
  }

  /** Access flags, this and super class, and the interface and field tables. */
  method ParseClassHead(content: seq<byte>, klass: InstanceKlass, data: map<int, PoolData>, index: nat) returns (r: Result<nat>)
    requires data == klass.constantPool.dataMap
    modifies klass`accessFlag, klass`thisClass, klass`superClass, klass`interfacesLength, klass`interfaceInfos
    modifies klass`fieldsLength, klass`fields
    ensures r.Ok? <==> ClassHeadAt(content, data, index).Ok?
    ensures r.Err? ==> r.fault == ClassHeadAt(content, data, index).fault
    ensures r.Ok? ==> r.value == ClassHeadAt(content, data, index).value.1 && HeadRealizes(klass, ClassHeadAt(content, data, index).value.0)
  {
    var accessFlag :- U2(content, index);
    klass.accessFlag := accessFlag;
    var thisClass :- U2(content, index + 2);
    klass.thisClass := thisClass;
    var superClass :- U2(content, index + 4);
    klass.superClass := superClass;
    var at :- ParseInterfaceTable(content, klass, data, index + 6);
    r := ParseFieldTable(content, klass, at);
  }

  /**
   * The part of parseClassFile after the constant pool: the head, then the
   * method and attribute tables.
   */
  method ParseClassBody(content: seq<byte>, klass: InstanceKlass, data: map<int, PoolData>, index: nat, loader: BootClassLoader)
    returns (r: Result<()>)
    requires data == klass.constantPool.dataMap
    modifies klass, loader`mainKlass
    ensures r.Ok? <==> ClassBodyAt(content, data, index).Ok?
    ensures r.Err? ==> r.fault == ClassBodyAt(content, data, index).fault
    ensures r.Ok? ==> BodyRealizes(klass, ClassBodyAt(content, data, index).value) && fresh(klass.methods) && fresh(klass.Streams())
    ensures r.Ok? ==> loader.mainKlass == if AnyMain(ClassBodyAt(content, data, index).value.methods) then klass else old(loader.mainKlass)
  {
    var at :- ParseClassHead(content, klass, data, index);
    ghost var head := ClassHeadAt(content, data, index).value.0;
    ghost var methods := MethodTableAt(content, data, at);
    at :- ParseMethodTable(content, klass, data, at, loader, head);
    at :- ParseAttributeTable(content, klass, data, at, head, methods.value.items);
    return Ok(());
  }

  /** The class-attribute loop of parseClassFile: only SourceFile is understood. */
  method ParseClassAttributes(content: seq<byte>, klass: InstanceKlass, index: nat) returns (r: Result<nat>)
    requires klass.attributeLength >= 0
    modifies klass`attributeInfos
    ensures var spec := ClassAttributesFrom(content, klass.constantPool.dataMap, klass.attributeLength, index, old(klass.attributeInfos));
      && (spec.Ok? ==> r == Ok(spec.value.1) && klass.attributeInfos == spec.value.0)
      && (spec.Err? ==> r == Err(spec.fault))
  {
    var data := klass.constantPool.dataMap;
    var count: nat := klass.attributeLength;
    var at := index;
    var i := 0;
    ghost var left: nat := count;
    while i < count
      invariant i <= count && left == count - i
      invariant ClassAttributesFrom(content, data, left, at, klass.attributeInfos)
             == ClassAttributesFrom(content, data, count, index, old(klass.attributeInfos))
    {
      var nameIndex :- U2(content, at);
      var attrName :- Utf8At(data, nameIndex);
      if attrName != SOURCE_FILE {
        return Err(UnknownClassAttribute);
      }
      at :- ParseSourceFile(content, at, klass);
      left := left - 1;
      i := i + 1;
    }
    return Ok(at);
  }


  /* ---------------------------------------------------------------- */
  /* The boot class loader                                             */

  const SUFFIX: string := ".class"
  const SEARCH_PATH: string := "/Users/zhchen/Downloads/My_JVM_Source/target/classes/"

  /** String.replace(from, to) on one character: the loader's '.' to '/', and INVOKESTATIC's '/' to '.'. */
  function Replace(name: string, from: char, to: char): (r: string)
    ensures |r| == |name|
    ensures forall i :: 0 <= i < |name| ==> r[i] == if name[i] == from then to else name[i]
  {
    if name == [] then []
    else [if name[0] == from then to else name[0]] + Replace(name[1..], from, to)
  }

  /** The file a class is read from: the search path, the name with its dots as slashes, ".class". */
  function ClassFilePath(name: string): (r: string)
    ensures |r| == |SEARCH_PATH| + |name| + |SUFFIX|
    ensures r[..|SEARCH_PATH|] == SEARCH_PATH && r[|r| - |SUFFIX|..] == SUFFIX
    ensures forall i :: 0 <= i < |name| ==> r[|SEARCH_PATH| + i] == if name[i] == '.' then '/' else name[i]
  {
    SEARCH_PATH + Replace(name, '.', '/') + SUFFIX
  }

  /** Two names that differ only in writing '.' or '/' are read from the same file. */
  lemma SlashAndDotShareAFile(prefix: string, suffix: string)
    ensures ClassFilePath(prefix + "." + suffix) == ClassFilePath(prefix + "/" + suffix)
  {
    var a, b := prefix + "." + suffix, prefix + "/" + suffix;
    assert Replace(a, '.', '/') == Replace(b, '.', '/') by {
      forall i | 0 <= i < |a|
        ensures Replace(a, '.', '/')[i] == Replace(b, '.', '/')[i]
      {
        if i != |prefix| {
          assert a[i] == b[i];
        }
      }
    }
  }

  class BootClassLoader {
    /** Every class the loader has parsed, by the name it was asked for. */
    var classLoaderData: map<string, InstanceKlass>
    /** The class whose method main was found while parsing, once there is one. */
    var mainKlass: InstanceKlass?
    /** FileUtil.readBytes: the bytes of the file at a path, or nothing if it cannot be read. */
    const files: string -> Option<seq<byte>>

    constructor (files: string -> Option<seq<byte>>)
      ensures classLoaderData == map[] && mainKlass == null && this.files == files
    {
      classLoaderData := map[];
      mainKlass := null;
      this.files := files;
    }

    /** findLoadedKlass: the cached class, or null. */
    function FindLoadedKlass(name: string): (r: Option<InstanceKlass>)
      reads this
      ensures r.Some? <==> name in classLoaderData
      ensures r.Some? ==> r.value == classLoaderData[name]
    {
      if name in classLoaderData then Some(classLoaderData[name]) else None
    }

    method SetMainKlass(klass: InstanceKlass)
      modifies this`mainKlass
      ensures mainKlass == klass
    {
      mainKlass := klass;
    }

    /** resolveKlass does nothing. */
    method ResolveKlass()
    {
    }

    /**
     * readAndParse: read the class's file, parse it, and cache the result
     * under the name. A file that cannot be read or parsed caches nothing.
     */
    method ReadAndParse(name: string) returns (r: Result<InstanceKlass>)
      modifies this
      ensures files(ClassFilePath(name)).None? ==> r == Err(ClassNotFound) && classLoaderData == old(classLoaderData)
      ensures files(ClassFilePath(name)).Some? ==>
        var spec := ClassFileAt(files(ClassFilePath(name)).value);
        && (spec.Err? ==> r == Err(spec.fault) && classLoaderData == old(classLoaderData))
        && (spec.Ok? ==>
              && r.Ok? && fresh(r.value) && KlassRealizes(r.value, spec.value) && r.value.Valid()
              && fresh(r.value.Streams())
              && classLoaderData == old(classLoaderData)[name := r.value]
              && mainKlass == if spec.value.HasMain() then r.value else old(mainKlass))
    {
      var content := files(ClassFilePath(name));
      if content.None? {
        return Err(ClassNotFound);
      }
      r := ParseClassFile(content.value, this);
      if r.Ok? {
        classLoaderData := classLoaderData[name := r.value];
      }
    }

    /**
     * loadKlass(name, resolve): a cached class is returned as it is, without
     * reading anything; otherwise the class is read and parsed. The resolve
     * flag changes nothing.
     */
    method LoadKlass(name: string, resolve: bool) returns (r: Result<InstanceKlass>)
      modifies this
      ensures name in old(classLoaderData) ==>
        r == Ok(old(classLoaderData)[name]) && classLoaderData == old(classLoaderData) && mainKlass == old(mainKlass)
      ensures name !in old(classLoaderData) && files(ClassFilePath(name)).None? ==>
        r == Err(ClassNotFound) && classLoaderData == old(classLoaderData)
      ensures name !in old(classLoaderData) && files(ClassFilePath(name)).Some? ==>
        var spec := ClassFileAt(files(ClassFilePath(name)).value);
        && (spec.Err? ==> r == Err(spec.fault) && classLoaderData == old(classLoaderData))
        && (spec.Ok? ==>
              && r.Ok? && fresh(r.value) && KlassRealizes(r.value, spec.value) && r.value.Valid()
              && fresh(r.value.Streams())
              && classLoaderData == old(classLoaderData)[name := r.value]
              && mainKlass == if spec.value.HasMain() then r.value else old(mainKlass))
    {
      var klass := FindLoadedKlass(name);
      if klass.Some? {
        return Ok(klass.value);
      }
      r := ReadAndParse(name);
      if resolve {
        ResolveKlass();
      }
    }

    /** loadMainKlass: the recorded main class if there is one, whatever the name; else loadKlass. */
    method LoadMainKlass(name: string) returns (r: Result<InstanceKlass>)
      modifies this
      ensures old(mainKlass) != null ==> r.Ok? && r.value == old(mainKlass) && classLoaderData == old(classLoaderData) && mainKlass == old(mainKlass)
      ensures old(mainKlass) == null && name in old(classLoaderData) ==>
        r == Ok(old(classLoaderData)[name]) && classLoaderData == old(classLoaderData) && mainKlass == old(mainKlass)
      ensures old(mainKlass) == null && name !in old(classLoaderData) && files(ClassFilePath(name)).None? ==>
        r == Err(ClassNotFound) && classLoaderData == old(classLoaderData)
      ensures old(mainKlass) == null && name !in old(classLoaderData) && files(ClassFilePath(name)).Some? ==>
        var spec := ClassFileAt(files(ClassFilePath(name)).value);
        && (spec.Err? ==> r == Err(spec.fault) && classLoaderData == old(classLoaderData))
        && (spec.Ok? ==>
              && r.Ok? && fresh(r.value) && KlassRealizes(r.value, spec.value) && r.value.Valid()
              && fresh(r.value.Streams())
              && classLoaderData == old(classLoaderData)[name := r.value]
              && mainKlass == if spec.value.HasMain() then r.value else old(mainKlass))
    {
      if mainKlass != null {
        return Ok(mainKlass);
      }
      r := LoadKlass(name, true);
    }
  }

  /** After a successful load, looking the name up finds the loaded class; other names are untouched. */
  lemma LoadedKlassIsFound(before: map<string, InstanceKlass>, after: map<string, InstanceKlass>, name: string, k: InstanceKlass, other: string)
    requires name in before ==> after == before && k == before[name]
    requires name !in before ==> after == before[name := k]
    requires other != name
    ensures name in after && after[name] == k
    ensures (other in after <==> other in before) && (other in before ==> after[other] == before[other])
  {
  }
}
