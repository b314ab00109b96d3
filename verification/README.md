# A verified model of My_JVM's class loader and bytecode interpreter

My_JVM is a small Java virtual machine written in Java. This project models
its core in Dafny and proves properties of that model:

- **the class-file parser** (`ClassFileParser`): the pure layout of a class
  file (module `ClassFileFormat`), and an imperative parser that fills a fresh
  `InstanceKlass` with one running offset (module `Classfile`). The parser is
  proved to compute exactly what the layout decodes to, byte for byte.
- **the boot class loader** (`BootClassLoader`): a cache of parsed classes by
  name, with the recorded main class. The file system is a parameter: a
  function from a path to its bytes.
- **the loaded form of a class** (`InstanceKlass`, `ConstantPool`,
  `CodeAttributeInfo`, `BytecodeStream`; module `Oops`), and the opcode
  table (`Bytecodes`), with encoding and decoding proved mutually inverse.
- **values, operand stacks, locals tables and frames** (`StackValue`,
  `StackValueCollection`, `JavaVFrame`; modules `StackValues` and `Frames`).
  Each stack operation is a method on a class, specified by a function on the
  stack's contents.
- **the interpreter** (`BytecodeInterpreter.run`). Every case of its switch is
  a pure step function (module `Semantics`), and per-instruction facts are
  compared with section 6.5 of The Java Virtual Machine Specification (module
  `InstructionFacts`). The run loop (module `Interpreter`, class `Vm`) executes
  steps on the real frame objects. Up to the first INVOKESTATIC into a class
  the interpreter loads itself, it is proved to stop exactly where the step
  function's run `Exec` stops. The call itself is proved to run the callee
  from its first instruction in a new frame, as `Exec` says.
- **the native interface** (`JavaNativeInterface`): `findClass`,
  `getMethodID` (a loop proved to find the first matching method) and
  `callStaticMethod`.

Every Java exception the core throws or provokes becomes a `Fault`
(`Wrappers`). The interpreter catches exceptions in only two places. BASTORE
catches the failure of `get` past the end of the array's data and appends
instead. The cases that reflect into host classes catch the reflection
exceptions and print them; those cases are `Host` functions here, which
answer `Ok(None)` for a caught exception and `Err` for any other, such as a
NullPointerException from reading an instance field as static. Every
other exception ends the run. Java's fixed-width integers are modelled as Dafny integers, with every
wrap-around written out (`Bytes`). Java's `/` and `%` truncate toward zero and
are defined on top of Dafny's Euclidean operators.

Where the code behaves differently from what its own comments or the JVM
specification describe, the model follows the code and proves the difference
as a lemma:

- `InstructionFacts.LcmpIsReversed`: LCMP pushes the opposite sign.
- `InstructionFacts.BipushZeroExtends`: BIPUSH zero-extends its operand.
- `InstructionFacts.IfNonNullTestsData`: IFNONNULL tests `getData()`.
- `Frames.PopDoubleAfterPushOne`: `popDouble` cannot read back what
  `pushDouble` wrote.
- `ClassFileFormat.MagicNotChecked`: the magic number is never checked.
- `ClassFileFormat.UnknownSubAttributeStalls`: an unknown Code sub-attribute
  is not skipped.
- `ClassFileFormat.WideEntryInLastSlotFails`: a Long or Double in the last
  pool slot fails.
- `ClassFileFormat.PoolEntryAt`: Integer constants are rejected.
- `Classfile.ParsedMethodsHaveNoHandlers`: exception tables are never filled.
- `Interpreter.ReturnDoesNotLeaveTheLoop`: RETURN pops a frame but does not
  leave the loop. A void method with an early `return` goes on to the
  following instructions, and its next RETURN pops its caller's frame.

## Model

| member | source | states |
|---|---|---|
| Bytes.FromBE | src/main/java/com/czh/jvm/hotspot/src/share/vm/classfile/ClassFileParser.java:33-37 | A big-endian byte string reads as an unsigned number below 256^width, as readU2Simple followed by byteToUnsignedShort does for the pool count and every other u2. |
| Bytes.FromToBE | src/main/java/com/czh/jvm/hotspot/src/share/vm/runtime/StackValue.java:46-56 | Writing a number below 256^w as w big-endian bytes and reading them back gives the number again. |
| Bytes.ToFromBE | src/main/java/com/czh/jvm/hotspot/src/share/vm/runtime/StackValue.java:46-56 | Every byte string is the big-endian image of the number it reads as, so the conversion loses nothing in either direction. |
| Bytes.Int32 | src/main/java/com/czh/jvm/hotspot/src/share/vm/interpreter/BytecodeInterpreter.java:1161-1184 | The int result of an addition is a Java int congruent to the exact sum modulo 2^32, which is how IADD wraps. |
| Bytes.Int64 | src/main/java/com/czh/jvm/hotspot/src/share/vm/interpreter/BytecodeInterpreter.java:1120-1139 | The long result is a Java long congruent to the exact value modulo 2^64, which is how LADD wraps. |
| Bytes.Int8 | src/main/java/com/czh/jvm/hotspot/src/share/vm/interpreter/BytecodeInterpreter.java:738-747 | The (byte) cast of I2B keeps the low 8 bits, sign-extended: the result lies in [-128, 128) and differs from the input by a multiple of 256. |
| Bytes.Int16 | src/main/java/com/czh/jvm/hotspot/src/share/vm/interpreter/BytecodeInterpreter.java:758-767 | The (short) cast of I2S keeps the low 16 bits, sign-extended. |
| Bytes.Uint16 | src/main/java/com/czh/jvm/hotspot/src/share/vm/interpreter/BytecodeInterpreter.java:748-757 | The (char) cast of I2C keeps the low 16 bits, zero-extended. |
| Bytes.WrapIdentity | src/main/java/com/czh/jvm/hotspot/src/share/vm/interpreter/BytecodeInterpreter.java:614-767 | A cast to a width the value already fits leaves it unchanged. |
| Bytes.LongToBytes | src/main/java/com/czh/jvm/hotspot/src/share/vm/runtime/StackValue.java:46-49 | A long's byte image has exactly eight bytes. |
| Bytes.BytesToLong | src/main/java/com/czh/jvm/hotspot/src/share/vm/runtime/StackValue.java:55-56 | Eight bytes always read back as a Java long. |
| Bytes.LongRoundTrip | src/main/java/com/czh/jvm/hotspot/src/share/vm/runtime/StackValue.java:46-56 | A long stored by the long constructor reads back as the same long. |
| Bytes.BytesRoundTrip | src/main/java/com/czh/jvm/hotspot/src/share/vm/runtime/StackValue.java:46-56 | Every eight-byte image is the image of the long it reads as. |
| Bytes.Int32BE | src/main/java/com/czh/jvm/hotspot/src/share/vm/classfile/ClassFileParser.java:152-155 | A u4 length read with byteArrayToInt is the Java int congruent modulo 2^32 to the four bytes read big-endian, the first byte the most significant. |
| Bytes.Int32LE | src/main/java/com/czh/jvm/hotspot/src/share/vm/runtime/StackValueCollection.java:76-78 | The second half of a pushed double, read with a little-endian buffer, is the Java int congruent modulo 2^32 to the four bytes with the last one the most significant. |
| Bytes.TruncRem | src/main/java/com/czh/jvm/hotspot/src/share/vm/interpreter/BytecodeInterpreter.java:872-889 | Java's remainder satisfies a == b * (a / b) + a % b, is smaller in magnitude than the divisor, and never has the opposite sign of the dividend. |
| Bytes.TruncDiv | src/main/java/com/czh/jvm/hotspot/src/share/vm/interpreter/BytecodeInterpreter.java:944-961 | Java's quotient leaves a remainder smaller in magnitude than the divisor and never of the opposite sign to the dividend, which is division rounded toward zero. |
| Bytes.TruncDivUnique | src/main/java/com/czh/jvm/hotspot/src/share/vm/interpreter/BytecodeInterpreter.java:944-961 | That rule fixes the quotient: any quotient whose remainder obeys it is Java's. |
| Bytecodes.Code | src/main/java/com/czh/jvm/hotspot/src/share/vm/interpreter/Bytecodes.java:5-131 | Every opcode the interpreter knows is encoded by a byte in 0..255, and no opcode is encoded by ILLEGAL. |
| Bytecodes.Decode | src/main/java/com/czh/jvm/hotspot/src/share/vm/interpreter/Bytecodes.java:5-131 | A byte decodes only to the opcode whose constant it is. |
| Bytecodes.DecodeCode | src/main/java/com/czh/jvm/hotspot/src/share/vm/interpreter/Bytecodes.java:5-131 | Decoding inverts encoding: every opcode is recognised from its own byte. |
| Bytecodes.CodeInjective | src/main/java/com/czh/jvm/hotspot/src/share/vm/interpreter/Bytecodes.java:5-131 | No two opcodes share a byte. |
| Bytecodes.DecodeComplete | src/main/java/com/czh/jvm/hotspot/src/share/vm/interpreter/Bytecodes.java:5-131 | A byte decodes exactly when it is some opcode's byte, and ILLEGAL never decodes. |
| StackValues.OfInt | src/main/java/com/czh/jvm/hotspot/src/share/vm/runtime/StackValue.java:31-34 | The int constructor gives a well-formed value for every tag that keeps its payload in the int. |
| StackValues.OfObject | src/main/java/com/czh/jvm/hotspot/src/share/vm/runtime/StackValue.java:36-39 | The object constructor gives a well-formed value for reference tags. |
| StackValues.OfFloat | src/main/java/com/czh/jvm/hotspot/src/share/vm/runtime/StackValue.java:41-44 | The float constructor gives a well-formed value holding a four-byte image. |
| StackValues.OfLong | src/main/java/com/czh/jvm/hotspot/src/share/vm/runtime/StackValue.java:46-49 | The long constructor gives a well-formed value holding an eight-byte image. |
| StackValues.GetData | src/main/java/com/czh/jvm/hotspot/src/share/vm/runtime/StackValue.java:51-62 | getData answers null exactly for the tags other than float, long and int, and an int or long it answers has its type's range. |
| StackValues.GetDataRoundTrip | src/main/java/com/czh/jvm/hotspot/src/share/vm/runtime/StackValue.java:31-62 | Each constructor's payload reads back unchanged through getData under the matching tag. |
| StackValues.GetDataOfReferences | src/main/java/com/czh/jvm/hotspot/src/share/vm/runtime/StackValue.java:51-62 | Objects, arrays and the two int halves of a double read back as null. |
| Oops.PackUnpack | src/main/java/com/czh/jvm/hotspot/src/share/vm/classfile/ClassFileParser.java:632-674 | Packing a reference entry's two u2 indices into one Integer loses neither, even when the upper index sets the sign bit. |
| Oops.CastString | src/main/java/com/czh/jvm/hotspot/src/share/vm/prims/JavaNativeInterface.java:29-30 | The (String) cast of a data-map entry is null for a missing key, the string for a Utf8 entry, and a ClassCastException otherwise. |
| Oops.ConstantPool.constructor | src/main/java/com/czh/jvm/hotspot/src/share/vm/oops/InstanceKlass.java:36-40 | A new constant pool has no tag array and an empty data map. |
| Oops.ConstantPool.InitContainer | src/main/java/com/czh/jvm/hotspot/src/share/vm/classfile/ClassFileParser.java:33-39 | initContainer gives the pool a fresh tag array of pool-count zeros and changes nothing else. |
| Oops.FirstHandler | src/main/java/com/czh/jvm/hotspot/src/share/vm/oops/CodeAttributeInfo.java:38-46 | The handler found covers the pc, and no earlier entry of the table does. |
| Oops.FirstHandlerNone | src/main/java/com/czh/jvm/hotspot/src/share/vm/oops/CodeAttributeInfo.java:38-46 | No handler is found exactly when no entry of the table covers the pc. |
| Oops.FindExceptionHandle | src/main/java/com/czh/jvm/hotspot/src/share/vm/oops/CodeAttributeInfo.java:38-46 | The loop returns the first entry covering the pc, or null when there is none. |
| Oops.BytecodeStream.constructor | src/main/java/com/czh/jvm/hotspot/src/share/vm/interpreter/BytecodeStream.java:8-14 | A new cursor has a zeroed buffer of the Code attribute's length and stands at index 0. |
| Oops.BytecodeStream.Reset | src/main/java/com/czh/jvm/hotspot/src/share/vm/interpreter/BytecodeInterpreter.java:197 | reset puts the cursor back at the first instruction. |
| Oops.InstanceKlass.constructor | src/main/java/com/czh/jvm/hotspot/src/share/vm/oops/InstanceKlass.java:36-40 | A new class has fresh header arrays of four, two and two bytes and an empty constant pool that points back to it. |
| Oops.InstanceKlass.InitMethodsContainer | src/main/java/com/czh/jvm/hotspot/src/share/vm/oops/InstanceKlass.java:42-44 | initMethodsContainer gives the class a fresh method array of methodLength empty slots. |
| Frames.StackPop | src/main/java/com/czh/jvm/hotspot/src/share/vm/runtime/StackValueCollection.java:40-42 | pop fails exactly on an empty stack; otherwise it returns the top slot, and the rest plus that slot is the old stack. |
| Frames.StackPeek | src/main/java/com/czh/jvm/hotspot/src/share/vm/runtime/StackValueCollection.java:90-92 | peek fails exactly on an empty stack and otherwise returns the top slot. |
| Frames.PushThenPop | src/main/java/com/czh/jvm/hotspot/src/share/vm/runtime/StackValueCollection.java:28-42 | Popping right after a push returns the pushed slot and restores the stack. |
| Frames.StackPopDouble2 | src/main/java/com/czh/jvm/hotspot/src/share/vm/runtime/StackValueCollection.java:81-88 | popDouble2 succeeds exactly on two or more slots and returns the top slot first, then the one below it. |
| Frames.DoubleSlots | src/main/java/com/czh/jvm/hotspot/src/share/vm/runtime/StackValueCollection.java:68-79 | pushDouble pushes two well-formed slots tagged as double. |
| Frames.PutInt | src/main/java/com/czh/jvm/hotspot/src/share/vm/runtime/StackValueCollection.java:59 | putInt(index, v) writes v's four big-endian bytes at index and leaves the other bytes alone; an index above 4 or below 0 throws. |
| Frames.BothTagged | src/main/java/com/czh/jvm/hotspot/src/share/vm/runtime/StackValueCollection.java:55-57 | The type check passes exactly when both popped slots are non-null with the double tag; a null slot throws NullPointerException and a wrong tag a type error, checked in the source's order. |
| Frames.StackPopDouble | src/main/java/com/czh/jvm/hotspot/src/share/vm/runtime/StackValueCollection.java:49-62 | popDouble succeeds exactly when both top slots are non-null and tagged T_DOUBLE and the deeper one's int is a putInt index from 0 to 4. It throws EmptyStack on fewer than two slots and the type check's fault on a wrong slot. On success it removes exactly the two top slots, and the image it returns has the top slot's int big-endian at that index and zeros elsewhere. |
| Frames.PopDoubleAfterPushZero | src/main/java/com/czh/jvm/hotspot/src/share/vm/runtime/StackValueCollection.java:49-79 | popDouble reads back 0.0 after pushDouble(0.0). |
| Frames.PopDoubleAfterPushOne | src/main/java/com/czh/jvm/hotspot/src/share/vm/runtime/StackValueCollection.java:49-79 | popDouble throws after pushDouble(1.0): the second slot's int is used as a buffer position, which 0x3FF00000 is not. |
| Frames.StackPopArray | src/main/java/com/czh/jvm/hotspot/src/share/vm/runtime/StackValueCollection.java:123-131 | popArray succeeds exactly when the top slot is a non-null array value, and then returns its reference and the rest of the stack. |
| Wrappers.ElementAt | src/main/java/com/czh/jvm/hotspot/src/share/vm/runtime/StackValueCollection.java:111-113 | get (and getTag()[i] in the interpreter) succeeds exactly for an index inside the array and returns that element; any other index throws IndexOutOfBounds. |
| Frames.LocalSet | src/main/java/com/czh/jvm/hotspot/src/share/vm/runtime/StackValueCollection.java:107-109 | add succeeds exactly for an index inside the table, writes that slot and no other. |
| Frames.StackValueCollection.constructor | src/main/java/com/czh/jvm/hotspot/src/share/vm/runtime/StackValueCollection.java:25-26 | An operand stack starts empty. |
| Frames.StackValueCollection.Sized | src/main/java/com/czh/jvm/hotspot/src/share/vm/runtime/StackValueCollection.java:101-105 | A locals table of size slots starts with every slot null. |
| Frames.StackValueCollection.Push | src/main/java/com/czh/jvm/hotspot/src/share/vm/runtime/StackValueCollection.java:28-30 | push appends the value on top of the stack. |
| Frames.StackValueCollection.PushInt | src/main/java/com/czh/jvm/hotspot/src/share/vm/runtime/StackValueCollection.java:32-34 | pushInt pushes an int-tagged value onto the frame's operand stack. |
| Frames.StackValueCollection.PushObject | src/main/java/com/czh/jvm/hotspot/src/share/vm/runtime/StackValueCollection.java:35-37 | pushObject pushes an object-tagged value onto the frame's operand stack. |
| Frames.StackValueCollection.PushNull | src/main/java/com/czh/jvm/hotspot/src/share/vm/runtime/StackValueCollection.java:115-117 | pushNull pushes an object-tagged null. |
| Frames.StackValueCollection.PushArray | src/main/java/com/czh/jvm/hotspot/src/share/vm/runtime/StackValueCollection.java:119-121 | pushArray pushes an array-tagged reference. |
| Frames.StackValueCollection.Pop | src/main/java/com/czh/jvm/hotspot/src/share/vm/runtime/StackValueCollection.java:40-42 | pop does what StackPop says, and leaves an empty stack as it is. |
| Frames.StackValueCollection.Peek | src/main/java/com/czh/jvm/hotspot/src/share/vm/runtime/StackValueCollection.java:90-92 | peek answers StackPeek of the current contents. |
| Frames.StackValueCollection.PopDouble2 | src/main/java/com/czh/jvm/hotspot/src/share/vm/runtime/StackValueCollection.java:81-88 | popDouble2 does what StackPopDouble2 says. |
| Frames.StackValueCollection.PopDouble | src/main/java/com/czh/jvm/hotspot/src/share/vm/runtime/StackValueCollection.java:49-62 | popDouble does what StackPopDouble says. |
| Frames.StackValueCollection.PushDouble | src/main/java/com/czh/jvm/hotspot/src/share/vm/runtime/StackValueCollection.java:68-79 | pushDouble appends the two slots of DoubleSlots. |
| Frames.StackValueCollection.PopArray | src/main/java/com/czh/jvm/hotspot/src/share/vm/runtime/StackValueCollection.java:123-131 | popArray does what StackPopArray says. |
| Frames.StackValueCollection.Add | src/main/java/com/czh/jvm/hotspot/src/share/vm/runtime/StackValueCollection.java:107-109 | add writes the table as LocalSet says, and leaves it unchanged on a bad index. |
| Frames.StackValueCollection.Get | src/main/java/com/czh/jvm/hotspot/src/share/vm/runtime/StackValueCollection.java:111-113 | get answers ElementAt of the table. |
| Frames.JavaVFrame.constructor | src/main/java/com/czh/jvm/hotspot/src/share/vm/runtime/JavaVFrame.java:20-22 | A frame gets a fresh locals table of maxLocals null slots and a fresh empty operand stack. |
| Frames.JavaVFrame.WithOwner | src/main/java/com/czh/jvm/hotspot/src/share/vm/runtime/JavaVFrame.java:24-28 | The same, and the frame records the method it runs. |
| Frames.JavaThread.constructor | src/main/java/com/czh/jvm/hotspot/src/share/vm/runtime/JavaThread.java:8 | A thread starts with no frames. |
| Frames.JavaThread.PushFrame | src/main/java/com/czh/jvm/hotspot/src/share/vm/prims/JavaNativeInterface.java:60 | Pushing a frame puts it on top of the thread's stack. |
| Frames.JavaThread.PopFrame | src/main/java/com/czh/jvm/hotspot/src/share/vm/interpreter/BytecodeInterpreter.java:106-115 | Popping removes the top frame; an empty frame stack throws. |
| ClassFileFormat.ReadBytes | src/main/java/com/czh/jvm/hotspot/src/share/vm/classfile/ClassFileParser.java:263 | readSimple succeeds exactly when n bytes remain and yields exactly those bytes. |
| ClassFileFormat.U1 | src/main/java/com/czh/jvm/hotspot/src/share/vm/classfile/ClassFileParser.java:523-525 | A tag byte is read when one remains. |
| ClassFileFormat.U2 | src/main/java/com/czh/jvm/hotspot/src/share/vm/classfile/ClassFileParser.java:33-37 | A u2 is read when two bytes remain and is their big-endian value, below 65536. |
| ClassFileFormat.S4 | src/main/java/com/czh/jvm/hotspot/src/share/vm/classfile/ClassFileParser.java:152-155 | A u4 length is read when four bytes remain and is their big-endian value as a signed Java int. |
| ClassFileFormat.Utf8Decode | src/main/java/com/czh/jvm/hotspot/src/share/vm/classfile/ClassFileParser.java:530-550 | Decoding a Utf8 entry maps each byte to the character with that code, keeping the length. |
| ClassFileFormat.PoolEntryAt | src/main/java/com/czh/jvm/hotspot/src/share/vm/classfile/ClassFileParser.java:523-719 | A decoded entry starts with a supported tag, ends after its start, takes nine bytes when it is a Long or Double, and an unsupported tag (Integer among them) aborts with that tag. |
| ClassFileFormat.RefEntryUnpacks | src/main/java/com/czh/jvm/hotspot/src/share/vm/classfile/ClassFileParser.java:632-674 | A Fieldref or Methodref entry keeps its class index and name-and-type index, recoverable from the packed Integer. |
| ClassFileFormat.PoolFrom | src/main/java/com/czh/jvm/hotspot/src/share/vm/classfile/ClassFileParser.java:516-723 | The pool loop keeps the tag array's length and never moves the offset backwards. |
| ClassFileFormat.PoolFromKeepsLower | src/main/java/com/czh/jvm/hotspot/src/share/vm/classfile/ClassFileParser.java:523 | The pool loop never writes a slot below the one it starts at. |
| ClassFileFormat.PoolFromFills | src/main/java/com/czh/jvm/hotspot/src/share/vm/classfile/ClassFileParser.java:516-723 | A successful pool loop leaves every slot from its start on with a supported tag and a value. |
| ClassFileFormat.WideEntryTakesTwoSlots | src/main/java/com/czh/jvm/hotspot/src/share/vm/classfile/ClassFileParser.java:566-607 | A Long or Double entry fills its slot and the next one with the same tag and value. |
| ClassFileFormat.WideEntryInLastSlotFails | src/main/java/com/czh/jvm/hotspot/src/share/vm/classfile/ClassFileParser.java:566-607 | A Long or Double in the last pool slot makes the parser write past the tag array and fail. |
| ClassFileFormat.ZeroTags | src/main/java/com/czh/jvm/hotspot/src/share/vm/classfile/ClassFileParser.java:39 | The initial tag array is one zero per pool slot. |
| ClassFileFormat.ConstantPoolAt | src/main/java/com/czh/jvm/hotspot/src/share/vm/classfile/ClassFileParser.java:33-42 | The decoded pool has one tag per slot of the declared count. |
| ClassFileFormat.SlotZeroUnused | src/main/java/com/czh/jvm/hotspot/src/share/vm/classfile/ClassFileParser.java:523 | Slot 0 is never written: its tag stays 0 and it has no value. |
| ClassFileFormat.InterfacesFrom | src/main/java/com/czh/jvm/hotspot/src/share/vm/classfile/ClassFileParser.java:118-135 | The interface loop reads one u2 per interface, in order, with the name its Class entry gives. |
| ClassFileFormat.FieldAt | src/main/java/com/czh/jvm/hotspot/src/share/vm/classfile/ClassFileParser.java:469-511 | A field_info is four u2 items; a field is accepted exactly when its attribute count is 0, and otherwise the parse aborts. |
| ClassFileFormat.FieldsFrom | src/main/java/com/czh/jvm/hotspot/src/share/vm/classfile/ClassFileParser.java:466-513 | The field loop appends count fields, eight bytes each, after the ones already read. |
| ClassFileFormat.FieldsDecoded | src/main/java/com/czh/jvm/hotspot/src/share/vm/classfile/ClassFileParser.java:466-513 | Field k of a successful loop is the field_info at offset start + 8k. |
| ClassFileFormat.LineNumbersFrom | src/main/java/com/czh/jvm/hotspot/src/share/vm/classfile/ClassFileParser.java:437-462 | The line-number loop reads four bytes per entry, in order. |
| ClassFileFormat.LineNumberTableAt | src/main/java/com/czh/jvm/hotspot/src/share/vm/classfile/ClassFileParser.java:400-464 | A LineNumberTable holds as many entries as its u2 table length and ends 8 + 4n bytes after its start. |
| ClassFileFormat.LocalVariablesFrom | src/main/java/com/czh/jvm/hotspot/src/share/vm/classfile/ClassFileParser.java:352-396 | The local-variable loop reads ten bytes per entry, in order. |
| ClassFileFormat.LocalVariableTableAt | src/main/java/com/czh/jvm/hotspot/src/share/vm/classfile/ClassFileParser.java:311-398 | A LocalVariableTable holds as many entries as its u2 table length and ends 8 + 10n bytes after its start. |
| ClassFileFormat.SubAttributesFrom | src/main/java/com/czh/jvm/hotspot/src/share/vm/classfile/ClassFileParser.java:279-296 | The Code attribute's sub-attribute loop records only LineNumberTable and LocalVariableTable and never moves backwards. |
| ClassFileFormat.UnknownSubAttributeStalls | src/main/java/com/czh/jvm/hotspot/src/share/vm/classfile/ClassFileParser.java:285-296 | An unrecognised sub-attribute is not skipped: the offset stays at its name index for every remaining pass. |
| ClassFileFormat.CodeAttributeAt | src/main/java/com/czh/jvm/hotspot/src/share/vm/classfile/ClassFileParser.java:224-296 | A Code attribute has a non-negative code length and max_locals, and its bytecode is exactly the bytes that follow code_length. |
| ClassFileFormat.IsMainMethod | src/main/java/com/czh/jvm/hotspot/src/share/vm/classfile/ClassFileParser.java:298-305 | A method is main exactly when its name is "main" and its descriptor "([Ljava/lang/String;)V"; a missing name or descriptor throws NullPointerException. |
| ClassFileFormat.MethodAt | src/main/java/com/czh/jvm/hotspot/src/share/vm/classfile/ClassFileParser.java:174-306 | A method is accepted only with exactly one attribute, read as its Code attribute; any other count aborts. |
| ClassFileFormat.MethodsFrom | src/main/java/com/czh/jvm/hotspot/src/share/vm/classfile/ClassFileParser.java:173-309 | The method loop reads count methods, in order, after those already read. |
| ClassFileFormat.MethodsFromFails | src/main/java/com/czh/jvm/hotspot/src/share/vm/classfile/ClassFileParser.java:173-309 | The method loop fails with the fault of the first method that fails. |
| ClassFileFormat.MethodsFromStep | src/main/java/com/czh/jvm/hotspot/src/share/vm/classfile/ClassFileParser.java:173-309 | One pass of the method loop reads one method and continues from the offset after it. |
| ClassFileFormat.SourceFileAt | src/main/java/com/czh/jvm/hotspot/src/share/vm/classfile/ClassFileParser.java:137-171 | A SourceFile attribute is eight bytes, and its data is the two bytes after the length. |
| ClassFileFormat.ClassAttributesFrom | src/main/java/com/czh/jvm/hotspot/src/share/vm/classfile/ClassFileParser.java:95-113 | Every class attribute read is named SourceFile; any other name aborts the parse. |
| ClassFileFormat.InterfacesAt | src/main/java/com/czh/jvm/hotspot/src/share/vm/classfile/ClassFileParser.java:62-73 | The interface list has the declared count, and is not read at all when the count is 0. |
| ClassFileFormat.InterfaceTableAt | src/main/java/com/czh/jvm/hotspot/src/share/vm/classfile/ClassFileParser.java:62-73 | interfaces_count and the interfaces: as many entries as the count, two bytes each. |
| ClassFileFormat.FieldTableAt | src/main/java/com/czh/jvm/hotspot/src/share/vm/classfile/ClassFileParser.java:75-82 | fields_count and the fields: as many entries as the count, eight bytes each. |
| ClassFileFormat.MethodTableAt | src/main/java/com/czh/jvm/hotspot/src/share/vm/classfile/ClassFileParser.java:84-93 | methods_count and the methods: as many entries as the count. |
| ClassFileFormat.AttributeTableAt | src/main/java/com/czh/jvm/hotspot/src/share/vm/classfile/ClassFileParser.java:95-113 | attributes_count and the class attributes: as many entries as the count, eight bytes each. |
| ClassFileFormat.ClassHeadAt | src/main/java/com/czh/jvm/hotspot/src/share/vm/classfile/ClassFileParser.java:44-82 | The items after the pool, and the interface and field tables, end 10 + 2i + 8f bytes after they start. |
| ClassFileFormat.ClassBodyAt | src/main/java/com/czh/jvm/hotspot/src/share/vm/classfile/ClassFileParser.java:44-113 | Each table after the pool holds as many entries as its count says. |
| ClassFileFormat.PreambleAt | src/main/java/com/czh/jvm/hotspot/src/share/vm/classfile/ClassFileParser.java:15-42 | The header and constant pool end at offset 10 or later, with one tag per pool slot. |
| ClassFileFormat.ClassFileAt | src/main/java/com/czh/jvm/hotspot/src/share/vm/classfile/ClassFileParser.java:15-116 | A parsed class file has one pool tag per declared pool slot. |
| ClassFileFormat.HeaderLayout | src/main/java/com/czh/jvm/hotspot/src/share/vm/classfile/ClassFileParser.java:21-37 | The magic number, minor and major versions and pool count sit at offsets 0-3, 4-5, 6-7 and 8-9. |
| ClassFileFormat.EmptyClassPreamble | src/main/java/com/czh/jvm/hotspot/src/share/vm/classfile/ClassFileParser.java:15-42 | A zero header with a pool count of 1 gives an empty pool that ends at offset 10. |
| ClassFileFormat.EmptyClassBody | src/main/java/com/czh/jvm/hotspot/src/share/vm/classfile/ClassFileParser.java:44-113 | Seven zero u2 words after the pool give a class with no interfaces, fields, methods or attributes. |
| ClassFileFormat.MagicNotChecked | src/main/java/com/czh/jvm/hotspot/src/share/vm/classfile/ClassFileParser.java:21-24 | A file whose magic number is 0 parses: the magic number is copied, never compared with 0xCAFEBABE. |
| Classfile.RealizedKlassValid | src/main/java/com/czh/jvm/hotspot/src/share/vm/classfile/ClassFileParser.java:173-309 | A class object that holds a decoded file has the shape the interpreter relies on: every method slot is filled, and every method belongs to the class and has one Code attribute whose buffer has the declared length. |
| Classfile.ParsedMethodsHaveNoHandlers | src/main/java/com/czh/jvm/hotspot/src/share/vm/classfile/ClassFileParser.java:273-278 | The parser reads exception_table_length but never fills the table, so no parsed method has a handler for any pc. |
| Classfile.ReadSimple | src/main/java/com/czh/jvm/hotspot/src/share/vm/classfile/ClassFileParser.java:263 | readSimple copies exactly the next n bytes into the buffer, and fails with the buffer untouched when fewer remain. |
| Classfile.ParseConstantPool | src/main/java/com/czh/jvm/hotspot/src/share/vm/classfile/ClassFileParser.java:516-723 | The pool loop writes the tag array and data map that PoolFrom decodes, and fails exactly when PoolFrom does. |
| Classfile.ParseInterface | src/main/java/com/czh/jvm/hotspot/src/share/vm/classfile/ClassFileParser.java:118-135 | The interface loop appends the interfaces InterfacesFrom decodes. |
| Classfile.ParseFields | src/main/java/com/czh/jvm/hotspot/src/share/vm/classfile/ClassFileParser.java:466-513 | The field loop appends the fields FieldsFrom decodes. |
| Classfile.ParseLineNumberTable | src/main/java/com/czh/jvm/hotspot/src/share/vm/classfile/ClassFileParser.java:400-464 | parseLineNumberTable returns what LineNumberTableAt decodes. |
| Classfile.ParseLocalVariableTable | src/main/java/com/czh/jvm/hotspot/src/share/vm/classfile/ClassFileParser.java:311-398 | parseLocalVariableTable returns what LocalVariableTableAt decodes. |
| Classfile.ParseSubAttributes | src/main/java/com/czh/jvm/hotspot/src/share/vm/classfile/ClassFileParser.java:279-296 | The sub-attribute loop returns what SubAttributesFrom decodes. |
| Classfile.ParseCodeAttribute | src/main/java/com/czh/jvm/hotspot/src/share/vm/classfile/ClassFileParser.java:224-296 | The Code attribute built, with a fresh cursor and buffer, holds what CodeAttributeAt decodes. |
| Classfile.ParseMethod | src/main/java/com/czh/jvm/hotspot/src/share/vm/classfile/ClassFileParser.java:174-306 | One method built holds what MethodAt decodes, with exactly one attribute and a fresh cursor. |
| Classfile.ParseMethodInto | src/main/java/com/czh/jvm/hotspot/src/share/vm/classfile/ClassFileParser.java:174-306 | One pass of the method loop fills slot i with the method decoded at the running offset and leaves the other slots alone. |
| Classfile.ParseMethods | src/main/java/com/czh/jvm/hotspot/src/share/vm/classfile/ClassFileParser.java:173-309 | The method loop fills the method array with what MethodsFrom decodes, and registers the class as the main class when a method is main. |
| Classfile.ParseSourceFile | src/main/java/com/czh/jvm/hotspot/src/share/vm/classfile/ClassFileParser.java:137-171 | parseSourceFile appends the attribute SourceFileAt decodes. |
| Classfile.ParsePreamble | src/main/java/com/czh/jvm/hotspot/src/share/vm/classfile/ClassFileParser.java:15-42 | The header arrays and the constant pool hold what PreambleAt decodes, and the parse fails exactly when it does. |
| Classfile.ParseClassFile | src/main/java/com/czh/jvm/hotspot/src/share/vm/classfile/ClassFileParser.java:15-116 | parseClassFile succeeds exactly when ClassFileAt does, returns a fresh class holding the decoded file and fresh code buffers, fails with the same fault otherwise, and makes the class the main class when it has main. |
| Classfile.ParseInterfaceTable | src/main/java/com/czh/jvm/hotspot/src/share/vm/classfile/ClassFileParser.java:62-73 | The interface count and list hold what InterfaceTableAt decodes. |
| Classfile.ParseFieldTable | src/main/java/com/czh/jvm/hotspot/src/share/vm/classfile/ClassFileParser.java:75-82 | The field count and list hold what FieldTableAt decodes. |
| Classfile.ParseMethodTable | src/main/java/com/czh/jvm/hotspot/src/share/vm/classfile/ClassFileParser.java:84-93 | The method count and a fresh method array hold what MethodTableAt decodes. |
| Classfile.ParseAttributeTable | src/main/java/com/czh/jvm/hotspot/src/share/vm/classfile/ClassFileParser.java:95-113 | The attribute count and list hold what AttributeTableAt decodes. |
| Classfile.ParseClassHead | src/main/java/com/czh/jvm/hotspot/src/share/vm/classfile/ClassFileParser.java:44-82 | The class's own items and its interface and field tables hold what ClassHeadAt decodes. |
| Classfile.ParseClassBody | src/main/java/com/czh/jvm/hotspot/src/share/vm/classfile/ClassFileParser.java:44-113 | Everything after the pool holds what ClassBodyAt decodes, and a main method registers the class. |
| Classfile.ParseClassAttributes | src/main/java/com/czh/jvm/hotspot/src/share/vm/classfile/ClassFileParser.java:95-113 | The class-attribute loop appends what ClassAttributesFrom decodes. |
| Classfile.Replace | src/main/java/com/czh/jvm/hotspot/src/share/vm/classfile/BootClassLoader.java:59 | name.replace('.', '/') (and INVOKESTATIC's className.replace('/', '.')) keeps the length, turns every occurrence of the one character into the other and leaves every other character. |
| Classfile.ClassFilePath | src/main/java/com/czh/jvm/hotspot/src/share/vm/classfile/BootClassLoader.java:59-60 | The file path is the search path, the name with its dots as slashes, and ".class". |
| Classfile.SlashAndDotShareAFile | src/main/java/com/czh/jvm/hotspot/src/share/vm/classfile/BootClassLoader.java:59-60 | Two names that differ only in writing '.' or '/' are read from the same file. |
| Classfile.BootClassLoader.constructor | src/main/java/com/czh/jvm/hotspot/src/share/vm/classfile/BootClassLoader.java:20-25 | The loader starts with no cached class and no main class. |
| Classfile.BootClassLoader.FindLoadedKlass | src/main/java/com/czh/jvm/hotspot/src/share/vm/classfile/BootClassLoader.java:74-76 | findLoadedKlass answers the class cached under the name, or null when there is none. |
| Classfile.BootClassLoader.SetMainKlass | src/main/java/com/czh/jvm/hotspot/src/share/vm/classfile/BootClassLoader.java:81-83 | setMainKlass records the class as the main class. |
| Classfile.BootClassLoader.ReadAndParse | src/main/java/com/czh/jvm/hotspot/src/share/vm/classfile/BootClassLoader.java:58-72 | readAndParse fails when the file cannot be read; otherwise it caches under the name exactly the class parseClassFile returns, or fails as parseClassFile does. |
| Classfile.BootClassLoader.LoadKlass | src/main/java/com/czh/jvm/hotspot/src/share/vm/classfile/BootClassLoader.java:36-56 | loadKlass returns the cached class when there is one, changing nothing; otherwise it reads, parses and caches the class. |
| Classfile.BootClassLoader.LoadMainKlass | src/main/java/com/czh/jvm/hotspot/src/share/vm/classfile/BootClassLoader.java:28-34 | loadMainKlass returns the recorded main class whatever the name. Otherwise it does what loadKlass does: the cached class with nothing changed, ClassNotFound for an unreadable file, the parser's fault, or a fresh valid class realising the file's decoding, cached under the name and recorded as main when it has main. |
| Classfile.LoadedKlassIsFound | src/main/java/com/czh/jvm/hotspot/src/share/vm/classfile/BootClassLoader.java:41-76 | After a load, findLoadedKlass finds the loaded class under its name and answers as before for every other name. |
| Semantics.U1 | src/main/java/com/czh/jvm/hotspot/src/share/vm/interpreter/BytecodeInterpreter.java:39 | getU1Code reads the next byte as an unsigned value, and fails past the end of the code. |
| Semantics.S1 | src/main/java/com/czh/jvm/hotspot/src/share/vm/interpreter/BytecodeInterpreter.java:803-820 | getU1Code2 reads the next byte sign-extended. |
| Semantics.S2 | src/main/java/com/czh/jvm/hotspot/src/share/vm/interpreter/BytecodeInterpreter.java:145 | getUnsignedShort reads two bytes big-endian as a Java short. |
| Semantics.FloatConstant | src/main/java/com/czh/jvm/hotspot/src/share/vm/interpreter/BytecodeInterpreter.java:42-79 | The float LDC pushes is a Float entry of the data map; a missing entry throws NullPointerException and another kind ClassCastException. |
| Semantics.LongConstant | src/main/java/com/czh/jvm/hotspot/src/share/vm/interpreter/BytecodeInterpreter.java:80-105 | The long LDC2_W pushes is a Long entry, with the same failures. |
| Semantics.DoubleConstant | src/main/java/com/czh/jvm/hotspot/src/share/vm/interpreter/BytecodeInterpreter.java:80-105 | The double LDC2_W pushes is a Double entry, with the same failures. |
| Semantics.ValOf | src/main/java/com/czh/jvm/hotspot/src/share/vm/runtime/StackValueCollection.java:59 | getVal on a popped slot reads the int payload whatever the tag; a null slot throws. |
| Semantics.IntOf | src/main/java/com/czh/jvm/hotspot/src/share/vm/interpreter/BytecodeInterpreter.java:1161-1184 | (int) getData() unboxes only an int-tagged value; a float or long throws ClassCastException and any other tag NullPointerException. |
| Semantics.LongOf | src/main/java/com/czh/jvm/hotspot/src/share/vm/interpreter/BytecodeInterpreter.java:1120-1139 | (long) getData() unboxes only a long-tagged value, with the matching failures. |
| Semantics.FloatOf | src/main/java/com/czh/jvm/hotspot/src/share/vm/interpreter/BytecodeInterpreter.java:1140-1160 | (float) getData() unboxes only a float-tagged value, with the matching failures. |
| Semantics.Deref | src/main/java/com/czh/jvm/hotspot/src/share/vm/interpreter/BytecodeInterpreter.java:256-271 | The cast to ArrayOop succeeds exactly on an array reference, which names an allocated array; null throws NullPointerException and any other object ClassCastException. |
| Semantics.ResultSlots | src/main/java/com/czh/jvm/hotspot/src/share/vm/interpreter/BytecodeInterpreter.java:168-173 | pushField pushes one slot for a non-void result of a host call and none for void. |
| Semantics.Pop | src/main/java/com/czh/jvm/hotspot/src/share/vm/runtime/StackValueCollection.java:40-42 | pop on the machine removes the top slot, keeps the machine well formed, and fails on an empty stack. |
| Semantics.PopDouble | src/main/java/com/czh/jvm/hotspot/src/share/vm/runtime/StackValueCollection.java:49-62 | popDouble on the machine does what Frames.StackPopDouble says and removes exactly two slots. |
| Semantics.PopArray | src/main/java/com/czh/jvm/hotspot/src/share/vm/runtime/StackValueCollection.java:123-131 | popArray on the machine does what Frames.StackPopArray says and returns an array allocated in the heap. |
| Semantics.PopParams | src/main/java/com/czh/jvm/hotspot/src/share/vm/interpreter/BytecodeInterpreter.java:154-156 | getParamsVal takes the top n slots, deepest first, and fails when there are fewer. |
| Semantics.Step | src/main/java/com/czh/jvm/hotspot/src/share/vm/interpreter/BytecodeInterpreter.java:38-1613 | One pass of the loop: a completed instruction keeps the machine well formed, the locals' size and every allocated array; reading past the code fails, and a byte that is no opcode throws with that byte. |
| Semantics.Instruction | src/main/java/com/czh/jvm/hotspot/src/share/vm/interpreter/BytecodeInterpreter.java:41-1612 | An opcode's case keeps the machine well formed, and only stores and IINC write the locals. |
| Semantics.StepConstant | src/main/java/com/czh/jvm/hotspot/src/share/vm/interpreter/BytecodeInterpreter.java:1185-1225 | The constant opcodes only push, and continue to the next instruction. |
| Semantics.LoadConstant | src/main/java/com/czh/jvm/hotspot/src/share/vm/interpreter/BytecodeInterpreter.java:42-79 | LDC only pushes the entry's value and continues. |
| Semantics.LoadWideConstant | src/main/java/com/czh/jvm/hotspot/src/share/vm/interpreter/BytecodeInterpreter.java:80-105 | LDC2_W only pushes the long or double and continues; any other tag throws. |
| Semantics.LoadSlot | src/main/java/com/czh/jvm/hotspot/src/share/vm/interpreter/BytecodeInterpreter.java:1470-1478 | A load succeeds exactly for an index inside the locals table and pushes that slot as it is, null included. |
| Semantics.LoadPair | src/main/java/com/czh/jvm/hotspot/src/share/vm/interpreter/BytecodeInterpreter.java:1376-1386 | A two-slot load pushes locals n and n + 1 in that order, and fails when either is outside the table. |
| Semantics.ByteArrayLoad | src/main/java/com/czh/jvm/hotspot/src/share/vm/interpreter/BytecodeInterpreter.java:256-271 | BALOAD only pushes, and keeps the heap well formed. Its bound is `getSize() - 1` as a Java int. |
| Semantics.StepLoad | src/main/java/com/czh/jvm/hotspot/src/share/vm/interpreter/BytecodeInterpreter.java:1226-1514 | The loads only push, and continue. |
| Semantics.StoreSlot | src/main/java/com/czh/jvm/hotspot/src/share/vm/interpreter/BytecodeInterpreter.java:1545-1558 | A store succeeds exactly on a non-empty stack and an index inside the table, moving the top slot into the local. |
| Semantics.StorePair | src/main/java/com/czh/jvm/hotspot/src/share/vm/interpreter/BytecodeInterpreter.java:1420-1433 | A two-slot store puts the deeper slot in local n and the top one in local n + 1. |
| Semantics.ByteArrayStore | src/main/java/com/czh/jvm/hotspot/src/share/vm/interpreter/BytecodeInterpreter.java:272-293 | BASTORE keeps the heap well formed and leaves the locals alone. Its bound is `getSize() - 1` as a Java int. |
| Semantics.StepStore | src/main/java/com/czh/jvm/hotspot/src/share/vm/interpreter/BytecodeInterpreter.java:1260-1599 | The stores keep the machine well formed and continue. |
| Semantics.StepStack | src/main/java/com/czh/jvm/hotspot/src/share/vm/interpreter/BytecodeInterpreter.java:768-802 | DUP and DUP2 only push, and continue. |
| Semantics.IntArith | src/main/java/com/czh/jvm/hotspot/src/share/vm/interpreter/BytecodeInterpreter.java:872-1184 | int arithmetic throws ArithmeticException exactly for a division or remainder by 0, and otherwise yields the exact result (quotient rounded toward zero) wrapped to 32 bits. |
| Semantics.LongArith | src/main/java/com/czh/jvm/hotspot/src/share/vm/interpreter/BytecodeInterpreter.java:831-1139 | The same on longs, wrapped to 64 bits. |
| Semantics.PopTwo | src/main/java/com/czh/jvm/hotspot/src/share/vm/interpreter/BytecodeInterpreter.java:1161-1184 | Popping value1 then value2 takes the two top slots, both well formed with the expected tag. |
| Semantics.IntBinary | src/main/java/com/czh/jvm/hotspot/src/share/vm/interpreter/BytecodeInterpreter.java:1161-1184 | The int arithmetic opcodes leave the locals alone and continue. |
| Semantics.LongBinary | src/main/java/com/czh/jvm/hotspot/src/share/vm/interpreter/BytecodeInterpreter.java:1120-1139 | The long arithmetic opcodes leave the locals alone and continue. |
| Semantics.FloatBinary | src/main/java/com/czh/jvm/hotspot/src/share/vm/interpreter/BytecodeInterpreter.java:1140-1160 | The float arithmetic opcodes leave the locals alone and continue. |
| Semantics.DoubleBinary | src/main/java/com/czh/jvm/hotspot/src/share/vm/interpreter/BytecodeInterpreter.java:1110-1119 | The double arithmetic opcodes leave the locals alone and continue. |
| Semantics.Increment | src/main/java/com/czh/jvm/hotspot/src/share/vm/interpreter/BytecodeInterpreter.java:803-820 | IINC keeps the machine well formed and continues. |
| Semantics.StepMath | src/main/java/com/czh/jvm/hotspot/src/share/vm/interpreter/BytecodeInterpreter.java:821-1184 | The arithmetic opcodes continue, and only IINC writes the locals. |
| Semantics.StepConversion | src/main/java/com/czh/jvm/hotspot/src/share/vm/interpreter/BytecodeInterpreter.java:614-767 | The conversions leave the locals alone and continue. |
| Semantics.LongCompare | src/main/java/com/czh/jvm/hotspot/src/share/vm/interpreter/BytecodeInterpreter.java:529-544 | LCMP yields 1, 0 or -1 exactly when the first-popped long is greater than, equal to or less than the second. |
| Semantics.CompareLongs | src/main/java/com/czh/jvm/hotspot/src/share/vm/interpreter/BytecodeInterpreter.java:529-544 | LCMP leaves the locals alone and continues. |
| Semantics.BranchOnInt | src/main/java/com/czh/jvm/hotspot/src/share/vm/interpreter/BytecodeInterpreter.java:457-528 | IFEQ ... IFLE leave the locals alone and continue. |
| Semantics.BranchOnInts | src/main/java/com/czh/jvm/hotspot/src/share/vm/interpreter/BytecodeInterpreter.java:316-405 | IF_ICMPxx leave the locals alone and continue. |
| Semantics.StepComparison | src/main/java/com/czh/jvm/hotspot/src/share/vm/interpreter/BytecodeInterpreter.java:316-613 | The comparisons and branches leave the locals alone and continue. |
| Semantics.StepControl | src/main/java/com/czh/jvm/hotspot/src/share/vm/interpreter/BytecodeInterpreter.java:106-115 | GOTO continues and RETURN asks for the frame to be popped; neither touches the locals. |
| Semantics.StepReference | src/main/java/com/czh/jvm/hotspot/src/share/vm/interpreter/BytecodeInterpreter.java:116-315 | GETSTATIC, the invokes and the array opcodes leave the locals alone. |
| Semantics.StepExtended | src/main/java/com/czh/jvm/hotspot/src/share/vm/interpreter/BytecodeInterpreter.java:406-419 | IFNONNULL leaves the locals alone and continues. |
| InstructionFacts.StepDecodes | src/main/java/com/czh/jvm/hotspot/src/share/vm/interpreter/BytecodeInterpreter.java:38-41 | A byte that decodes to an opcode runs that opcode's case. |
| InstructionFacts.IntArithmetic | src/main/java/com/czh/jvm/hotspot/src/share/vm/interpreter/BytecodeInterpreter.java:872-1184 | IADD, ISUB, IMUL, IDIV and IREM on two ints push the exact result wrapped to 32 bits, and IDIV and IREM by 0 throw. |
| InstructionFacts.LongArithmetic | src/main/java/com/czh/jvm/hotspot/src/share/vm/interpreter/BytecodeInterpreter.java:831-1139 | LADD ... LREM on two longs push the exact result wrapped to 64 bits, and LDIV and LREM by 0 throw. |
| InstructionFacts.IntArithmeticChecksOperands | src/main/java/com/czh/jvm/hotspot/src/share/vm/interpreter/BytecodeInterpreter.java:872-1184 | IADD ... IREM throw EmptyStack on fewer than two slots, and unless both popped operands are ints they throw before computing anything: NullPointerException for a null operand, a type fault otherwise, the top operand first. |
| InstructionFacts.LongArithmeticChecksOperands | src/main/java/com/czh/jvm/hotspot/src/share/vm/interpreter/BytecodeInterpreter.java:831-1139 | LADD ... LREM do the same check for two longs. |
| InstructionFacts.IntCompareChecksOperands | src/main/java/com/czh/jvm/hotspot/src/share/vm/interpreter/BytecodeInterpreter.java:316-405 | IF_ICMPxx throw EmptyStack on fewer than two slots, and unless both popped values are ints they throw as the type check says. |
| InstructionFacts.LcmpIsReversed | src/main/java/com/czh/jvm/hotspot/src/share/vm/interpreter/BytecodeInterpreter.java:529-544 | LCMP pushes the negation of what section 6.5 of the JVM specification requires whenever the two longs differ. |
| InstructionFacts.IntCompareBranch | src/main/java/com/czh/jvm/hotspot/src/share/vm/interpreter/BytecodeInterpreter.java:316-405 | IF_ICMPxx jumps to the instruction's address plus the offset exactly when the section 6.5 condition on the deeper and the top int holds, and otherwise moves past the three bytes. |
| InstructionFacts.IntZeroBranch | src/main/java/com/czh/jvm/hotspot/src/share/vm/interpreter/BytecodeInterpreter.java:457-528 | IFEQ ... IFLE jump to the instruction's address plus the offset exactly when the section 6.5 condition holds. |
| InstructionFacts.GotoTarget | src/main/java/com/czh/jvm/hotspot/src/share/vm/interpreter/BytecodeInterpreter.java:575-583 | GOTO moves to its own address plus the offset and touches nothing else. |
| InstructionFacts.IfNonNullTestsData | src/main/java/com/czh/jvm/hotspot/src/share/vm/interpreter/BytecodeInterpreter.java:406-419 | IFNONNULL tests getData(), not the reference: it never jumps on an object or array, and always jumps on an int, long or float. |
| InstructionFacts.BipushZeroExtends | src/main/java/com/czh/jvm/hotspot/src/share/vm/interpreter/BytecodeInterpreter.java:1600-1607 | BIPUSH pushes its operand byte zero-extended, which differs from the sign-extended byte for every operand of 128 or more. |
| InstructionFacts.LdcEffect | src/main/java/com/czh/jvm/hotspot/src/share/vm/interpreter/BytecodeInterpreter.java:42-79 | LDC of a String entry pushes the text of the Utf8 entry it names, or null when there is none, and throws ClassCastException on another kind; LDC of a kind other than Float and String pushes nothing. |
| InstructionFacts.StoreEffect | src/main/java/com/czh/jvm/hotspot/src/share/vm/interpreter/BytecodeInterpreter.java:1559-1599 | ISTORE_n moves the top slot into local n. |
| InstructionFacts.LoadEffect | src/main/java/com/czh/jvm/hotspot/src/share/vm/interpreter/BytecodeInterpreter.java:1479-1514 | ILOAD_n pushes local n. |
| InstructionFacts.StoreThenLoad | src/main/java/com/czh/jvm/hotspot/src/share/vm/interpreter/BytecodeInterpreter.java:1479-1599 | ISTORE_n then ILOAD_n leave the stack as it was, with the value now also in local n. |
| InstructionFacts.DoubleStoreEffect | src/main/java/com/czh/jvm/hotspot/src/share/vm/interpreter/BytecodeInterpreter.java:1434-1469 | DSTORE_n puts the deeper slot in local n and the top one in local n + 1. |
| InstructionFacts.DoubleLoadEffect | src/main/java/com/czh/jvm/hotspot/src/share/vm/interpreter/BytecodeInterpreter.java:1387-1419 | DLOAD_n pushes local n, then local n + 1. |
| InstructionFacts.DoubleStoreThenLoad | src/main/java/com/czh/jvm/hotspot/src/share/vm/interpreter/BytecodeInterpreter.java:1387-1469 | DSTORE_n then DLOAD_n put the pair back on the stack as it was, in the same order. |
| InstructionFacts.IncrementLocal | src/main/java/com/czh/jvm/hotspot/src/share/vm/interpreter/BytecodeInterpreter.java:803-820 | IINC adds the sign-extended operand byte to the int in the local, wrapping, and leaves the stack alone. |
| InstructionFacts.DupCopiesTop | src/main/java/com/czh/jvm/hotspot/src/share/vm/interpreter/BytecodeInterpreter.java:768-778 | DUP pushes the top slot again, whatever it holds. |
| InstructionFacts.DoubleConstantEffect | src/main/java/com/czh/jvm/hotspot/src/share/vm/interpreter/BytecodeInterpreter.java:1185-1194 | DCONST_0 and DCONST_1 push the two slots pushDouble writes for 0.0 and 1.0. |
| InstructionFacts.Dup2OfDouble | src/main/java/com/czh/jvm/hotspot/src/share/vm/interpreter/BytecodeInterpreter.java:779-802 | DUP2 on a double pops it with popDouble and pushes it back twice. |
| InstructionFacts.Dup2OfZero | src/main/java/com/czh/jvm/hotspot/src/share/vm/interpreter/BytecodeInterpreter.java:779-802 | DUP2 after DCONST_0 leaves two copies of 0.0. |
| InstructionFacts.Dup2OfOneThrows | src/main/java/com/czh/jvm/hotspot/src/share/vm/interpreter/BytecodeInterpreter.java:779-802 | DUP2 after DCONST_1 throws, because popDouble cannot read back the slots pushDouble wrote. |
| InstructionFacts.IntToLong | src/main/java/com/czh/jvm/hotspot/src/share/vm/interpreter/BytecodeInterpreter.java:614-625 | I2L pushes the same value as a long. |
| InstructionFacts.LongToInt | src/main/java/com/czh/jvm/hotspot/src/share/vm/interpreter/BytecodeInterpreter.java:648-657 | L2I pushes the int with the long's low 32 bits. |
| InstructionFacts.IntToByte | src/main/java/com/czh/jvm/hotspot/src/share/vm/interpreter/BytecodeInterpreter.java:738-747 | I2B pushes the low 8 bits, sign-extended. |
| InstructionFacts.IntToShort | src/main/java/com/czh/jvm/hotspot/src/share/vm/interpreter/BytecodeInterpreter.java:758-767 | I2S pushes the low 16 bits, sign-extended. |
| InstructionFacts.IntToChar | src/main/java/com/czh/jvm/hotspot/src/share/vm/interpreter/BytecodeInterpreter.java:748-757 | I2C pushes the low 16 bits, zero-extended. |
| InstructionFacts.NewArrayThenLength | src/main/java/com/czh/jvm/hotspot/src/share/vm/interpreter/BytecodeInterpreter.java:294-315 | NEWARRAY allocates an empty array of the popped size at the next heap address, and ARRAYLENGTH reads that size back. |
| InstructionFacts.ByteArrayStoreEffect | src/main/java/com/czh/jvm/hotspot/src/share/vm/interpreter/BytecodeInterpreter.java:272-293 | BASTORE throws for an index above size - 1 computed as a Java int (so size -2^31 wraps to 2^31 - 1 and lets every index through), overwrites an element the list has, and appends when the index is past the list. |
| InstructionFacts.ByteArrayStoreOn | src/main/java/com/czh/jvm/hotspot/src/share/vm/interpreter/BytecodeInterpreter.java:272-293 | The same, stated on the BASTORE case itself. |
| InstructionFacts.ByteArrayLoadEffect | src/main/java/com/czh/jvm/hotspot/src/share/vm/interpreter/BytecodeInterpreter.java:256-271 | BALOAD pushes the element at an index the list has, and throws for an index above size - 1 computed as a Java int. |
| InstructionFacts.ReturnPopsFrame | src/main/java/com/czh/jvm/hotspot/src/share/vm/interpreter/BytecodeInterpreter.java:106-115 | RETURN changes nothing in the frame and asks the loop to pop the thread's top frame. |
| InstructionFacts.InvokeStaticCallsLoadedClass | src/main/java/com/czh/jvm/hotspot/src/share/vm/interpreter/BytecodeInterpreter.java:183-201 | INVOKESTATIC of a class outside "java" consumes its operand and asks for a call of the method named by the Methodref. |
| InstructionFacts.InvokeStaticOnHost | src/main/java/com/czh/jvm/hotspot/src/share/vm/interpreter/BytecodeInterpreter.java:152-182 | INVOKESTATIC of a "java" class takes the parameter slots the descriptor asks for off the stack, fails when there are fewer, pushes what the host call returns, and ends the run with the fault of an exception the call throws past the catch blocks. |
| InstructionFacts.GetStaticEffect | src/main/java/com/czh/jvm/hotspot/src/share/vm/interpreter/BytecodeInterpreter.java:116-140 | GETSTATIC pushes the object the host holds in the named static field, nothing when the read throws an exception the case catches, and ends the run with the fault of any other exception. |
| InstructionFacts.InvokeVirtualOutsideJavaIsSkipped | src/main/java/com/czh/jvm/hotspot/src/share/vm/interpreter/BytecodeInterpreter.java:204-255 | INVOKEVIRTUAL of a method of a class outside "java" does nothing but consume its operand. |
| InstructionFacts.UnhandledOpcodeThrows | src/main/java/com/czh/jvm/hotspot/src/share/vm/interpreter/BytecodeInterpreter.java:1609-1611 | An opcode without a case, or a byte that is no opcode, ends the run with "invalid instruction". |
| Interpreter.SlashesToDotsReadsSameFile | src/main/java/com/czh/jvm/hotspot/src/share/vm/interpreter/BytecodeInterpreter.java:184-188 | The dotted name INVOKESTATIC loads is read from the same file as the slashed name. |
| Interpreter.SlotMatch | src/main/java/com/czh/jvm/hotspot/src/share/vm/prims/JavaNativeInterface.java:29-32 | A slot matches exactly when it is a method whose name and descriptor entries are the strings asked for; a null slot throws NullPointerException, and every failure is NullPointerException or ClassCastException. |
| Interpreter.LookupFrom | src/main/java/com/czh/jvm/hotspot/src/share/vm/prims/JavaNativeInterface.java:26-42 | The slot getMethodID finds lies in the array and matches. |
| Interpreter.LookupFindsFirst | src/main/java/com/czh/jvm/hotspot/src/share/vm/prims/JavaNativeInterface.java:28-37 | The lookup finds slot k exactly when slot k matches and every earlier slot answers no. |
| Interpreter.LookupFindsNothing | src/main/java/com/czh/jvm/hotspot/src/share/vm/prims/JavaNativeInterface.java:39-41 | The lookup finds nothing exactly when every slot answers no. |
| Interpreter.GetMethodID | src/main/java/com/czh/jvm/hotspot/src/share/vm/prims/JavaNativeInterface.java:26-42 | getMethodID returns the method in the first matching slot, null when none matches, and throws as the first failing comparison does; a class without a method array throws. |
| Interpreter.FindClass | src/main/java/com/czh/jvm/hotspot/src/share/vm/prims/JavaNativeInterface.java:21-23 | findClass always answers null. |
| Interpreter.StepSound | src/main/java/com/czh/jvm/hotspot/src/share/vm/interpreter/BytecodeInterpreter.java:38-1613 | Every instruction the loop runs takes a well-formed machine to one it evolves into. |
| Interpreter.Exec | src/main/java/com/czh/jvm/hotspot/src/share/vm/interpreter/BytecodeInterpreter.java:38-1613 | The loop stops at the end of the code with a machine the start evolves into and no more frames than it began with, or at a call into a loaded class. |
| Interpreter.Advance | src/main/java/com/czh/jvm/hotspot/src/share/vm/interpreter/BytecodeInterpreter.java:39-1612 | One pass of the loop's body keeps the same guarantees as Exec. |
| Interpreter.ExecFuelIndependent | src/main/java/com/czh/jvm/hotspot/src/share/vm/interpreter/BytecodeInterpreter.java:38-1613 | More steps do not change where the loop stops once it stops within the bound. |
| Interpreter.AdvanceFuelIndependent | src/main/java/com/czh/jvm/hotspot/src/share/vm/interpreter/BytecodeInterpreter.java:39-1612 | The same for one pass of the body. |
| Interpreter.ReturnDoesNotLeaveTheLoop | src/main/java/com/czh/jvm/hotspot/src/share/vm/interpreter/BytecodeInterpreter.java:38-115 | A method whose code is RETURN, RETURN started with two or more frames ends at the end of its code with two frames fewer, and with fewer than two frames throws on the empty frame stack. |
| Interpreter.Execute | src/main/java/com/czh/jvm/hotspot/src/share/vm/interpreter/BytecodeInterpreter.java:39-1612 | Running the instruction at the cursor is one step of Exec: a throw ends it, RETURN pops a frame (an empty frame stack throws), and INVOKESTATIC hands over to the callee. |
| Interpreter.HeapGrowthKeepsMachine | src/main/java/com/czh/jvm/hotspot/src/share/vm/interpreter/BytecodeInterpreter.java:303-315 | A machine stays well formed when arrays are only added to the heap. |
| Interpreter.ValuesOfUpdate | src/main/java/com/czh/jvm/hotspot/src/share/vm/classfile/BootClassLoader.java:69 | Caching a class under a new name adds that class to the cached classes and nothing else. |
| Interpreter.Vm.constructor | src/main/java/com/czh/jvm/hotspot/src/share/vm/classfile/BootClassLoader.java:20-25 | A machine starts with an empty heap, a loader that has loaded nothing, and the instruction semantics of the interpreter. |
| Interpreter.Vm.Commit | src/main/java/com/czh/jvm/hotspot/src/share/vm/interpreter/BytecodeInterpreter.java:38-1613 | Writing an instruction's result back leaves the frame, the cursor and the heap equal to the machine Step produced. |
| Interpreter.Vm.Run | src/main/java/com/czh/jvm/hotspot/src/share/vm/interpreter/BytecodeInterpreter.java:29-1614 | Up to the first INVOKESTATIC into a class the interpreter loads itself, run stops exactly where Exec stops, with the frame, cursor and heap Exec ends with and one frame popped per RETURN. It throws what Exec throws, and throws on an empty frame stack. |
| Interpreter.Vm.Tick | src/main/java/com/czh/jvm/hotspot/src/share/vm/interpreter/BytecodeInterpreter.java:38-1613 | One pass of the loop keeps the run in step with Exec, and a throw is the answer Exec gives. |
| Interpreter.Vm.Call | src/main/java/com/czh/jvm/hotspot/src/share/vm/interpreter/BytecodeInterpreter.java:200 | A call leaves the caller's operand stack and locals well formed and the heap no smaller. |
| Interpreter.Vm.LoadNew | src/main/java/com/czh/jvm/hotspot/src/share/vm/interpreter/BytecodeInterpreter.java:186-189 | Loading an uncached class caches exactly the fresh class parsed for that name, or changes nothing on failure. |
| Interpreter.Vm.FindOrLoad | src/main/java/com/czh/jvm/hotspot/src/share/vm/interpreter/BytecodeInterpreter.java:184-189 | The class INVOKESTATIC calls into is the cached one when there is one, with the cache unchanged. Otherwise it is a fresh class, loaded and cached under the name alone, or the load fails and the cache is unchanged. Either class is well formed. |
| Interpreter.Vm.ResolveMethod | src/main/java/com/czh/jvm/hotspot/src/share/vm/interpreter/BytecodeInterpreter.java:191-195 | The method called is the one getMethodID finds, a missing method throws "no such method", and a failing lookup throws as it does. |
| Interpreter.Vm.FindStatic | src/main/java/com/czh/jvm/hotspot/src/share/vm/interpreter/BytecodeInterpreter.java:184-195 | The class is looked up under the name with '/' replaced by '.', and loaded and cached when absent. A class that cannot be loaded fails. Otherwise the method is the one getMethodID finds in it, a missing method throws "no such method", and a failing lookup throws as it does. |
| Interpreter.Vm.InvokeStatic | src/main/java/com/czh/jvm/hotspot/src/share/vm/interpreter/BytecodeInterpreter.java:183-201 | A failed lookup or a non-static callee pushes no frame. A static callee runs as Exec says from cursor 0, because its cursor is reset: an empty operand stack, max_locals null locals, the heap as it was, one frame more than the caller's stack. |
| Interpreter.Vm.CallStaticMethod | src/main/java/com/czh/jvm/hotspot/src/share/vm/prims/JavaNativeInterface.java:48-66 | callStaticMethod throws for a method without ACC_STATIC before pushing any frame. Otherwise it pushes one fresh frame owned by the method and runs it as Exec says up to the callee's first INVOKESTATIC into a class the interpreter loads, from the method's cursor with an empty operand stack, max_locals null locals and the thread's old frames below it. |

## Left out

- Floating point: float and double arithmetic and the conversions to and from them are the host's (`Semantics.Host`). The model checks their operand tags and stack effects, not IEEE 754 results.
- Reflection into the host Java runtime: GETSTATIC, INVOKESTATIC and INVOKEVIRTUAL on "java" classes. These are `Host` functions, since the reflected methods are outside this code. `DescriptorStream2` (getParamsVal, pushField) is not part of this model. Its effect is the number of parameter slots the host reports and `Semantics.ResultSlots`. An exception thrown by its conversions is part of the host call's `Err` answer, which ends the run.
- Logging (slf4j) and the `toString` methods: no effect on state.
- File I/O: `FileUtil.readBytes` is the loader's `files` parameter, a function from a path to its bytes. An unreadable file is `ClassNotFound`.
- `Main`, `Threads.currentThread` and the static fields of `BootClassLoader`: the thread and the loader are objects handed to `Interpreter.Vm`.
- `LambdaEngine`, INVOKEDYNAMIC and the bootstrap-method and annotation attributes: not in this core.
- `DataTranslate` and `Stream` are not part of this model. Their conversions are written out in `Bytes` and `ClassFileFormat` as the parser uses them. UTF-8 decoding maps each byte to the character with that code.
- The `ConstantPool` accessors (`getClassNameByMethodInfo` and its siblings) are not part of this model. `Oops.MemberRefAt` reads the packed indices as the parser stores them.
- Interpreter.Vm.Run: runs at most `fuel` instructions of its own loop and answers `OutOfFuel` beyond that. The Java loop has no bound.
- Interpreter.Vm.Run: after an INVOKESTATIC into a class the interpreter loads itself, it promises only that the machine stays valid and the heap does not shrink. It does not relate the caller's continuation to `Exec`.
- Interpreter.Vm.InvokeStatic: names the method it called but does not restate how it was found; `Interpreter.Vm.FindStatic` states that. The loader may change during the callee's run, so the cache at the end no longer shows the lookup.
- Interpreter.Vm.CallStaticMethod: ties the callee's run to `Exec` only up to the callee's first INVOKESTATIC into a class the interpreter loads itself. That class is loaded at run time, outside the context `Exec` is given, so from there on `Answers` says nothing about the outcome.
- Interpreter.Vm.InvokeStatic: like `Interpreter.Vm.CallStaticMethod`, it ties the callee's run to `Exec` only up to the callee's own first INVOKESTATIC into a loaded class, for the reason given under Run.
- Interpreter.Vm.Call: states only that the caller's frame stays well formed.
- Interpreter.Vm.Run: its modifies frame covers every well-formed code cursor, since the methods a call reaches are not known in advance. The interpreter itself moves only the cursors of the methods it runs.
- Interpreter.Vm.Run: requires the callee to be a method of a loaded class in the shape the parser gives every method. It also requires the top frame to hold well-formed slots that refer only to allocated arrays. Both hold for every frame `callStaticMethod` pushes.
- `BaseBytecodeStream` is not part of this model. Its accessors are taken as follows: `getU1Code` reads an unsigned byte, `getU1Code2` a sign-extended byte, and `getUnsignedShort` the big-endian u2 read as a Java short. `end()` is `index >= length`. `InstructionFacts.BipushZeroExtends` rests on `getU1Code` being unsigned.
- `ArrayOop` is not part of this model. A new array is taken to start with an empty data list of its own, so that BASTORE's `get` past the end throws and its catch appends. `InstructionFacts.ByteArrayStoreEffect` rests on this.
- Partial side effects before a fault: a faulting instruction's stack changes are not promised, because every fault ends the run.
- Exception dispatch: the parser reads the exception table length but never fills the table, and the interpreter never looks for a handler. `Oops.FindExceptionHandle` is modelled, but nothing calls it.
- `MethodInfo.initAttributeContainer`, descriptor parsing and the access-flag object are not part of this model. A method keeps its flags as an int, and `IsStatic` tests bit 0x0008.
- ClassFileFormat.SourceFileAt: reads the SourceFile attribute's data as exactly two bytes, whatever `attribute_length` says. `AttributeInfo` and its `initContainer` are not part of this model, so the size of the container the parser reads into is assumed to be two bytes, and what a length below 2 or a negative one would do is not modelled.
