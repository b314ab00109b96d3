/**
 * Operand stacks, local-variable tables, frames and the thread's frame stack.
 *
 * A StackValueCollection is either an operand stack (a java.util.Stack whose
 * top is the last element of container) or a local-variable table (a fixed
 * array of maxLocals slots). A slot holds a value or Java's null: an unset
 * local reads as null and a load pushes that null as it is.
 */
module Frames {
  import opened Wrappers
  import opened Bytes
  import opened StackValues
  import opened Oops

  type Slot = Option<StackValue>

  predicate SlotWellFormed(s: Slot)
  {
    s.Some? ==> WellFormed(s.value)
  }

  predicate AllWellFormed(ss: seq<Slot>)
  {
    forall i :: 0 <= i < |ss| ==> SlotWellFormed(ss[i])
  }

  /*
   * The stack operations as functions of the contents. The methods of
   * StackValueCollection below are specified by them, and the interpreter's
   * instruction semantics is written with them.
   */

  /** pop(): the top slot and the rest; an empty java.util.Stack throws. */
  function StackPop(s: seq<Slot>): (r: Result<(Slot, seq<Slot>)>)
    ensures r.Ok? <==> s != []
    ensures r.Ok? ==> r.value.1 + [r.value.0] == s
    ensures r.Err? ==> r.fault == EmptyStack
  {
    if s == [] then Err(EmptyStack) else Ok((s[|s| - 1], s[..|s| - 1]))
  }

  /** peek(): the top slot, leaving the stack as it is. */
  function StackPeek(s: seq<Slot>): (r: Result<Slot>)
    ensures r.Ok? <==> s != []
    ensures r.Ok? ==> r.value == s[|s| - 1]
  {
    if s == [] then Err(EmptyStack) else Ok(s[|s| - 1])
  }

  /** Popping undoes pushing. */
  lemma PushThenPop(s: seq<Slot>, v: Slot)
    ensures StackPop(s + [v]) == Ok((v, s))
    ensures StackPeek(s + [v]) == Ok(v)
  {
    var r := StackPop(s + [v]);
    assert r.value.1 + [r.value.0] == s + [v];
    assert r.value.1 == (s + [v])[..|s|] == s;
  }

  /** popDouble2(): the two top slots, top first. */
  function StackPopDouble2(s: seq<Slot>): (r: Result<(seq<Slot>, seq<Slot>)>)
    ensures r.Ok? <==> |s| >= 2
    ensures r.Ok? ==> |r.value.0| == 2 && r.value.1 + [r.value.0[1], r.value.0[0]] == s
  {
    var first :- StackPop(s);
    var second :- StackPop(first.1);
    Ok(([first.0, second.0], second.1))
  }

  /** pushDouble(d): the high word read big-endian, then the low word read little-endian. */
  function DoubleSlots(image: nat): (r: seq<Slot>)
    requires image < TWO_64
    ensures |r| == 2 && AllWellFormed(r)
    ensures r[0].Some? && r[0].value.tag == T_DOUBLE && r[1].Some? && r[1].value.tag == T_DOUBLE
  {
    Pow256Widths();
    var b := ToBE(image, 8);
    [Some(OfInt(T_DOUBLE, Int32BE(b[0..4]))), Some(OfInt(T_DOUBLE, Int32LE(b[4..8])))]
  }

  /**
   * ByteBuffer.putInt(index, v) on a buffer of eight bytes: the four bytes of v,
   * big-endian, at index; an index with fewer than four bytes after it throws.
   */
  function PutInt(buffer: seq<byte>, index: int, v: int): (r: Result<seq<byte>>)
    requires |buffer| == 8
    ensures r.Ok? <==> 0 <= index <= 4
    ensures r.Ok? ==> |r.value| == 8 && r.value[index..index + 4] == ToBE(v % TWO_32, 4)
    ensures r.Ok? ==> r.value[..index] == buffer[..index] && r.value[index + 4..] == buffer[index + 4..]
  {
    if 0 <= index <= 4 then Ok(buffer[..index] + ToBE(v % TWO_32, 4) + buffer[index + 4..])
    else Err(IndexOutOfBounds)
  }

  /**
   * The check value1.getType() != t || value2.getType() != t on two popped
   * slots: a null slot throws when its type is asked for, and the second slot
   * is not looked at once the first has the wrong type.
   */
  function BothTagged(value1: Slot, value2: Slot, t: BasicType): (r: Result<(StackValue, StackValue)>)
    ensures r.Ok? <==> value1.Some? && value2.Some? && value1.value.tag == t && value2.value.tag == t
    ensures r.Ok? ==> r.value == (value1.value, value2.value)
    ensures r.Err? ==> r.fault == if value1.None? || (value1.value.tag == t && value2.None?) then NullPointer else TypeMismatch
  {
    if value1.None? then Err(NullPointer)
    else if value1.value.tag != t then Err(TypeMismatch)
    else if value2.None? then Err(NullPointer)
    else if value2.value.tag != t then Err(TypeMismatch)
    else Ok((value1.value, value2.value))
  }

  /**
   * popDouble(): pops two slots, both of which must be tagged T_DOUBLE, writes
   * the top one's int into a zeroed eight-byte buffer AT THE POSITION given by
   * the second one's int, and reads the buffer back as a double image.
   */
  function StackPopDouble(s: seq<Slot>): (r: Result<(nat, seq<Slot>)>)
    ensures r.Ok? <==>
      && |s| >= 2
      && s[|s| - 1].Some? && s[|s| - 1].value.tag == T_DOUBLE
      && s[|s| - 2].Some? && s[|s| - 2].value.tag == T_DOUBLE
      && 0 <= s[|s| - 2].value.val <= 4
    ensures |s| < 2 ==> r == Err(EmptyStack)
    ensures |s| >= 2 && BothTagged(s[|s| - 1], s[|s| - 2], T_DOUBLE).Err? ==> r == Err(BothTagged(s[|s| - 1], s[|s| - 2], T_DOUBLE).fault)
    ensures r.Ok? ==> r.value.0 < TWO_64 && r.value.1 == s[..|s| - 2]
    ensures r.Ok? ==>
      var at, word, image := s[|s| - 2].value.val, s[|s| - 1].value.val, ToBE(r.value.0, 8);
      && image[at..at + 4] == ToBE(word % TWO_32, 4)
      && forall k :: 0 <= k < 8 && !(at <= k < at + 4) ==> image[k] == 0
  {
    var first :- StackPop(s);
    var second :- StackPop(first.1);
    var values :- BothTagged(first.0, second.0, T_DOUBLE);
    var buffer :- PutInt([0, 0, 0, 0, 0, 0, 0, 0], values.1.val, values.0.val);
    Pow256Widths();
    ToFromBE(buffer);
    Ok((FromBE(buffer), second.1))
  }

  /** The image of the double 1.0. */
  const ONE_IMAGE: nat := 0x3FF0_0000_0000_0000

  /** popDouble reads back 0.0 after pushDouble(0.0)... */
  lemma PopDoubleAfterPushZero(s: seq<Slot>)
    ensures StackPopDouble(s + DoubleSlots(0)) == Ok((0, s))
  {
    Pow256Widths();
    var b := ToBE(0, 8);
    assert b == [0, 0, 0, 0, 0, 0, 0, 0];
    assert ToBE(0, 4) == [0, 0, 0, 0];
    FromToBE(0, 4);
    assert b[0..4] == [0, 0, 0, 0] && [b[7], b[6], b[5], b[4]] == [0, 0, 0, 0];
    assert DoubleSlots(0) == [Some(OfInt(T_DOUBLE, 0)), Some(OfInt(T_DOUBLE, 0))];
    var t := s + DoubleSlots(0);
    assert t[..|t| - 1][..|t| - 2] == s;
    var buffer := PutInt([0, 0, 0, 0, 0, 0, 0, 0], 0, 0).value;
    assert buffer == [0, 0, 0, 0, 0, 0, 0, 0];
    FromToBE(0, 8);
  }

  /**
   * ...but is not the inverse of pushDouble: after pushDouble(1.0) the second
   * slot's int is 0x3FF00000, which is no position in an eight-byte buffer, so
   * popDouble throws.
   */
  lemma PopDoubleAfterPushOne(s: seq<Slot>)
    ensures StackPopDouble(s + DoubleSlots(ONE_IMAGE)).Err?
  {
    Pow256Widths();
    var b := ToBE(ONE_IMAGE, 8);
    assert b == [0x3F, 0xF0, 0, 0, 0, 0, 0, 0];
    var hi: seq<byte> := [0x3F, 0xF0, 0, 0];
    assert b[0..4] == hi;
    assert FromBE(hi[..1]) == 0x3F;
    assert hi[..3][..2] == hi[..2] && hi[..2][..1] == hi[..1];
    assert FromBE(hi[..2]) == 0x3FF0;
    assert FromBE(hi[..3]) == 0x3F_F000;
    assert FromBE(hi) == 0x3FF0_0000;
    var t := s + DoubleSlots(ONE_IMAGE);
    assert t[|t| - 2].value.val == 0x3FF0_0000;
  }

  /** popArray: pops a slot that must be tagged T_ARRAY and returns its reference. */
  function StackPopArray(s: seq<Slot>): (r: Result<(Ref, seq<Slot>)>)
    ensures r.Ok? <==> s != [] && s[|s| - 1].Some? && s[|s| - 1].value.tag == T_ARRAY
    ensures r.Ok? ==> r.value == (s[|s| - 1].value.obj, s[..|s| - 1])
  {
    var top :- StackPop(s);
    if top.0.None? then Err(NullPointer)
    else if top.0.value.tag != T_ARRAY then Err(TypeMismatch)
    else Ok((top.0.value.obj, top.1))
  }

  function LocalSet(locals: seq<Slot>, index: int, v: Slot): (r: Result<seq<Slot>>)
    ensures r.Ok? <==> 0 <= index < |locals|
    ensures r.Ok? ==> |r.value| == |locals| && r.value[index] == v
    ensures r.Ok? ==> forall j :: 0 <= j < |locals| && j != index ==> r.value[j] == locals[j]
  {
    if 0 <= index < |locals| then Ok(locals[index := v]) else Err(IndexOutOfBounds)
  }

  class StackValueCollection {
    var container: seq<Slot>
    const maxLocals: int
    const locals: array?<Slot>

    /** An operand stack: empty, with no locals table. */
    constructor ()
      ensures container == [] && maxLocals == 0 && locals == null
    {
      container := [];
      maxLocals := 0;
      locals := null;
    }

    /** A locals table of size slots, all null. */
    constructor Sized(size: int)
      requires size >= 0
      ensures container == [] && maxLocals == size
      ensures locals != null && fresh(locals) && locals.Length == size
      ensures forall i :: 0 <= i < size ==> locals[i] == None
    {
      container := [];
      maxLocals := size;
      locals := new Slot[size](_ => None);
    }

    method Push(value: Slot)
      modifies this
      ensures container == old(container) + [value]
    {
      container := container + [value];
    }

    method PushInt(v: int, frame: JavaVFrame)
      requires IsInt32(v)
      modifies frame.stack
      ensures frame.stack.container == old(frame.stack.container) + [Some(OfInt(T_INT, v))]
    {
      frame.stack.Push(Some(OfInt(T_INT, v)));
    }

    method PushObject(o: Ref, frame: JavaVFrame)
      modifies frame.stack
      ensures frame.stack.container == old(frame.stack.container) + [Some(OfObject(T_OBJECT, o))]
    {
      frame.stack.Push(Some(OfObject(T_OBJECT, o)));
    }

    method PushNull(frame: JavaVFrame)
      modifies frame.stack
      ensures frame.stack.container == old(frame.stack.container) + [Some(OfObject(T_OBJECT, NullRef))]
    {
      frame.stack.Push(Some(OfObject(T_OBJECT, NullRef)));
    }

    method PushArray(addr: nat, frame: JavaVFrame)
      modifies frame.stack
      ensures frame.stack.container == old(frame.stack.container) + [Some(OfObject(T_ARRAY, ArrayRef(addr)))]
    {
      frame.stack.Push(Some(OfObject(T_ARRAY, ArrayRef(addr))));
    }

    method Pop() returns (r: Result<Slot>)
      modifies this
      ensures StackPop(old(container)).Ok? ==> r == Ok(StackPop(old(container)).value.0) && container == StackPop(old(container)).value.1
      ensures StackPop(old(container)).Err? ==> r == Err(EmptyStack) && container == old(container)
    {
      if container == [] {
        return Err(EmptyStack);
      }
      r := Ok(container[|container| - 1]);
      container := container[..|container| - 1];
    }

    method Peek() returns (r: Result<Slot>)
      ensures r == StackPeek(container)
    {
      if container == [] {
        return Err(EmptyStack);
      }
      return Ok(container[|container| - 1]);
    }

    method PopDouble2() returns (r: Result<seq<Slot>>)
      modifies this
      ensures StackPopDouble2(old(container)).Ok? ==> r == Ok(StackPopDouble2(old(container)).value.0) && container == StackPopDouble2(old(container)).value.1
      ensures StackPopDouble2(old(container)).Err? ==> r == Err(StackPopDouble2(old(container)).fault)
    {
      var first := Pop();
      if first.Err? {
        return Err(first.fault);
      }
      var second := Pop();
      if second.Err? {
        return Err(second.fault);
      }
      return Ok([first.value, second.value]);
    }

    method PopDouble() returns (r: Result<nat>)
      modifies this
      ensures StackPopDouble(old(container)).Ok? ==> r == Ok(StackPopDouble(old(container)).value.0) && container == StackPopDouble(old(container)).value.1
      ensures StackPopDouble(old(container)).Err? ==> r == Err(StackPopDouble(old(container)).fault)
    {
      var value1 := Pop();
      if value1.Err? {
        return Err(value1.fault);
      }
      var value2 := Pop();
      if value2.Err? {
        return Err(value2.fault);
      }
      var values := BothTagged(value1.value, value2.value, T_DOUBLE);
      if values.Err? {
        return Err(values.fault);
      }
      var buffer := PutInt([0, 0, 0, 0, 0, 0, 0, 0], values.value.1.val, values.value.0.val);
      if buffer.Err? {
        return Err(buffer.fault);
      }
      Pow256Widths();
      return Ok(FromBE(buffer.value));
    }

    method PushDouble(image: nat)
      requires image < TWO_64
      modifies this
      ensures container == old(container) + DoubleSlots(image)
    {
      var slots := DoubleSlots(image);
      Push(slots[0]);
      Push(slots[1]);
    }

    method PopArray(frame: JavaVFrame) returns (r: Result<Ref>)
      modifies frame.stack
      ensures StackPopArray(old(frame.stack.container)).Ok? ==> r == Ok(StackPopArray(old(frame.stack.container)).value.0) && frame.stack.container == StackPopArray(old(frame.stack.container)).value.1
      ensures StackPopArray(old(frame.stack.container)).Err? ==> r == Err(StackPopArray(old(frame.stack.container)).fault)
    {
      var value := frame.stack.Pop();
      if value.Err? {
        return Err(value.fault);
      }
      if value.value.None? {
        return Err(NullPointer);
      }
      if value.value.value.tag != T_ARRAY {
        return Err(TypeMismatch);
      }
      return Ok(value.value.value.obj);
    }

    method Add(index: int, value: Slot) returns (r: Result<()>)
      requires locals != null
      modifies locals
      ensures LocalSet(old(locals[..]), index, value).Ok? ==> r.Ok? && locals[..] == LocalSet(old(locals[..]), index, value).value
      ensures LocalSet(old(locals[..]), index, value).Err? ==> r.Err? && locals[..] == old(locals[..])
    {
      if index < 0 || index >= locals.Length {
        return Err(IndexOutOfBounds);
      }
      locals[index] := value;
      return Ok(());
    }

    method Get(index: int) returns (r: Result<Slot>)
      requires locals != null
      ensures r == ElementAt(locals[..], index)
    {
      if index < 0 || index >= locals.Length {
        return Err(IndexOutOfBounds);
      }
      return Ok(locals[index]);
    }
  }

  /** A method activation: its locals table, its operand stack and the method it runs. */
  class JavaVFrame {
    const locals: StackValueCollection
    const stack: StackValueCollection
    const ownerMethod: Option<MethodInfo>

    constructor (maxLocals: int)
      requires maxLocals >= 0
      ensures fresh(locals) && fresh(stack) && fresh(locals.locals) && Valid()
      ensures locals.locals.Length == maxLocals && locals.maxLocals == maxLocals
      ensures forall i :: 0 <= i < maxLocals ==> locals.locals[i] == None
      ensures stack.container == [] && ownerMethod == None
    {
      locals := new StackValueCollection.Sized(maxLocals);
      stack := new StackValueCollection();
      ownerMethod := None;
    }

    constructor WithOwner(maxLocals: int, methodInfo: MethodInfo)
      requires maxLocals >= 0
      ensures fresh(locals) && fresh(stack) && fresh(locals.locals) && Valid()
      ensures locals.locals.Length == maxLocals && locals.maxLocals == maxLocals
      ensures forall i :: 0 <= i < maxLocals ==> locals.locals[i] == None
      ensures stack.container == [] && ownerMethod == Some(methodInfo)
    {
      locals := new StackValueCollection.Sized(maxLocals);
      stack := new StackValueCollection();
      ownerMethod := Some(methodInfo);
    }

    /** The locals collection has its table, the operand stack has none, and they are distinct. */
    ghost predicate Valid()
      reads this, locals, stack
    {
      locals.locals != null && stack.locals == null && locals != stack
    }
  }

  /** The thread's stack of frames; the last element is the current frame. */
  class JavaThread {
    var stack: seq<JavaVFrame>

    constructor ()
      ensures stack == []
    {
      stack := [];
    }

    method PushFrame(f: JavaVFrame)
      modifies this
      ensures stack == old(stack) + [f]
    {
      stack := stack + [f];
    }

    /** stack.pop(): an empty frame stack throws. */
    method PopFrame() returns (r: Result<JavaVFrame>)
      modifies this
      ensures old(stack) != [] ==> r == Ok(old(stack)[|old(stack)| - 1]) && stack == old(stack)[..|old(stack)| - 1]
      ensures old(stack) == [] ==> r == Err(EmptyStack) && stack == old(stack)
    {
      if stack == [] {
        return Err(EmptyStack);
      }
      r := Ok(stack[|stack| - 1]);
      stack := stack[..|stack| - 1];
    }
  }
}
