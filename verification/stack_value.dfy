/**
 * One slot of an operand stack or of a local-variable table.
 *
 * A value carries a basic-type tag and keeps its payload in one of three
 * places: a byte image for floats and longs, an int for everything of four
 * bytes or fewer (and for each half of a double), and an object reference.
 * Which of them the value reads back depends on the tag alone.
 */
module StackValues {
  import opened Wrappers
  import opened Bytes

  /** The basic-type tags the interpreter gives to values. */
  datatype BasicType = T_BOOLEAN | T_CHAR | T_FLOAT | T_DOUBLE | T_BYTE | T_SHORT | T_INT | T_LONG | T_OBJECT | T_ARRAY | T_VOID

  /**
   * The objects a reference slot can hold: nothing, a string constant, an
   * array allocated by NEWARRAY (an address in the interpreter's heap), or an
   * object handed back by the host Java runtime.
   */
  datatype Ref = NullRef | StringRef(s: string) | ArrayRef(addr: nat) | HostRef(id: int)

  datatype StackValue = StackValue(tag: BasicType, data: Option<seq<byte>>, val: int, obj: Ref)

  /** What getData returns: a boxed Float, a boxed Long, a boxed Integer, or null. */
  datatype Data = NoData | FloatData(bits: seq<byte>) | LongData(l: int) | IntData(i: int)

  /**
   * The shape every value the interpreter builds has: a float keeps four bytes,
   * a long eight, and the int payload is a Java int.
   */
  predicate WellFormed(v: StackValue)
  {
    && IsInt32(v.val)
    && (v.tag == T_FLOAT ==> v.data.Some? && |v.data.value| == 4)
    && (v.tag == T_LONG ==> v.data.Some? && |v.data.value| == 8)
  }

  /*
   * The four constructors of the Java class. A tag that expects its payload
   * elsewhere (T_LONG from the int constructor, say) gives a value getData
   * cannot read, so each constructor promises well-formedness only for the
   * tags it is used with.
   */

  /** new StackValue(type, int) */
  function OfInt(t: BasicType, v: int): (r: StackValue)
    requires IsInt32(v)
    ensures t !in {T_FLOAT, T_LONG} ==> WellFormed(r)
  {
    StackValue(t, None, v, NullRef)
  }

  /** new StackValue(type, Object) */
  function OfObject(t: BasicType, o: Ref): (r: StackValue)
    ensures t !in {T_FLOAT, T_LONG} ==> WellFormed(r)
  {
    StackValue(t, None, 0, o)
  }

  /** new StackValue(type, float): the float is given by its four-byte image. */
  function OfFloat(t: BasicType, bits: seq<byte>): (r: StackValue)
    requires |bits| == 4
    ensures t != T_LONG ==> WellFormed(r)
  {
    StackValue(t, Some(bits), 0, NullRef)
  }

  /** new StackValue(type, long) */
  function OfLong(t: BasicType, v: int): (r: StackValue)
    requires IsInt64(v)
    ensures t != T_FLOAT ==> WellFormed(r)
  {
    StackValue(t, Some(LongToBytes(v)), 0, NullRef)
  }

  /** getData: reads the payload back according to the tag. */
  function GetData(v: StackValue): (d: Data)
    requires WellFormed(v)
    ensures d.NoData? <==> v.tag !in {T_FLOAT, T_LONG, T_INT}
    ensures d.LongData? ==> IsInt64(d.l)
    ensures d.IntData? ==> IsInt32(d.i)
  {
    match v.tag
    case T_FLOAT => FloatData(v.data.value)
    case T_LONG => LongData(BytesToLong(v.data.value))
    case T_INT => IntData(v.val)
    case _ => NoData
  }

  /** Each constructor's payload is read back unchanged by getData under the matching tag. */
  lemma GetDataRoundTrip(i: int, l: int, bits: seq<byte>)
    requires IsInt32(i) && IsInt64(l) && |bits| == 4
    ensures GetData(OfInt(T_INT, i)) == IntData(i)
    ensures GetData(OfLong(T_LONG, l)) == LongData(l)
    ensures GetData(OfFloat(T_FLOAT, bits)) == FloatData(bits)
  {
    LongRoundTrip(l);
  }

  /** References, and doubles (kept as two int halves), read back as null. */
  lemma GetDataOfReferences(o: Ref, half: int)
    requires IsInt32(half)
    ensures GetData(OfObject(T_OBJECT, o)) == NoData
    ensures GetData(OfObject(T_ARRAY, o)) == NoData
    ensures GetData(OfInt(T_DOUBLE, half)) == NoData
  {
  }
}
