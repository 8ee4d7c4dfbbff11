/**
 * The tagged-union representation of one metadata value: a discriminant
 * (String=0, Int=1, Bool=2, Float=3) and one populated value slot. The
 * encoder's two type switches and the decoder's switch on the discriminant
 * are value-level dispatch, so they are pure functions here.
 */
module TaggedValue {
  import opened Wrappers
  import opened GoInts
  import opened Models
  import opened FlatBuilder

  const STRING_TAG: int := 0
  const INT_TAG: int := 1
  const BOOL_TAG: int := 2
  const FLOAT_TAG: int := 3

  /** The discriminant and the value slots the encoder writes; None is a slot it does not write. */
  datatype Written = Written(tag: int, str: Option<string>, int32: Option<Int32>, boolean: Option<bool>, float: Option<bv64>)

  /** The discriminant and value slots as a reader sees them: absent slots read as their defaults. */
  datatype Slots = Slots(tag: int, str: string, int32: Int32, boolean: bool, float: bv64)

  /**
   * The encoder renders a value as text when it is non-nil and of none of
   * the types string, int, bool, float32, float64.
   */
  predicate FallsBackToText(v: Dyn)
  {
    !v.DNil? && !v.DString? && !v.DInt? && !v.DBool? && !v.DFloat32? && !v.DFloat64?
  }

  /** The slots the encoder writes for `v`. */
  function Encode(v: Dyn): (w: Written)
    ensures w.tag in {STRING_TAG, INT_TAG, BOOL_TAG, FLOAT_TAG}
    // the discriminant and the populated slot always agree
    ensures w.str.Some? ==> w.tag == STRING_TAG
    ensures w.int32.Some? <==> w.tag == INT_TAG
    ensures w.boolean.Some? <==> w.tag == BOOL_TAG
    ensures w.float.Some? <==> w.tag == FLOAT_TAG
    ensures w.tag == STRING_TAG ==> (w.str.None? <==> v.DNil?)
  {
    match v
    case DString(s) => Written(STRING_TAG, Some(s), None, None, None)
    case DInt(i) => Written(INT_TAG, None, Some(Wrap32(i)), None, None)
    case DBool(b) => Written(BOOL_TAG, None, None, Some(b), None)
    case DFloat32(wide) => Written(FLOAT_TAG, None, None, None, Some(wide))
    case DFloat64(bits) => Written(FLOAT_TAG, None, None, None, Some(bits))
    case DOther(text) => Written(STRING_TAG, Some(text), None, None, None)
    case DNil => Written(STRING_TAG, None, None, None, None)
  }

  /**
   * What a reader sees after the builder has stored `w`. An unwritten slot
   * reads as its default; so does a float slot holding -0.0, because the
   * builder leaves out a slot equal to its default 0.0 and -0.0 == 0.0.
   */
  function Observed(w: Written): Slots
  {
    Slots(w.tag, w.str.GetOr(""), w.int32.GetOr(0), w.boolean.GetOr(false), PositiveZero(w.float.GetOr(0)))
  }

  /** The decoder's switch on the discriminant; any unknown discriminant reads the string slot. */
  function Decode(s: Slots): (v: Dyn)
    ensures v.DInt? <==> s.tag == INT_TAG
    ensures v.DBool? <==> s.tag == BOOL_TAG
    ensures v.DFloat64? <==> s.tag == FLOAT_TAG
    ensures v.DString? <==> s.tag != INT_TAG && s.tag != BOOL_TAG && s.tag != FLOAT_TAG
  {
    if s.tag == STRING_TAG then DString(s.str)
    else if s.tag == INT_TAG then DInt(s.int32)
    else if s.tag == BOOL_TAG then DBool(s.boolean)
    else if s.tag == FLOAT_TAG then DFloat64(s.float)
    else DString(s.str)
  }

  /**
   * The value a round trip gives back: ints pass through int32, float32
   * widens to float64, -0.0 becomes +0.0, nil becomes "" and any other
   * type becomes its text.
   */
  function Collapse(v: Dyn): Dyn
  {
    match v
    case DInt(i) => DInt(Wrap32(i))
    case DFloat32(wide) => DFloat64(PositiveZero(wide))
    case DFloat64(bits) => DFloat64(PositiveZero(bits))
    case DNil => DString("")
    case DOther(text) => DString(text)
    case _ => v
  }

  /** The values that survive a round trip unchanged. */
  predicate Representable(v: Dyn)
  {
    || v.DString?
    || (v.DInt? && InInt32(v.i))
    || v.DBool?
    || (v.DFloat64? && v.bits != 0x8000_0000_0000_0000)
  }

  /** Per tag, decoding what was encoded gives the collapsed value. */
  lemma RoundTrip(v: Dyn)
    ensures Decode(Observed(Encode(v))) == Collapse(v)
  {
  }

  /** A value round-trips exactly if and only if it is representable; collapsed values are. */
  lemma CollapseExact(v: Dyn)
    ensures Collapse(v) == v <==> Representable(v)
    ensures Representable(Collapse(v))
  {
  }

  /** The decoder reads the slot its discriminant names and no other. */
  lemma DecodeReadsOnlyMatchingSlot(s: Slots, str: string, int32: Int32, boolean: bool, float: bv64)
    ensures s.tag == INT_TAG ==> Decode(s) == Decode(s.(str := str, boolean := boolean, float := float))
    ensures s.tag == BOOL_TAG ==> Decode(s) == Decode(s.(str := str, int32 := int32, float := float))
    ensures s.tag == FLOAT_TAG ==> Decode(s) == Decode(s.(str := str, int32 := int32, boolean := boolean))
    ensures s.tag != INT_TAG && s.tag != BOOL_TAG && s.tag != FLOAT_TAG ==>
      Decode(s) == Decode(s.(int32 := int32, boolean := boolean, float := float))
  {
  }
}
