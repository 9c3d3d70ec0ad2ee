/** Value types of the Java platform that the field-notes code stores and passes along. */
module JavaValues {

  /** A Java `int`. */
  newtype int32 = x: int | -0x8000_0000 <= x < 0x8000_0000

  /** A Java `long`. */
  newtype int64 = x: int | -0x8000_0000_0000_0000 <= x < 0x8000_0000_0000_0000

  /** A Java `double`, kept as its 64 IEEE-754 bits: the code only stores and forwards
      coordinates, so no floating-point arithmetic is modelled. */
  datatype Double = Double(bits: bv64)

  /** The value a `double` field holds before it is assigned: +0.0, whose bits are all zero. */
  const ZERO: Double := Double(0)

  /** A Java reference that may be `null`. */
  datatype Option<T> = None | Some(value: T)

  /** A Java `String` reference, which may be `null`. */
  type NullableString = Option<string>
}
