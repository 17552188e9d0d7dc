/**
 * The eight synthetic controller "buttons" that stand for the directions of
 * the two analog sticks. Each is a single bit flag placed above the bits used
 * by the native button and analog-button identifiers, so that a bitwise test
 * of a synthetic flag against a native identifier never gives a false positive.
 */
module ButtonExt {

  /** First bit position above the native identifier range. */
  const NativeBits: nat := 18

  /** Every native button or analog-button identifier is below this value. */
  const NativeLimit: bv32 := 1 << 18

  datatype ControllerButtonExt =
    | AnalogStickLeftXUp
    | AnalogStickLeftXDown
    | AnalogStickLeftYUp
    | AnalogStickLeftYDown
    | AnalogStickRightXUp
    | AnalogStickRightXDown
    | AnalogStickRightYUp
    | AnalogStickRightYDown

  /** The enumerator's value, as the 32-bit integer the header gives it. */
  function Value(b: ControllerButtonExt): (v: bv32)
    ensures v == 1 << BitIndex(b)
  {
    match b
    case AnalogStickLeftXUp => 1 << 18
    case AnalogStickLeftXDown => 1 << 19
    case AnalogStickLeftYUp => 1 << 20
    case AnalogStickLeftYDown => 1 << 21
    case AnalogStickRightXUp => 1 << 22
    case AnalogStickRightXDown => 1 << 23
    case AnalogStickRightYUp => 1 << 24
    case AnalogStickRightYDown => 1 << 25
  }

  /** Position of the single bit a synthetic button occupies. */
  function BitIndex(b: ControllerButtonExt): (k: nat)
    ensures NativeBits <= k < NativeBits + 8
  {
    match b
    case AnalogStickLeftXUp => 18
    case AnalogStickLeftXDown => 19
    case AnalogStickLeftYUp => 20
    case AnalogStickLeftYDown => 21
    case AnalogStickRightXUp => 22
    case AnalogStickRightXDown => 23
    case AnalogStickRightYUp => 24
    case AnalogStickRightYDown => 25
  }

  /** A value with exactly one bit set. */
  predicate IsSingleBit(v: bv32)
  {
    v != 0 && v & (v - 1) == 0
  }

  /** Each value has exactly one bit set. */
  lemma ValueIsSingleBit(b: ControllerButtonExt)
    ensures IsSingleBit(Value(b))
  {
  }

  /** The eight values are pairwise distinct. */
  lemma ValuesDistinct(b: ControllerButtonExt, c: ControllerButtonExt)
    requires b != c
    ensures Value(b) != Value(c)
  {
  }

  /** The eight values are pairwise bitwise-disjoint. */
  lemma ValuesDisjoint(b: ControllerButtonExt, c: ControllerButtonExt)
    requires b != c
    ensures Value(b) & Value(c) == 0
  {
  }

  /** Every value lies in 2^18 .. 2^25 and has none of the native bits set. */
  lemma ValueAboveNativeRange(b: ControllerButtonExt)
    ensures NativeLimit <= Value(b) <= 1 << 25
    ensures Value(b) & (NativeLimit - 1) == 0
  {
  }

  /**
   * No identifier below the native limit equals a synthetic value or shares a
   * bit with one.
   */
  lemma NoOverlapWithNative(b: ControllerButtonExt, n: bv32)
    requires n < NativeLimit
    ensures n != Value(b)
    ensures n & Value(b) == 0
  {
  }
}
