/** Small value types shared by every module of the model. */
module Basics {

  /** Kotlin's nullable `T?`. */
  datatype Option<+T> = None | Some(value: T)

  /** One octet of a Kotlin `ByteArray`, read as an unsigned value. */
  type Byte = b: int | 0 <= b < 0x100

  /** Index of the first occurrence of `d` in `s`, if any (Kotlin's `indexOf`). */
  function IndexOf<T(==)>(s: seq<T>, d: T): (r: Option<nat>)
    ensures r.None? <==> d !in s
    ensures r.Some? ==> r.value < |s| && s[r.value] == d && d !in s[..r.value]
  {
    if |s| == 0 then None
    else if s[0] == d then Some(0)
    else
      match IndexOf(s[1..], d)
      case None => None
      case Some(i) =>
        assert s[1..][..i] == s[1..i + 1];
        assert s[..i + 1] == [s[0]] + s[1..i + 1];
        Some(i + 1)
  }
}
