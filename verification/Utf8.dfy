// Rust's String: bytes that are well-formed UTF-8 (table 3-7 of the Unicode
// Standard), no longer than an allocation may be.
module Utf8 {
  import opened Bytes

  const ISIZE_MAX := 0x7FFF_FFFF_FFFF_FFFF

  predicate Continuation(b: byte) { 0x80 <= b <= 0xBF }

  /** Width of the scalar value that starts `b`; 0 when it is ill-formed. */
  function ScalarWidth(b: seq<byte>): (w: nat)
    requires b != []
    ensures w <= |b|
  {
    var c := b[0];
    if c <= 0x7F then 1
    else if 0xC2 <= c <= 0xDF && |b| >= 2 && Continuation(b[1]) then 2
    else if 0xE0 <= c <= 0xEF && |b| >= 3 && Continuation(b[1]) && Continuation(b[2])
            && (c == 0xE0 ==> b[1] >= 0xA0) && (c == 0xED ==> b[1] <= 0x9F) then 3
    else if 0xF0 <= c <= 0xF4 && |b| >= 4 && Continuation(b[1]) && Continuation(b[2]) && Continuation(b[3])
            && (c == 0xF0 ==> b[1] >= 0x90) && (c == 0xF4 ==> b[1] <= 0x8F) then 4
    else 0
  }

  predicate ValidUtf8(b: seq<byte>)
    decreases |b|
  {
    b == [] || (ScalarWidth(b) > 0 && ValidUtf8(b[ScalarWidth(b)..]))
  }

  type Str = b: seq<byte> | |b| <= ISIZE_MAX && ValidUtf8(b) witness []
}
