/** PHP strings are byte strings; this module gives them a Dafny type. */
module Bytes {

  type byte = x: int | 0 <= x < 256

  /** The byte string of a string literal whose characters are all below 256. */
  function Ascii(s: string): (r: seq<byte>)
    requires forall i :: 0 <= i < |s| ==> s[i] as int < 256
    ensures |r| == |s|
    ensures forall i :: 0 <= i < |s| ==> r[i] == s[i] as int
  {
    seq(|s|, i requires 0 <= i < |s| => s[i] as int as byte)
  }
}
