/**
 * Bytes and the UTF-8 encoding of strings, restricted to ASCII text: every
 * string the two applications encode is ASCII, and for ASCII UTF-8 is one
 * byte per character with the character's code as the byte's value.
 */
module Bytes {
  import opened Wrappers

  newtype byte = x: int | 0 <= x < 0x100

  predicate IsAscii(s: string)
  {
    forall i :: 0 <= i < |s| ==> s[i] as int < 0x80
  }

  /** String.getBytes() on ASCII text. */
  function Encode(s: string): (b: seq<byte>)
    requires IsAscii(s)
    ensures |b| == |s|
    ensures forall i :: 0 <= i < |s| ==> b[i] as int == s[i] as int
  {
    if s == [] then [] else [s[0] as int as byte] + Encode(s[1..])
  }

  /** Decoding bytes as text: defined when every byte is a one-byte (ASCII) UTF-8 code. */
  function Decode(b: seq<byte>): (r: Option<string>)
    ensures r.Some? <==> forall i :: 0 <= i < |b| ==> b[i] < 0x80
    ensures r.Some? ==> |r.value| == |b| && IsAscii(r.value)
    ensures r.Some? ==> forall i :: 0 <= i < |b| ==> r.value[i] as int == b[i] as int
  {
    if b == [] then Some([])
    else if b[0] >= 0x80 then None
    else match Decode(b[1..])
      case None => None
      case Some(t) => Some([b[0] as int as char] + t)
  }

  /** Decoding the encoding of ASCII text gives the text back. */
  lemma {:induction false} DecodeEncode(s: string)
    requires IsAscii(s)
    ensures Decode(Encode(s)) == Some(s)
  {
    if s != [] {
      var b, tail := Encode(s), s[1..];
      assert IsAscii(tail);
      DecodeEncode(tail);
      assert b[1..] == Encode(tail);
      assert b[0] as int as char == s[0];
      assert Decode(b) == Some([s[0]] + tail);
      assert s == [s[0]] + tail;
    }
  }

  /** Encoding decoded bytes gives the bytes back. */
  lemma EncodeDecode(b: seq<byte>)
    requires Decode(b).Some?
    ensures Encode(Decode(b).value) == b
  {
  }

  /** Encoding distributes over concatenation. */
  lemma EncodeAppend(s: string, t: string)
    requires IsAscii(s) && IsAscii(t)
    ensures IsAscii(s + t) && Encode(s + t) == Encode(s) + Encode(t)
  {
  }
}
