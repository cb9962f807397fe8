/**
 * Bytes and the little-endian integers a .NET BinaryReader reads from them
 * (ReadUInt16, ReadInt16, ReadUInt32, ReadInt32), with the encodings that
 * produce them.
 */
module Bytes {

  type Byte = b: int | 0 <= b < 256

  const Two16: nat := 0x1_0000
  const Two31: nat := 0x8000_0000
  const Two32: nat := 0x1_0000_0000

  /** The unsigned 16-bit value stored low byte first at `at`. */
  function U16(s: seq<Byte>, at: nat): (r: nat)
    requires at + 2 <= |s|
    ensures r < Two16
  {
    s[at] as int + 256 * (s[at + 1] as int)
  }

  /** The unsigned 32-bit value stored low byte first at `at`. */
  function U32(s: seq<Byte>, at: nat): (r: nat)
    requires at + 4 <= |s|
    ensures r < Two32
  {
    U16(s, at) + 0x1_0000 * U16(s, at + 2)
  }

  /** The two's complement 16-bit value at `at`. */
  function I16(s: seq<Byte>, at: nat): (r: int)
    requires at + 2 <= |s|
    ensures -0x8000 <= r < 0x8000
  {
    var u := U16(s, at);
    if u >= 0x8000 then u - Two16 else u
  }

  /** The two's complement 32-bit value at `at`. */
  function I32(s: seq<Byte>, at: nat): (r: int)
    requires at + 4 <= |s|
    ensures -(Two31 as int) <= r < Two31
  {
    var u := U32(s, at);
    if u >= Two31 then u - Two32 else u
  }

  /** `n` written low byte first in two bytes. */
  function LE16(n: nat): (r: seq<Byte>)
    requires n < Two16
    ensures |r| == 2
  {
    [n % 256, n / 256]
  }

  /** `n` written low byte first in four bytes. */
  function LE32(n: nat): (r: seq<Byte>)
    requires n < Two32
    ensures |r| == 4
  {
    LE16(n % Two16) + LE16(n / Two16)
  }

  /** A reader only looks at its own bytes: what surrounds them does not matter. */
  lemma U16Local(pre: seq<Byte>, mid: seq<Byte>, post: seq<Byte>)
    requires |mid| == 2
    ensures U16(pre + mid + post, |pre|) == U16(mid, 0)
  {
    var s := pre + mid + post;
    assert s[|pre|] == mid[0] && s[|pre| + 1] == mid[1];
  }

  lemma U32Local(pre: seq<Byte>, mid: seq<Byte>, post: seq<Byte>)
    requires |mid| == 4
    ensures U32(pre + mid + post, |pre|) == U32(mid, 0)
  {
    var s := pre + mid + post;
    assert s[|pre|] == mid[0] && s[|pre| + 1] == mid[1];
    assert s[|pre| + 2] == mid[2] && s[|pre| + 3] == mid[3];
  }

  /** Reading back a written 16-bit value gives the value. */
  lemma U16OfLE16(n: nat)
    requires n < Two16
    ensures U16(LE16(n), 0) == n
  {
  }

  /** Reading back a written 32-bit value gives the value. */
  lemma U32OfLE32(n: nat)
    requires n < Two32
    ensures U32(LE32(n), 0) == n
  {
    var s := LE32(n);
    U16Local([], LE16(n % Two16), LE16(n / Two16));
    U16Local(LE16(n % Two16), LE16(n / Two16), []);
    assert s == [] + LE16(n % Two16) + LE16(n / Two16);
    assert s == LE16(n % Two16) + LE16(n / Two16) + [];
    U16OfLE16(n % Two16);
    U16OfLE16(n / Two16);
  }

  /** A written value below 2^15 (2^31) reads back the same as a signed 16-bit (32-bit) value. */
  lemma I16OfLE16(pre: seq<Byte>, n: nat, post: seq<Byte>)
    requires n < 0x8000
    ensures I16(pre + LE16(n) + post, |pre|) == n
  {
    U16Local(pre, LE16(n), post);
    U16OfLE16(n);
  }

  lemma I32OfLE32(pre: seq<Byte>, n: nat, post: seq<Byte>)
    requires n < Two31
    ensures I32(pre + LE32(n) + post, |pre|) == n
  {
    U32Local(pre, LE32(n), post);
    U32OfLE32(n);
  }

  lemma U32OfLE32At(pre: seq<Byte>, n: nat, post: seq<Byte>)
    requires n < Two32
    ensures U32(pre + LE32(n) + post, |pre|) == n
  {
    U32Local(pre, LE32(n), post);
    U32OfLE32(n);
  }

  /**
   * The characters a BinaryReader's ReadChars(4) returns at `at`: one per
   * byte, and fewer than four when the input ends first.
   */
  function Chars4(s: seq<Byte>, at: nat): (r: string)
    requires at <= |s|
    ensures |r| == if at + 4 <= |s| then 4 else |s| - at
  {
    if at + 4 <= |s| then [s[at] as char, s[at + 1] as char, s[at + 2] as char, s[at + 3] as char]
    else if at + 3 <= |s| then [s[at] as char, s[at + 1] as char, s[at + 2] as char]
    else if at + 2 <= |s| then [s[at] as char, s[at + 1] as char]
    else if at + 1 <= |s| then [s[at] as char]
    else []
  }

  /** The bytes of a four-letter tag. */
  function TagBytes(t: string): (r: seq<Byte>)
    requires |t| == 4 && forall i :: 0 <= i < 4 ==> t[i] as int < 256
    ensures |r| == 4
  {
    [t[0] as int, t[1] as int, t[2] as int, t[3] as int]
  }

  /** A written tag reads back as itself. */
  lemma Chars4OfTag(pre: seq<Byte>, t: string, post: seq<Byte>)
    requires |t| == 4 && forall i :: 0 <= i < 4 ==> t[i] as int < 256
    ensures Chars4(pre + TagBytes(t) + post, |pre|) == t
  {
    var s := pre + TagBytes(t) + post;
    var r := Chars4(s, |pre|);
    forall i | 0 <= i < 4
      ensures r[i] == t[i]
    {
      assert s[|pre| + i] == TagBytes(t)[i];
    }
  }
}
