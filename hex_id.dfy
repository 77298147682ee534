/** Route and component ids (src/app/lib/utils.ts, and the identical copy in
    framework/react-router.tsx): eight bytes written as lower-case
    hexadecimal, two digits per byte, joined without separator. The bytes
    come from `crypto.getRandomValues` and are an input here. */
module HexId {
  import opened Js
  import opened Strings

  newtype byte = x: int | 0 <= x < 256

  /** The digit `toString(16)` writes for a value below 16. */
  function HexDigit(d: int): char
    requires 0 <= d < 16
  {
    if d < 10 then ('0' as int + d) as char else ('a' as int + d - 10) as char
  }

  /** `byte.toString(16)`: no leading zero. */
  function ToBase16(b: byte): (s: string)
    ensures 1 <= |s| <= 2
    ensures |s| == 1 <==> b < 16
  {
    if b < 16 then [HexDigit(b as int)]
    else [HexDigit(b as int / 16), HexDigit(b as int % 16)]
  }

  /** `s.padStart(n, c)` for a one-character pad. */
  function PadStart(s: string, n: nat, c: char): (r: string)
    ensures |r| == if |s| >= n then |s| else n
    ensures r[|r| - |s|..] == s
    ensures forall i :: 0 <= i < |r| - |s| ==> r[i] == c
  {
    if |s| >= n then s else seq(n - |s|, _ => c) + s
  }

  /** The two digits of a byte: high nibble, then low nibble. */
  function ByteHex(b: byte): (s: string)
    ensures |s| == 2
    ensures s[0] == HexDigit(b as int / 16) && s[1] == HexDigit(b as int % 16)
  {
    PadStart(ToBase16(b), 2, '0')
  }

  /** `Array.from(bytes, (byte) => ...)`. */
  function HexParts(bytes: seq<byte>): (parts: seq<string>)
    ensures |parts| == |bytes|
    ensures forall i :: 0 <= i < |bytes| ==> parts[i] == ByteHex(bytes[i])
  {
    seq(|bytes|, i requires 0 <= i < |bytes| => ByteHex(bytes[i]))
  }

  /** `randomId()` for the bytes the random source filled in. */
  function RandomId(bytes: seq<byte>): string
    requires |bytes| == 8
  {
    Join(HexParts(bytes), "")
  }

  /** The parts written one after the other. */
  function Concat(parts: seq<string>): string {
    if parts == [] then "" else parts[0] + Concat(parts[1..])
  }

  predicate Pairs(parts: seq<string>) {
    forall k :: 0 <= k < |parts| ==> |parts[k]| == 2
  }

  /** Joining with the empty separator is writing the parts one after the other. */
  lemma {:induction false} JoinIsConcat(parts: seq<string>)
    ensures Join(parts, "") == Concat(parts)
  {
    if |parts| == 1 {
      assert Concat(parts[1..]) == "";
    } else if |parts| > 1 {
      JoinIsConcat(parts[1..]);
    }
  }

  lemma {:induction false} ConcatLength(parts: seq<string>)
    requires Pairs(parts)
    ensures |Concat(parts)| == 2 * |parts|
  {
    if parts != [] {
      assert Pairs(parts[1..]) by {
        assert forall k :: 0 <= k < |parts| - 1 ==> parts[1..][k] == parts[k + 1];
      }
      ConcatLength(parts[1..]);
    }
  }

  /** Part i of two-character parts sits at characters 2i and 2i+1. */
  lemma {:induction false} ConcatAt(parts: seq<string>, i: nat)
    requires Pairs(parts) && i < |parts|
    ensures |Concat(parts)| == 2 * |parts|
    ensures Concat(parts)[2 * i] == parts[i][0] && Concat(parts)[2 * i + 1] == parts[i][1]
  {
    var tail := parts[1..];
    assert Pairs(tail) by {
      assert forall k :: 0 <= k < |tail| ==> tail[k] == parts[k + 1];
    }
    ConcatLength(tail);
    var rest := Concat(tail);
    assert Concat(parts) == parts[0] + rest;
    if i == 0 {
      PairAt(parts[0], rest, 0);
    } else {
      ConcatAt(tail, i - 1);
      assert tail[i - 1] == parts[i];
      PairAt(parts[0], rest, i);
    }
  }

  lemma PairAt(head: string, rest: string, i: nat)
    requires |head| == 2 && 2 * i + 1 < 2 + |rest|
    ensures i == 0 ==> (head + rest)[0] == head[0] && (head + rest)[1] == head[1]
    ensures 0 < i ==> (head + rest)[2 * i] == rest[2 * (i - 1)] && (head + rest)[2 * i + 1] == rest[2 * (i - 1) + 1]
  {
  }

  /** Byte i sits at characters 2i (high digit) and 2i+1 (low digit). */
  lemma HexLayout(bytes: seq<byte>)
    ensures |Join(HexParts(bytes), "")| == 2 * |bytes|
    ensures forall i :: 0 <= i < |bytes| ==>
      Join(HexParts(bytes), "")[2 * i] == HexDigit(bytes[i] as int / 16)
      && Join(HexParts(bytes), "")[2 * i + 1] == HexDigit(bytes[i] as int % 16)
  {
    var parts := HexParts(bytes);
    JoinIsConcat(parts);
    ConcatLength(parts);
    forall i | 0 <= i < |bytes|
      ensures Concat(parts)[2 * i] == HexDigit(bytes[i] as int / 16)
           && Concat(parts)[2 * i + 1] == HexDigit(bytes[i] as int % 16)
    {
      ConcatAt(parts, i);
    }
  }

  /** The id is 16 characters long, and byte i is written at characters 2i
      (high digit, `0` for a byte below 16) and 2i+1 (low digit). */
  lemma RandomIdLayout(bytes: seq<byte>)
    requires |bytes| == 8
    ensures |RandomId(bytes)| == 16
    ensures forall i :: 0 <= i < 8 ==>
      RandomId(bytes)[2 * i] == HexDigit(bytes[i] as int / 16)
      && RandomId(bytes)[2 * i + 1] == HexDigit(bytes[i] as int % 16)
    ensures forall i :: 0 <= i < 8 && bytes[i] < 16 ==> RandomId(bytes)[2 * i] == '0'
  {
    HexLayout(bytes);
  }

  predicate IsHexDigit(c: char) {
    '0' <= c <= '9' || 'a' <= c <= 'f'
  }

  /** Every character of the id is one of `0-9a-f`. */
  lemma RandomIdAlphabet(bytes: seq<byte>)
    requires |bytes| == 8
    ensures forall k :: 0 <= k < |RandomId(bytes)| ==> IsHexDigit(RandomId(bytes)[k])
  {
    var parts := HexParts(bytes);
    JoinIsConcat(parts);
    forall k, c | 0 <= k < |parts| && c in parts[k]
      ensures IsHexDigit(c)
    {
      ByteHexAlphabet(bytes[k]);
    }
    ConcatAlphabet(parts);
    assert forall k :: 0 <= k < |RandomId(bytes)| ==> RandomId(bytes)[k] in Concat(parts);
  }

  lemma ByteHexAlphabet(b: byte)
    ensures forall c :: c in ByteHex(b) ==> IsHexDigit(c)
  {
    var s := ByteHex(b);
    assert forall c :: c in s ==> c == s[0] || c == s[1];
    HexDigitIsHex(b as int / 16);
    HexDigitIsHex(b as int % 16);
  }

  lemma {:induction false} ConcatAlphabet(parts: seq<string>)
    requires forall k, c :: 0 <= k < |parts| && c in parts[k] ==> IsHexDigit(c)
    ensures forall c :: c in Concat(parts) ==> IsHexDigit(c)
  {
    if parts != [] {
      var tail := parts[1..];
      assert forall k :: 0 <= k < |tail| ==> tail[k] == parts[k + 1];
      ConcatAlphabet(tail);
      assert Concat(parts) == parts[0] + Concat(tail);
    }
  }

  lemma HexDigitIsHex(d: int)
    requires 0 <= d < 16
    ensures IsHexDigit(HexDigit(d))
  {
  }

  /** The value of a hex digit, or None for any other character. */
  function DigitValue(c: char): (v: Option<int>)
    ensures v.Some? ==> 0 <= v.value < 16 && HexDigit(v.value) == c
  {
    if '0' <= c <= '9' then Some(c as int - '0' as int)
    else if 'a' <= c <= 'f' then Some(c as int - 'a' as int + 10)
    else None
  }

  lemma DigitValueOf(d: int)
    requires 0 <= d < 16
    ensures DigitValue(HexDigit(d)) == Some(d)
  {
  }

  /** Reads a string of digit pairs back into bytes. */
  function Decode(s: string): Option<seq<byte>>
    decreases |s|
  {
    if |s| == 0 then Some([])
    else if |s| == 1 then None
    else
      var hi := DigitValue(s[0]);
      var lo := DigitValue(s[1]);
      var rest := Decode(s[2..]);
      if hi.None? || lo.None? || rest.None? then None
      else Some([(hi.value * 16 + lo.value) as byte] + rest.value)
  }

  lemma {:induction false} DecodeHex(bytes: seq<byte>)
    ensures Decode(Concat(HexParts(bytes))) == Some(bytes)
  {
    if bytes != [] {
      var parts := HexParts(bytes);
      assert parts[1..] == HexParts(bytes[1..]);
      DecodeHex(bytes[1..]);
      DecodePair(bytes[0], Concat(parts[1..]));
      assert [bytes[0]] + bytes[1..] == bytes;
    }
  }

  lemma DecodePair(b: byte, rest: string)
    ensures Decode(ByteHex(b) + rest)
         == if Decode(rest).None? then None else Some([b] + Decode(rest).value)
  {
    var s := ByteHex(b) + rest;
    assert s[0] == HexDigit(b as int / 16) && s[1] == HexDigit(b as int % 16);
    assert s[2..] == rest;
    DigitValueOf(b as int / 16);
    DigitValueOf(b as int % 16);
    assert (b as int / 16) * 16 + b as int % 16 == b as int;
  }

  /** The id decodes back to the bytes it was made from. */
  lemma RandomIdRoundTrip(bytes: seq<byte>)
    requires |bytes| == 8
    ensures Decode(RandomId(bytes)) == Some(bytes)
  {
    JoinIsConcat(HexParts(bytes));
    DecodeHex(bytes);
  }

  /** Different bytes give different ids. */
  lemma RandomIdInjective(a: seq<byte>, b: seq<byte>)
    requires |a| == 8 && |b| == 8
    requires RandomId(a) == RandomId(b)
    ensures a == b
  {
    RandomIdRoundTrip(a);
    RandomIdRoundTrip(b);
  }
}
