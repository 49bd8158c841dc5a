/** Base64 as in section 4 of RFC 4648, and what joining the encodings of slices yields. */
module Base64 {
  import opened Basics

  /** A quantum of six bits and its letter of the base 64 alphabet. */
  function Letter(v: int): (c: char)
    requires 0 <= v < 64
  {
    if v < 26 then (65 + v) as char
    else if v < 52 then (71 + v) as char
    else if v < 62 then (v - 4) as char
    else if v == 62 then '+' else '/'
  }

  /** The letters are those of the alphabet of RFC 4648, in its order. */
  lemma AlphabetIs(v: int)
    requires 0 <= v < 64
    ensures 0 <= v < 26 ==> Letter(v) as int == 'A' as int + v
    ensures 26 <= v < 52 ==> Letter(v) as int == 'a' as int + (v - 26)
    ensures 52 <= v < 62 ==> Letter(v) as int == '0' as int + (v - 52)
    ensures Letter(62) == '+' && Letter(63) == '/'
  {
  }

  function Quantum(c: char): (v: int)
    ensures -1 <= v < 64
  {
    if 'A' <= c <= 'Z' then c as int - 65
    else if 'a' <= c <= 'z' then c as int - 71
    else if '0' <= c <= '9' then c as int + 4
    else if c == '+' then 62 else if c == '/' then 63 else -1
  }

  lemma QuantumOfLetter(v: int)
    requires 0 <= v < 64
    ensures Quantum(Letter(v)) == v && Letter(v) != '='
  {
  }

  /** The 24 bits of three bytes in four groups of six. */
  function Letters(a: Byte, b: Byte, c: Byte): (r: string)
    ensures |r| == 4
  {
    var a, b, c := a as int, b as int, c as int;
    [Letter(a / 4), Letter(a % 4 * 16 + b / 16), Letter(b % 16 * 4 + c / 64), Letter(c % 64)]
  }

  /** The letters stand for the quanta of the 24 bits, the highest first. */
  lemma LettersAreTheBits(a: Byte, b: Byte, c: Byte)
    ensures var r := Letters(a, b, c);
      && (forall i :: 0 <= i < 4 ==> Quantum(r[i]) >= 0)
      && ((Quantum(r[0]) * 64 + Quantum(r[1])) * 64 + Quantum(r[2])) * 64 + Quantum(r[3])
         == (a as int * 256 + b as int) * 256 + c as int
  {
    Regroup(a as int, b as int, c as int);
    QuantumOfLetter(a as int / 4);
    QuantumOfLetter(a as int % 4 * 16 + b as int / 16);
    QuantumOfLetter(b as int % 16 * 4 + c as int / 64);
    QuantumOfLetter(c as int % 64);
  }

  function Encode(bs: Bytes): (r: string) {
    if bs == [] then ""
    else if |bs| == 1 then Letters(bs[0], 0, 0)[..2] + "=="
    else if |bs| == 2 then Letters(bs[0], bs[1], 0)[..3] + "="
    else Letters(bs[0], bs[1], bs[2]) + Encode(bs[3..])
  }

  lemma EncodeNothing()
    ensures Encode([]) == ""
  {
  }

  /** The bytes of one group of four letters. Padding is allowed only where `last` holds, and
      the bits it covers must be zero. */
  function DecodeGroup(g: string, last: bool): Option<Bytes>
    requires |g| == 4
  {
    var q0, q1, q2, q3 := Quantum(g[0]), Quantum(g[1]), Quantum(g[2]), Quantum(g[3]);
    if q0 < 0 || q1 < 0 then None
    else if q2 >= 0 && q3 >= 0 then
      Some([(q0 * 4 + q1 / 16) as Byte, (q1 % 16 * 16 + q2 / 4) as Byte, (q2 % 4 * 64 + q3) as Byte])
    else if !last || g[3] != '=' then None
    else if q2 >= 0 && q2 % 4 == 0 then Some([(q0 * 4 + q1 / 16) as Byte, (q1 % 16 * 16 + q2 / 4) as Byte])
    else if g[2] == '=' && q1 % 16 == 0 then Some([(q0 * 4 + q1 / 16) as Byte])
    else None
  }

  function Decode(s: string): Option<Bytes> {
    if s == "" then Some([])
    else if |s| < 4 then None
    else
      var head := DecodeGroup(s[..4], |s| == 4);
      var tail := Decode(s[4..]);
      if head.None? || tail.None? then None else Some(head.value + tail.value)
  }

  /** Four quanta put back together. */
  lemma Regroup(a: int, b: int, c: int)
    requires 0 <= a < 256 && 0 <= b < 256 && 0 <= c < 256
    ensures var q0, q1, q2, q3 := a / 4, a % 4 * 16 + b / 16, b % 16 * 4 + c / 64, c % 64;
      && 0 <= q0 < 64 && 0 <= q1 < 64 && 0 <= q2 < 64 && 0 <= q3 < 64
      && q0 * 4 + q1 / 16 == a && q1 % 16 * 16 + q2 / 4 == b && q2 % 4 * 64 + q3 == c
  {
  }

  lemma DecodeOfThree(a: Byte, b: Byte, c: Byte, last: bool)
    ensures DecodeGroup(Letters(a, b, c), last) == Some([a, b, c])
  {
    Regroup(a as int, b as int, c as int);
    QuantumOfLetter(a as int / 4);
    QuantumOfLetter(a as int % 4 * 16 + b as int / 16);
    QuantumOfLetter(b as int % 16 * 4 + c as int / 64);
    QuantumOfLetter(c as int % 64);
  }

  lemma DecodeOfTwo(a: Byte, b: Byte)
    ensures DecodeGroup(Letters(a, b, 0)[..3] + "=", true) == Some([a, b])
  {
    Regroup(a as int, b as int, 0);
    QuantumOfLetter(a as int / 4);
    QuantumOfLetter(a as int % 4 * 16 + b as int / 16);
    QuantumOfLetter(b as int % 16 * 4);
  }

  lemma DecodeOfOne(a: Byte)
    ensures DecodeGroup(Letters(a, 0, 0)[..2] + "==", true) == Some([a])
  {
    Regroup(a as int, 0, 0);
    QuantumOfLetter(a as int / 4);
    QuantumOfLetter(a as int % 4 * 16);
  }

  /** Decoding an encoding gives the bytes back. */
  lemma {:induction false} DecodeEncode(bs: Bytes)
    ensures Decode(Encode(bs)) == Some(bs)
  {
    hide Letters, DecodeGroup;
    if |bs| == 1 {
      assert bs == [bs[0]];
      DecodeEncodeOne(bs[0]);
    } else if |bs| == 2 {
      assert bs == [bs[0], bs[1]];
      DecodeEncodeTwo(bs[0], bs[1]);
    } else if |bs| > 2 {
      var tail := Encode(bs[3..]);
      DecodeOfThree(bs[0], bs[1], bs[2], tail == "");
      DecodeEncode(bs[3..]);
      DecodeCons(Letters(bs[0], bs[1], bs[2]), tail);
      assert bs == [bs[0], bs[1], bs[2]] + bs[3..];
    }
  }

  lemma DecodeEncodeOne(a: Byte)
    ensures Decode(Encode([a])) == Some([a])
  {
    DecodeOfOne(a);
    DecodeOnly(Letters(a, 0, 0)[..2] + "==");
  }

  lemma DecodeEncodeTwo(a: Byte, b: Byte)
    ensures Decode(Encode([a, b])) == Some([a, b])
  {
    DecodeOfTwo(a, b);
    DecodeOnly(Letters(a, b, 0)[..3] + "=");
  }

  lemma DecodeOnly(s: string)
    requires |s| == 4 && DecodeGroup(s, true).Some?
    ensures Decode(s) == DecodeGroup(s, true)
  {
    assert s[..4] == s && s[4..] == "";
    var bytes := DecodeGroup(s, true).value;
    assert bytes + [] == bytes;
  }

  lemma DecodeCons(head: string, tail: string)
    requires |head| == 4 && DecodeGroup(head, tail == "").Some? && Decode(tail).Some?
    ensures Decode(head + tail) == Some(DecodeGroup(head, tail == "").value + Decode(tail).value)
  {
    assert (head + tail)[..4] == head && (head + tail)[4..] == tail;
  }

  /** Encodings may be joined wherever the split falls on a multiple of three bytes. */
  lemma {:induction false} EncodeConcat(a: Bytes, b: Bytes)
    requires |a| % 3 == 0
    ensures Encode(a + b) == Encode(a) + Encode(b)
  {
    if a == [] {
      assert a + b == b;
    } else {
      var whole := a + b;
      assert whole[3..] == a[3..] + b && whole[0] == a[0] && whole[1] == a[1] && whole[2] == a[2];
      EncodeConcat(a[3..], b);
      ConcatAssoc(Letters(a[0], a[1], a[2]), Encode(a[3..]), Encode(b));
    }
  }

  /** And nowhere else: the encoding of a first part of any other length ends in padding. */
  lemma {:induction false} EncodePadding(a: Bytes)
    ensures |a| % 3 != 0 <==> Encode(a) != "" && Encode(a)[|Encode(a)| - 1] == '='
  {
    hide Quantum, Letter;
    if |a| >= 3 {
      EncodePadding(a[3..]);
      SextetsNotPadding(a[0], a[1], a[2]);
      LastOfConcat(Letters(a[0], a[1], a[2]), Encode(a[3..]));
    }
  }

  lemma LastOfConcat(x: string, y: string)
    requires x != ""
    ensures (x + y)[|x + y| - 1] == if y == "" then x[|x| - 1] else y[|y| - 1]
  {
  }

  /** Joining two encodings encodes the concatenation exactly when the first part is a
      multiple of three bytes or the second is empty. */
  lemma EncodeConcatIff(a: Bytes, b: Bytes)
    ensures Encode(a + b) == Encode(a) + Encode(b) <==> |a| % 3 == 0 || b == []
  {
    if |a| % 3 == 0 {
      EncodeConcat(a, b);
    } else if b == [] {
      assert a + b == a && Encode(a) + Encode(b) == Encode(a);
    } else {
      var k := |Encode(a)| - 1;
      EncodePadding(a);
      assert (Encode(a) + Encode(b))[k] == '=';
      EncodeLength(b);
      NoEarlyPadding(a + b, k);
    }
  }

  lemma {:induction false} EncodeLength(a: Bytes)
    ensures |Encode(a)| == (|a| + 2) / 3 * 4
  {
    hide Letters;
    if |a| >= 3 {
      EncodeLength(a[3..]);
    }
  }

  /** Only the last two letters of an encoding can be padding. */
  lemma {:induction false} NoEarlyPadding(a: Bytes, i: nat)
    ensures i + 2 < |Encode(a)| ==> Encode(a)[i] != '='
  {
    if |a| == 1 {
      SextetsNotPadding(a[0], 0, 0);
    } else if |a| == 2 {
      SextetsNotPadding(a[0], a[1], 0);
    } else if |a| > 2 {
      SextetsNotPadding(a[0], a[1], a[2]);
      if i >= 4 {
        NoEarlyPadding(a[3..], i - 4);
      }
    }
  }

  lemma SextetsNotPadding(a: Byte, b: Byte, c: Byte)
    ensures '=' !in Letters(a, b, c)
  {
    QuantumOfLetter(a as int / 4);
    QuantumOfLetter(a as int % 4 * 16 + b as int / 16);
    QuantumOfLetter(b as int % 16 * 4 + c as int / 64);
    QuantumOfLetter(c as int % 64);
  }
}
