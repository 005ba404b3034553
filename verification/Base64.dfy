/**
 Base64UrlEncode (client/base64.cc), against the URL-safe alphabet and decoding of
 section 5 of RFC 4648.

 Bytes are 0 to 255. The source joins them with shifts and bitwise or; since the fields
 do not overlap, sums and products say the same, and taking a field out again is a
 division and a remainder.
 */
module Base64 {
  import opened Basics

  newtype Byte = x: int | 0 <= x < 256

  /** kEncodeURL */
  const Upper := "ABCDEFGHIJKLMNOPQRSTUVWXYZ"
  const Lower := "abcdefghijklmnopqrstuvwxyz"
  const Others := "0123456789-_"
  const Alphabet := Upper + Lower + Others

  /** The length that static_cast<int> leaves alone. */
  const IntMax := 0x7FFF_FFFF

  function Digit(n: int): char
    requires 0 <= n < 64
  {
    Alphabet[n]
  }

  /** (val >> 18) & 0x3F, (val >> 12) & 0x3F, (val >> 6) & 0x3F and val & 0x3F. */
  function Field(val: int, i: int): (n: int)
    requires 0 <= i < 4
    ensures 0 <= n < 64
  {
    match i
    case 0 => val / 262144 % 64
    case 1 => val / 4096 % 64
    case 2 => val / 64 % 64
    case 3 => val % 64
  }

  function Join(a: Byte, b: Byte, c: Byte): int {
    a as int * 65536 + b as int * 256 + c as int
  }

  // ---------------------------------------------------------------- encoding

  function Group(val: int): string {
    [Digit(Field(val, 0)), Digit(Field(val, 1)), Digit(Field(val, 2)), Digit(Field(val, 3))]
  }

  /** What is left after the last whole group. */
  function Tail(s: seq<Byte>, padding: bool): string
    requires |s| < 3
  {
    match |s|
    case 0 => ""
    case 1 => Group(Join(s[0], 0, 0))[..2] + (if padding then "==" else "")
    case _ => Group(Join(s[0], s[1], 0))[..3] + (if padding then "=" else "")
  }

  function Encoded(s: seq<Byte>, padding: bool): string {
    if |s| < 3 then Tail(s, padding) else Group(Join(s[0], s[1], s[2])) + Encoded(s[3..], padding)
  }

  lemma NextGroup(str: seq<Byte>, si: int, padding: bool)
    requires 0 <= si && si + 3 <= |str|
    ensures Encoded(str[si..], padding)
         == Group(Join(str[si], str[si + 1], str[si + 2])) + Encoded(str[si + 3..], padding)
  {
    hide Group, Join;
    assert str[si..][3..] == str[si + 3..];
  }

  lemma LastGroup(str: seq<Byte>, si: int, val: int, padding: bool)
    requires 0 <= si <= |str| < si + 3
    requires |str| - si == 1 ==> val == str[si] as int * 65536
    requires |str| - si == 2 ==> val == str[si + 1] as int * 256 + str[si] as int * 65536
    ensures Encoded(str[si..], padding) == Rest(val, |str| - si, padding)
  {
    hide Group;
  }

  /** The last characters, from the bits of `remain` bytes. */
  function Rest(val: int, remain: int, padding: bool): string {
    match remain
    case 1 => Group(val)[..2] + (if padding then "==" else "")
    case 2 => Group(val)[..3] + (if padding then "=" else "")
    case _ => ""
  }

  method Base64UrlEncode(str: seq<Byte>, padding: bool) returns (dst: string)
    requires |str| <= IntMax
    ensures dst == Encoded(str, padding)
  {
    hide Field, Digit, Encoded;
    LastGroup(str, |str|, 0, padding);
    if str == [] {
      return "";
    }
    dst := "";
    var si := 0;
    var n := |str| / 3 * 3;
    while si < n
      invariant 0 <= si <= n && si % 3 == 0
      invariant Encoded(str, padding) == dst + Encoded(str[si..], padding)
    {
      var val := Join(str[si], str[si + 1], str[si + 2]);
      NextGroup(str, si, padding);
      hide Join;
      ghost var before := dst;
      dst := dst + [Digit(Field(val, 0))];
      dst := dst + [Digit(Field(val, 1))];
      dst := dst + [Digit(Field(val, 2))];
      dst := dst + [Digit(Field(val, 3))];
      assert dst == before + Group(val);
      si := si + 3;
    }
    var remain := |str| - si;
    var val := 0;
    if remain == 2 {
      val := val + str[si + 1] as int * 256;
    }
    if remain == 2 || remain == 1 {
      val := val + str[si] as int * 65536;
    }
    LastGroup(str, si, val, padding);
    if remain == 0 {
      return;
    }
    ghost var before := dst;
    dst := dst + [Digit(Field(val, 0))];
    dst := dst + [Digit(Field(val, 1))];
    if remain == 1 {
      if padding {
        dst := dst + "=";
        dst := dst + "=";
      }
    } else {
      dst := dst + [Digit(Field(val, 2))];
      if padding {
        dst := dst + "=";
      }
    }
    assert dst == before + Rest(val, remain, padding);
  }

  // ---------------------------------------------------------------- decoding

  /** The value of a character of the alphabet. */
  function Value(c: char): Option<int> {
    if 'A' <= c <= 'Z' then Some(c as int - 'A' as int)
    else if 'a' <= c <= 'z' then Some(c as int - 'a' as int + 26)
    else if '0' <= c <= '9' then Some(c as int - '0' as int + 52)
    else if c == '-' then Some(62)
    else if c == '_' then Some(63)
    else None
  }

  /** The bits of up to four characters, a missing one counting as zero. */
  function Bits(t: string): Option<int>
    requires |t| <= 4
  {
    if exists i :: 0 <= i < |t| && Value(t[i]).None? then None
    else Some(Nth(t, 0) * 262144 + Nth(t, 1) * 4096 + Nth(t, 2) * 64 + Nth(t, 3))
  }

  function Nth(t: string, i: int): (n: int)
    requires 0 <= i
  {
    if i < |t| && Value(t[i]).Some? then Value(t[i]).value else 0
  }

  function Octet(val: int, i: int): Byte
    requires 0 <= i < 3
  {
    match i
    case 0 => (val / 65536 % 256) as Byte
    case 1 => (val / 256 % 256) as Byte
    case 2 => (val % 256) as Byte
  }

  /** A final group of two or three characters, whose unused bits must be zero. */
  function DecodeTail(t: string): Option<seq<Byte>>
    requires |t| < 4
  {
    var bits := Bits(t);
    if t == "" then Some([])
    else if bits.None? || |t| == 1 then None
    else if |t| == 2 then
      if bits.value % 65536 == 0 then Some([Octet(bits.value, 0)]) else None
    else
      if bits.value % 256 == 0 then Some([Octet(bits.value, 0), Octet(bits.value, 1)]) else None
  }

  /** Text without padding characters. */
  function DecodePlain(t: string): Option<seq<Byte>> {
    if |t| < 4 then DecodeTail(t)
    else
      var bits := Bits(t[..4]);
      var rest := DecodePlain(t[4..]);
      if bits.None? || rest.None? then None
      else Some([Octet(bits.value, 0), Octet(bits.value, 1), Octet(bits.value, 2)] + rest.value)
  }

  /** The characters that fill the last group of four. */
  function Pad(n: nat): string {
    match n % 4
    case 2 => "=="
    case 3 => "="
    case _ => ""
  }

  /** Padded text is plain text filled up to a multiple of four characters. */
  function Decode(t: string, padding: bool): Option<seq<Byte>> {
    if !padding then DecodePlain(t)
    else if t == Stripped(t) + Pad(|Stripped(t)|) then DecodePlain(Stripped(t))
    else None
  }

  /** The text before the padding characters. */
  function Stripped(t: string): string {
    if |t| >= 2 && t[|t| - 2] == '=' then t[..|t| - 2]
    else if |t| >= 1 && t[|t| - 1] == '=' then t[..|t| - 1]
    else t
  }

  // ---------------------------------------------------------------- one group

  lemma UpperValue(n: int)
    requires 0 <= n < 26
    ensures Value(Upper[n]) == Some(n)
  {
  }

  lemma LowerValue(n: int)
    requires 0 <= n < 26
    ensures Value(Lower[n]) == Some(n + 26)
  {
  }

  lemma OtherValue(n: int)
    requires 0 <= n < 12
    ensures Value(Others[n]) == Some(n + 52)
  {
  }

  lemma DigitValue(n: int)
    requires 0 <= n < 64
    ensures Value(Digit(n)) == Some(n)
  {
    hide Value;
    if n < 26 {
      UpperValue(n);
    } else if n < 52 {
      LowerValue(n - 26);
    } else {
      OtherValue(n - 52);
    }
  }

  /** No other character has a value, so the alphabet is a bijection. */
  lemma ValueDigit(c: char)
    requires Value(c).Some?
    ensures 0 <= Value(c).value < 64 && Digit(Value(c).value) == c
  {
    var n := Value(c).value;
    if 'A' <= c <= 'Z' {
      assert Upper[n] == c;
    } else if 'a' <= c <= 'z' {
      assert Lower[n - 26] == c;
    } else {
      assert Others[n - 52] == c;
    }
  }

  const GroupEnd := 0x100_0000

  lemma FieldsSum(val: int)
    requires 0 <= val < GroupEnd
    ensures Field(val, 0) * 262144 + Field(val, 1) * 4096 + Field(val, 2) * 64 + Field(val, 3) == val
  {
  }

  lemma SumFields(a: int, b: int, c: int, d: int)
    requires 0 <= a < 64 && 0 <= b < 64 && 0 <= c < 64 && 0 <= d < 64
    ensures var val := a * 262144 + b * 4096 + c * 64 + d;
            && 0 <= val < GroupEnd
            && Field(val, 0) == a && Field(val, 1) == b && Field(val, 2) == c && Field(val, 3) == d
  {
  }

  lemma JoinOctets(val: int)
    requires 0 <= val < GroupEnd
    ensures Join(Octet(val, 0), Octet(val, 1), Octet(val, 2)) == val
  {
  }

  lemma OctetsJoin(a: Byte, b: Byte, c: Byte)
    ensures var val := Join(a, b, c);
            0 <= val < GroupEnd && Octet(val, 0) == a && Octet(val, 1) == b && Octet(val, 2) == c
  {
  }

  /** Reading back the first n characters of a group loses the fields after them. */
  lemma BitsOfGroup(val: int, n: int)
    requires 0 <= val < GroupEnd && 2 <= n <= 4
    ensures var t := Group(val)[..n];
            && (forall i :: 0 <= i < n ==> Value(t[i]).Some?)
            && Bits(t) == Some(Field(val, 0) * 262144 + Field(val, 1) * 4096
                               + (if n > 2 then Field(val, 2) else 0) * 64 + (if n > 3 then Field(val, 3) else 0))
  {
    hide Field, Digit, Value;
    DigitValue(Field(val, 0));
    DigitValue(Field(val, 1));
    DigitValue(Field(val, 2));
    DigitValue(Field(val, 3));
  }

  lemma DigitAt(t: string, i: int)
    requires 0 <= i < |t| <= 4 && Bits(t).Some?
    ensures 0 <= Nth(t, i) < 64 && Digit(Nth(t, i)) == t[i]
  {
    assert Value(t[i]).Some?;
    ValueDigit(t[i]);
  }

  lemma NoDigit(t: string, i: int)
    requires |t| <= i
    ensures Nth(t, i) == 0
  {
  }

  /** Characters that have bits are the group of these bits. */
  lemma GroupOfBits(t: string)
    requires 2 <= |t| <= 4 && Bits(t).Some?
    ensures 0 <= Bits(t).value < GroupEnd && Group(Bits(t).value)[..|t|] == t
  {
    hide Field, Digit, Nth, Value;
    DigitAt(t, 0);
    DigitAt(t, 1);
    if |t| > 2 { DigitAt(t, 2); } else { NoDigit(t, 2); }
    if |t| > 3 { DigitAt(t, 3); } else { NoDigit(t, 3); }
    var a, b, c, d := Nth(t, 0), Nth(t, 1), Nth(t, 2), Nth(t, 3);
    SumFields(a, b, c, d);
    var v := a * 262144 + b * 4096 + c * 64 + d;
    assert Bits(t) == Some(v);
    var g := Group(v);
    assert g[0] == t[0] && g[1] == t[1];
    assert |t| > 2 ==> g[2] == t[2];
    assert |t| > 3 ==> g[3] == t[3];
  }

  // ---------------------------------------------------------------- whole texts

  lemma TailDecodes(s: seq<Byte>)
    requires |s| < 3
    ensures |Tail(s, false)| < 4 && DecodeTail(Tail(s, false)) == Some(s)
  {
    hide Field, Join, Octet, Bits, Group;
    if |s| > 0 {
      var b := if |s| == 2 then s[1] else 0;
      var v := Join(s[0], b, 0);
      OctetsJoin(s[0], b, 0);
      FieldsSum(v);
      GroupLength(v);
      BitsOfGroup(v, |s| + 1);
      TrailingZeros(s[0], b, |s|);
      assert Tail(s, false) == Group(v)[..|s| + 1];
      assert Bits(Tail(s, false)) == Some(v);
      if |s| == 1 { assert s == [s[0]]; } else { assert s == [s[0], s[1]]; }
    }
  }

  /** The fields after the last bit of a short tail are zero. */
  lemma TrailingZeros(a: Byte, b: Byte, n: int)
    requires n == 1 ==> b == 0
    requires n == 1 || n == 2
    ensures var v := Join(a, b, 0);
            && Field(v, 3) == 0 && v % 256 == 0 && (n == 1 ==> Field(v, 2) == 0 && v % 65536 == 0)
  {
    var x, y := a as int, b as int;
    var v := Join(a, b, 0);
    assert v == 64 * (1024 * x + 4 * y) && v == 256 * (256 * x + y);
    Quotient(v, 64, 1024 * x + 4 * y, 0);
    Quotient(v, 256, 256 * x + y, 0);
    if n == 1 {
      Quotient(v, 65536, x, 0);
      Quotient(1024 * x, 64, 16 * x, 0);
    }
  }

  lemma Quotient(n: int, m: int, q: int, r: int)
    requires m == 64 || m == 256 || m == 65536
    requires n == m * q + r && 0 <= r < m
    ensures n / m == q && n % m == r
  {
    if m == 64 {
      assert n / 64 == q;
    } else if m == 256 {
      assert n / 256 == q;
    } else {
      assert n / 65536 == q;
    }
  }

  lemma {:induction false} PlainDecodes(s: seq<Byte>)
    ensures DecodePlain(Encoded(s, false)) == Some(s)
  {
    hide Field, Join, Octet, Bits, Group, Tail, DecodeTail;
    if |s| < 3 {
      TailDecodes(s);
    } else {
      var v := Join(s[0], s[1], s[2]);
      PlainDecodes(s[3..]);
      OctetsJoin(s[0], s[1], s[2]);
      FieldsSum(v);
      BitsOfGroup(v, 4);
      GroupLength(v);
      assert Encoded(s, false)[..4] == Group(v)[..4] && Encoded(s, false)[4..] == Encoded(s[3..], false);
      assert s == [s[0], s[1], s[2]] + s[3..];
    }
  }

  lemma GroupLength(val: int)
    ensures |Group(val)| == 4
  {
  }

  lemma TailEncodes(t: string)
    requires |t| < 4 && DecodeTail(t).Some?
    ensures |DecodeTail(t).value| < 3 && Tail(DecodeTail(t).value, false) == t
  {
    hide Group, Bits, Join, Octet;
    if t != "" {
      GroupOfBits(t);
      var v := Bits(t).value;
      GroupLength(v);
      ShortJoin(v);
    }
  }

  lemma ShortJoin(val: int)
    requires 0 <= val < GroupEnd
    ensures val % 65536 == 0 ==> Join(Octet(val, 0), 0, 0) == val
    ensures val % 256 == 0 ==> Join(Octet(val, 0), Octet(val, 1), 0) == val
  {
    JoinOctets(val);
    if val % 256 == 0 {
      assert Octet(val, 2) == 0;
    }
    if val % 65536 == 0 {
      var q := val / 65536;
      assert val == 256 * (256 * q);
      Quotient(val, 256, 256 * q, 0);
      Quotient(256 * q, 256, q, 0);
      assert Octet(val, 1) == 0;
    }
  }

  lemma {:induction false} PlainEncodes(t: string)
    requires DecodePlain(t).Some?
    ensures Encoded(DecodePlain(t).value, false) == t
  {
    hide Group, Bits, Join, Octet, Tail, DecodeTail;
    if |t| < 4 {
      TailEncodes(t);
    } else {
      PlainEncodes(t[4..]);
      GroupOfBits(t[..4]);
      var v := Bits(t[..4]).value;
      JoinOctets(v);
      GroupLength(v);
      var s, r := DecodePlain(t).value, DecodePlain(t[4..]).value;
      assert s[3..] == r;
      assert t == t[..4] + t[4..];
    }
  }

  lemma {:induction false} Lengths(s: seq<Byte>)
    ensures |Encoded(s, false)| == (4 * |s| + 2) / 3
    ensures |Encoded(s, true)| == (|s| + 2) / 3 * 4
  {
    hide Group;
    if |s| < 3 {
      if |s| > 0 { GroupLength(Join(s[0], if |s| == 2 then s[1] else 0, 0)); }
    } else {
      Lengths(s[3..]);
      GroupLength(Join(s[0], s[1], s[2]));
    }
  }

  lemma {:induction false} PaddedIs(s: seq<Byte>)
    ensures Encoded(s, true) == Encoded(s, false) + Pad(|Encoded(s, false)|)
  {
    hide Group, Join;
    if |s| < 3 {
      if |s| > 0 { GroupLength(Join(s[0], if |s| == 2 then s[1] else 0, 0)); }
    } else {
      PaddedIs(s[3..]);
      var g := Group(Join(s[0], s[1], s[2]));
      GroupLength(Join(s[0], s[1], s[2]));
      assert Pad(|g + Encoded(s[3..], false)|) == Pad(|Encoded(s[3..], false)|);
    }
  }

  /** Plain text never ends in a padding character. */
  lemma {:induction false} NoPadInside(t: string, i: int)
    requires DecodePlain(t).Some? && 0 <= i < |t|
    ensures t[i] != '='
    decreases |t|
  {
    if |t| < 4 {
      assert Value(t[i]).Some?;
    } else if i < 4 {
      assert Value(t[..4][i]).Some?;
    } else {
      NoPadInside(t[4..], i - 4);
    }
  }

  lemma StripsPad(u: string)
    requires DecodePlain(u).Some?
    ensures Stripped(u + Pad(|u|)) == u
  {
    hide DecodePlain;
    if |u| > 0 { NoPadInside(u, |u| - 1); }
    if |u| > 1 { NoPadInside(u, |u| - 2); }
    var t := u + Pad(|u|);
    if |u| % 4 == 2 {
      assert t[|t| - 2] == '=' && t[..|t| - 2] == u;
    } else if |u| % 4 == 3 {
      assert t[|t| - 2] == u[|u| - 1] && t[..|t| - 1] == u;
    }
  }

  /** Encoding and the decoding of section 5 of RFC 4648 are inverse to each other, padded or
      not: a text decodes to s exactly when it is the encoding of s. */
  lemma DecodesExactly(s: seq<Byte>, t: string, padding: bool)
    ensures Decode(t, padding) == Some(s) <==> t == Encoded(s, padding)
  {
    hide Encoded, DecodePlain, Stripped, Pad;
    PlainDecodes(s);
    if padding {
      PaddedIs(s);
      StripsPad(Encoded(s, false));
    }
    if Decode(t, padding).Some? {
      PlainEncodes(if padding then Stripped(t) else t);
    }
  }

  /** The encoder's result: the one text that decodes to its argument, 4 * ceil(n / 3)
      characters with padding and ceil(4 * n / 3) without. */
  lemma EncodesExactly(s: seq<Byte>, padding: bool)
    ensures Decode(Encoded(s, padding), padding) == Some(s)
    ensures |Encoded(s, padding)| == if padding then (|s| + 2) / 3 * 4 else (4 * |s| + 2) / 3
    ensures forall r :: Encoded(r, padding) == Encoded(s, padding) ==> r == s
  {
    DecodesExactly(s, Encoded(s, padding), padding);
    Lengths(s);
    forall r | Encoded(r, padding) == Encoded(s, padding)
      ensures r == s
    {
      DecodesExactly(r, Encoded(s, padding), padding);
    }
  }
}
