/** UTF-8 as RFC 3629 defines it: the encoding table of section 3 and the
    syntax of well-formed byte sequences of section 4. The lexer decodes its
    input with these, and `std::str::from_utf8` is specified by `FromUtf8`. */
module Utf8 {
  import opened Wrappers

  /** An octet as the reader delivers it (`u8`). */
  type byte = b: int | 0 <= b < 0x100

  /** A continuation byte (`UTF8-tail`, 10xxxxxx). */
  predicate IsTail(b: byte) {
    0x80 <= b <= 0xBF
  }

  /** Section 4 of RFC 3629: `s` is exactly one well-formed character
      (`UTF8-1` to `UTF8-4`). */
  predicate IsUtf8Char(s: seq<byte>) {
    if |s| == 1 then
      s[0] <= 0x7F
    else if |s| == 2 then
      0xC2 <= s[0] <= 0xDF && IsTail(s[1])
    else if |s| == 3 then
      IsTail(s[1]) && IsTail(s[2]) &&
      ((s[0] == 0xE0 && 0xA0 <= s[1]) || (0xE1 <= s[0] <= 0xEC) ||
       (s[0] == 0xED && s[1] <= 0x9F) || (0xEE <= s[0] <= 0xEF))
    else if |s| == 4 then
      IsTail(s[1]) && IsTail(s[2]) && IsTail(s[3]) &&
      ((s[0] == 0xF0 && 0x90 <= s[1]) || (0xF1 <= s[0] <= 0xF3) ||
       (s[0] == 0xF4 && s[1] <= 0x8F))
    else
      false
  }

  /** The length of the character a byte starts, by section 4 of RFC 3629;
      0 for a byte no well-formed character starts with. */
  function SequenceLength(b: byte): (n: nat)
    ensures n <= 4
  {
    if b <= 0x7F then 1
    else if 0xC2 <= b <= 0xDF then 2
    else if 0xE0 <= b <= 0xEF then 3
    else if 0xF0 <= b <= 0xF4 then 4
    else 0
  }

  /** The payload bits of a continuation byte. */
  function TailBits(b: byte): (v: nat)
    requires IsTail(b)
    ensures v < 64
  {
    b - 0x80
  }

  /** A Unicode scalar value: a code point that is not a surrogate. */
  predicate IsScalar(v: int) {
    0 <= v < 0xD800 || 0xE000 <= v <= 0x10FFFF
  }

  /** The number a well-formed sequence denotes (the `x` bits of the table
      in section 3 of RFC 3629, read from left to right). Each length covers
      its own range of the table, so the encoding is the shortest one. */
  function ScalarValue(s: seq<byte>): (v: int)
    requires IsUtf8Char(s)
    ensures IsScalar(v)
    ensures |s| == 1 ==> v < 0x80
    ensures |s| == 2 ==> 0x80 <= v < 0x800
    ensures |s| == 3 ==> 0x800 <= v < 0x10000
    ensures |s| == 4 ==> 0x10000 <= v <= 0x10FFFF
  {
    if |s| == 1 then s[0]
    else if |s| == 2 then (s[0] - 0xC0) * 64 + TailBits(s[1])
    else if |s| == 3 then (s[0] - 0xE0) * 4096 + TailBits(s[1]) * 64 + TailBits(s[2])
    else (s[0] - 0xF0) * 262144 + TailBits(s[1]) * 4096 + TailBits(s[2]) * 64 + TailBits(s[3])
  }

  /** The character a well-formed sequence denotes. */
  function CharValue(s: seq<byte>): (c: char)
    requires IsUtf8Char(s)
    ensures SequenceLength(s[0]) == |s|
  {
    ScalarValue(s) as char
  }

  /** Division by a positive constant recovers quotient and remainder. */
  lemma DivMod(q: int, r: int, m: int)
    requires m == 64 || m == 4096 || m == 262144
    requires 0 <= r < m
    ensures (q * m + r) / m == q && (q * m + r) % m == r
  {
  }

  /** The continuation byte carrying bits `k` to `k + 5` of `v`. */
  function Tail(v: nat, k: nat): (b: byte)
    requires k == 1 || k == 64 || k == 4096
    ensures IsTail(b)
  {
    0x80 + (v / k) % 64
  }

  /** Section 3 of RFC 3629: the shortest sequence for `c`. */
  function Encode(c: char): (s: seq<byte>)
    ensures IsUtf8Char(s)
    ensures CharValue(s) == c
  {
    var v := c as int;
    if v < 0x80 then
      [v]
    else if v < 0x800 then
      EncodeTwo(v); [0xC0 + v / 64, Tail(v, 1)]
    else if v < 0x10000 then
      EncodeThree(v); [0xE0 + v / 4096, Tail(v, 64), Tail(v, 1)]
    else
      EncodeFour(v); [0xF0 + v / 262144, Tail(v, 4096), Tail(v, 64), Tail(v, 1)]
  }

  lemma EncodeTwo(v: int)
    requires 0x80 <= v < 0x800
    ensures IsUtf8Char([0xC0 + v / 64, Tail(v, 1)])
    ensures ScalarValue([0xC0 + v / 64, Tail(v, 1)]) == v
  {
    var s: seq<byte> := [0xC0 + v / 64, Tail(v, 1)];
    assert v == (v / 64) * 64 + v % 64;
  }

  lemma EncodeThree(v: int)
    requires 0x800 <= v < 0x10000 && IsScalar(v)
    ensures IsUtf8Char([0xE0 + v / 4096, Tail(v, 64), Tail(v, 1)])
    ensures ScalarValue([0xE0 + v / 4096, Tail(v, 64), Tail(v, 1)]) == v
  {
    var a, b, c := v / 4096, (v / 64) % 64, v % 64;
    assert v / 64 == a * 64 + b;
    assert v == (v / 64) * 64 + c;
    assert v == a * 4096 + b * 64 + c;
  }

  lemma EncodeFour(v: int)
    requires 0x10000 <= v <= 0x10FFFF
    ensures IsUtf8Char([0xF0 + v / 262144, Tail(v, 4096), Tail(v, 64), Tail(v, 1)])
    ensures ScalarValue([0xF0 + v / 262144, Tail(v, 4096), Tail(v, 64), Tail(v, 1)]) == v
  {
    var a, b, c, d := v / 262144, (v / 4096) % 64, (v / 64) % 64, v % 64;
    assert v / 4096 == a * 64 + b;
    assert v / 64 == (v / 4096) * 64 + c;
    assert v == (v / 64) * 64 + d;
    assert v == a * 262144 + b * 4096 + c * 64 + d;
  }

  /** Every well-formed sequence is the encoding of the character it denotes:
      no character has two encodings. */
  lemma EncodeCharValue(s: seq<byte>)
    requires IsUtf8Char(s)
    ensures Encode(CharValue(s)) == s
  {
    if |s| == 2 {
      EncodeCharValueTwo(s);
    } else if |s| == 3 {
      EncodeCharValueThree(s);
    } else if |s| == 4 {
      EncodeCharValueFour(s);
    }
  }

  lemma EncodeCharValueTwo(s: seq<byte>)
    requires |s| == 2 && IsUtf8Char(s)
    ensures Encode(CharValue(s)) == s
  {
    var v := ScalarValue(s);
    DivMod(s[0] - 0xC0, TailBits(s[1]), 64);
    assert Encode(CharValue(s)) == [0xC0 + v / 64, Tail(v, 1)];
  }

  /** Base-64 digits of a three-digit number. */
  lemma ThreeDigits(v: int, a: int, b: int, c: int)
    requires 0 <= a < 16 && 0 <= b < 64 && 0 <= c < 64
    requires v == a * 4096 + b * 64 + c
    ensures v / 4096 == a && (v / 64) % 64 == b && v % 64 == c
  {
    assert v == (a * 64 + b) * 64 + c;
    DivMod(a * 64 + b, c, 64);
    DivMod(a, b, 64);
    DivMod(a, b * 64 + c, 4096);
  }

  /** Base-64 digits of a four-digit number. */
  lemma FourDigits(v: int, a: int, b: int, c: int, d: int)
    requires 0 <= a < 8 && 0 <= b < 64 && 0 <= c < 64 && 0 <= d < 64
    requires v == a * 262144 + b * 4096 + c * 64 + d
    ensures v / 262144 == a && (v / 4096) % 64 == b && (v / 64) % 64 == c && v % 64 == d
  {
    assert v == ((a * 64 + b) * 64 + c) * 64 + d;
    DivMod((a * 64 + b) * 64 + c, d, 64);
    DivMod(a * 64 + b, c, 64);
    DivMod(a, b, 64);
    assert v == (a * 64 + b) * 4096 + (c * 64 + d);
    DivMod(a * 64 + b, c * 64 + d, 4096);
    assert v == a * 262144 + ((b * 64 + c) * 64 + d);
    DivMod(a, (b * 64 + c) * 64 + d, 262144);
  }

  lemma EncodeCharValueThree(s: seq<byte>)
    requires |s| == 3 && IsUtf8Char(s)
    ensures Encode(CharValue(s)) == s
  {
    var v := ScalarValue(s);
    var a: int, b: int, c: int := s[0] - 0xE0, TailBits(s[1]), TailBits(s[2]);
    assert v == a * 4096 + b * 64 + c;
    ThreeDigits(v, a, b, c);
    var ch := CharValue(s);
    assert ch as int == v && 0x800 <= v < 0x10000;
    var e := Encode(ch);
    assert e == [0xE0 + v / 4096, Tail(v, 64), Tail(v, 1)];
    assert e[0] == s[0] && e[1] == s[1] && e[2] == s[2];
  }

  lemma EncodeCharValueFour(s: seq<byte>)
    requires |s| == 4 && IsUtf8Char(s)
    ensures Encode(CharValue(s)) == s
  {
    var v := ScalarValue(s);
    var a: int, b: int, c: int, d: int := s[0] - 0xF0, TailBits(s[1]), TailBits(s[2]), TailBits(s[3]);
    assert v == a * 262144 + b * 4096 + c * 64 + d;
    FourDigits(v, a, b, c, d);
    var ch := CharValue(s);
    assert ch as int == v && v >= 0x10000;
    var e := Encode(ch);
    assert e == [0xF0 + v / 262144, Tail(v, 4096), Tail(v, 64), Tail(v, 1)];
    assert e[0] == s[0] && e[1] == s[1] && e[2] == s[2] && e[3] == s[3];
  }

  /** The concatenated encodings of a string. */
  function EncodeString(cs: string): (s: seq<byte>)
    ensures |s| >= |cs|
  {
    if cs == [] then [] else Encode(cs[0]) + EncodeString(cs[1..])
  }

  /** `std::str::from_utf8`: the whole slice must be a sequence of
      well-formed characters; it is then read as a string. */
  function FromUtf8(s: seq<byte>): (r: Option<string>)
    ensures r.Some? ==> |r.value| <= |s|
    ensures r.Some? && s != [] ==> |r.value| >= 1
    decreases |s|
  {
    if s == [] then Some([])
    else
      var n := SequenceLength(s[0]);
      if n == 0 || n > |s| || !IsUtf8Char(s[..n]) then None
      else match FromUtf8(s[n..])
        case None => None
        case Some(rest) => Some([CharValue(s[..n])] + rest)
  }

  /** Decoding inverts encoding. */
  lemma {:induction false} FromUtf8EncodeString(cs: string)
    ensures FromUtf8(EncodeString(cs)) == Some(cs)
    decreases |cs|
  {
    if cs != [] {
      var e, s := Encode(cs[0]), EncodeString(cs);
      assert s[..|e|] == e && s[|e|..] == EncodeString(cs[1..]);
      FromUtf8EncodeString(cs[1..]);
      assert [cs[0]] + cs[1..] == cs;
    }
  }

  /** And only encodings decode: a slice `from_utf8` accepts is the encoding
      of the string it yields. */
  lemma {:induction false} EncodeStringFromUtf8(s: seq<byte>)
    requires FromUtf8(s).Some?
    ensures EncodeString(FromUtf8(s).value) == s
    decreases |s|
  {
    if s != [] {
      var n := SequenceLength(s[0]);
      FromUtf8Step(s);
      var c, rest := CharValue(s[..n]), FromUtf8(s[n..]).value;
      EncodeStringFromUtf8(s[n..]);
      EncodeCharValue(s[..n]);
      EncodeStringCons(c, rest);
      assert s[..n] + s[n..] == s;
    }
  }

  /** One step of `FromUtf8` on a slice it accepts. */
  lemma FromUtf8Step(s: seq<byte>)
    requires s != [] && FromUtf8(s).Some?
    ensures 1 <= SequenceLength(s[0]) <= |s|
    ensures IsUtf8Char(s[..SequenceLength(s[0])])
    ensures FromUtf8(s[SequenceLength(s[0])..]).Some?
    ensures FromUtf8(s).value
         == [CharValue(s[..SequenceLength(s[0])])] + FromUtf8(s[SequenceLength(s[0])..]).value
  {
  }

  lemma EncodeStringCons(c: char, rest: string)
    ensures EncodeString([c] + rest) == Encode(c) + EncodeString(rest)
  {
    assert ([c] + rest)[0] == c && ([c] + rest)[1..] == rest;
  }

  /** A slice holding exactly one well-formed character decodes to it. */
  lemma FromUtf8Single(s: seq<byte>)
    requires IsUtf8Char(s)
    ensures FromUtf8(s) == Some([CharValue(s)])
  {
    var n := SequenceLength(s[0]);
    assert n == |s| && s[..n] == s;
    assert s[n..] == [];
    assert FromUtf8(s[n..]) == Some([]);
    assert [CharValue(s[..n])] + [] == [CharValue(s)];
  }

  /** A slice whose first byte announces exactly its length decodes iff it is
      one well-formed character. */
  lemma FromUtf8AnnouncedLength(s: seq<byte>)
    requires |s| >= 1 && SequenceLength(s[0]) == |s|
    ensures FromUtf8(s).Some? <==> IsUtf8Char(s)
    ensures IsUtf8Char(s) ==> FromUtf8(s) == Some([CharValue(s)])
  {
    assert s[..|s|] == s;
    if IsUtf8Char(s) {
      FromUtf8Single(s);
    }
  }
}
