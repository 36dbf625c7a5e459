// Well-formed UTF-8, by the grammar in section 4 of RFC 3629. `String::from_utf8`
// accepts exactly these byte strings.

module Utf8 {

  newtype Byte = b: int | 0 <= b < 256
  type Bytes = seq<Byte>

  const NEWLINE: Byte := 0x0A

  predicate IsTail(b: Byte) {
    0x80 <= b <= 0xBF
  }

  // Length of the UTF8-char that starts s, or 0 if none does.
  function CharLength(s: Bytes): (n: nat)
    ensures n <= |s|
    ensures n > 1 ==> forall k :: 0 <= k < n ==> s[k] >= 0x80
  {
    if |s| >= 1 && s[0] <= 0x7F then 1
    else if |s| >= 2 && 0xC2 <= s[0] <= 0xDF && IsTail(s[1]) then 2
    else if |s| >= 3 && IsThreeByteHead(s[0], s[1]) && IsTail(s[2]) then 3
    else if |s| >= 4 && IsFourByteHead(s[0], s[1]) && IsTail(s[2]) && IsTail(s[3]) then 4
    else 0
  }

  predicate IsThreeByteHead(a: Byte, b: Byte) {
    || (a == 0xE0 && 0xA0 <= b <= 0xBF)
    || (0xE1 <= a <= 0xEC && IsTail(b))
    || (a == 0xED && 0x80 <= b <= 0x9F)
    || (0xEE <= a <= 0xEF && IsTail(b))
  }

  predicate IsFourByteHead(a: Byte, b: Byte) {
    || (a == 0xF0 && 0x90 <= b <= 0xBF)
    || (0xF1 <= a <= 0xF3 && IsTail(b))
    || (a == 0xF4 && 0x80 <= b <= 0x8F)
  }

  predicate IsUtf8(s: Bytes) {
    s == [] || (CharLength(s) > 0 && IsUtf8(s[CharLength(s)..]))
  }

  // A newline byte is always a whole character, so cutting after one is safe.
  lemma {:induction false} CutAfterNewline(s: Bytes, i: nat)
    requires IsUtf8(s) && 0 < i <= |s| && s[i - 1] == NEWLINE
    ensures IsUtf8(s[..i]) && IsUtf8(s[i..])
  {
    var n := CharLength(s);
    if i <= n {
      assert s[..1] == [NEWLINE] && s[..1][1..] == [];
    } else {
      var t := s[n..];
      CutAfterNewline(t, i - n);
      assert t[..i - n] == s[..i][n..] && t[i - n..] == s[i..];
      assert CharLength(s[..i]) == n;
    }
  }

  // ---- The encoding (section 3 of RFC 3629) -------------------------------------------------

  predicate IsScalar(cp: nat) {
    cp < 0xD800 || 0xE000 <= cp <= 0x10FFFF
  }

  function ByteOf(n: nat): Byte
    requires n < 256
  {
    n as Byte
  }

  // The low six bits of n, marked as a following byte.
  function Following(n: nat): Byte {
    ByteOf(0x80 + n % 64)
  }

  function Encode(cp: nat): Bytes
    requires IsScalar(cp)
  {
    if cp < 0x80 then [ByteOf(cp)]
    else if cp < 0x800 then [ByteOf(0xC0 + cp / 64), Following(cp)]
    else if cp < 0x1_0000 then [ByteOf(0xE0 + cp / 4096), Following(cp / 64), Following(cp)]
    else [ByteOf(0xF0 + cp / 262144), Following(cp / 4096), Following(cp / 64), Following(cp)]
  }

  predicate AllScalar(text: seq<nat>) {
    forall i :: 0 <= i < |text| ==> IsScalar(text[i])
  }

  function EncodeAll(text: seq<nat>): Bytes
    requires AllScalar(text)
  {
    if text == [] then [] else Encode(text[0]) + EncodeAll(text[1..])
  }

  // A number and its digits to the base 64.
  lemma Digits2(a: nat, b: nat)
    requires b < 64
    ensures (a * 64 + b) / 64 == a && (a * 64 + b) % 64 == b
  {
  }

  lemma Digits3(a: nat, b: nat, c: nat)
    requires b < 64 && c < 64
    ensures
      var n := a * 4096 + b * 64 + c;
      n / 64 == a * 64 + b && n % 64 == c && (n / 64) % 64 == b && n / 4096 == a
  {
    Digits2(a * 64 + b, c);
    Digits2(a, b);
  }

  lemma Digits4(a: nat, b: nat, c: nat, d: nat)
    requires b < 64 && c < 64 && d < 64
    ensures
      var n := a * 262144 + b * 4096 + c * 64 + d;
      n % 64 == d && (n / 64) % 64 == c && (n / 4096) % 64 == b && n / 262144 == a
  {
    var n := a * 262144 + b * 4096 + c * 64 + d;
    Digits3(a * 64 + b, c, d);
    Digits2(a, b);
    assert n / 262144 == (n / 4096) / 64;
  }

  lemma EncodedIsChar(cp: nat, rest: Bytes)
    requires IsScalar(cp)
    ensures CharLength(Encode(cp) + rest) == |Encode(cp)|
  {
    if 0x80 <= cp < 0x800 {
      Encoded2(cp, rest);
    } else if 0x800 <= cp < 0x1_0000 {
      Encoded3(cp, rest);
    } else if cp >= 0x1_0000 {
      Encoded4(cp, rest);
    }
  }

  lemma Encoded2(cp: nat, rest: Bytes)
    requires 0x80 <= cp < 0x800
    ensures CharLength(Encode(cp) + rest) == 2
  {
    var s := Encode(cp) + rest;
    assert s[0] == Encode(cp)[0] && s[1] == Encode(cp)[1];
  }

  lemma Encoded3(cp: nat, rest: Bytes)
    requires 0x800 <= cp < 0x1_0000 && IsScalar(cp)
    ensures CharLength(Encode(cp) + rest) == 3
  {
    var s := Encode(cp) + rest;
    var a, b, c := cp / 4096, (cp / 64) % 64, cp % 64;
    assert cp == a * 4096 + b * 64 + c;
    assert s[0] as int == 0xE0 + a && s[1] as int == 0x80 + b && s[2] as int == 0x80 + c;
  }

  lemma FourBytes(a: nat, b: nat, c: nat, d: nat, rest: Bytes)
    requires b < 64 && c < 64 && d < 64 && 0x1_0000 <= a * 262144 + b * 4096 + c * 64 + d <= 0x10FFFF
    ensures a <= 4
    ensures CharLength([ByteOf(0xF0 + a), ByteOf(0x80 + b), ByteOf(0x80 + c), ByteOf(0x80 + d)] + rest) == 4
  {
    var s := [ByteOf(0xF0 + a), ByteOf(0x80 + b), ByteOf(0x80 + c), ByteOf(0x80 + d)] + rest;
    assert s[0] as int == 0xF0 + a && s[1] as int == 0x80 + b && s[2] as int == 0x80 + c && s[3] as int == 0x80 + d;
  }

  lemma Encoded4(cp: nat, rest: Bytes)
    requires 0x1_0000 <= cp && IsScalar(cp)
    ensures CharLength(Encode(cp) + rest) == 4
  {
    hide CharLength;
    var a, b, c, d := cp / 262144, (cp / 4096) % 64, (cp / 64) % 64, cp % 64;
    Quotients(cp);
    FourBytes(a, b, c, d, rest);
  }

  lemma Quotients(n: nat)
    ensures n == (n / 262144) * 262144 + ((n / 4096) % 64) * 4096 + ((n / 64) % 64) * 64 + n % 64
  {
    var x, y := n / 64, n / 4096;
    assert n == x * 64 + n % 64;
    assert y == x / 64 && x == y * 64 + x % 64;
    assert n / 262144 == y / 64 && y == (y / 64) * 64 + y % 64;
  }

  // The number that the bits of a character make.
  function Decode(s: Bytes): nat
    requires CharLength(s) > 0
  {
    match CharLength(s)
    case 1 => s[0] as nat
    case 2 => (s[0] as nat - 0xC0) * 64 + (s[1] as nat - 0x80)
    case 3 => (s[0] as nat - 0xE0) * 4096 + (s[1] as nat - 0x80) * 64 + (s[2] as nat - 0x80)
    case _ =>
      (s[0] as nat - 0xF0) * 262144 + (s[1] as nat - 0x80) * 4096 + (s[2] as nat - 0x80) * 64 + (s[3] as nat - 0x80)
  }

  lemma CharIsEncoded(s: Bytes)
    requires CharLength(s) > 0
    ensures IsScalar(Decode(s)) && Encode(Decode(s)) == s[..CharLength(s)]
  {
    match CharLength(s)
    case 1 =>
    case 2 => Digits2(s[0] as nat - 0xC0, s[1] as nat - 0x80);
    case 3 => Char3(s);
    case _ => Char4(s);
  }

  lemma Char3(s: Bytes)
    requires CharLength(s) == 3
    ensures IsScalar(Decode(s)) && Encode(Decode(s)) == s[..3]
  {
    var a, b, c := s[0] as nat - 0xE0, s[1] as nat - 0x80, s[2] as nat - 0x80;
    Digits3(a, b, c);
    var cp := a * 4096 + b * 64 + c;
    assert 0x800 <= cp < 0x1_0000 && IsScalar(cp);
    assert Encode(cp) == [ByteOf(0xE0 + a), ByteOf(0x80 + b), ByteOf(0x80 + c)];
  }

  lemma Char4(s: Bytes)
    requires CharLength(s) == 4
    ensures IsScalar(Decode(s)) && Encode(Decode(s)) == s[..4]
  {
    var a, b, c, d := s[0] as nat - 0xF0, s[1] as nat - 0x80, s[2] as nat - 0x80, s[3] as nat - 0x80;
    Digits4(a, b, c, d);
    var cp := a * 262144 + b * 4096 + c * 64 + d;
    assert 0x1_0000 <= cp && IsScalar(cp);
    assert Encode(cp) == [ByteOf(0xF0 + a), ByteOf(0x80 + b), ByteOf(0x80 + c), ByteOf(0x80 + d)];
  }

  // Valid UTF-8 is what encoding a text of scalar values gives, and nothing else.
  lemma Utf8Exactly(s: Bytes)
    ensures IsUtf8(s) <==> exists text :: AllScalar(text) && EncodeAll(text) == s
  {
    if IsUtf8(s) {
      var text := TextOf(s);
      assert AllScalar(text) && EncodeAll(text) == s;
    }
    if text :| AllScalar(text) && EncodeAll(text) == s {
      EncodedIsUtf8(text);
    }
  }

  lemma {:induction false} TextOf(s: Bytes) returns (text: seq<nat>)
    requires IsUtf8(s)
    ensures AllScalar(text) && EncodeAll(text) == s
    decreases |s|
  {
    if s == [] {
      text := [];
    } else {
      CharIsEncoded(s);
      var rest := TextOf(s[CharLength(s)..]);
      text := [Decode(s)] + rest;
      assert text[1..] == rest;
      assert s == s[..CharLength(s)] + s[CharLength(s)..];
    }
  }

  lemma {:induction false} EncodedIsUtf8(text: seq<nat>)
    requires AllScalar(text)
    ensures IsUtf8(EncodeAll(text))
  {
    if text != [] {
      EncodedIsUtf8(text[1..]);
      var first, rest := Encode(text[0]), EncodeAll(text[1..]);
      EncodedIsChar(text[0], rest);
      assert (first + rest)[|first|..] == rest;
    }
  }
}
