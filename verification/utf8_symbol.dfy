/**
  The symbol validator: strict UTF-8 without blanks and control characters.

  Source: src/config.cpp, lines 30-94. The encoding is that of sections 3 and 4
  of RFC 3629.
 */
module Utf8Symbol {

  newtype byte = b: int | 0 <= b < 256

  /** A Unicode scalar value. */
  predicate Scalar(v: int) {
    0 <= v < 0xD800 || 0xE000 <= v <= 0x10FFFF
  }

  /** What a symbol may contain. */
  predicate Allowed(v: int) {
    Scalar(v) && v > 0x20 && v != 0x7F
  }

  function Trail(v: nat): byte {
    (0x80 + v % 64) as byte
  }

  /** Section 3 of RFC 3629. */
  function Encode(v: int): (e: seq<byte>)
    requires Scalar(v)
    ensures 1 <= |e| <= 4
  {
    if v < 0x80 then [v as byte]
    else if v < 0x800 then [(0xC0 + v / 64) as byte, Trail(v)]
    else if v < 0x10000 then [(0xE0 + v / 4096) as byte, Trail(v / 64), Trail(v)]
    else [(0xF0 + v / 262144) as byte, Trail(v / 4096), Trail(v / 64), Trail(v)]
  }

  function EncodeAll(vs: seq<int>): seq<byte>
    requires forall i | 0 <= i < |vs| :: Scalar(vs[i])
  {
    if vs == [] then [] else Encode(vs[0]) + EncodeAll(vs[1..])
  }

  predicate Continuation(b: byte) {
    0x80 <= b <= 0xBF
  }

  function Low(b: byte): int {
    b as int - 0x80
  }

  datatype Head = Malformed | Decoded(scalar: int, length: nat)

  /** The scalar whose encoding starts `s`, by the byte ranges of section 4 of RFC 3629. */
  function FirstScalar(s: seq<byte>): (h: Head)
    requires s != []
    ensures h.Decoded? ==> Scalar(h.scalar) && 1 <= h.length <= |s|
  {
    var lead := s[0];
    if lead <= 0x7F then Decoded(lead as int, 1)
    else if 0xC2 <= lead <= 0xDF then
      if 2 <= |s| && Continuation(s[1]) then Decoded((lead as int - 0xC0) * 64 + Low(s[1]), 2) else Malformed
    else if 0xE0 <= lead <= 0xEF then
      if 3 <= |s| && Continuation(s[1]) && Continuation(s[2])
         && (lead == 0xE0 ==> 0xA0 <= s[1]) && (lead == 0xED ==> s[1] < 0xA0)
      then Decoded((lead as int - 0xE0) * 4096 + Low(s[1]) * 64 + Low(s[2]), 3) else Malformed
    else if 0xF0 <= lead <= 0xF4 then
      if 4 <= |s| && Continuation(s[1]) && Continuation(s[2]) && Continuation(s[3])
         && (lead == 0xF0 ==> 0x90 <= s[1]) && (lead == 0xF4 ==> s[1] <= 0x8F)
      then Decoded((lead as int - 0xF0) * 262144 + Low(s[1]) * 4096 + Low(s[2]) * 64 + Low(s[3]), 4) else Malformed
    else Malformed
  }

  /** Decoding inverts encoding, whatever follows. */
  lemma DecodesEncoding(v: int, rest: seq<byte>)
    requires Scalar(v)
    ensures FirstScalar(Encode(v) + rest) == Decoded(v, |Encode(v)|)
  {
    if v < 0x80 {
    } else if v < 0x800 {
      assert v == v / 64 * 64 + v % 64;
    } else if v < 0x10000 {
      DecodesThree(v, rest);
    } else {
      DecodesFour(v, rest);
    }
  }

  lemma DecodesThree(v: int, rest: seq<byte>)
    requires Scalar(v) && 0x800 <= v < 0x10000
    ensures FirstScalar(Encode(v) + rest) == Decoded(v, 3)
  {
    DivideTwice(v);
    var a, b, c := v / 64 / 64, v / 64 % 64, v % 64;
    assert v == (a * 64 + b) * 64 + c;
    var s := Encode(v) + rest;
    assert s[0] as int == 0xE0 + a && Low(s[1]) == b && Low(s[2]) == c;
  }

  lemma DecodesFour(v: int, rest: seq<byte>)
    requires Scalar(v) && 0x10000 <= v
    ensures FirstScalar(Encode(v) + rest) == Decoded(v, 4)
  {
    DivideTwice(v);
    var a, b, c, d := v / 64 / 64 / 64, v / 64 / 64 % 64, v / 64 % 64, v % 64;
    assert v == ((a * 64 + b) * 64 + c) * 64 + d;
    var s := Encode(v) + rest;
    assert s[0] as int == 0xF0 + a && Low(s[1]) == b && Low(s[2]) == c && Low(s[3]) == d;
  }

  lemma SplitDigit(q: nat, r: nat)
    requires r < 64
    ensures (q * 64 + r) / 64 == q && (q * 64 + r) % 64 == r
  {
  }

  lemma DivideTwice(v: nat)
    ensures v / 4096 == v / 64 / 64 && v / 262144 == v / 64 / 64 / 64
  {
  }

  /** What is decoded is encoded at the front. */
  lemma EncodesDecoding(s: seq<byte>)
    requires s != [] && FirstScalar(s).Decoded?
    ensures Encode(FirstScalar(s).scalar) == s[..FirstScalar(s).length]
  {
    var lead := s[0];
    if lead <= 0x7F {
    } else if lead <= 0xDF {
      SplitDigit(lead as int - 0xC0, Low(s[1]));
    } else if lead <= 0xEF {
      EncodesThree(s);
    } else {
      EncodesFour(s);
    }
  }

  lemma EncodesThree(s: seq<byte>)
    requires s != [] && FirstScalar(s).Decoded? && 0xE0 <= s[0] <= 0xEF
    ensures Encode(FirstScalar(s).scalar) == s[..3]
  {
    var v := FirstScalar(s).scalar;
    var a, b, c := s[0] as int - 0xE0, Low(s[1]), Low(s[2]);
    assert v == (a * 64 + b) * 64 + c;
    SplitDigit(a * 64 + b, c);
    SplitDigit(a, b);
    DivideTwice(v);
    assert 0x800 <= v < 0x10000;
    assert Trail(v) == s[2] && Trail(v / 64) == s[1];
  }

  lemma EncodesFour(s: seq<byte>)
    requires s != [] && FirstScalar(s).Decoded? && 0xF0 <= s[0] <= 0xF4
    ensures Encode(FirstScalar(s).scalar) == s[..4]
  {
    var v := FirstScalar(s).scalar;
    var a, b, c, d := s[0] as int - 0xF0, Low(s[1]), Low(s[2]), Low(s[3]);
    assert v == ((a * 64 + b) * 64 + c) * 64 + d;
    SplitDigit((a * 64 + b) * 64 + c, d);
    SplitDigit(a * 64 + b, c);
    SplitDigit(a, b);
    DivideTwice(v);
    assert 0x10000 <= v;
    assert Trail(v) == s[3] && Trail(v / 64) == s[2] && Trail(v / 4096) == s[1];
  }

  ghost predicate Encodes(vs: seq<int>, s: seq<byte>) {
    (forall i | 0 <= i < |vs| :: Allowed(vs[i])) && EncodeAll(vs) == s
  }

  /** `s` is the encoding of some sequence of allowed scalars. */
  ghost predicate Acceptable(s: seq<byte>) {
    exists vs: seq<int> :: Encodes(vs, s)
  }

  /** Acceptance looks at the first scalar, then at the rest. */
  lemma AcceptableStep(s: seq<byte>)
    requires s != []
    ensures var h := FirstScalar(s);
            Acceptable(s) <==> h.Decoded? && Allowed(h.scalar) && Acceptable(s[h.length..])
  {
    var h := FirstScalar(s);
    if Acceptable(s) {
      var vs: seq<int> :| Encodes(vs, s);
      DecodesEncoding(vs[0], EncodeAll(vs[1..]));
      assert s[h.length..] == EncodeAll(vs[1..]);
      assert Encodes(vs[1..], s[h.length..]);
    }
    if h.Decoded? && Allowed(h.scalar) && Acceptable(s[h.length..]) {
      var vs: seq<int> :| Encodes(vs, s[h.length..]);
      EncodesDecoding(s);
      assert ([h.scalar] + vs)[1..] == vs;
      assert Encodes([h.scalar] + vs, s);
    }
  }

  /** Two sequences with the same encoding are the same. */
  lemma {:induction false} EncodingIsUnique(vs: seq<int>, ws: seq<int>)
    requires forall i | 0 <= i < |vs| :: Scalar(vs[i])
    requires forall i | 0 <= i < |ws| :: Scalar(ws[i])
    requires EncodeAll(vs) == EncodeAll(ws)
    ensures vs == ws
    decreases |vs|
  {
    if vs != [] && ws != [] {
      DecodesEncoding(vs[0], EncodeAll(vs[1..]));
      DecodesEncoding(ws[0], EncodeAll(ws[1..]));
      assert EncodeAll(vs[1..]) == EncodeAll(vs)[|Encode(vs[0])|..];
      assert EncodeAll(ws[1..]) == EncodeAll(ws)[|Encode(ws[0])|..];
      EncodingIsUnique(vs[1..], ws[1..]);
      assert vs == [vs[0]] + vs[1..] && ws == [ws[0]] + ws[1..];
    }
  }

  /**
    The validator accepts exactly the encodings of non-empty sequences of
    allowed scalars; by EncodingIsUnique that sequence is the only one.
   */
  method ValidSymbol(value: seq<byte>) returns (ok: bool)
    ensures ok <==> exists vs: seq<int> :: vs != [] && Encodes(vs, value)
  {
    NonEmptyExactly(value);
    if value == [] {
      return false;
    }
    var offset := 0;
    while offset < |value|
      invariant 0 <= offset <= |value|
      invariant Acceptable(value) <==> Acceptable(value[offset..])
      decreases |value| - offset
    {
      AcceptableStep(value[offset..]);
      var lead := value[offset];
      if lead <= 0x7F {
        if lead <= 0x20 || lead == 0x7F {
          return false;
        }
        assert value[offset..][1..] == value[offset + 1..];
        offset := offset + 1;
        continue;
      }
      if lead >= 0xC2 && lead <= 0xDF {
        if offset + 1 >= |value| || !Continuation(value[offset + 1]) {
          return false;
        }
        assert value[offset..][2..] == value[offset + 2..];
        offset := offset + 2;
        continue;
      }
      if lead >= 0xE0 && lead <= 0xEF {
        if offset + 2 >= |value| {
          return false;
        }
        var second, third := value[offset + 1], value[offset + 2];
        if !Continuation(third) || (lead == 0xE0 && second < 0xA0) || (lead == 0xED && second >= 0xA0)
           || !Continuation(second) {
          return false;
        }
        assert value[offset..][3..] == value[offset + 3..];
        offset := offset + 3;
        continue;
      }
      if lead >= 0xF0 && lead <= 0xF4 {
        if offset + 3 >= |value| {
          return false;
        }
        var second, third, fourth := value[offset + 1], value[offset + 2], value[offset + 3];
        if !Continuation(third) || !Continuation(fourth) || (lead == 0xF0 && second < 0x90)
           || (lead == 0xF4 && second > 0x8F) || !Continuation(second) {
          return false;
        }
        assert value[offset..][4..] == value[offset + 4..];
        offset := offset + 4;
        continue;
      }
      return false;
    }
    assert Encodes([], []);
    assert value[offset..] == [];
    ok := true;
  }

  lemma NonEmptyExactly(value: seq<byte>)
    ensures (exists vs: seq<int> :: vs != [] && Encodes(vs, value)) <==> value != [] && Acceptable(value)
  {
    forall vs: seq<int> | Encodes(vs, value) ensures vs == [] <==> value == [] {
      if vs != [] {
        assert |EncodeAll(vs)| >= |Encode(vs[0])|;
      }
    }
  }
}
