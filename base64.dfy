/**
 * The basic Base64 alphabet of section 4 of RFC 4648, decoded the way
 * `java.util.Base64.getDecoder().decode(String)` does it, and the padded encoding that
 * `java.util.Base64.getEncoder()` produces.
 *
 * The Java decoder takes each group of four alphabet characters as three bytes. The last
 * group may hold two or three characters, with or without its `=` padding. It throws on a
 * character outside the alphabet, on a lone final character, on wrong padding and on
 * anything after the padding. It does not check that the unused low bits of a short last
 * group are zero.
 */
module Base64 {
  import opened Wrappers

  newtype byte = x: int | 0 <= x < 256

  /** A six-bit value, the index of a character of the alphabet. */
  type Sextet = x: int | 0 <= x < 64

  const PAD: char := '='

  /** Table 1 of RFC 4648: index to character. */
  function AlphabetChar(v: Sextet): char {
    if v < 26 then ('A' as int + v) as char
    else if v < 52 then ('a' as int + (v - 26)) as char
    else if v < 62 then ('0' as int + (v - 52)) as char
    else if v == 62 then '+'
    else '/'
  }

  /** Table 1 of RFC 4648 read backwards; `None` for a character outside the alphabet. */
  function SextetOf(c: char): Option<Sextet> {
    if 'A' <= c <= 'Z' then Some(c as int - 'A' as int)
    else if 'a' <= c <= 'z' then Some(c as int - 'a' as int + 26)
    else if '0' <= c <= '9' then Some(c as int - '0' as int + 52)
    else if c == '+' then Some(62)
    else if c == '/' then Some(63)
    else None
  }

  predicate InAlphabet(c: char) {
    SextetOf(c).Some?
  }

  function Val(c: char): Sextet
    requires InAlphabet(c)
  {
    SextetOf(c).value
  }

  /** The alphabet is a bijection between the 64 indices and 64 characters, none of
      which is the padding character. */
  lemma AlphabetBijection(v: Sextet, c: char)
    ensures SextetOf(AlphabetChar(v)) == Some(v)
    ensures InAlphabet(c) ==> AlphabetChar(Val(c)) == c
    ensures !InAlphabet(PAD)
  {
  }

  /** The three bytes held in four sextets a b c d, as the Java decoder assembles them
      from the 24-bit group `a << 18 | b << 12 | c << 6 | d`. */
  function Byte0(a: Sextet, b: Sextet): byte { (a * 4 + b / 16) as byte }
  function Byte1(b: Sextet, c: Sextet): byte { ((b % 16) * 16 + c / 4) as byte }
  function Byte2(c: Sextet, d: Sextet): byte { ((c % 4) * 64 + d) as byte }

  /** `Base64.getDecoder().decode(s)`: `None` where Java throws
      `IllegalArgumentException`. */
  function Decode(s: string): (r: Option<seq<byte>>)
    ensures r.Some? ==> |s| % 4 != 1
    ensures r.Some? && |s| > 0 ==> |r.value| > 0
    decreases |s|
  {
    if |s| == 0 then Some([])
    else if |s| >= 4 && InAlphabet(s[0]) && InAlphabet(s[1]) && InAlphabet(s[2]) && InAlphabet(s[3]) then
      assert |s[4..]| % 4 == |s| % 4;
      match Decode(s[4..])
      case None => None
      case Some(rest) =>
        Some([Byte0(Val(s[0]), Val(s[1])), Byte1(Val(s[1]), Val(s[2])), Byte2(Val(s[2]), Val(s[3]))] + rest)
    else DecodeLastUnit(s)
  }

  /** The last unit, when it is not four alphabet characters: "xx", "xx==", "xxx" or
      "xxx=" and nothing after it. Everything else is an error: a lone "x", "=" where a
      unit starts, "x=", "xx=" without its second "=", a foreign character, or any
      character after the padding. */
  function DecodeLastUnit(u: string): Option<seq<byte>> {
    if |u| >= 2 && InAlphabet(u[0]) && InAlphabet(u[1]) && (u[2..] == "" || u[2..] == [PAD, PAD]) then
      Some([Byte0(Val(u[0]), Val(u[1]))])
    else if |u| >= 3 && InAlphabet(u[0]) && InAlphabet(u[1]) && InAlphabet(u[2]) && (u[3..] == "" || u[3..] == [PAD]) then
      Some([Byte0(Val(u[0]), Val(u[1])), Byte1(Val(u[1]), Val(u[2]))])
    else None
  }

  /** The four sextets of a group of three bytes x y z: the top six bits of x; the low
      two of x and the top four of y; the low four of y and the top two of z; the low
      six of z. A missing byte counts as zero. */
  function S0(x: byte): Sextet { x as int / 4 }
  function S1(x: byte, y: byte): Sextet { (x as int % 4) * 16 + y as int / 16 }
  function S2(y: byte, z: byte): Sextet { (y as int % 16) * 4 + z as int / 64 }
  function S3(z: byte): Sextet { z as int % 64 }

  /** The padded encoding of section 4 of RFC 4648. */
  function Encode(b: seq<byte>): string
    decreases |b|
  {
    if |b| == 0 then ""
    else if |b| == 1 then
      [AlphabetChar(S0(b[0])), AlphabetChar(S1(b[0], 0)), PAD, PAD]
    else if |b| == 2 then
      [AlphabetChar(S0(b[0])), AlphabetChar(S1(b[0], b[1])), AlphabetChar(S2(b[1], 0)), PAD]
    else
      [AlphabetChar(S0(b[0])), AlphabetChar(S1(b[0], b[1])), AlphabetChar(S2(b[1], b[2])), AlphabetChar(S3(b[2]))]
      + Encode(b[3..])
  }

  lemma DivMod16(h: int, l: int)
    requires 0 <= h && 0 <= l < 16
    ensures (h * 16 + l) / 16 == h && (h * 16 + l) % 16 == l
  {
  }

  lemma DivMod4(h: int, l: int)
    requires 0 <= h && 0 <= l < 4
    ensures (h * 4 + l) / 4 == h && (h * 4 + l) % 4 == l
  {
  }

  /** Splitting three bytes into four sextets and putting them together again is the
      identity. */
  lemma Regroup(x: byte, y: byte, z: byte)
    ensures Byte0(S0(x), S1(x, y)) == x
    ensures Byte1(S1(x, y), S2(y, z)) == y
    ensures Byte2(S2(y, z), S3(z)) == z
  {
    DivMod16(x as int % 4, y as int / 16);
    DivMod4(y as int % 16, z as int / 64);
  }

  /** Decoding a padded last unit "xx==". */
  lemma DecodeUnitOfTwo(c0: char, c1: char)
    requires InAlphabet(c0) && InAlphabet(c1)
    ensures Decode([c0, c1, PAD, PAD]) == Some([Byte0(Val(c0), Val(c1))])
  {
    var u := [c0, c1, PAD, PAD];
    assert !InAlphabet(u[2]) by { AlphabetBijection(0, PAD); }
    assert u[2..] == [PAD, PAD];
  }

  /** Decoding a padded last unit "xxx=". */
  lemma DecodeUnitOfThree(c0: char, c1: char, c2: char)
    requires InAlphabet(c0) && InAlphabet(c1) && InAlphabet(c2)
    ensures Decode([c0, c1, c2, PAD]) == Some([Byte0(Val(c0), Val(c1)), Byte1(Val(c1), Val(c2))])
  {
    var u := [c0, c1, c2, PAD];
    assert !InAlphabet(u[3]) by { AlphabetBijection(0, PAD); }
    assert u[2..] == [c2, PAD];
    assert u[3..] == [PAD];
  }

  /** The one-byte last unit "xx==". */
  lemma DecodeEncodeOne(b: seq<byte>)
    requires |b| == 1
    ensures Decode(Encode(b)) == Some(b)
  {
    var x := b[0];
    var c0, c1 := AlphabetChar(S0(x)), AlphabetChar(S1(x, 0));
    assert Encode(b) == [c0, c1, PAD, PAD];
    assert Val(c0) == S0(x) && Val(c1) == S1(x, 0) by {
      AlphabetBijection(S0(x), PAD);
      AlphabetBijection(S1(x, 0), PAD);
    }
    DecodeUnitOfTwo(c0, c1);
    assert Byte0(S0(x), S1(x, 0)) == x by { Regroup(x, 0, 0); }
    assert b == [x];
  }

  /** The two-byte last unit "xxx=". */
  lemma DecodeEncodeTwo(b: seq<byte>)
    requires |b| == 2
    ensures Decode(Encode(b)) == Some(b)
  {
    var p, q, r := S0(b[0]), S1(b[0], b[1]), S2(b[1], 0);
    assert Encode(b) == [AlphabetChar(p), AlphabetChar(q), AlphabetChar(r), PAD];
    AlphabetBijection(p, PAD);
    AlphabetBijection(q, PAD);
    AlphabetBijection(r, PAD);
    DecodeUnitOfThree(AlphabetChar(p), AlphabetChar(q), AlphabetChar(r));
    Regroup(b[0], b[1], 0);
    assert b == [b[0], b[1]];
  }

  /** Decoding four alphabet characters in front of a decodable rest. */
  lemma DecodeGroupShape(s: string)
    requires |s| >= 4 && InAlphabet(s[0]) && InAlphabet(s[1]) && InAlphabet(s[2]) && InAlphabet(s[3])
    requires Decode(s[4..]).Some?
    ensures Decode(s) == Some([Byte0(Val(s[0]), Val(s[1])), Byte1(Val(s[1]), Val(s[2])), Byte2(Val(s[2]), Val(s[3]))]
                              + Decode(s[4..]).value)
  {
  }

  lemma FirstThree(b: seq<byte>)
    requires |b| >= 3
    ensures b == [b[0], b[1], b[2]] + b[3..]
  {
  }

  /** A full group of three bytes in front of the rest. */
  lemma DecodeEncodeGroup(b: seq<byte>)
    requires |b| >= 3
    requires Decode(Encode(b[3..])) == Some(b[3..])
    ensures Decode(Encode(b)) == Some(b)
  {
    var p, q, r, t := S0(b[0]), S1(b[0], b[1]), S2(b[1], b[2]), S3(b[2]);
    var s := Encode(b);
    assert s == [AlphabetChar(p), AlphabetChar(q), AlphabetChar(r), AlphabetChar(t)] + Encode(b[3..]);
    AlphabetBijection(p, PAD);
    AlphabetBijection(q, PAD);
    AlphabetBijection(r, PAD);
    AlphabetBijection(t, PAD);
    assert s[4..] == Encode(b[3..]);
    DecodeGroupShape(s);
    Regroup(b[0], b[1], b[2]);
    FirstThree(b);
  }

  /** Decoding undoes encoding: a payload produced by encoding bytes `b` decodes to `b`. */
  lemma {:induction false} DecodeEncode(b: seq<byte>)
    ensures Decode(Encode(b)) == Some(b)
    decreases |b|
  {
    if |b| == 1 {
      DecodeEncodeOne(b);
    } else if |b| == 2 {
      DecodeEncodeTwo(b);
    } else if |b| >= 3 {
      DecodeEncode(b[3..]);
      DecodeEncodeGroup(b);
    }
  }

  /** A character that is neither in the alphabet nor the padding character anywhere in
      the input makes the decoder throw. */
  lemma {:induction false} DecodeRejectsForeign(s: string, i: nat)
    requires i < |s| && !InAlphabet(s[i]) && s[i] != PAD
    ensures Decode(s) == None
    decreases |s|
  {
    if |s| >= 4 && InAlphabet(s[0]) && InAlphabet(s[1]) && InAlphabet(s[2]) && InAlphabet(s[3]) {
      DecodeRejectsForeign(s[4..], i - 4);
    } else {
      if i >= 2 {
        assert s[2..][i - 2] == s[i];
      }
      if i >= 3 {
        assert s[3..][i - 3] == s[i];
      }
    }
  }

  /** The number of `=` characters at the end of `s`, at most two. */
  function TrailingPads(s: string): nat {
    if |s| >= 2 && s[|s| - 1] == PAD && s[|s| - 2] == PAD then 2
    else if |s| >= 1 && s[|s| - 1] == PAD then 1
    else 0
  }

  /** Every successful decoding yields three bytes per four input characters, less one
      per missing or padding character of the last unit; a lone trailing character
      never decodes. */
  lemma {:induction false} DecodeLength(s: string)
    ensures Decode(s).Some? ==> |s| % 4 != 1
    ensures Decode(s).Some? && |s| % 4 == 0 ==> |Decode(s).value| == 3 * (|s| / 4) - TrailingPads(s)
    ensures Decode(s).Some? && |s| % 4 != 0 ==> |Decode(s).value| == 3 * (|s| / 4) + |s| % 4 - 1
    decreases |s|
  {
    var n := |s|;
    AlphabetBijection(0, PAD);
    if n >= 4 && InAlphabet(s[0]) && InAlphabet(s[1]) && InAlphabet(s[2]) && InAlphabet(s[3]) {
      var t := s[4..];
      DecodeLength(t);
      assert |t| == n - 4;
      assert (n - 4) / 4 == n / 4 - 1 && (n - 4) % 4 == n % 4;
      if |t| >= 2 {
        assert t[|t| - 1] == s[n - 1] && t[|t| - 2] == s[n - 2];
        assert TrailingPads(t) == TrailingPads(s);
      } else if |t| == 0 {
        assert TrailingPads(s) == 0;
      }
    } else if n > 0 && Decode(s).Some? {
      assert Decode(s) == DecodeLastUnit(s);
      assert n == 2 || n == 3 || n == 4;
      if n == 4 {
        assert s[2..] == [PAD, PAD] || s[3..] == [PAD];
        assert s[2..] == [PAD, PAD] ==> s[3] == PAD && s[2] == PAD;
        assert s[3..] == [PAD] ==> s[3] == PAD;
      }
    }
  }

  /** The Java decoder ignores the unused low bits of a short last unit: "QQ==" and
      "QR==" both decode to the single byte 65, while only "QQ==" is what the encoder
      writes for it. */
  lemma LenientLastUnit()
    ensures Decode("QQ==") == Some([65 as byte])
    ensures Decode("QR==") == Some([65 as byte])
    ensures Encode([65 as byte]) == "QQ=="
  {
    assert "QQ=="[2..] == [PAD, PAD];
    assert "QR=="[2..] == [PAD, PAD];
  }
}
