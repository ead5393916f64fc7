/** java.util.Base64's basic encoder and decoder: the alphabet of section 4
    of RFC 4648, '=' padding on encoding, and the decoder's rules for which
    texts it accepts (it rejects by throwing IllegalArgumentException,
    modelled as None). */
module Base64 {
  import opened Common

  newtype byte = x: int | 0 <= x < 256

  /* ---------- the alphabet ---------- */

  predicate IsBase64Char(c: char)
  {
    'A' <= c <= 'Z' || 'a' <= c <= 'z' || '0' <= c <= '9' || c == '+' || c == '/'
  }

  /** The character of a 6-bit value. */
  function IndexChar(i: int): (c: char)
    requires 0 <= i < 64
    ensures IsBase64Char(c)
  {
    if i < 26 then ('A' as int + i) as char
    else if i < 52 then ('a' as int + i - 26) as char
    else if i < 62 then ('0' as int + i - 52) as char
    else if i == 62 then '+'
    else '/'
  }

  /** The 6-bit value of a character of the alphabet. */
  function CharIndex(c: char): (i: int)
    requires IsBase64Char(c)
    ensures 0 <= i < 64
  {
    if 'A' <= c <= 'Z' then c as int - 'A' as int
    else if 'a' <= c <= 'z' then c as int - 'a' as int + 26
    else if '0' <= c <= '9' then c as int - '0' as int + 52
    else if c == '+' then 62
    else 63
  }

  /** Each 6-bit value reads back from its character, and each character
      from its value. */
  lemma IndexCharRoundTrip(i: int, c: char)
    requires 0 <= i < 64 && IsBase64Char(c)
    ensures CharIndex(IndexChar(i)) == i
    ensures IndexChar(CharIndex(c)) == c
  {
  }

  predicate AllBase64(s: string)
  {
    forall k :: 0 <= k < |s| ==> IsBase64Char(s[k])
  }

  /* ---------- 24-bit groups ---------- */

  /** Three bytes as one 24-bit number, first byte highest. */
  function Combine(b0: int, b1: int, b2: int): int
  {
    b0 * 65536 + b1 * 256 + b2
  }

  /** The four 6-bit values of a 24-bit number, highest first. */
  function Sextets(n: int): seq<int>
    requires 0 <= n < 16777216
  {
    [n / 262144, n / 4096 % 64, n / 64 % 64, n % 64]
  }

  /** The 24-bit number of (up to) four characters, missing ones counting as 0. */
  function Join(s: string): int
    requires |s| <= 4 && AllBase64(s)
  {
    (if |s| > 0 then CharIndex(s[0]) * 262144 else 0)
    + (if |s| > 1 then CharIndex(s[1]) * 4096 else 0)
    + (if |s| > 2 then CharIndex(s[2]) * 64 else 0)
    + (if |s| > 3 then CharIndex(s[3]) else 0)
  }

  /** The first k bytes of a 24-bit number. */
  function Bytes(n: int, k: nat): seq<byte>
    requires 0 <= n < 16777216 && k <= 3
  {
    [(n / 65536) as byte, (n / 256 % 256) as byte, (n % 256) as byte][..k]
  }

  /** The first k characters of a 24-bit number. */
  function GroupChars(n: int, k: nat): (s: string)
    requires 0 <= n < 16777216 && k <= 4
    ensures |s| == k && AllBase64(s)
  {
    var x := Sextets(n);
    [IndexChar(x[0]), IndexChar(x[1]), IndexChar(x[2]), IndexChar(x[3])][..k]
  }

  /* ---------- encoding ---------- */

  /** The characters of the bytes without padding: four for each three
      bytes, then two for one byte left or three for two bytes left. */
  function EncodeUnits(b: seq<byte>): (s: string)
    ensures AllBase64(s)
    ensures |s| == 4 * (|b| / 3) + (if |b| % 3 == 0 then 0 else |b| % 3 + 1)
  {
    if |b| >= 3 then GroupChars(Combine(b[0] as int, b[1] as int, b[2] as int), 4) + EncodeUnits(b[3..])
    else if |b| == 2 then GroupChars(Combine(b[0] as int, b[1] as int, 0), 3)
    else if |b| == 1 then GroupChars(Combine(b[0] as int, 0, 0), 2)
    else ""
  }

  /** The padding that completes the last group. */
  function Padding(count: nat): string
  {
    if count % 3 == 1 then "==" else if count % 3 == 2 then "=" else ""
  }

  /** Base64.getEncoder().encodeToString. */
  function Encode(b: seq<byte>): string
  {
    EncodeUnits(b) + Padding(|b|)
  }

  /* ---------- decoding ---------- */

  /** The length of the longest prefix made of alphabet characters. */
  function AlphabetPrefixLength(s: string): (n: nat)
    ensures n <= |s| && AllBase64(s[..n])
    ensures n < |s| ==> !IsBase64Char(s[n])
  {
    if s == [] || !IsBase64Char(s[0]) then 0
    else
      var n := 1 + AlphabetPrefixLength(s[1..]);
      assert s[..n] == [s[0]] + s[1..][..n - 1];
      n
  }

  /** The bytes of unpadded alphabet characters: three per group of four; a
      last group of two or three gives one or two bytes, a last group of one
      is rejected. */
  function DecodeUnits(s: string): Option<seq<byte>>
    requires AllBase64(s)
  {
    if |s| == 0 then Some([])
    else if |s| == 1 then None
    else if |s| < 4 then Some(Bytes(Join(s), |s| - 1))
    else
      match DecodeUnits(s[4..])
      case None => None
      case Some(rest) => Some(Bytes(Join(s[..4]), 3) + rest)
  }

  /** Base64.getDecoder().decode: alphabet characters, then either nothing,
      or "==" after a group of two, or "=" after a group of three. Any other
      character, padding in any other place, or anything after the padding
      is rejected. */
  function Decode(s: string): Option<seq<byte>>
  {
    var n := AlphabetPrefixLength(s);
    var units, rest := s[..n], s[n..];
    if rest == [] then DecodeUnits(units)
    else if rest[0] != '=' then None
    else if n % 4 == 2 && rest == "==" then DecodeUnits(units)
    else if n % 4 == 3 && rest == "=" then DecodeUnits(units)
    else None
  }

  /* ---------- the round trip ---------- */

  /** The four 6-bit values of a 24-bit number put back together give it. */
  lemma SextetsJoin(n: int)
    requires 0 <= n < 16777216
    ensures var x := Sextets(n); x[0] * 262144 + x[1] * 4096 + x[2] * 64 + x[3] == n
  {
    var q1, r1 := n / 64, n % 64;
    var q2, r2 := q1 / 64, q1 % 64;
    assert n == q1 * 64 + r1;
    assert q1 == q2 * 64 + r2;
    assert n / 4096 == q2;
    assert n / 262144 == q2 / 64;
    assert q2 == (q2 / 64) * 64 + q2 % 64;
  }

  /** The characters of a group read back as its 24-bit number. */
  lemma JoinGroupChars(n: int)
    requires 0 <= n < 16777216
    ensures Join(GroupChars(n, 4)) == n
  {
    var x := Sextets(n);
    IndexCharRoundTrip(x[0], 'A');
    IndexCharRoundTrip(x[1], 'A');
    IndexCharRoundTrip(x[2], 'A');
    IndexCharRoundTrip(x[3], 'A');
    SextetsJoin(n);
  }

  /** Integer division and remainder are the unique quotient and remainder. */
  lemma DivModUnique(a: int, d: int, q: int, r: int)
    requires d > 0 && a == q * d + r && 0 <= r < d
    ensures a / d == q && a % d == r
  {
    var q', r' := a / d, a % d;
    assert a == q' * d + r';
    if q' > q {
      assert q' * d >= (q + 1) * d by { MulMonotone(q + 1, q', d); }
    } else if q' < q {
      assert q * d >= (q' + 1) * d by { MulMonotone(q' + 1, q, d); }
    }
  }

  lemma MulMonotone(x: int, y: int, d: int)
    requires x <= y && d > 0
    ensures x * d <= y * d
  {
    assert y * d - x * d == (y - x) * d;
  }

  /** Three bytes read back from their 24-bit number. */
  lemma BytesOfCombine(b0: byte, b1: byte, b2: byte)
    ensures 0 <= Combine(b0 as int, b1 as int, b2 as int) < 16777216
    ensures Bytes(Combine(b0 as int, b1 as int, b2 as int), 3) == [b0, b1, b2]
  {
    var x0, x1, x2 := b0 as int, b1 as int, b2 as int;
    var n := Combine(x0, x1, x2);
    DivModUnique(n, 65536, x0, x1 * 256 + x2);
    DivModUnique(n, 256, x0 * 256 + x1, x2);
    DivModUnique(x0 * 256 + x1, 256, x0, x1);
  }

  /** A group of four characters decodes to its three bytes. */
  lemma FullGroupRoundTrip(b0: byte, b1: byte, b2: byte)
    ensures var n := Combine(b0 as int, b1 as int, b2 as int);
            0 <= n < 16777216 && Bytes(Join(GroupChars(n, 4)), 3) == [b0, b1, b2]
  {
    BytesOfCombine(b0, b1, b2);
    JoinGroupChars(Combine(b0 as int, b1 as int, b2 as int));
  }

  /** The first k characters of a group read back as its 24-bit number
      without the bits of the characters left out. */
  lemma JoinGroupPrefix(n: int, k: nat)
    requires 0 <= n < 16777216 && 2 <= k <= 4
    ensures Join(GroupChars(n, k)) == n - (if k == 2 then n % 4096 else if k == 3 then n % 64 else 0)
  {
    var x := Sextets(n);
    IndexCharRoundTrip(x[0], 'A');
    IndexCharRoundTrip(x[1], 'A');
    IndexCharRoundTrip(x[2], 'A');
    IndexCharRoundTrip(x[3], 'A');
    SextetsJoin(n);
    assert n % 4096 == x[2] * 64 + x[3];
  }

  /** A last group of two characters decodes to its one byte: the bits left
      out are zero. */
  lemma OneByteRoundTrip(b0: byte)
    ensures var n := Combine(b0 as int, 0, 0);
            0 <= n < 16777216 && Bytes(Join(GroupChars(n, 2)), 1) == [b0]
  {
    var n := Combine(b0 as int, 0, 0);
    JoinGroupPrefix(n, 2);
    DivModUnique(n, 4096, b0 as int * 16, 0);
    BytesOfCombine(b0, 0, 0);
  }

  /** A last group of three characters decodes to its two bytes. */
  lemma TwoBytesRoundTrip(b0: byte, b1: byte)
    ensures var n := Combine(b0 as int, b1 as int, 0);
            0 <= n < 16777216 && Bytes(Join(GroupChars(n, 3)), 2) == [b0, b1]
  {
    var n := Combine(b0 as int, b1 as int, 0);
    JoinGroupPrefix(n, 3);
    DivModUnique(n, 64, b0 as int * 1024 + b1 as int * 4, 0);
    BytesOfCombine(b0, b1, 0);
  }

  /** A full group in front of more characters decodes in front of them. */
  lemma DecodeGroupThenRest(g: string, t: string, x: seq<byte>, rest: seq<byte>)
    requires |g| == 4 && AllBase64(g) && AllBase64(t)
    requires Bytes(Join(g), 3) == x && DecodeUnits(t) == Some(rest)
    ensures DecodeUnits(g + t) == Some(x + rest)
  {
    assert (g + t)[..4] == g && (g + t)[4..] == t;
  }

  /** Decoding the characters of the encoder gives the bytes back. */
  lemma {:induction false} DecodeUnitsOfEncodeUnits(b: seq<byte>)
    ensures DecodeUnits(EncodeUnits(b)) == Some(b)
  {
    if |b| >= 3 {
      assert b == [b[0], b[1], b[2]] + b[3..];
      var n := Combine(b[0] as int, b[1] as int, b[2] as int);
      var g, t := GroupChars(n, 4), EncodeUnits(b[3..]);
      assert EncodeUnits(b) == g + t;
      FullGroupRoundTrip(b[0], b[1], b[2]);
      DecodeUnitsOfEncodeUnits(b[3..]);
      DecodeGroupThenRest(g, t, [b[0], b[1], b[2]], b[3..]);
    } else if |b| == 2 {
      var g := GroupChars(Combine(b[0] as int, b[1] as int, 0), 3);
      assert EncodeUnits(b) == g;
      assert DecodeUnits(g) == Some(Bytes(Join(g), 2));
      TwoBytesRoundTrip(b[0], b[1]);
      assert b == [b[0], b[1]];
    } else if |b| == 1 {
      var g := GroupChars(Combine(b[0] as int, 0, 0), 2);
      assert EncodeUnits(b) == g;
      assert DecodeUnits(g) == Some(Bytes(Join(g), 1));
      OneByteRoundTrip(b[0]);
      assert b == [b[0]];
    }
  }

  /** The alphabet prefix of characters followed by padding is the characters. */
  lemma {:induction false} PrefixBeforePadding(u: string, p: string)
    requires AllBase64(u)
    requires p == [] || p[0] == '='
    ensures AlphabetPrefixLength(u + p) == |u|
  {
    if u != [] {
      assert (u + p)[1..] == u[1..] + p;
      PrefixBeforePadding(u[1..], p);
    }
  }

  /** Characters followed by the padding that fits their last group decode
      as the characters alone. */
  lemma DecodePadded(u: string, p: string)
    requires AllBase64(u)
    requires p == "" || (p == "==" && |u| % 4 == 2) || (p == "=" && |u| % 4 == 3)
    ensures Decode(u + p) == DecodeUnits(u)
  {
    PrefixBeforePadding(u, p);
    assert (u + p)[..|u|] == u && (u + p)[|u|..] == p;
  }

  /** Decoding undoes encoding. */
  lemma DecodeEncode(b: seq<byte>)
    ensures Decode(Encode(b)) == Some(b)
  {
    var u, r := EncodeUnits(b), |b| % 3;
    var tail := if r == 0 then 0 else r + 1;
    DivModUnique(|u|, 4, |b| / 3, tail);
    DecodePadded(u, Padding(|b|));
    DecodeUnitsOfEncodeUnits(b);
  }

  /** The encoder's output is alphabet characters followed by at most two
      '=', and it is empty only for no bytes. */
  lemma EncodeShape(b: seq<byte>)
    ensures var s := Encode(b);
            var n := AlphabetPrefixLength(s);
            n == |EncodeUnits(b)| && |s| - n <= 2
            && (forall k :: n <= k < |s| ==> s[k] == '=')
            && (|b| > 0 ==> n >= 2)
            && ',' !in s
  {
    var u, p := EncodeUnits(b), Padding(|b|);
    PrefixBeforePadding(u, p);
    assert forall k :: 0 <= k < |u| ==> (u + p)[k] == u[k];
    assert forall k :: |u| <= k < |u + p| ==> (u + p)[k] == p[k - |u|];
  }

  /* ---------- which padded texts decode ---------- */

  /** [A-Za-z0-9+/]+={0,2}: one or more alphabet characters, then at most
      two '=' and nothing else. */
  predicate PayloadPattern(p: string)
  {
    var n := AlphabetPrefixLength(p);
    n >= 1 && |p| - n <= 2 && forall k :: n <= k < |p| ==> p[k] == '='
  }

  /** The length of the padding after the alphabet prefix. */
  function PaddingLength(p: string): nat
  {
    |p| - AlphabetPrefixLength(p)
  }

  /** Unpadded units decode exactly when they do not end in a lone character. */
  lemma {:induction false} DecodeUnitsDefined(s: string)
    requires AllBase64(s)
    ensures DecodeUnits(s).Some? <==> |s| % 4 != 1
  {
    if |s| >= 4 {
      DecodeUnitsDefined(s[4..]);
      assert DecodeUnits(s).Some? <==> DecodeUnits(s[4..]).Some?;
      assert |s| % 4 == |s[4..]| % 4;
    }
  }

  /** A text of the pattern decodes exactly when its padding fits its last
      group: no '=' and a last group of two, three or four characters, "=="
      after two, or "=" after three. */
  lemma PatternDecodes(p: string)
    requires PayloadPattern(p)
    ensures var n, pad := AlphabetPrefixLength(p), PaddingLength(p);
            Decode(p).Some? <==>
              (pad == 0 && n % 4 != 1) || (pad == 1 && n % 4 == 3) || (pad == 2 && n % 4 == 2)
  {
    var n := AlphabetPrefixLength(p);
    var rest := p[n..];
    DecodeUnitsDefined(p[..n]);
    if |rest| == 1 {
      assert rest == "=";
    } else if |rest| == 2 {
      assert rest == "==";
    }
  }
}
