/** Small value types and text helpers shared by every part of the model:
    Option/Result for Java's nulls and exceptions, decimal rendering of
    numbers as Java prints them, and the String operations the source
    relies on (startsWith, indexOf, split on one character). */
module Common {

  datatype Option<T> = None | Some(value: T)

  datatype Result<T, E> = Ok(value: T) | Err(error: E)

  /* ---------- decimal digits ---------- */

  predicate IsDigit(c: char) { '0' <= c <= '9' }

  predicate AllDigits(s: string) { forall i :: 0 <= i < |s| ==> IsDigit(s[i]) }

  function DigitChar(d: nat): (c: char)
    requires d < 10
    ensures IsDigit(c) && (c as int) - ('0' as int) == d
  {
    (('0' as int) + d) as char
  }

  function DigitValue(c: char): nat
    requires IsDigit(c)
  {
    (c as int) - ('0' as int)
  }

  /** Decimal rendering of a non-negative integer, most significant digit
      first, no leading zeros (Java's Long.toString / String.valueOf). */
  function NatStr(n: nat): (s: string)
    ensures 1 <= |s| && AllDigits(s)
    ensures n < 10 <==> |s| == 1
    decreases n
  {
    if n < 10 then [DigitChar(n)] else NatStr(n / 10) + [DigitChar(n % 10)]
  }

  /** Value of a string of decimal digits, read most significant first. */
  function DigitsValue(s: string): nat
    requires AllDigits(s)
  {
    if s == [] then 0 else 10 * DigitsValue(s[..|s| - 1]) + DigitValue(s[|s| - 1])
  }

  /** A character that is not a digit does not occur in a string of digits. */
  lemma NonDigitNotIn(s: string, c: char)
    requires AllDigits(s) && !IsDigit(c)
    ensures c !in s
  {
  }

  /** Reading back a rendered number gives the number. */
  lemma {:induction false} NatStrValue(n: nat)
    ensures DigitsValue(NatStr(n)) == n
  {
    if n >= 10 {
      var s := NatStr(n);
      assert s[..|s| - 1] == NatStr(n / 10);
      NatStrValue(n / 10);
    }
  }

  /** Java's rendering of a (possibly negative) long with %d or String.valueOf. */
  function IntStr(i: int): (s: string)
    ensures 1 <= |s|
  {
    if i < 0 then "-" + NatStr(-i) else NatStr(i)
  }

  /** A two-digit, zero-padded field, as DateTimeFormatter prints "dd" and "MM". */
  function Pad2(n: nat): string
  {
    if n < 10 then "0" + NatStr(n) else NatStr(n)
  }

  /** Below 100 the field is exactly two digits and reads back as n. */
  lemma Pad2Value(n: nat)
    requires n < 100
    ensures |Pad2(n)| == 2 && AllDigits(Pad2(n)) && DigitsValue(Pad2(n)) == n
  {
    NatStrValue(n);
    if n < 10 {
      assert Pad2(n)[..1] == "0";
    } else {
      assert NatStr(n) == NatStr(n / 10) + [DigitChar(n % 10)];
    }
  }

  /** Concatenation regroups freely. */
  lemma AppendAssociates<T>(a: seq<T>, b: seq<T>, c: seq<T>)
    ensures a + b + c == a + (b + c)
  {
  }

  /* ---------- String operations ---------- */

  predicate StartsWith(s: string, prefix: string)
  {
    |prefix| <= |s| && s[..|prefix|] == prefix
  }

  /** String.indexOf(char): the first position of c, or -1. */
  function IndexOf(s: string, c: char): (r: int)
    ensures r == -1 <==> c !in s
    ensures r != -1 ==> 0 <= r < |s| && s[r] == c && c !in s[..r]
  {
    if s == [] then -1
    else if s[0] == c then 0
    else
      var k := IndexOf(s[1..], c);
      assert s[1..][..if k < 0 then 0 else k] == s[1..if k < 0 then 1 else k + 1];
      if k == -1 then -1 else k + 1
  }

  /** Every piece between occurrences of c, empty pieces included. */
  function SplitOnChar(s: string, c: char): (pieces: seq<string>)
    ensures 1 <= |pieces|
    ensures forall k :: 0 <= k < |pieces| ==> c !in pieces[k]
    decreases |s|
  {
    if s == [] then [[]]
    else
      var rest := SplitOnChar(s[1..], c);
      if s[0] == c then [[]] + rest else [[s[0]] + rest[0]] + rest[1..]
  }

  /** Without the separator there is one piece, the whole string. */
  lemma {:induction false} SplitWithoutSeparator(s: string, c: char)
    requires c !in s
    ensures SplitOnChar(s, c) == [s]
    decreases |s|
  {
    if s != [] {
      SplitWithoutSeparator(s[1..], c);
      assert [s[0]] + s[1..] == s;
    }
  }

  /** There is more than one piece exactly when the separator occurs. */
  lemma {:induction false} SplitSinglePiece(s: string, c: char)
    ensures |SplitOnChar(s, c)| == 1 <==> c !in s
    decreases |s|
  {
    if s != [] {
      SplitSinglePiece(s[1..], c);
      assert s == [s[0]] + s[1..];
    }
  }

  /** The first separator ends the first piece. */
  lemma {:induction false} SplitAfterPrefix(p: string, c: char, t: string)
    requires c !in p
    ensures SplitOnChar(p + [c] + t, c) == [p] + SplitOnChar(t, c)
    decreases |p|
  {
    var s := p + [c] + t;
    if p == [] {
      assert s[0] == c && s[1..] == t;
    } else {
      assert s[0] == p[0] && s[1..] == p[1..] + [c] + t;
      SplitAfterPrefix(p[1..], c, t);
      assert [p[0]] + p[1..] == p;
    }
  }

  /** Java's split of a head and a tail around the one separator: both
      pieces, or the head alone when the tail is empty. */
  lemma JavaSplitTwoPieces(head: string, c: char, tail: string)
    requires head != [] && c !in head && c !in tail
    ensures JavaSplit(head + [c] + tail, c) == if tail == [] then [head] else [head, tail]
  {
    var s := head + [c] + tail;
    assert s[|head|] == c;
    SplitAfterPrefix(head, c, tail);
    SplitWithoutSeparator(tail, c);
    assert SplitOnChar(s, c) == [head] + [tail] == [head, tail];
    if tail == [] {
      assert [head, tail][..1] == [head];
      assert DropTrailingEmpty([head, tail]) == DropTrailingEmpty([head]);
    }
  }

  /** A non-empty sequence is its prefix and its last element. */
  lemma PrefixAndLast<T>(s: seq<T>)
    requires s != []
    ensures s[..|s| - 1] + [s[|s| - 1]] == s
  {
  }

  /** A separator followed by a piece without separators adds that piece last. */
  lemma {:induction false} SplitBeforeLast(s: string, c: char, t: string)
    requires c !in t
    ensures SplitOnChar(s + [c] + t, c) == SplitOnChar(s, c) + [t]
    decreases |s|
  {
    var whole := s + [c] + t;
    if s == [] {
      assert whole[0] == c && whole[1..] == t;
      SplitWithoutSeparator(t, c);
    } else {
      assert whole[0] == s[0] && whole[1..] == s[1..] + [c] + t;
      SplitBeforeLast(s[1..], c, t);
    }
  }

  /** Joins pieces with c between consecutive ones. */
  function JoinWith(pieces: seq<string>, c: char): string
    requires 1 <= |pieces|
  {
    if |pieces| == 1 then pieces[0] else pieces[0] + [c] + JoinWith(pieces[1..], c)
  }

  /** Splitting loses nothing: joining the pieces back gives the input. */
  lemma {:induction false} SplitJoin(s: string, c: char)
    ensures JoinWith(SplitOnChar(s, c), c) == s
    decreases |s|
  {
    if s != [] {
      var rest := SplitOnChar(s[1..], c);
      SplitJoin(s[1..], c);
      if s[0] == c {
        assert ([[]] + rest)[1..] == rest;
      } else if |rest| > 1 {
        var pieces := [[s[0]] + rest[0]] + rest[1..];
        assert pieces[1..] == rest[1..];
        assert JoinWith(rest, c) == rest[0] + [c] + JoinWith(rest[1..], c);
      }
      assert s == [s[0]] + s[1..];
    }
  }

  function DropTrailingEmpty(pieces: seq<string>): (r: seq<string>)
    ensures |r| <= |pieces| && r == pieces[..|r|]
    ensures r != [] ==> r[|r| - 1] != ""
  {
    if pieces != [] && pieces[|pieces| - 1] == "" then DropTrailingEmpty(pieces[..|pieces| - 1]) else pieces
  }

  /** Java's String.split with a one-character separator and no limit: the
      whole input when the separator does not occur, otherwise every piece
      with trailing empty pieces removed. */
  function JavaSplit(s: string, c: char): seq<string>
  {
    if c !in s then [s] else DropTrailingEmpty(SplitOnChar(s, c))
  }
}
