/** IPAddressValidator: a device's IP must be absent or dotted-decimal IPv4
    in the exact form of the pattern
    ^((25[0-5]|2[0-4][0-9]|[01]?[0-9][0-9]?)\.){3}(25[0-5]|2[0-4][0-9]|[01]?[0-9][0-9]?)$
    matched against the whole value. */
module IpValidator {
  import opened Common

  /** One group of the pattern, alternative by alternative:
      25[0-5], 2[0-4][0-9], and [01]?[0-9][0-9]? (one or two digits, or
      three digits starting with 0 or 1). */
  predicate OctetPattern(g: string)
  {
    (|g| == 3 && g[0] == '2' && g[1] == '5' && '0' <= g[2] <= '5')
    || (|g| == 3 && g[0] == '2' && '0' <= g[1] <= '4' && IsDigit(g[2]))
    || (|g| == 3 && (g[0] == '0' || g[0] == '1') && IsDigit(g[1]) && IsDigit(g[2]))
    || (|g| == 2 && IsDigit(g[0]) && IsDigit(g[1]))
    || (|g| == 1 && IsDigit(g[0]))
  }

  /** The whole value is four groups joined by '.': a group cannot hold a
      '.', so the groups are exactly the pieces between the dots. */
  predicate MatchesIpPattern(v: string)
  {
    var groups := SplitOnChar(v, '.');
    |groups| == 4 && forall k :: 0 <= k < 4 ==> OctetPattern(groups[k])
  }

  /** isValid: null passes (the field is optional); otherwise the pattern. */
  function IsValidIp(value: Option<string>): (ok: bool)
    ensures value.None? ==> ok
  {
    match value
    case None => true
    case Some(v) => MatchesIpPattern(v)
  }

  /** The value of a three-digit string. */
  lemma ThreeDigitsValue(g: string)
    requires |g| == 3 && AllDigits(g)
    ensures DigitsValue(g) == 100 * DigitValue(g[0]) + 10 * DigitValue(g[1]) + DigitValue(g[2])
  {
    var g2 := g[..2];
    assert g2[..1] == [g[0]] && g2[1] == g[1];
    assert [g[0]][..0] == [];
    assert DigitsValue([g[0]]) == DigitValue(g[0]);
    assert DigitsValue(g2) == 10 * DigitValue(g[0]) + DigitValue(g[1]);
  }

  /** A group matches exactly when it is one to three decimal digits whose
      value is at most 255; leading zeros are allowed. */
  lemma OctetPatternMeans(g: string)
    ensures OctetPattern(g) <==> 1 <= |g| <= 3 && AllDigits(g) && DigitsValue(g) <= 255
  {
    if |g| == 3 && AllDigits(g) {
      ThreeDigitsValue(g);
    } else if |g| == 2 && AllDigits(g) {
      assert g[..1] == [g[0]] && g[..1][..0] == [];
      assert DigitsValue(g[..1]) == DigitValue(g[0]);
      assert DigitsValue(g) == 10 * DigitValue(g[0]) + DigitValue(g[1]);
    } else if |g| == 1 && AllDigits(g) {
      assert g[..0] == [];
      assert DigitsValue(g) == DigitValue(g[0]);
    }
  }

  /** Leading zeros pass, values above 255 and four-digit groups fail. */
  lemma OctetExamples()
    ensures OctetPattern("001") && OctetPattern("0") && OctetPattern("255")
    ensures !OctetPattern("256") && !OctetPattern("0256") && !OctetPattern("")
    ensures !OctetPattern("+1") && !OctetPattern(" 1") && !OctetPattern("1a")
  {
  }

  /** The pattern as a concatenation: four groups of the pattern, joined by
      dots, and nothing else. */
  function Dotted(a: string, b: string, c: string, d: string): string
  {
    a + "." + b + "." + c + "." + d
  }

  /** Any four matching groups joined by dots match. */
  lemma DottedMatches(a: string, b: string, c: string, d: string)
    requires OctetPattern(a) && OctetPattern(b) && OctetPattern(c) && OctetPattern(d)
    ensures MatchesIpPattern(Dotted(a, b, c, d))
  {
    OctetPatternMeans(a);
    OctetPatternMeans(b);
    OctetPatternMeans(c);
    OctetPatternMeans(d);
    NonDigitNotIn(a, '.');
    NonDigitNotIn(b, '.');
    NonDigitNotIn(c, '.');
    NonDigitNotIn(d, '.');
    var cd := c + "." + d;
    var bcd := b + "." + cd;
    assert Dotted(a, b, c, d) == a + ['.'] + bcd;
    assert bcd == b + ['.'] + cd;
    assert cd == c + ['.'] + d;
    SplitWithoutSeparator(d, '.');
    SplitAfterPrefix(c, '.', d);
    SplitAfterPrefix(b, '.', cd);
    SplitAfterPrefix(a, '.', bcd);
  }

  /** Every matching value is four matching groups joined by dots. */
  lemma MatchIsDotted(v: string)
    requires MatchesIpPattern(v)
    ensures var g := SplitOnChar(v, '.');
            v == Dotted(g[0], g[1], g[2], g[3])
  {
    var g := SplitOnChar(v, '.');
    SplitJoin(v, '.');
    var g1, g2 := g[1..], g[2..];
    assert g1[1..] == g2 && g2[1..] == [g[3]];
    assert JoinWith(g2, '.') == g[2] + "." + g[3];
    assert JoinWith(g1, '.') == g[1] + "." + JoinWith(g2, '.');
    assert JoinWith(g, '.') == g[0] + "." + JoinWith(g1, '.');
  }

  /** Four numbers up to 255, printed in decimal and joined by dots, form a
      valid address. */
  lemma PrintedAddressIsValid(a: nat, b: nat, c: nat, d: nat)
    requires a <= 255 && b <= 255 && c <= 255 && d <= 255
    ensures IsValidIp(Some(Dotted(NatStr(a), NatStr(b), NatStr(c), NatStr(d))))
  {
    PrintedOctet(a);
    PrintedOctet(b);
    PrintedOctet(c);
    PrintedOctet(d);
    DottedMatches(NatStr(a), NatStr(b), NatStr(c), NatStr(d));
  }

  /** A number up to 255 prints as a matching group. */
  lemma PrintedOctet(n: nat)
    requires n <= 255
    ensures OctetPattern(NatStr(n))
  {
    NatStrValue(n);
    if n >= 10 {
      assert NatStr(n) == NatStr(n / 10) + [DigitChar(n % 10)];
      if n >= 100 {
        assert NatStr(n / 10) == NatStr(n / 100) + [DigitChar(n / 10 % 10)];
      }
    }
    OctetPatternMeans(NatStr(n));
  }

  /** Three groups are too few. */
  lemma ThreeGroupsRejected()
    ensures !MatchesIpPattern("1.2.3")
  {
    assert "1.2.3" == "1" + ['.'] + "2.3";
    assert "2.3" == "2" + ['.'] + "3";
    SplitWithoutSeparator("3", '.');
    SplitAfterPrefix("2", '.', "3");
    SplitAfterPrefix("1", '.', "2.3");
  }

  /** An empty group is rejected. */
  lemma EmptyGroupRejected()
    ensures !MatchesIpPattern("1..3.4")
  {
    assert "1..3.4" == "1" + ['.'] + ".3.4";
    assert ".3.4" == "" + ['.'] + "3.4";
    SplitAfterPrefix("", '.', "3.4");
    SplitAfterPrefix("1", '.', ".3.4");
    var g := SplitOnChar("1..3.4", '.');
    assert g == ["1"] + ([""] + SplitOnChar("3.4", '.'));
    assert g[1] == "" && !OctetPattern(g[1]);
  }

  /** Leading whitespace is rejected. */
  lemma LeadingSpaceRejected()
    ensures !MatchesIpPattern(" 1.2.3.4")
  {
    assert " 1.2.3.4" == " 1" + ['.'] + "2.3.4";
    SplitAfterPrefix(" 1", '.', "2.3.4");
    var g := SplitOnChar(" 1.2.3.4", '.');
    assert g[0] == " 1" && !IsDigit(g[0][0]);
  }

  /** The empty value is one empty group. */
  lemma EmptyValueRejected()
    ensures IsValidIp(None) && !IsValidIp(Some(""))
  {
  }
}
