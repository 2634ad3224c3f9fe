/** The format check the settings page applies to the default data source:
    an IPv4 dotted quad or a network-interface name. Both regular
    expressions are written as recursive predicates that follow the
    structure of the pattern, and are related to plain definitions. */
module DataSource {
  import opened Strings

  /** The character class [a-zA-Z0-9_.-]. */
  predicate IsInterfaceChar(c: char) {
    ('a' <= c <= 'z') || ('A' <= c <= 'Z') || IsDigit(c) || c == '_' || c == '.' || c == '-'
  }

  /** ^[a-zA-Z0-9_.-]+$ : one character of the class, then more of the `+`. */
  predicate InterfacePattern(s: string) {
    |s| >= 1 && IsInterfaceChar(s[0]) && (|s| == 1 || InterfacePattern(s[1..]))
  }

  /** [0-9][0-9]? */
  predicate DigitOptDigit(t: string) {
    (|t| == 1 && IsDigit(t[0])) || (|t| == 2 && IsDigit(t[0]) && IsDigit(t[1]))
  }

  /** [01]?[0-9][0-9]? */
  predicate ShortOctet(t: string) {
    DigitOptDigit(t) || (|t| >= 1 && (t[0] == '0' || t[0] == '1') && DigitOptDigit(t[1..]))
  }

  /** 25[0-5]|2[0-4][0-9]|[01]?[0-9][0-9]? */
  predicate OctetPattern(t: string) {
    || (|t| == 3 && t[0] == '2' && t[1] == '5' && '0' <= t[2] <= '5')
    || (|t| == 3 && t[0] == '2' && '0' <= t[1] <= '4' && IsDigit(t[2]))
    || ShortOctet(t)
  }

  /** (OCTET\.){n}OCTET, matched against the whole of `s`. */
  predicate DottedOctets(s: string, n: nat)
    decreases n
  {
    if n == 0 then OctetPattern(s)
    else exists k :: 0 <= k < |s| && s[k] == '.' && OctetPattern(s[..k]) && DottedOctets(s[k + 1..], n - 1)
  }

  /** ^((OCTET)\.){3}(OCTET)$ */
  predicate Ipv4Pattern(s: string) {
    DottedOctets(s, 3)
  }

  /** One to three decimal digits (leading zeros allowed) with value at most 255. */
  predicate IsOctetText(t: string) {
    1 <= |t| <= 3 && AllDigits(t) && DigitsValue(t) <= 255
  }

  predicate AllOctets(fields: seq<string>) {
    forall i :: 0 <= i < |fields| ==> IsOctetText(fields[i])
  }

  /** Exactly four dot-separated fields, each an octet. */
  predicate IsDottedQuad(s: string) {
    |Split(s, '.')| == 4 && AllOctets(Split(s, '.'))
  }

  /** The text with one final newline removed, if it ends with one. */
  function WithoutFinalNewline(s: string): (t: string)
    ensures s == t || s == t + "\n"
  {
    if |s| >= 1 && s[|s| - 1] == '\n' then s[..|s| - 1] else s
  }

  // A pattern anchored with ^…$ matches the whole text, or the text before a
  // final newline: `$` also matches just before a newline that ends the text.

  predicate Ipv4Match(s: string) {
    Ipv4Pattern(s) || (|s| >= 1 && s[|s| - 1] == '\n' && Ipv4Pattern(s[..|s| - 1]))
  }

  predicate InterfaceMatch(s: string) {
    InterfacePattern(s) || (|s| >= 1 && s[|s| - 1] == '\n' && InterfacePattern(s[..|s| - 1]))
  }

  /** The source shows the data-source warning when the text is non-empty
      and matches neither pattern. */
  predicate NeedsFormatWarning(src: string) {
    src != [] && !Ipv4Match(src) && !InterfaceMatch(src)
  }

  /** The text holds a character outside [a-zA-Z0-9_.-]. */
  predicate HasForeignChar(s: string) {
    exists i :: 0 <= i < |s| && !IsInterfaceChar(s[i])
  }

  lemma DigitsValueOfOne(t: string)
    requires |t| == 1 && AllDigits(t)
    ensures DigitsValue(t) == DigitValue(t[0])
  {
    assert t[..0] == [];
    assert DigitsValue(t) == DigitsValue(t[..0]) * 10 + DigitValue(t[0]);
  }

  lemma DigitsValueOfTwo(t: string)
    requires |t| == 2 && AllDigits(t)
    ensures DigitsValue(t) == 10 * DigitValue(t[0]) + DigitValue(t[1])
  {
    assert DigitsValue(t) == DigitsValue(t[..1]) * 10 + DigitValue(t[1]);
    DigitsValueOfOne(t[..1]);
  }

  lemma DigitsValueOfThree(t: string)
    requires |t| == 3 && AllDigits(t)
    ensures DigitsValue(t) == 100 * DigitValue(t[0]) + 10 * DigitValue(t[1]) + DigitValue(t[2])
  {
    assert DigitsValue(t) == DigitsValue(t[..2]) * 10 + DigitValue(t[2]);
    DigitsValueOfTwo(t[..2]);
  }

  /** The octet alternative accepts exactly the octet texts. */
  lemma OctetPatternIff(t: string)
    ensures OctetPattern(t) <==> IsOctetText(t)
  {
    if |t| == 1 {
      if IsDigit(t[0]) {
        DigitsValueOfOne(t);
      }
    } else if |t| == 2 {
      if OctetPattern(t) {
        assert AllDigits(t);
        DigitsValueOfTwo(t);
      }
      if IsOctetText(t) {
        assert DigitOptDigit(t);
      }
    } else if |t| == 3 {
      var t' := t[1..];
      if OctetPattern(t) {
        assert AllDigits(t) by {
          if ShortOctet(t) {
            assert DigitOptDigit(t');
            assert t[1] == t'[0] && t[2] == t'[1];
          }
        }
        DigitsValueOfThree(t);
      }
      if IsOctetText(t) {
        DigitsValueOfThree(t);
        if t[0] == '0' || t[0] == '1' {
          assert DigitOptDigit(t');
        }
      }
    }
  }

  lemma OctetHasNoDot(t: string)
    requires IsOctetText(t)
    ensures '.' !in t
  {
  }

  lemma AllOctetsCons(head: string, rest: seq<string>)
    requires IsOctetText(head) && AllOctets(rest)
    ensures AllOctets([head] + rest)
  {
    var fields := [head] + rest;
    forall i | 0 <= i < |fields|
      ensures IsOctetText(fields[i])
    {
      if i > 0 {
        assert fields[i] == rest[i - 1];
      }
    }
  }

  /** An octet, a dot, then octet fields: one more octet field. */
  lemma OctetThenFields(s: string, k: nat)
    requires k < |s| && s[k] == '.' && OctetPattern(s[..k])
    requires AllOctets(Split(s[k + 1..], '.'))
    ensures Split(s, '.') == [s[..k]] + Split(s[k + 1..], '.')
    ensures AllOctets(Split(s, '.'))
  {
    var head, tail := s[..k], s[k + 1..];
    OctetPatternIff(head);
    OctetHasNoDot(head);
    assert s == head + ['.'] + tail;
    SplitAtSep(head, '.', tail);
    AllOctetsCons(head, Split(tail, '.'));
  }

  lemma {:induction false} DottedOctetsToFields(s: string, n: nat)
    requires DottedOctets(s, n)
    ensures |Split(s, '.')| == n + 1 && AllOctets(Split(s, '.'))
    decreases n
  {
    if n == 0 {
      OctetPatternIff(s);
      OctetHasNoDot(s);
      SplitWithoutSep(s, '.');
    } else {
      var k :| 0 <= k < |s| && s[k] == '.' && OctetPattern(s[..k]) && DottedOctets(s[k + 1..], n - 1);
      DottedOctetsToFields(s[k + 1..], n - 1);
      OctetThenFields(s, k);
    }
  }

  lemma {:induction false} FieldsToDottedOctets(s: string, n: nat)
    requires |Split(s, '.')| == n + 1 && AllOctets(Split(s, '.'))
    ensures DottedOctets(s, n)
    decreases n
  {
    var fields := Split(s, '.');
    if n == 0 {
      if '.' in s {
        var k := FirstSep(s, '.');
        SplitAtSep(s[..k], '.', s[k + 1..]);
      }
      SplitWithoutSep(s, '.');
      OctetPatternIff(s);
    } else {
      SplitFieldsMeanSep(s, '.');
      var k := FirstSep(s, '.');
      SplitAtSep(s[..k], '.', s[k + 1..]);
      assert fields == [s[..k]] + Split(s[k + 1..], '.');
      assert IsOctetText(fields[0]);
      OctetPatternIff(s[..k]);
      assert Split(s[k + 1..], '.') == fields[1..];
      FieldsToDottedOctets(s[k + 1..], n - 1);
    }
  }

  /** (OCTET\.){n}OCTET matches exactly the strings with n + 1 dot-separated
      fields that are all octets. */
  lemma DottedOctetsIff(s: string, n: nat)
    ensures DottedOctets(s, n) <==> |Split(s, '.')| == n + 1 && AllOctets(Split(s, '.'))
  {
    if DottedOctets(s, n) {
      DottedOctetsToFields(s, n);
    }
    if |Split(s, '.')| == n + 1 && AllOctets(Split(s, '.')) {
      FieldsToDottedOctets(s, n);
    }
  }

  /** The IPv4 pattern accepts exactly four dot-separated octets of one to
      three digits, each with value at most 255. */
  lemma Ipv4PatternIff(s: string)
    ensures Ipv4Pattern(s) <==> IsDottedQuad(s)
  {
    DottedOctetsIff(s, 3);
  }

  /** Every string (OCTET\.){n}OCTET matches is non-empty and made of digits and dots. */
  lemma {:induction false} DottedOctetsChars(s: string, n: nat)
    requires DottedOctets(s, n)
    ensures |s| >= 1 && forall i :: 0 <= i < |s| ==> IsDigit(s[i]) || s[i] == '.'
    decreases n
  {
    if n == 0 {
      OctetPatternIff(s);
    } else {
      var k :| 0 <= k < |s| && s[k] == '.' && OctetPattern(s[..k]) && DottedOctets(s[k + 1..], n - 1);
      OctetPatternIff(s[..k]);
      DottedOctetsChars(s[k + 1..], n - 1);
      forall i | 0 <= i < |s|
        ensures IsDigit(s[i]) || s[i] == '.'
      {
        if i < k {
          assert s[i] == s[..k][i];
        } else if i > k {
          assert s[i] == s[k + 1..][i - k - 1];
        }
      }
    }
  }

  /** The `+` pattern accepts exactly the non-empty strings over the class. */
  lemma {:induction false} InterfacePatternIff(s: string)
    ensures InterfacePattern(s) <==> |s| >= 1 && forall i :: 0 <= i < |s| ==> IsInterfaceChar(s[i])
    decreases |s|
  {
    if |s| >= 2 {
      InterfacePatternIff(s[1..]);
      if forall i :: 0 <= i < |s| ==> IsInterfaceChar(s[i]) {
        assert forall i :: 0 <= i < |s[1..]| ==> IsInterfaceChar(s[1..][i]) by {
          forall i | 0 <= i < |s[1..]|
            ensures IsInterfaceChar(s[1..][i])
          {
            assert s[1..][i] == s[i + 1];
          }
        }
      }
      if InterfacePattern(s) {
        forall i | 0 <= i < |s|
          ensures IsInterfaceChar(s[i])
        {
          if i > 0 {
            assert s[i] == s[1..][i - 1];
          }
        }
      }
    }
  }

  /** Every string the IPv4 pattern accepts, the interface pattern accepts too. */
  lemma Ipv4ImpliesInterface(s: string)
    requires Ipv4Pattern(s)
    ensures InterfacePattern(s)
  {
    DottedOctetsChars(s, 3);
    InterfacePatternIff(s);
  }

  /** Neither pattern accepts a text with a newline in it, so each matches a
      text exactly when it accepts the text without its final newline. */
  lemma AnchoredMatchIff(s: string)
    ensures Ipv4Match(s) <==> Ipv4Pattern(WithoutFinalNewline(s))
    ensures InterfaceMatch(s) <==> InterfacePattern(WithoutFinalNewline(s))
  {
    InterfacePatternIff(s);
    assert !IsInterfaceChar('\n');
    if Ipv4Pattern(s) {
      Ipv4ImpliesInterface(s);
    }
  }

  /** Hence the warning is raised exactly for texts that, without a final
      newline, are empty or hold a character outside [a-zA-Z0-9_.-]; the IPv4
      alternative never decides it. */
  lemma FormatWarningIff(src: string)
    ensures NeedsFormatWarning(src) <==>
      src != [] && (WithoutFinalNewline(src) == [] || HasForeignChar(WithoutFinalNewline(src)))
  {
    var t := WithoutFinalNewline(src);
    AnchoredMatchIff(src);
    InterfacePatternIff(t);
    if Ipv4Pattern(t) {
      Ipv4ImpliesInterface(t);
    }
  }

  /** A text without newlines gets the warning exactly when it is non-empty
      and holds a character outside [a-zA-Z0-9_.-]. */
  lemma FormatWarningWithoutNewline(src: string)
    requires '\n' !in src
    ensures NeedsFormatWarning(src) <==> src != [] && HasForeignChar(src)
  {
    FormatWarningIff(src);
  }

  /** A trailing newline after an accepted name does not raise the warning. */
  lemma FinalNewlineAccepted(name: string)
    requires InterfacePattern(name)
    ensures !NeedsFormatWarning(name + "\n")
  {
    assert (name + "\n")[..|name|] == name;
  }
}
