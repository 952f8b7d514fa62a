/**
 The two string operations the cleansing pipeline applies to field values:
 Python's `str.strip()` (no argument) and the leading-zero rule
 `value.lstrip('0') or '0'`, guarded by a digit test on the first character.
 */
module Text {

  /** Whitespace removed by `str.strip()`, restricted to the ASCII range:
      U+0009..U+000D (tab, line feed, vertical tab, form feed, carriage return),
      U+001C..U+001F (the information separators) and the space. Python also
      strips non-ASCII whitespace such as U+0085 and U+00A0; this model does not. */
  predicate IsSpace(c: char)
  {
    c == ' ' || ('\t' <= c <= '\r') || ('\U{1C}' <= c <= '\U{1F}')
  }

  /** `str.isdigit()` on one character, restricted to '0'..'9'. Python also
      accepts other Unicode digits; `DigitSetIrrelevant` below shows that the
      leading-zero rule gives the same result for every digit set that
      contains '0', so the restriction loses nothing. */
  predicate IsDigit(c: char)
  {
    '0' <= c <= '9'
  }

  ghost predicate AllSpace(s: string)
  {
    forall k :: 0 <= k < |s| ==> IsSpace(s[k])
  }

  ghost predicate AllZeros(s: string)
  {
    forall k :: 0 <= k < |s| ==> s[k] == '0'
  }

  /** Neither end of `s` is whitespace. */
  ghost predicate NoEdgeSpace(s: string)
  {
    s == [] || (!IsSpace(s[0]) && !IsSpace(s[|s| - 1]))
  }

  // ---------------------------------------------------------------------------
  // str.strip()

  /** Removes the whitespace at the front: what is left is a suffix of `s`,
      everything removed is whitespace, and what is left does not start with
      whitespace. */
  function TrimStart(s: string): string
  {
    if |s| > 0 && IsSpace(s[0]) then TrimStart(s[1..]) else s
  }

  lemma {:induction false} TrimStartShape(s: string)
    ensures var r := TrimStart(s); |r| <= |s| && r == s[|s| - |r|..]
    ensures var r := TrimStart(s); AllSpace(s[..|s| - |r|])
    ensures var r := TrimStart(s); r == [] || !IsSpace(r[0])
  {
    if |s| > 0 && IsSpace(s[0]) {
      TrimStartShape(s[1..]);
      var r := TrimStart(s[1..]);
      assert s[..|s| - |r|] == [s[0]] + s[1..][..|s| - 1 - |r|];
    }
  }

  /** Removes the whitespace at the back: what is left is a prefix of `s`,
      everything removed is whitespace, and what is left does not end with
      whitespace. */
  function TrimEnd(s: string): string
  {
    if |s| > 0 && IsSpace(s[|s| - 1]) then TrimEnd(s[..|s| - 1]) else s
  }

  lemma {:induction false} TrimEndShape(s: string)
    ensures var r := TrimEnd(s); |r| <= |s| && r == s[..|r|]
    ensures var r := TrimEnd(s); AllSpace(s[|r|..])
    ensures var r := TrimEnd(s); r == [] || !IsSpace(r[|r| - 1])
  {
    if |s| > 0 && IsSpace(s[|s| - 1]) {
      TrimEndShape(s[..|s| - 1]);
      var r := TrimEnd(s[..|s| - 1]);
      assert s[|r|..] == s[..|s| - 1][|r|..] + [s[|s| - 1]];
    }
  }

  /** `s.strip()`: never longer than `s`, and with no whitespace at either end. */
  function Strip(s: string): (r: string)
    ensures |r| <= |s|
    ensures NoEdgeSpace(r)
  {
    var t := TrimStart(s);
    TrimStartShape(s);
    TrimEndShape(t);
    var r := TrimEnd(t);
    assert r != [] ==> r[0] == t[0];
    r
  }

  /** `r` is what is left of `s` once whitespace is cut from both ends: a
      contiguous slice of `s`, everything cut is whitespace, and nothing more
      could be cut. This is the meaning of `str.strip()` stated without any
      loop or recursion. */
  ghost predicate IsStripOf(r: string, s: string)
  {
    exists i, j :: 0 <= i <= j <= |s| && r == s[i..j] && AllSpace(s[..i]) && AllSpace(s[j..]) && NoEdgeSpace(r)
  }

  lemma StripIsStripOf(s: string)
    ensures IsStripOf(Strip(s), s)
  {
    var t := TrimStart(s);
    TrimStartShape(s);
    TrimEndShape(t);
    var r := TrimEnd(t);
    var i := |s| - |t|;
    var j := i + |r|;
    assert r == s[i..j];
    assert s[j..] == t[|r|..];
  }

  /** Cutting a whitespace prefix up to the first non-whitespace character
      is what TrimStart does. */
  lemma {:induction false} TrimStartAt(s: string, i: nat)
    requires i <= |s| && AllSpace(s[..i])
    requires i == |s| || !IsSpace(s[i])
    ensures TrimStart(s) == s[i..]
    decreases i
  {
    if i > 0 {
      assert IsSpace(s[0]) by { assert s[..i][0] == s[0]; }
      var s' := s[1..];
      assert s'[..i - 1] == s[..i][1..];
      assert i - 1 < |s'| ==> s'[i - 1] == s[i];
      TrimStartAt(s', i - 1);
      assert s'[i - 1..] == s[i..];
    }
  }

  /** Cutting a whitespace suffix back to the last non-whitespace character
      is what TrimEnd does. */
  lemma {:induction false} TrimEndAt(s: string, j: nat)
    requires j <= |s| && AllSpace(s[j..])
    requires j == 0 || !IsSpace(s[j - 1])
    ensures TrimEnd(s) == s[..j]
    decreases |s| - j
  {
    if j < |s| {
      var s' := s[..|s| - 1];
      assert s'[j..] == s[j..|s| - 1];
      TrimEndAt(s', j);
      assert s'[..j] == s[..j];
    }
  }

  /** Cutting whitespace from both ends of `s` between `i` and `j`, when
      nothing more could be cut, is what Strip does. */
  lemma StripAt(s: string, i: nat, j: nat)
    requires i <= j <= |s| && AllSpace(s[..i]) && AllSpace(s[j..])
    requires NoEdgeSpace(s[i..j])
    ensures Strip(s) == s[i..j]
  {
    if i == j {
      assert AllSpace(s) by {
        forall k | 0 <= k < |s| ensures IsSpace(s[k]) {
          if k < i { assert s[..i][k] == s[k]; } else { assert s[j..][k - j] == s[k]; }
        }
      }
      TrimStartAt(s, |s|);
      assert s[|s|..] == [];
    } else {
      assert s[i..j][0] == s[i];
      TrimStartAt(s, i);
      var t := s[i..];
      assert t[j - i..] == s[j..];
      assert t[j - i - 1] == s[i..j][j - i - 1];
      TrimEndAt(t, j - i);
      assert t[..j - i] == s[i..j];
    }
  }

  /** The converse of StripIsStripOf: whatever satisfies the description is
      exactly `Strip(s)`. Together: `IsStripOf(r, s) <==> r == Strip(s)`. */
  lemma StripOfIsStrip(r: string, s: string)
    requires IsStripOf(r, s)
    ensures r == Strip(s)
  {
    var i, j :| 0 <= i <= j <= |s| && r == s[i..j] && AllSpace(s[..i]) && AllSpace(s[j..]) && NoEdgeSpace(r);
    StripAt(s, i, j);
  }

  /** Whitespace padding on either side of a value that neither starts nor
      ends with whitespace is exactly what Strip removes. */
  lemma StripPadded(before: string, core: string, after: string)
    requires AllSpace(before) && AllSpace(after) && NoEdgeSpace(core)
    ensures Strip(before + core + after) == core
  {
    var s := before + core + after;
    assert s[..|before|] == before;
    assert s[|before| + |core|..] == after;
    assert s[|before|..|before| + |core|] == core;
    StripAt(s, |before|, |before| + |core|);
  }

  /** Strip leaves nothing exactly when everything is whitespace. */
  lemma StripEmpty(s: string)
    ensures Strip(s) == [] <==> AllSpace(s)
  {
    var t := TrimStart(s);
    TrimStartShape(s);
    TrimEndShape(t);
    if t == [] {
      assert s[..|s|] == s;
    } else {
      assert t[0] == s[|s| - |t|];
    }
  }

  /** Stripping twice is stripping once. */
  lemma StripIdempotent(s: string)
    ensures Strip(Strip(s)) == Strip(s)
  {
    var r := Strip(s);
    assert r[0..|r|] == r && r[..0] == [] && r[|r|..] == [];
    StripAt(r, 0, |r|);
  }

  // ---------------------------------------------------------------------------
  // The leading-zero rule

  /** `s.lstrip('0')`: a suffix of `s`, everything removed is '0', and the
      rest does not start with '0'. */
  function LStripZeros(s: string): string
  {
    if |s| > 0 && s[0] == '0' then LStripZeros(s[1..]) else s
  }

  lemma {:induction false} LStripZerosShape(s: string)
    ensures var r := LStripZeros(s); |r| <= |s| && r == s[|s| - |r|..]
    ensures var r := LStripZeros(s); AllZeros(s[..|s| - |r|])
    ensures var r := LStripZeros(s); r == [] || r[0] != '0'
  {
    if |s| > 0 && s[0] == '0' {
      LStripZerosShape(s[1..]);
      var r := LStripZeros(s[1..]);
      assert s[..|s| - |r|] == [s[0]] + s[1..][..|s| - 1 - |r|];
    }
  }

  /** The rule applied to one string value: an empty value or one whose first
      character is not a digit is kept; otherwise the leading '0's go, and an
      all-'0' value becomes "0". */
  function StripLeadingZeros(s: string): (r: string)
    ensures (r == []) == (s == [])
    ensures |r| <= |s|
    ensures r == [] || r == "0" || r[0] != '0'
  {
    if s != [] && IsDigit(s[0]) then
      var t := LStripZeros(s);
      LStripZerosShape(s);
      if t == [] then "0" else t
    else
      s
  }

  /** What the rule removes: "0" comes back exactly for a non-empty all-'0'
      value; any other result is the suffix left after a run of '0's. */
  lemma StripLeadingZerosShape(s: string)
    ensures StripLeadingZeros(s) == "0" <==> s != [] && AllZeros(s)
    ensures var r := StripLeadingZeros(s); r != "0" ==> r == s[|s| - |r|..] && AllZeros(s[..|s| - |r|])
  {
    if s != [] && IsDigit(s[0]) {
      var t := LStripZeros(s);
      LStripZerosShape(s);
      if t == [] {
        assert s[..|s|] == s;
      } else {
        assert t[0] == s[|s| - |t|];
        if AllZeros(s) {
          assert false;
        }
      }
    } else {
      assert s[..0] == [];
    }
  }

  /** The digit test matters only through '0': for any digit predicate that
      accepts '0' (Python's Unicode-aware `isdigit` among them) the rule
      yields what StripLeadingZeros yields, since `lstrip('0')` leaves a
      string alone unless it starts with '0'. */
  lemma DigitSetIrrelevant(isDigit: char -> bool, s: string)
    requires isDigit('0')
    ensures StripLeadingZeros(s) ==
            if s != [] && isDigit(s[0]) then (if LStripZeros(s) == [] then "0" else LStripZeros(s)) else s
  {
  }

  /** Applying the rule twice is applying it once. */
  lemma StripLeadingZerosIdempotent(s: string)
    ensures StripLeadingZeros(StripLeadingZeros(s)) == StripLeadingZeros(s)
  {
    var r := StripLeadingZeros(s);
    if r == "0" {
      assert LStripZeros(r) == LStripZeros(r[1..]) && r[1..] == [];
    } else if r != [] {
      assert LStripZeros(r) == r;
    }
  }

  /** Only the first character is tested: "00A" loses its zeros although it
      is not numeric, and so does a lot code such as "00LOT123". */
  lemma ZerosBeforeLetter()
    ensures StripLeadingZeros("00A") == "A"
    ensures StripLeadingZeros("00LOT123") == "LOT123"
  {
    assert "00A"[1..] == "0A" && "0A"[1..] == "A";
    assert LStripZeros("00A") == "A";
    assert "00LOT123"[1..] == "0LOT123" && "0LOT123"[1..] == "LOT123";
    assert LStripZeros("00LOT123") == "LOT123";
  }

  /** An all-zero value keeps one '0'. */
  lemma AllZerosKeepOne()
    ensures StripLeadingZeros("000") == "0"
  {
    assert "000"[1..] == "00" && "00"[1..] == "0" && "0"[1..] == "";
    assert LStripZeros("000") == "";
  }

  /** A value that starts with a letter is kept, zeros and all. */
  lemma LetterFirstKept()
    ensures StripLeadingZeros("LOT001") == "LOT001"
  {
  }

  /** Padded numeric text, as in the service's unit test. */
  lemma PaddedNinetyFive()
    ensures Strip("  95  ") == "95" && StripLeadingZeros("95") == "95"
  {
    assert "  95  " == "  " + "95" + "  ";
    StripPadded("  ", "95", "  ");
  }

  /** A slash date has no padding, so only its leading zero goes. */
  lemma SlashDateLosesZero()
    ensures Strip("02/10/2026") == "02/10/2026" && StripLeadingZeros("02/10/2026") == "2/10/2026"
  {
    assert "02/10/2026" == "" + "02/10/2026" + "";
    StripPadded("", "02/10/2026", "");
    assert "02/10/2026"[1..] == "2/10/2026";
  }

  lemma PaddedSeven()
    ensures Strip("  007 ") == "007" && StripLeadingZeros("007") == "7"
  {
    assert "  007 " == "  " + "007" + " ";
    StripPadded("  ", "007", " ");
    assert "007"[1..] == "07" && "07"[1..] == "7";
  }

  /** Before trimming, the padding hides the zeros from the digit test. */
  lemma PaddingHidesZeros()
    ensures StripLeadingZeros("  007 ") == "  007 "
  {
  }

  /** A zero in front of inner whitespace: stripping the zero exposes a space. */
  lemma ZeroBeforeSpaceTrimmed()
    ensures Strip("0 5") == "0 5"
  {
    assert "0 5"[0..3] == "0 5" && "0 5"[..0] == [] && "0 5"[3..] == [];
    StripAt("0 5", 0, 3);
  }

  lemma ZeroBeforeSpaceStripped()
    ensures StripLeadingZeros("0 5") == " 5"
  {
    assert "0 5"[1..] == " 5";
  }

  lemma SpaceBeforeFive()
    ensures Strip(" 5") == "5" && StripLeadingZeros("5") == "5"
  {
    assert " 5" == " " + "5" + [];
    StripPadded(" ", "5", []);
  }

  /** The string fields of the service's unit-test row. */
  lemma PaddedLotCode()
    ensures Strip("  LOT001  ") == "LOT001" && StripLeadingZeros("LOT001") == "LOT001"
  {
    assert "  LOT001  " == "  " + "LOT001" + "  ";
    StripPadded("  ", "LOT001", "  ");
  }

  lemma PaddedLine()
    ensures Strip(" LINE_A ") == "LINE_A" && StripLeadingZeros("LINE_A") == "LINE_A"
  {
    assert " LINE_A " == " " + "LINE_A" + " ";
    StripPadded(" ", "LINE_A", " ");
  }

  lemma PaddedShift()
    ensures Strip("  FIRST  ") == "FIRST" && StripLeadingZeros("FIRST") == "FIRST"
  {
    assert "  FIRST  " == "  " + "FIRST" + "  ";
    StripPadded("  ", "FIRST", "  ");
  }

  // ---------------------------------------------------------------------------
  // Both rules in the service's order

  /** A string value after trimming and then zero-stripping: never longer
      than before, empty exactly when it was all whitespace, never ending in
      whitespace, and "0" or not starting with '0'. */
  lemma CleanStringMeaning(s: string)
    ensures |StripLeadingZeros(Strip(s))| <= |s|
    ensures StripLeadingZeros(Strip(s)) == [] <==> AllSpace(s)
    ensures var c := StripLeadingZeros(Strip(s)); c == [] || !IsSpace(c[|c| - 1])
    ensures var c := StripLeadingZeros(Strip(s)); c == [] || c == "0" || c[0] != '0'
  {
    var t := Strip(s);
    var c := StripLeadingZeros(t);
    StripEmpty(s);
    StripLeadingZerosShape(t);
    if c != [] && c != "0" {
      assert c[|c| - 1] == t[|t| - 1];
    }
  }
}
