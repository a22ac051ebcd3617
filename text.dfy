/** String helpers the graph builder relies on: the `\s` character class of
    ECMAScript regular expressions, lower-casing, the id normalisation
    `s.replace(/\s+/g, "-").toLowerCase()` and decimal rendering of an index. */
module Text {

  /** The code points matched by `\s` (ECMAScript WhiteSpace and LineTerminator). */
  predicate IsSpace(c: char) {
    || c == '\t' || c == '\n' || c == '\U{B}' || c == '\U{C}' || c == '\r' || c == ' '
    || c == '\U{A0}' || c == '\U{1680}' || ('\U{2000}' <= c <= '\U{200A}')
    || c == '\U{2028}' || c == '\U{2029}' || c == '\U{202F}' || c == '\U{205F}'
    || c == '\U{3000}' || c == '\U{FEFF}'
  }

  /** Lower-casing of one character: ASCII and Latin-1 capitals; every other
      character is its own lower case in this model. */
  function LowerChar(c: char): char {
    if 'A' <= c <= 'Z' || ('\U{C0}' <= c <= '\U{DE}' && c != '\U{D7}') then
      (c as int + 32) as char
    else
      c
  }

  function LowerStr(s: string): (r: string)
    ensures |r| == |s|
  {
    seq(|s|, i requires 0 <= i < |s| => LowerChar(s[i]))
  }

  predicate NoSpace(s: string) {
    forall i :: 0 <= i < |s| ==> !IsSpace(s[i])
  }

  predicate AllSpace(s: string) {
    forall i :: 0 <= i < |s| ==> IsSpace(s[i])
  }

  /** Drops the leading run of whitespace. */
  function DropSpaces(s: string): (r: string)
    ensures |r| <= |s|
    ensures r == [] || !IsSpace(r[0])
  {
    if s != [] && IsSpace(s[0]) then DropSpaces(s[1..]) else s
  }

  /** `s.replace(/\s+/g, "-")`: every maximal whitespace run becomes one dash. */
  function ReplaceSpaceRuns(s: string): (r: string)
    ensures NoSpace(r)
    ensures |r| <= |s|
    ensures |r| == 0 <==> |s| == 0
    decreases |s|
  {
    if s == [] then []
    else if IsSpace(s[0]) then "-" + ReplaceSpaceRuns(DropSpaces(s[1..]))
    else [s[0]] + ReplaceSpaceRuns(s[1..])
  }

  /** The name part of every node id. */
  function Normalize(s: string): string {
    LowerStr(ReplaceSpaceRuns(s))
  }

  function DigitChar(d: nat): char
    requires d < 10
  {
    ('0' as int + d) as char
  }

  predicate IsDigit(c: char) {
    '0' <= c <= '9'
  }

  predicate AllDigits(s: string) {
    forall i :: 0 <= i < |s| ==> IsDigit(s[i])
  }

  /** Decimal rendering of a natural number, as `${index}` prints it. */
  function NatToString(n: nat): (r: string)
    ensures |r| > 0 && AllDigits(r)
  {
    if n < 10 then [DigitChar(n)] else NatToString(n / 10) + [DigitChar(n % 10)]
  }

  /** The value of a string of decimal digits. */
  function DigitsValue(s: string): nat
    requires AllDigits(s)
  {
    if s == [] then 0 else DigitsValue(s[..|s| - 1]) * 10 + (s[|s| - 1] as int - '0' as int)
  }

  /** The longest prefix of `s` made of decimal digits. */
  function TakeDigits(s: string): (r: string)
    ensures AllDigits(r) && r <= s
    ensures r == s || !IsDigit(s[|r|])
  {
    if s != [] && IsDigit(s[0]) then [s[0]] + TakeDigits(s[1..]) else []
  }

  // ---------------------------------------------------------------------------
  // Properties of lower-casing

  lemma LowerCharKeepsSpace(c: char)
    ensures IsSpace(LowerChar(c)) <==> IsSpace(c)
    ensures LowerChar(LowerChar(c)) == LowerChar(c)
  {
  }

  /** Lower-casing a string twice is lower-casing it once. */
  lemma LowerStrIdempotent(s: string)
    ensures LowerStr(LowerStr(s)) == LowerStr(s)
  {
    forall i | 0 <= i < |s| ensures LowerStr(LowerStr(s))[i] == LowerStr(s)[i] {
      LowerCharKeepsSpace(s[i]);
    }
  }

  // ---------------------------------------------------------------------------
  // Properties of the whitespace-run replacement

  lemma {:induction false} DropSpacesOfLower(s: string)
    ensures DropSpaces(LowerStr(s)) == LowerStr(DropSpaces(s))
    decreases |s|
  {
    if s != [] {
      LowerCharKeepsSpace(s[0]);
      assert LowerStr(s)[1..] == LowerStr(s[1..]);
      if IsSpace(s[0]) {
        DropSpacesOfLower(s[1..]);
      }
    }
  }

  lemma LowerStrAppend(a: string, b: string)
    ensures LowerStr(a + b) == LowerStr(a) + LowerStr(b)
  {
    assert forall i :: 0 <= i < |a| ==> (a + b)[i] == a[i];
    assert forall i :: |a| <= i < |a| + |b| ==> (a + b)[i] == b[i - |a|];
  }

  /** Replacing whitespace runs commutes with lower-casing. */
  lemma {:induction false} ReplaceSpaceRunsOfLower(s: string)
    ensures ReplaceSpaceRuns(LowerStr(s)) == LowerStr(ReplaceSpaceRuns(s))
    decreases |s|
  {
    if s != [] {
      var tail := s[1..];
      LowerCharKeepsSpace(s[0]);
      assert LowerStr(s)[1..] == LowerStr(tail);
      if IsSpace(s[0]) {
        var rest := DropSpaces(tail);
        DropSpacesOfLower(tail);
        ReplaceSpaceRunsOfLower(rest);
        LowerStrAppend("-", ReplaceSpaceRuns(rest));
      } else {
        ReplaceSpaceRunsOfLower(tail);
        LowerStrAppend([s[0]], ReplaceSpaceRuns(tail));
      }
    }
  }

  lemma {:induction false} ReplaceSpaceRunsOfNoSpace(s: string)
    requires NoSpace(s)
    ensures ReplaceSpaceRuns(s) == s
    decreases |s|
  {
    if s != [] {
      ReplaceSpaceRunsOfNoSpace(s[1..]);
    }
  }

  lemma {:induction false} DropSpacesAfterSpaces(u: string, v: string)
    requires AllSpace(u)
    ensures DropSpaces(u + v) == DropSpaces(v)
    decreases |u|
  {
    if u == [] {
      assert u + v == v;
    } else {
      assert (u + v)[0] == u[0] && (u + v)[1..] == u[1..] + v;
      DropSpacesAfterSpaces(u[1..], v);
    }
  }

  lemma {:induction false} DropSpacesIsSuffix(s: string)
    ensures DropSpaces(s) == s[|s| - |DropSpaces(s)|..]
    decreases |s|
  {
    if s != [] && IsSpace(s[0]) {
      DropSpacesIsSuffix(s[1..]);
    }
  }

  lemma {:induction false} DropSpacesBeforeWord(u: string, v: string)
    requires !AllSpace(u)
    ensures DropSpaces(u + v) == DropSpaces(u) + v
    decreases |u|
  {
    if IsSpace(u[0]) {
      assert (u + v)[1..] == u[1..] + v;
      DropSpacesBeforeWord(u[1..], v);
    }
  }

  /** A whitespace run of any non-zero length between the same two strings
      gives the same result. */
  lemma {:induction false} ReplaceSpaceRunsRunLength(a: string, w1: string, w2: string, b: string)
    requires |w1| > 0 && AllSpace(w1) && |w2| > 0 && AllSpace(w2)
    ensures ReplaceSpaceRuns(a + w1 + b) == ReplaceSpaceRuns(a + w2 + b)
    decreases |a|
  {
    if a == [] {
      assert a + w1 + b == w1 + b && a + w2 + b == w2 + b;
      assert (w1 + b)[1..] == w1[1..] + b && (w2 + b)[1..] == w2[1..] + b;
      DropSpacesAfterSpaces(w1[1..], b);
      DropSpacesAfterSpaces(w2[1..], b);
    } else {
      assert (a + w1 + b)[1..] == a[1..] + w1 + b;
      assert (a + w2 + b)[1..] == a[1..] + w2 + b;
      if !IsSpace(a[0]) {
        ReplaceSpaceRunsRunLength(a[1..], w1, w2, b);
      } else if AllSpace(a[1..]) {
        assert a[1..] + w1 + b == (a[1..] + w1) + b && a[1..] + w2 + b == (a[1..] + w2) + b;
        DropSpacesAfterSpaces(a[1..] + w1, b);
        DropSpacesAfterSpaces(a[1..] + w2, b);
      } else {
        assert a[1..] + w1 + b == a[1..] + (w1 + b) && a[1..] + w2 + b == a[1..] + (w2 + b);
        DropSpacesBeforeWord(a[1..], w1 + b);
        DropSpacesBeforeWord(a[1..], w2 + b);
        var a' := DropSpaces(a[1..]);
        assert a' + (w1 + b) == a' + w1 + b && a' + (w2 + b) == a' + w2 + b;
        ReplaceSpaceRunsRunLength(a', w1, w2, b);
      }
    }
  }

  /** Whitespace at the end of a name is not trimmed: it becomes a final dash. */
  lemma {:induction false} ReplaceSpaceRunsTrailing(s: string, w: string)
    requires |w| > 0 && AllSpace(w)
    requires s == [] || !IsSpace(s[|s| - 1])
    ensures ReplaceSpaceRuns(s + w) == ReplaceSpaceRuns(s) + "-"
    decreases |s|
  {
    if s == [] {
      assert s + w == w && w[1..] == w[1..] + [];
      DropSpacesAfterSpaces(w[1..], []);
    } else {
      var tail := s[1..];
      assert (s + w)[1..] == tail + w;
      if IsSpace(s[0]) {
        LeadingSpaceTrailing(s, w);
      } else {
        ReplaceSpaceRunsTrailing(tail, w);
      }
    }
  }

  /** The step of ReplaceSpaceRunsTrailing for a name that starts with
      whitespace: the leading run is dropped, then the rest ends in a word. */
  lemma {:induction false} LeadingSpaceTrailing(s: string, w: string)
    requires |w| > 0 && AllSpace(w)
    requires |s| > 0 && IsSpace(s[0]) && !IsSpace(s[|s| - 1])
    ensures ReplaceSpaceRuns(s + w) == ReplaceSpaceRuns(s) + "-"
    decreases |s|, 0
  {
    var tail := s[1..];
    assert (s + w)[1..] == tail + w;
    assert !AllSpace(tail) by {
      assert tail[|tail| - 1] == s[|s| - 1];
    }
    DropSpacesBeforeWord(tail, w);
    var rest := DropSpaces(tail);
    DropSpacesIsSuffix(tail);
    assert rest[|rest| - 1] == s[|s| - 1];
    ReplaceSpaceRunsTrailing(rest, w);
  }

  // ---------------------------------------------------------------------------
  // Properties of the normalisation

  /** Names that differ only in letter case normalise to the same string. */
  lemma NormalizeIgnoresCase(s: string, t: string)
    requires LowerStr(s) == LowerStr(t)
    ensures Normalize(s) == Normalize(t)
  {
    ReplaceSpaceRunsOfLower(s);
    ReplaceSpaceRunsOfLower(t);
  }

  /** Names that differ only in the length of a whitespace run normalise to
      the same string. */
  lemma NormalizeIgnoresRunLength(a: string, w1: string, w2: string, b: string)
    requires |w1| > 0 && AllSpace(w1) && |w2| > 0 && AllSpace(w2)
    ensures Normalize(a + w1 + b) == Normalize(a + w2 + b)
  {
    ReplaceSpaceRunsRunLength(a, w1, w2, b);
  }

  /** Trailing whitespace survives normalisation as a final dash, so
      "KEPCO " and "KEPCO" do not normalise alike. */
  lemma NormalizeKeepsTrailingSpace(s: string, w: string)
    requires |w| > 0 && AllSpace(w)
    requires s == [] || !IsSpace(s[|s| - 1])
    ensures Normalize(s + w) == Normalize(s) + "-"
    ensures Normalize(s + w) != Normalize(s)
  {
    ReplaceSpaceRunsTrailing(s, w);
    assert LowerStr(ReplaceSpaceRuns(s) + "-") == LowerStr(ReplaceSpaceRuns(s)) + "-";
  }

  /** Leading whitespace survives normalisation as a first dash. */
  lemma NormalizeKeepsLeadingSpace(w: string, s: string)
    requires |w| > 0 && AllSpace(w)
    requires s == [] || !IsSpace(s[0])
    ensures Normalize(w + s) == "-" + Normalize(s)
  {
    assert (w + s)[1..] == w[1..] + s;
    DropSpacesAfterSpaces(w[1..], s);
    assert LowerStr("-" + ReplaceSpaceRuns(s)) == "-" + LowerStr(ReplaceSpaceRuns(s));
  }

  /** A normalised name is a fixed point of the normalisation. */
  lemma NormalizeIdempotent(s: string)
    ensures Normalize(Normalize(s)) == Normalize(s)
  {
    var r := ReplaceSpaceRuns(s);
    forall i | 0 <= i < |r| ensures !IsSpace(LowerStr(r)[i]) {
      LowerCharKeepsSpace(r[i]);
    }
    ReplaceSpaceRunsOfNoSpace(LowerStr(r));
    LowerStrIdempotent(r);
  }

  /** A normalised name holds no whitespace and is empty only for an empty name. */
  lemma NormalizeShape(s: string)
    ensures NoSpace(Normalize(s))
    ensures |Normalize(s)| == 0 <==> |s| == 0
  {
    var r := ReplaceSpaceRuns(s);
    forall i | 0 <= i < |r| ensures !IsSpace(LowerStr(r)[i]) {
      LowerCharKeepsSpace(r[i]);
    }
  }

  /** A name without whitespace and without capitals is its own normalisation. */
  lemma NormalizeOfPlain(s: string)
    requires NoSpace(s)
    requires forall i :: 0 <= i < |s| ==> LowerChar(s[i]) == s[i]
    ensures Normalize(s) == s
  {
    ReplaceSpaceRunsOfNoSpace(s);
  }

  /** The first character of a name that does not start with whitespace is
      kept, lower-cased. */
  lemma NormalizeHead(s: string)
    requires |s| > 0 && !IsSpace(s[0])
    ensures |Normalize(s)| > 0 && Normalize(s)[0] == LowerChar(s[0])
  {
  }

  // ---------------------------------------------------------------------------
  // Decimal round trip

  lemma {:induction false} DigitsValueOfNatToString(n: nat)
    ensures DigitsValue(NatToString(n)) == n
  {
    if n >= 10 {
      DigitsValueOfNatToString(n / 10);
      var s := NatToString(n / 10) + [DigitChar(n % 10)];
      assert s[..|s| - 1] == NatToString(n / 10);
    }
  }

  lemma {:induction false} TakeDigitsOfDigits(d: string, rest: string)
    requires AllDigits(d)
    requires rest == [] || !IsDigit(rest[0])
    ensures TakeDigits(d + rest) == d
    decreases |d|
  {
    if d != [] {
      assert (d + rest)[1..] == d[1..] + rest;
      TakeDigitsOfDigits(d[1..], rest);
    }
  }
}
