/**
 * The three pieces of Rust's `str` API that the workspace tool relies on:
 * `replace` (left-to-right, non-overlapping), `trim` and `split_whitespace`,
 * both of the latter driven by `char::is_whitespace`.
 */
module Text {

  /** `char::is_whitespace`: the Unicode White_Space property. */
  predicate IsWhitespace(c: char) {
    var n := c as int;
    (0x09 <= n <= 0x0D) || n == 0x20 || n == 0x85 || n == 0xA0 || n == 0x1680 ||
    (0x2000 <= n <= 0x200A) || n == 0x2028 || n == 0x2029 || n == 0x202F ||
    n == 0x205F || n == 0x3000
  }

  predicate NoWhitespace(s: string) {
    forall i :: 0 <= i < |s| ==> !IsWhitespace(s[i])
  }

  predicate AllWhitespace(s: string) {
    forall i :: 0 <= i < |s| ==> IsWhitespace(s[i])
  }

  // ---------------------------------------------------------------------------
  // str::replace
  // ---------------------------------------------------------------------------

  /** `pat` occurs in `s` starting at index `i`. */
  predicate OccursAt(s: string, pat: string, i: int) {
    0 <= i && i + |pat| <= |s| && s[i..i + |pat|] == pat
  }

  ghost predicate Contains(s: string, pat: string) {
    exists i :: OccursAt(s, pat, i)
  }

  /**
   * `s.replace(pat, rep)`: scan from the left, replace each match and resume
   * after it, so matches never overlap.
   */
  function ReplaceAll(s: string, pat: string, rep: string): (r: string)
    requires pat != []
    decreases |s|
  {
    if |s| < |pat| then s
    else if s[..|pat|] == pat then rep + ReplaceAll(s[|pat|..], pat, rep)
    else [s[0]] + ReplaceAll(s[1..], pat, rep)
  }

  /** Without an occurrence of the pattern, `replace` returns its input. */
  lemma {:induction false} ReplaceAllWithoutMatch(s: string, pat: string, rep: string)
    requires pat != []
    requires !Contains(s, pat)
    ensures ReplaceAll(s, pat, rep) == s
    decreases |s|
  {
    if |s| >= |pat| {
      assert !OccursAt(s, pat, 0);
      assert s[..|pat|] != pat;
      assert !Contains(s[1..], pat) by {
        forall i | OccursAt(s[1..], pat, i) ensures OccursAt(s, pat, i + 1) {
          assert s[1..][i..i + |pat|] == s[i + 1..i + 1 + |pat|];
        }
      }
      ReplaceAllWithoutMatch(s[1..], pat, rep);
    }
  }

  /** A pattern whose first character is absent from `s` does not occur in `s`. */
  lemma FirstCharAbsent(s: string, pat: string)
    requires pat != [] && pat[0] !in s
    ensures !Contains(s, pat)
  {
    forall i | 0 <= i && i + |pat| <= |s| ensures !OccursAt(s, pat, i) {
      assert s[i..i + |pat|][0] == s[i];
      assert s[i] in s;
    }
  }

  /** A pattern whose first character is absent from `a` starts no match inside `a`. */
  lemma NoMatchBefore(a: string, pat: string, b: string)
    requires pat != [] && pat[0] !in a
    ensures forall i :: 0 <= i < |a| ==> !OccursAt(a + pat + b, pat, i)
  {
    forall i | 0 <= i < |a| ensures !OccursAt(a + pat + b, pat, i) {
      assert (a + pat + b)[i] == a[i];
    }
  }

  /**
   * Splitting on the leftmost occurrence: when no match of the pattern
   * starts inside `a`, the first match in `a + pat + b` is the one between
   * `a` and `b`; it is replaced and scanning resumes on `b`.
   */
  lemma {:induction false} ReplaceAllAt(a: string, pat: string, rep: string, b: string)
    requires pat != []
    requires forall i :: 0 <= i < |a| ==> !OccursAt(a + pat + b, pat, i)
    ensures ReplaceAll(a + pat + b, pat, rep) == a + rep + ReplaceAll(b, pat, rep)
    decreases |a|
  {
    var s := a + pat + b;
    if a == [] {
      assert s == pat + b;
      assert s[..|pat|] == pat;
      assert s[|pat|..] == b;
    } else {
      assert !OccursAt(s, pat, 0);
      assert s[..|pat|] != pat;
      assert s[1..] == a[1..] + pat + b;
      forall i | 0 <= i < |a[1..]| ensures !OccursAt(a[1..] + pat + b, pat, i) {
        if OccursAt(s[1..], pat, i) {
          OccursShift(s, pat, i, 1);
        }
      }
      ReplaceAllAt(a[1..], pat, rep, b);
      assert [a[0]] + (a[1..] + rep + ReplaceAll(b, pat, rep)) == a + rep + ReplaceAll(b, pat, rep);
    }
  }

  /** A match at index `i` of `s[k..]` is a match at `i + k` of `s`. */
  lemma OccursShift(s: string, pat: string, i: int, k: nat)
    requires k <= |s| && OccursAt(s[k..], pat, i)
    ensures OccursAt(s, pat, i + k)
  {
    assert s[k..][i..i + |pat|] == s[i + k..i + k + |pat|];
  }

  /** Replacing with something no longer than the pattern never lengthens. */
  lemma {:induction false} ReplaceAllLength(s: string, pat: string, rep: string)
    requires pat != [] && |rep| <= |pat|
    ensures |ReplaceAll(s, pat, rep)| <= |s|
    ensures Contains(s, pat) && |rep| < |pat| ==> |ReplaceAll(s, pat, rep)| < |s|
    decreases |s|
  {
    if |s| < |pat| {
    } else if s[..|pat|] == pat {
      ReplaceAllLength(s[|pat|..], pat, rep);
    } else {
      ReplaceAllLength(s[1..], pat, rep);
      if Contains(s, pat) {
        var i :| OccursAt(s, pat, i);
        assert i != 0;
        assert s[1..][i - 1..i - 1 + |pat|] == s[i..i + |pat|];
        assert OccursAt(s[1..], pat, i - 1);
      }
    }
  }

  // ---------------------------------------------------------------------------
  // CRLF -> LF
  // ---------------------------------------------------------------------------

  const CRLF: string := "\r\n"
  const LF: string := "\n"

  /** The line-ending rewrite of the judge: `s.replace("\r\n", "\n")`. */
  function UnixLineEndings(s: string): string {
    ReplaceAll(s, CRLF, LF)
  }

  /** The Windows rendering of LF text: every "\n" written as "\r\n". */
  function WindowsLineEndings(s: string): (r: string)
    ensures |r| >= |s|
    ensures |s| > 0 ==> |r| > 0 && r[0] == (if s[0] == '\n' then '\r' else s[0])
  {
    if s == [] then []
    else (if s[0] == '\n' then CRLF else [s[0]]) + WindowsLineEndings(s[1..])
  }

  /**
   * Rewriting Windows line endings back to Unix ones recovers the original
   * text exactly, whatever it contains (lone "\r" included).
   */
  lemma {:induction false} LineEndingsRoundTrip(s: string)
    ensures UnixLineEndings(WindowsLineEndings(s)) == s
    decreases |s|
  {
    if s != [] {
      var t := WindowsLineEndings(s);
      var rest := WindowsLineEndings(s[1..]);
      LineEndingsRoundTrip(s[1..]);
      if s[0] == '\n' {
        assert t == CRLF + rest;
        assert t[..2] == CRLF;
        assert t[2..] == rest;
      } else {
        assert t == [s[0]] + rest;
        if |t| >= 2 {
          assert t[1] == rest[0];
          assert t[1] != '\n';
          assert t[..2] != CRLF by { assert t[..2][1] == t[1]; }
        }
        assert t[1..] == rest;
      }
    }
  }

  /** "\r\r\n": the only shape whose rewrite still contains a CRLF. */
  ghost predicate HasCrCrlf(s: string) {
    exists i :: OccursAt(s, "\r\r\n", i)
  }

  lemma UnixLineEndingsHead(s: string)
    requires |s| > 0
    ensures |UnixLineEndings(s)| > 0
    ensures UnixLineEndings(s)[0] == (if |s| >= 2 && s[..2] == CRLF then '\n' else s[0])
  {
  }

  /** Without "\r\r\n" in the input, one rewrite leaves no CRLF behind. */
  lemma {:induction false} UnixLineEndingsComplete(s: string)
    requires !HasCrCrlf(s)
    ensures !Contains(UnixLineEndings(s), CRLF)
    decreases |s|
  {
    var r := UnixLineEndings(s);
    if |s| < 2 {
      assert r == s;
    } else {
      var k := if s[..2] == CRLF then 2 else 1;
      assert !HasCrCrlf(s[k..]) by {
        forall i | 0 <= i && i + 3 <= |s[k..]| ensures !OccursAt(s[k..], "\r\r\n", i) {
          assert !OccursAt(s, "\r\r\n", i + k);
          assert s[k..][i..i + 3] == s[i + k..i + k + 3];
        }
      }
      UnixLineEndingsComplete(s[k..]);
      var tail := UnixLineEndings(s[k..]);
      assert r == r[..1] + tail;
      assert !OccursAt(r, CRLF, 0) by {
        if k == 2 {
          assert r[0] == '\n';
        } else if |r| >= 2 {
          assert !OccursAt(s, "\r\r\n", 0);
          UnixLineEndingsHead(s[1..]);
          assert r[0] == s[0] && r[1] == tail[0];
          assert r[..2][0] == r[0] && r[..2][1] == r[1];
        }
      }
      forall i | 0 < i && i + 2 <= |r| ensures !OccursAt(r, CRLF, i) {
        assert r[i..i + 2] == tail[i - 1..i + 1];
        assert !OccursAt(tail, CRLF, i - 1);
      }
    }
  }

  // ---------------------------------------------------------------------------
  // str::trim
  // ---------------------------------------------------------------------------

  /** `trim_start`: drops the leading whitespace and keeps the rest. */
  function TrimStart(s: string): (r: string)
    ensures |r| <= |s| && r == s[|s| - |r|..]
    ensures AllWhitespace(s[..|s| - |r|])
    ensures |r| > 0 ==> !IsWhitespace(r[0])
    decreases |s|
  {
    if |s| > 0 && IsWhitespace(s[0]) then TrimStart(s[1..]) else s
  }

  /** `trim_end`: drops the trailing whitespace and keeps the rest. */
  function TrimEnd(s: string): (r: string)
    ensures |r| <= |s| && r == s[..|r|]
    ensures AllWhitespace(s[|r|..])
    ensures |r| > 0 ==> !IsWhitespace(r[|r| - 1])
    decreases |s|
  {
    if |s| > 0 && IsWhitespace(s[|s| - 1]) then TrimEnd(s[..|s| - 1]) else s
  }

  /** `trim`: both ends. */
  function Trim(s: string): string {
    TrimEnd(TrimStart(s))
  }

  /**
   * What `trim` means: the result is the slice of the input left between a
   * whitespace-only prefix and a whitespace-only suffix, and it neither
   * starts nor ends with whitespace.
   */
  lemma TrimIsInnerSlice(s: string)
    ensures var r := Trim(s);
      exists lo, hi :: 0 <= lo <= hi <= |s| && r == s[lo..hi] &&
        AllWhitespace(s[..lo]) && AllWhitespace(s[hi..])
    ensures Trim(s) != [] ==> !IsWhitespace(Trim(s)[0]) && !IsWhitespace(Trim(s)[|Trim(s)| - 1])
  {
    var a := TrimStart(s);
    var r := TrimEnd(a);
    var lo := |s| - |a|;
    var hi := lo + |r|;
    assert a == s[lo..];
    assert r == a[..|r|];
    assert r == s[lo..hi];
    assert AllWhitespace(s[..lo]);
    assert s[hi..] == a[|r|..];
    assert AllWhitespace(s[hi..]);
    if r != [] {
      assert r[0] == a[0];
    }
  }

  /** `trim_start` removes a whitespace prefix in front of a non-whitespace character. */
  lemma {:induction false} TrimStartPadded(pad: string, x: string)
    requires AllWhitespace(pad) && (x == [] || !IsWhitespace(x[0]))
    ensures TrimStart(pad + x) == x
    decreases |pad|
  {
    if pad == [] {
      assert pad + x == x;
    } else {
      assert (pad + x)[0] == pad[0];
      assert (pad + x)[1..] == pad[1..] + x;
      TrimStartPadded(pad[1..], x);
    }
  }

  /** `trim_end` removes a whitespace suffix behind a non-whitespace character. */
  lemma {:induction false} TrimEndPadded(x: string, pad: string)
    requires AllWhitespace(pad) && (x == [] || !IsWhitespace(x[|x| - 1]))
    ensures TrimEnd(x + pad) == x
    decreases |pad|
  {
    if pad == [] {
      assert x + pad == x;
    } else {
      var s := x + pad;
      assert s[|s| - 1] == pad[|pad| - 1];
      assert s[..|s| - 1] == x + pad[..|pad| - 1];
      TrimEndPadded(x, pad[..|pad| - 1]);
    }
  }

  /** `trim` removes exactly the whitespace padding around a trimmed string. */
  lemma TrimPadded(pad1: string, core: string, pad2: string)
    requires AllWhitespace(pad1) && AllWhitespace(pad2)
    requires core == [] || (!IsWhitespace(core[0]) && !IsWhitespace(core[|core| - 1]))
    ensures Trim(pad1 + core + pad2) == core
  {
    if core == [] {
      assert pad1 + core + pad2 == (pad1 + pad2) + [];
      TrimStartPadded(pad1 + pad2, []);
    } else {
      assert pad1 + core + pad2 == pad1 + (core + pad2);
      assert (core + pad2)[0] == core[0];
      TrimStartPadded(pad1, core + pad2);
      TrimEndPadded(core, pad2);
    }
  }

  /** A string with no outer whitespace is left alone by `trim`. */
  lemma TrimFixedPoint(s: string)
    requires s == [] || (!IsWhitespace(s[0]) && !IsWhitespace(s[|s| - 1]))
    ensures Trim(s) == s
  {
  }

  lemma TrimIdempotent(s: string)
    ensures Trim(Trim(s)) == Trim(s)
  {
    TrimIsInnerSlice(s);
    TrimFixedPoint(Trim(s));
  }

  // ---------------------------------------------------------------------------
  // Output normalisation of the judge
  // ---------------------------------------------------------------------------

  /** `s.replace("\r\n", "\n").trim()`. */
  function Normalize(s: string): (r: string)
    ensures r == [] || (!IsWhitespace(r[0]) && !IsWhitespace(r[|r| - 1]))
    ensures |r| <= |s|
  {
    ReplaceAllLength(s, CRLF, LF);
    TrimIsInnerSlice(UnixLineEndings(s));
    Trim(UnixLineEndings(s))
  }

  /** A CRLF inside a slice is a CRLF of the whole string. */
  lemma SliceContains(s: string, lo: int, hi: int, pat: string)
    requires 0 <= lo <= hi <= |s| && Contains(s[lo..hi], pat)
    ensures Contains(s, pat)
  {
    var i :| OccursAt(s[lo..hi], pat, i);
    var t := s[lo..];
    assert s[lo..hi] == t[..hi - lo];
    assert t[..hi - lo][i..i + |pat|] == t[i..i + |pat|];
    OccursShift(s, pat, i, lo);
    assert OccursAt(s, pat, lo + i);
  }

  /**
   * Normalising twice gives the same result exactly when the first result
   * holds no CRLF; normalisation is therefore not idempotent in general.
   */
  lemma NormalizeTwice(s: string)
    ensures Normalize(Normalize(s)) == Normalize(s) <==> !Contains(Normalize(s), CRLF)
  {
    var n := Normalize(s);
    if Contains(n, CRLF) {
      ReplaceAllLength(n, CRLF, LF);
      assert |Normalize(n)| < |n|;
    } else {
      ReplaceAllWithoutMatch(n, CRLF, LF);
      TrimFixedPoint(n);
    }
  }

  /** Normalisation is idempotent on text without "\r\r\n". */
  lemma NormalizeIdempotent(s: string)
    requires !HasCrCrlf(s)
    ensures Normalize(Normalize(s)) == Normalize(s)
  {
    var u := UnixLineEndings(s);
    UnixLineEndingsComplete(s);
    TrimIsInnerSlice(u);
    if Contains(Normalize(s), CRLF) {
      var lo, hi :| 0 <= lo <= hi <= |u| && Trim(u) == u[lo..hi];
      SliceContains(u, lo, hi, CRLF);
    }
    NormalizeTwice(s);
  }

  lemma UnixLineEndingsOfCrCrlf()
    ensures UnixLineEndings("a\r\r\nb") == "a\r\nb"
  {
    var s := "a\r\r\nb";
    assert s == "a\r" + CRLF + "b";
    assert s[0..2][0] == 'a' && s[1..3][1] == '\r';
    ReplaceAllAt("a\r", CRLF, LF, "b");
    assert UnixLineEndings("b") == "b";
  }

  lemma UnixLineEndingsOfCrlf()
    ensures UnixLineEndings("a\r\nb") == "a\nb"
  {
    var s := "a\r\nb";
    assert s == "a" + CRLF + "b";
    NoMatchBefore("a", CRLF, "b");
    ReplaceAllAt("a", CRLF, LF, "b");
    assert UnixLineEndings("b") == "b";
  }

  lemma NormalizeOfCrCrlf()
    ensures Normalize("a\r\r\nb") == "a\r\nb"
  {
    UnixLineEndingsOfCrCrlf();
    TrimFixedPoint("a\r\nb");
  }

  lemma NormalizeOfCrlf()
    ensures Normalize("a\r\nb") == "a\nb"
  {
    UnixLineEndingsOfCrlf();
    TrimFixedPoint("a\nb");
  }

  /** The concrete input on which a second normalisation still changes the text. */
  lemma NormalizeNotIdempotent()
    ensures Normalize(Normalize("a\r\r\nb")) != Normalize("a\r\r\nb")
  {
    NormalizeOfCrCrlf();
    NormalizeOfCrlf();
    assert "a\nb" != "a\r\nb" by { assert |"a\nb"| == 3; }
  }

  /** One step of the CRLF rewrite where no CRLF starts at the front. */
  lemma UnixLineEndingsKeep(x: string, y: string)
    requires |x| >= 2 && x[..2] != CRLF
    ensures UnixLineEndings(x) == [x[0]] + UnixLineEndings(x[1..])
    ensures UnixLineEndings(x + y) == [x[0]] + UnixLineEndings(x[1..] + y)
  {
    var s := x + y;
    assert s[..2] == x[..2];
    assert s[1..] == x[1..] + y;
  }

  /** One step of the CRLF rewrite where a CRLF starts at the front. */
  lemma UnixLineEndingsFold(x: string, y: string)
    requires |x| >= 2 && x[..2] == CRLF
    ensures UnixLineEndings(x) == LF + UnixLineEndings(x[2..])
    ensures UnixLineEndings(x + y) == LF + UnixLineEndings(x[2..] + y)
  {
    var s := x + y;
    assert s[..2] == x[..2];
    assert s[2..] == x[2..] + y;
  }

  /** A single character before text that does not start a CRLF with it. */
  lemma UnixLineEndingsSingle(x: string, y: string)
    requires |x| == 1 && y != [] && (x[0] != '\r' || y[0] != '\n')
    ensures UnixLineEndings(x + y) == UnixLineEndings(x) + UnixLineEndings(y)
  {
    var s := x + y;
    assert s[..2] != CRLF by { assert s[..2][0] == x[0] && s[..2][1] == y[0]; }
    assert s[1..] == y;
  }

  /**
   * `replace("\r\n", "\n")` works piecewise on a concatenation unless a CRLF
   * straddles the seam.
   */
  lemma {:induction false} UnixLineEndingsSplit(x: string, y: string)
    requires x == [] || y == [] || x[|x| - 1] != '\r' || y[0] != '\n'
    ensures UnixLineEndings(x + y) == UnixLineEndings(x) + UnixLineEndings(y)
    decreases |x|
  {
    if x == [] {
      assert x + y == y;
    } else if y == [] {
      assert x + y == x;
    } else if |x| == 1 {
      UnixLineEndingsSingle(x, y);
    } else if x[..2] == CRLF {
      assert x[2..] == [] || x[2..][|x[2..]| - 1] == x[|x| - 1];
      UnixLineEndingsFold(x, y);
      UnixLineEndingsSplit(x[2..], y);
    } else {
      assert x[1..][|x[1..]| - 1] == x[|x| - 1];
      UnixLineEndingsKeep(x, y);
      UnixLineEndingsSplit(x[1..], y);
    }
  }

  /** Rewriting line endings keeps blank text blank. */
  lemma {:induction false} UnixLineEndingsBlank(s: string)
    requires AllWhitespace(s)
    ensures AllWhitespace(UnixLineEndings(s))
    decreases |s|
  {
    if |s| >= 2 {
      if s[..2] == CRLF {
        assert AllWhitespace(s[2..]) by {
          forall i | 0 <= i < |s[2..]| ensures IsWhitespace(s[2..][i]) { assert s[2..][i] == s[i + 2]; }
        }
        UnixLineEndingsBlank(s[2..]);
        assert IsWhitespace(LF[0]);
      } else {
        assert AllWhitespace(s[1..]) by {
          forall i | 0 <= i < |s[1..]| ensures IsWhitespace(s[1..][i]) { assert s[1..][i] == s[i + 1]; }
        }
        UnixLineEndingsBlank(s[1..]);
        assert IsWhitespace(s[0]);
      }
    }
  }

  /** Rewriting line endings keeps the outer characters of unpadded text. */
  lemma UnixLineEndingsUnpadded(core: string)
    requires core != [] && !IsWhitespace(core[0]) && !IsWhitespace(core[|core| - 1])
    ensures var u := UnixLineEndings(core); u != [] && u[0] == core[0] && u[|u| - 1] == core[|core| - 1]
  {
    UnixLineEndingsHead(core);
    if |core| >= 2 {
      assert core[..2][0] == core[0];
      var init := core[..|core| - 1];
      var last := [core[|core| - 1]];
      assert core == init + last;
      UnixLineEndingsSplit(init, last);
    }
  }

  /** Blank text normalises to the empty string. */
  lemma NormalizeBlank(s: string)
    requires AllWhitespace(s)
    ensures Normalize(s) == []
  {
    var u := UnixLineEndings(s);
    UnixLineEndingsBlank(s);
    assert u + [] + [] == u;
    TrimPadded(u, [], []);
  }

  /** Rewriting line endings around unpadded text rewrites each piece on its own. */
  lemma UnixLineEndingsPadded(pad1: string, core: string, pad2: string)
    requires core != [] && !IsWhitespace(core[0]) && !IsWhitespace(core[|core| - 1])
    ensures UnixLineEndings(pad1 + core + pad2)
         == UnixLineEndings(pad1) + UnixLineEndings(core) + UnixLineEndings(pad2)
  {
    assert (pad1 + core)[|pad1 + core| - 1] == core[|core| - 1];
    UnixLineEndingsSplit(pad1, core);
    UnixLineEndingsSplit(pad1 + core, pad2);
  }

  /** Whitespace of any kind around a normalised string is dropped by normalisation. */
  lemma NormalizePadded(pad1: string, core: string, pad2: string)
    requires AllWhitespace(pad1) && AllWhitespace(pad2)
    requires core == [] || (!IsWhitespace(core[0]) && !IsWhitespace(core[|core| - 1]))
    ensures Normalize(pad1 + core + pad2) == Normalize(core)
    ensures !Contains(core, CRLF) ==> Normalize(pad1 + core + pad2) == core
  {
    if core == [] {
      NormalizeBlankPads(pad1, pad2);
    } else {
      NormalizeAroundCore(pad1, core, pad2);
      if !Contains(core, CRLF) {
        ReplaceAllWithoutMatch(core, CRLF, LF);
        TrimFixedPoint(core);
      }
    }
  }

  lemma NormalizeBlankPads(pad1: string, pad2: string)
    requires AllWhitespace(pad1) && AllWhitespace(pad2)
    ensures Normalize(pad1 + [] + pad2) == []
  {
    var s := pad1 + [] + pad2;
    assert AllWhitespace(s) by {
      forall i | 0 <= i < |s| ensures IsWhitespace(s[i]) {
        if i < |pad1| { assert s[i] == pad1[i]; } else { assert s[i] == pad2[i - |pad1|]; }
      }
    }
    NormalizeBlank(s);
  }

  lemma NormalizeAroundCore(pad1: string, core: string, pad2: string)
    requires AllWhitespace(pad1) && AllWhitespace(pad2)
    requires core != [] && !IsWhitespace(core[0]) && !IsWhitespace(core[|core| - 1])
    ensures Normalize(pad1 + core + pad2) == Normalize(core)
  {
    var u1, uc, u2 := UnixLineEndings(pad1), UnixLineEndings(core), UnixLineEndings(pad2);
    UnixLineEndingsPadded(pad1, core, pad2);
    UnixLineEndingsBlank(pad1);
    UnixLineEndingsBlank(pad2);
    UnixLineEndingsUnpadded(core);
    TrimPadded(u1, uc, u2);
    TrimFixedPoint(uc);
  }

  /**
   * Text with Unix line endings and the same text written with Windows line
   * endings normalise to the same string.
   */
  lemma NormalizeIgnoresLineEndings(s: string)
    requires !Contains(s, CRLF)
    ensures Normalize(WindowsLineEndings(s)) == Normalize(s)
  {
    LineEndingsRoundTrip(s);
    ReplaceAllWithoutMatch(s, CRLF, LF);
  }

  // ---------------------------------------------------------------------------
  // str::split_whitespace
  // ---------------------------------------------------------------------------

  /** Length of the run of non-whitespace characters that starts `s`. */
  function WordLength(s: string): (n: nat)
    ensures n <= |s|
    ensures NoWhitespace(s[..n])
    ensures n < |s| ==> IsWhitespace(s[n])
    decreases |s|
  {
    if |s| == 0 || IsWhitespace(s[0]) then 0 else 1 + WordLength(s[1..])
  }

  /** `s.split_whitespace()`: the maximal non-empty runs of non-whitespace. */
  function Tokens(s: string): (r: seq<string>)
    ensures forall k :: 0 <= k < |r| ==> r[k] != [] && NoWhitespace(r[k])
    decreases |s|
  {
    if |s| == 0 then []
    else if IsWhitespace(s[0]) then Tokens(s[1..])
    else
      var n := WordLength(s);
      [s[..n]] + Tokens(s[n..])
  }

  /** `split_whitespace` finds no token exactly when the text is blank. */
  lemma {:induction false} TokensEmpty(s: string)
    ensures Tokens(s) == [] <==> AllWhitespace(s)
    decreases |s|
  {
    if |s| > 0 {
      if IsWhitespace(s[0]) {
        TokensEmpty(s[1..]);
        assert AllWhitespace(s) <==> AllWhitespace(s[1..]) by {
          if AllWhitespace(s[1..]) {
            forall i | 0 <= i < |s| ensures IsWhitespace(s[i]) {
              if i > 0 { assert s[i] == s[1..][i - 1]; }
            }
          }
        }
      } else {
        assert !AllWhitespace(s);
      }
    }
  }

  /** The tokens joined by single spaces. */
  function JoinWords(words: seq<string>): string {
    if words == [] then [] else if |words| == 1 then words[0] else words[0] + " " + JoinWords(words[1..])
  }

  /** Splitting words that were joined by spaces gives the words back. */
  lemma {:induction false} TokensOfJoinWords(words: seq<string>)
    requires forall k :: 0 <= k < |words| ==> words[k] != [] && NoWhitespace(words[k])
    ensures Tokens(JoinWords(words)) == words
    decreases |words|
  {
    if words == [] {
    } else {
      var w := words[0];
      var rest := if |words| == 1 then [] else " " + JoinWords(words[1..]);
      var s := w + rest;
      assert JoinWords(words) == s;
      WordOf(w, rest);
      assert s[..|w|] == w;
      assert s[|w|..] == rest;
      if |words| == 1 {
        assert Tokens(rest) == [];
      } else {
        var tail := JoinWords(words[1..]);
        assert rest[1..] == tail;
        TokensOfJoinWords(words[1..]);
        assert Tokens(rest) == Tokens(tail);
      }
    }
  }

  /** Leading whitespace, however long, yields no token. */
  lemma {:induction false} TokensSkipBlank(p: string, s: string)
    requires AllWhitespace(p)
    ensures Tokens(p + s) == Tokens(s)
    decreases |p|
  {
    if p != [] {
      assert (p + s)[0] == p[0] && IsWhitespace(p[0]);
      assert (p + s)[1..] == p[1..] + s;
      assert Tokens(p + s) == Tokens(p[1..] + s);
      assert AllWhitespace(p[1..]) by {
        forall i | 0 <= i < |p| - 1 ensures IsWhitespace(p[1..][i]) {
          assert p[1..][i] == p[i + 1];
        }
      }
      TokensSkipBlank(p[1..], s);
    } else {
      assert p + s == s;
    }
  }

  /**
   * A word ended by a whitespace character is the first token, and splitting
   * goes on after that character.
   */
  lemma TokensWord(w: string, c: char, s: string)
    requires w != [] && NoWhitespace(w) && IsWhitespace(c)
    ensures Tokens(w + [c] + s) == [w] + Tokens(s)
  {
    var t := w + [c] + s;
    assert t == w + ([c] + s);
    WordOf(w, [c] + s);
    assert t[..|w|] == w;
    assert t[|w|..] == [c] + s;
    assert ([c] + s)[1..] == s;
  }

  /** A word at the end of the text is the last token. */
  lemma TokensLastWord(w: string)
    requires w != [] && NoWhitespace(w)
    ensures Tokens(w) == [w]
  {
    TokensOfJoinWords([w]);
  }

  lemma {:induction false} WordOf(w: string, rest: string)
    requires w != [] && NoWhitespace(w)
    requires rest == [] || IsWhitespace(rest[0])
    ensures WordLength(w + rest) == |w|
    decreases |w|
  {
    var s := w + rest;
    if |w| > 1 {
      assert s[1..] == w[1..] + rest;
      WordOf(w[1..], rest);
    } else {
      assert s[1..] == rest;
    }
  }
}
