/** The email pattern shared by the validators and the three schemas:
      ^\w+([.-]?\w+)*@\w+([.-]?\w+)*(\.\w{2,3})+$
    First as a grammar that follows the pattern's structure (ghost), then as a
    character-level predicate, and a proof that the two accept the same strings. */
module Email {
  import opened Text

  /** `[.-]` */
  predicate IsSep(c: char)
  {
    c == '.' || c == '-'
  }

  // ---------------------------------------------------------------------------
  // The pattern, part by part. Each existential picks the split point that the
  // regular-expression engine would find by backtracking.

  /** `\w+` */
  ghost predicate WordRun(s: string)
  {
    |s| > 0 && forall i :: 0 <= i < |s| ==> IsWordChar(s[i])
  }

  /** `[.-]?\w+` */
  ghost predicate Step(s: string)
  {
    WordRun(s) || (|s| > 0 && IsSep(s[0]) && WordRun(s[1..]))
  }

  /** `([.-]?\w+)*` */
  ghost predicate Steps(s: string)
    decreases |s|
  {
    s == [] || exists k :: 0 < k <= |s| && Step(s[..k]) && Steps(s[k..])
  }

  /** `\w+([.-]?\w+)*` */
  ghost predicate DottedPattern(s: string)
  {
    exists k :: 0 < k <= |s| && WordRun(s[..k]) && Steps(s[k..])
  }

  /** `(\.\w{2,3})+` */
  ghost predicate TldGroups(s: string)
    decreases |s|
  {
    exists k :: 3 <= k <= 4 && k <= |s| && s[0] == '.' && WordRun(s[1..k])
                && (k == |s| || TldGroups(s[k..]))
  }

  /** The whole anchored pattern. */
  ghost predicate EmailPattern(s: string)
  {
    exists i, j :: 0 <= i < j <= |s| && s[i] == '@' && DottedPattern(s[..i])
                   && DottedPattern(s[i + 1..j]) && TldGroups(s[j..])
  }

  // ---------------------------------------------------------------------------
  // The same language, stated on characters.

  /** Word characters and separators only, no two separators side by side,
      and (when non-empty) ending in a word character. */
  predicate SeparatedTail(s: string)
  {
    && (forall i :: 0 <= i < |s| ==> IsWordChar(s[i]) || IsSep(s[i]))
    && (forall i :: 0 <= i < |s| - 1 ==> IsWordChar(s[i]) || IsWordChar(s[i + 1]))
    && (|s| > 0 ==> IsWordChar(s[|s| - 1]))
  }

  /** Runs of word characters joined by single `.` or `-`. */
  predicate SeparatedWords(s: string)
  {
    |s| > 0 && IsWordChar(s[0]) && SeparatedTail(s)
  }

  /** The last `.` is followed by exactly two or three word characters at the end. */
  predicate EndsWithTld(d: string)
  {
    || (|d| >= 3 && d[|d| - 3] == '.' && IsWordChar(d[|d| - 2]) && IsWordChar(d[|d| - 1]))
    || (|d| >= 4 && d[|d| - 4] == '.' && IsWordChar(d[|d| - 3]) && IsWordChar(d[|d| - 2])
        && IsWordChar(d[|d| - 1]))
  }

  /** The `@` at index `i` splits `s` into an accepted local part and domain. */
  predicate SplitAt(s: string, i: int)
  {
    0 <= i < |s| && s[i] == '@' && SeparatedWords(s[..i])
    && SeparatedWords(s[i + 1..]) && EndsWithTld(s[i + 1..])
  }

  /** The character-level form of the email check. */
  predicate IsValidEmail(s: string)
  {
    exists i | 0 <= i < |s| :: SplitAt(s, i)
  }

  // ---------------------------------------------------------------------------
  // Equivalence.

  lemma TailAppend(h: string, t: string)
    requires SeparatedTail(h) && SeparatedTail(t)
    ensures SeparatedTail(h + t)
  {
    var s := h + t;
    forall i | 0 <= i < |s| ensures IsWordChar(s[i]) || IsSep(s[i]) {
      if i < |h| { assert s[i] == h[i]; } else { assert s[i] == t[i - |h|]; }
    }
    forall i | 0 <= i < |s| - 1 ensures IsWordChar(s[i]) || IsWordChar(s[i + 1]) {
      if i < |h| - 1 {
        assert s[i] == h[i] && s[i + 1] == h[i + 1];
      } else if i == |h| - 1 {
        assert s[i] == h[|h| - 1];
      } else {
        assert s[i] == t[i - |h|] && s[i + 1] == t[i - |h| + 1];
      }
    }
    if |t| > 0 { assert s[|s| - 1] == t[|t| - 1]; } else { assert s == h; }
  }

  lemma SepAppend(c: char, w: string)
    requires IsSep(c) && |w| > 0 && IsWordChar(w[0]) && SeparatedTail(w)
    ensures SeparatedTail([c] + w)
  {
    var s := [c] + w;
    forall i | 0 <= i < |s| ensures IsWordChar(s[i]) || IsSep(s[i]) {
      if i > 0 { assert s[i] == w[i - 1]; }
    }
    forall i | 0 <= i < |s| - 1 ensures IsWordChar(s[i]) || IsWordChar(s[i + 1]) {
      assert s[i + 1] == w[i];
      if i > 0 { assert s[i] == w[i - 1]; }
    }
    assert s[|s| - 1] == w[|w| - 1];
  }

  lemma TailSuffix(s: string, k: nat)
    requires SeparatedTail(s) && k <= |s|
    ensures SeparatedTail(s[k..])
  {
    var t := s[k..];
    forall i | 0 <= i < |t| ensures IsWordChar(t[i]) || IsSep(t[i]) {
      assert t[i] == s[i + k];
    }
    forall i | 0 <= i < |t| - 1 ensures IsWordChar(t[i]) || IsWordChar(t[i + 1]) {
      assert t[i] == s[i + k] && t[i + 1] == s[i + k + 1];
    }
    if |t| > 0 { assert t[|t| - 1] == s[|s| - 1]; }
  }

  lemma TailPrefix(s: string, k: nat)
    requires SeparatedTail(s) && 0 < k <= |s| && IsWordChar(s[k - 1])
    ensures SeparatedTail(s[..k])
  {
    var t := s[..k];
    forall i | 0 <= i < |t| ensures IsWordChar(t[i]) || IsSep(t[i]) {
      assert t[i] == s[i];
    }
    forall i | 0 <= i < |t| - 1 ensures IsWordChar(t[i]) || IsWordChar(t[i + 1]) {
      assert t[i] == s[i] && t[i + 1] == s[i + 1];
    }
  }

  lemma WordRunTail(h: string)
    requires WordRun(h)
    ensures SeparatedTail(h) && IsWordChar(h[0])
  {
  }

  lemma StepTail(h: string)
    requires Step(h)
    ensures SeparatedTail(h)
  {
    if !WordRun(h) {
      var w := h[1..];
      WordRunTail(w);
      assert h == [h[0]] + w;
      SepAppend(h[0], w);
    }
  }

  lemma {:induction false} StepsToTail(s: string)
    requires Steps(s)
    ensures SeparatedTail(s)
    decreases |s|
  {
    if s != [] {
      var k :| 0 < k <= |s| && Step(s[..k]) && Steps(s[k..]);
      StepsToTail(s[k..]);
      StepTail(s[..k]);
      TailAppend(s[..k], s[k..]);
      assert s == s[..k] + s[k..];
    }
  }

  lemma {:induction false} TailToSteps(s: string)
    requires SeparatedTail(s)
    ensures Steps(s)
    decreases |s|
  {
    if s != [] {
      var k := if IsSep(s[0]) then 2 else 1;
      assert IsSep(s[0]) ==> |s| >= 2 && IsWordChar(s[1]);
      var h := s[..k];
      assert k == 2 ==> WordRun(h[1..]) by {
        if k == 2 { assert h[1..] == [s[1]]; }
      }
      assert Step(h);
      TailSuffix(s, k);
      TailToSteps(s[k..]);
    }
  }

  lemma StepsIff(s: string)
    ensures Steps(s) <==> SeparatedTail(s)
  {
    if Steps(s) { StepsToTail(s); }
    if SeparatedTail(s) { TailToSteps(s); }
  }

  lemma DottedIff(s: string)
    ensures DottedPattern(s) <==> SeparatedWords(s)
  {
    if DottedPattern(s) {
      var k :| 0 < k <= |s| && WordRun(s[..k]) && Steps(s[k..]);
      StepsToTail(s[k..]);
      WordRunTail(s[..k]);
      TailAppend(s[..k], s[k..]);
      assert s == s[..k] + s[k..];
      assert s[0] == s[..k][0];
    }
    if SeparatedWords(s) {
      assert WordRun(s[..1]);
      TailSuffix(s, 1);
      TailToSteps(s[1..]);
    }
  }

  lemma EndsWithTldAppend(a: string, t: string)
    requires EndsWithTld(t)
    ensures EndsWithTld(a + t)
  {
    var s := a + t;
    assert s[|s| - 1] == t[|t| - 1] && s[|s| - 2] == t[|t| - 2] && s[|s| - 3] == t[|t| - 3];
    if |t| >= 4 { assert s[|s| - 4] == t[|t| - 4]; }
  }

  /** Every string of TLD groups starts with `.`, is a well-formed tail, and
      ends with its last group. */
  lemma {:induction false} TldGroupsShape(s: string)
    requires TldGroups(s)
    ensures |s| > 0 && s[0] == '.' && SeparatedTail(s) && EndsWithTld(s)
    decreases |s|
  {
    var k :| 3 <= k <= 4 && k <= |s| && s[0] == '.' && WordRun(s[1..k])
             && (k == |s| || TldGroups(s[k..]));
    var g := s[..k];
    assert g == [s[0]] + s[1..k];
    WordRunTail(s[1..k]);
    SepAppend(s[0], s[1..k]);
    assert EndsWithTld(g) by {
      assert g[|g| - 1] == s[1..k][k - 2] && g[|g| - 2] == s[1..k][k - 3];
      assert k == 4 ==> g[|g| - 3] == s[1..k][0];
    }
    if k == |s| {
      assert s == g;
    } else {
      var t := s[k..];
      TldGroupsShape(t);
      TailAppend(g, t);
      EndsWithTldAppend(g, t);
      assert s == g + t;
    }
  }

  lemma SeparatedAppend(a: string, t: string)
    requires SeparatedWords(a) && SeparatedTail(t)
    ensures SeparatedWords(a + t)
  {
    TailAppend(a, t);
    assert (a + t)[0] == a[0];
  }

  lemma DomainToChars(d: string, j: nat)
    requires j <= |d| && DottedPattern(d[..j]) && TldGroups(d[j..])
    ensures SeparatedWords(d) && EndsWithTld(d)
  {
    DottedIff(d[..j]);
    TldGroupsShape(d[j..]);
    SeparatedAppend(d[..j], d[j..]);
    EndsWithTldAppend(d[..j], d[j..]);
    assert d == d[..j] + d[j..];
  }

  lemma CharsToDomain(d: string) returns (j: nat)
    requires SeparatedWords(d) && EndsWithTld(d)
    ensures j <= |d| && DottedPattern(d[..j]) && TldGroups(d[j..])
  {
    var n := if |d| >= 3 && d[|d| - 3] == '.' && IsWordChar(d[|d| - 2]) && IsWordChar(d[|d| - 1])
             then 3 else 4;
    j := |d| - n;
    assert d[j] == '.';
    assert j > 0;
    assert IsWordChar(d[j - 1]) || IsWordChar(d[j]);
    var a, t := d[..j], d[j..];
    TailPrefix(d, j);
    assert a[0] == d[0];
    DottedIff(a);
    assert WordRun(t[1..n]) by {
      forall i | 0 <= i < n - 1 ensures IsWordChar(t[1..n][i]) {
        assert t[1..n][i] == d[j + 1 + i];
      }
    }
    assert t[0] == '.';
    assert TldGroups(t);
  }

  lemma PatternToChars(s: string)
    requires EmailPattern(s)
    ensures IsValidEmail(s)
  {
    var i, j :| 0 <= i < j <= |s| && s[i] == '@' && DottedPattern(s[..i])
                && DottedPattern(s[i + 1..j]) && TldGroups(s[j..]);
    var d := s[i + 1..];
    assert d[..j - i - 1] == s[i + 1..j];
    assert d[j - i - 1..] == s[j..];
    DomainToChars(d, j - i - 1);
    DottedIff(s[..i]);
    assert SplitAt(s, i);
  }

  lemma CharsToPattern(s: string)
    requires IsValidEmail(s)
    ensures EmailPattern(s)
  {
    var i :| 0 <= i < |s| && SplitAt(s, i);
    var d := s[i + 1..];
    var jd := CharsToDomain(d);
    DottedIff(s[..i]);
    var j := i + 1 + jd;
    assert s[i + 1..j] == d[..jd];
    assert s[j..] == d[jd..];
  }

  /** The character-level predicate accepts exactly the strings the pattern matches. */
  lemma EmailPatternIff(s: string)
    ensures EmailPattern(s) <==> IsValidEmail(s)
  {
    if EmailPattern(s) { PatternToChars(s); }
    if IsValidEmail(s) { CharsToPattern(s); }
  }

  /** An accepted email holds exactly one `@`: the one that splits it into a
      local part and a domain. */
  lemma OneAt(s: string)
    requires IsValidEmail(s)
    ensures exists k :: SplitAt(s, k) && forall m :: 0 <= m < |s| && m != k ==> s[m] != '@'
  {
    var i :| 0 <= i < |s| && SplitAt(s, i);
    forall m | 0 <= m < |s| && m != i ensures s[m] != '@' {
      if m < i { assert s[m] == s[..i][m]; } else { assert s[m] == s[i + 1..][m - i - 1]; }
    }
  }

  /** Lower-casing an accepted email (the schemas' `lowercase: true`) keeps it accepted. */
  lemma LowerKeepsValid(s: string)
    requires IsValidEmail(s)
    ensures IsValidEmail(Lower(s))
  {
    var i :| 0 <= i < |s| && SplitAt(s, i);
    SplitAtLower(s, i);
  }

  lemma SplitAtLower(s: string, i: int)
    requires SplitAt(s, i)
    ensures SplitAt(Lower(s), i)
  {
    var l := Lower(s);
    var a, d := s[..i], s[i + 1..];
    LowerSlice(s, 0, i);
    LowerSlice(s, i + 1, |s|);
    assert s[0..i] == a && l[0..i] == l[..i];
    assert s[i + 1..|s|] == d && l[i + 1..|s|] == l[i + 1..];
    LowerSeparated(a);
    LowerSeparated(d);
    LowerEndsWithTld(d);
  }

  lemma LowerSlice(s: string, a: nat, b: nat)
    requires a <= b <= |s|
    ensures Lower(s)[a..b] == Lower(s[a..b])
  {
  }

  lemma LowerSeparated(s: string)
    requires SeparatedWords(s)
    ensures SeparatedWords(Lower(s))
  {
  }

  lemma LowerEndsWithTld(d: string)
    requires EndsWithTld(d)
    ensures EndsWithTld(Lower(d))
  {
  }

  /** A three-letter top-level domain passes. */
  lemma AcceptedExample()
    ensures IsValidEmail("a-b@c.com")
  {
    var s := "a-b@c.com";
    var local, domain := s[..3], s[4..];
    assert local == "a-b" && domain == "c.com";
    assert SeparatedWords(local);
    assert SeparatedWords(domain);
    assert EndsWithTld(domain);
    assert SplitAt(s, 3);
  }

  /** A four-letter top-level domain does not. */
  lemma RejectedExample()
    ensures !IsValidEmail("a@b.info")
  {
    var t := "a@b.info";
    forall i | 0 <= i < |t| ensures !SplitAt(t, i) {
      if i == 1 {
        assert t[2..] == "b.info";
        assert !EndsWithTld(t[2..]);
      } else {
        assert t[i] != '@';
      }
    }
  }
}
