/** Character classes and the string operations the handlers apply:
    `trim`, `replace(/\D/g, '')` and the lowercase setter. */
module Text {

  /** JavaScript's WhiteSpace and LineTerminator characters, which `trim` removes. */
  predicate IsSpace(c: char)
  {
    c == '\t' || c == '\n' || c == '\U{B}' || c == '\U{C}' || c == '\r' || c == ' '
    || c == '\U{A0}' || c == '\U{1680}' || '\U{2000}' <= c <= '\U{200A}'
    || c == '\U{2028}' || c == '\U{2029}' || c == '\U{202F}' || c == '\U{205F}'
    || c == '\U{3000}' || c == '\U{FEFF}'
  }

  /** `[0-9]` (and `\d` without the `u` flag). */
  predicate IsDigit(c: char)
  {
    '0' <= c <= '9'
  }

  /** `\w`: ASCII letters, digits and the underscore. */
  predicate IsWordChar(c: char)
  {
    'a' <= c <= 'z' || 'A' <= c <= 'Z' || IsDigit(c) || c == '_'
  }

  /** A string that `trim` reduces to the empty string. */
  predicate Blank(s: string)
  {
    forall i :: 0 <= i < |s| ==> IsSpace(s[i])
  }

  /** `trimStart`: the suffix left after dropping the leading white space. */
  function TrimStart(s: string): (r: string)
    ensures |r| <= |s| && r == s[|s| - |r|..]
    ensures forall i :: 0 <= i < |s| - |r| ==> IsSpace(s[i])
    ensures r != [] ==> !IsSpace(r[0])
  {
    if s != [] && IsSpace(s[0]) then TrimStart(s[1..]) else s
  }

  /** `trimEnd`: the prefix left after dropping the trailing white space. */
  function TrimEnd(s: string): (r: string)
    ensures |r| <= |s| && r == s[..|r|]
    ensures forall i :: |r| <= i < |s| ==> IsSpace(s[i])
    ensures r != [] ==> !IsSpace(r[|r| - 1])
  {
    if s != [] && IsSpace(s[|s| - 1]) then TrimEnd(s[..|s| - 1]) else s
  }

  /** `s` is `r` with white space around it: `r` starts at position `a` of `s`,
      and every character of `s` before or after it is white space. */
  predicate Surrounds(s: string, a: int, r: string)
  {
    && 0 <= a <= |s| - |r|
    && r == s[a..a + |r|]
    && (forall i :: 0 <= i < a ==> IsSpace(s[i]))
    && (forall i :: a + |r| <= i < |s| ==> IsSpace(s[i]))
  }

  /** A string with no white space at either end. */
  predicate Trimmed(s: string)
  {
    s != [] ==> !IsSpace(s[0]) && !IsSpace(s[|s| - 1])
  }

  /** `String.prototype.trim`: the input without its leading and trailing
      white space. */
  function Trim(s: string): (r: string)
    ensures |r| <= |s|
    ensures exists a :: Surrounds(s, a, r)
    ensures r == [] <==> Blank(s)
    ensures Trimmed(r)
  {
    var t := TrimStart(s);
    var r := TrimEnd(t);
    assert Surrounds(s, |s| - |t|, r);
    r
  }

  /** `Trim` is the only way to cut white space off both ends: a stretch of `s`
      with only white space around it, and none at its own ends, is `Trim(s)`. */
  lemma TrimUnique(s: string, a: int, t: string)
    requires Surrounds(s, a, t)
    requires Trimmed(t)
    ensures Trim(s) == t
  {
    var r := Trim(s);
    var b :| Surrounds(s, b, r);
    if t == [] {
      assert forall i :: 0 <= i < |s| ==> IsSpace(s[i]) by {
        forall i | 0 <= i < |s| ensures IsSpace(s[i]) {
          if i >= a {
            assert a + |t| <= i;
          }
        }
      }
    } else {
      assert s[a] == t[0];
      assert r != [];
      assert s[b] == r[0];
      assert a == b;
      assert s[a + |t| - 1] == t[|t| - 1];
      assert s[b + |r| - 1] == r[|r| - 1];
      assert a + |t| == b + |r|;
    }
  }

  /** `trim` leaves a string with no white space at its ends unchanged. */
  lemma TrimmedFixed(s: string)
    requires Trimmed(s)
    ensures Trim(s) == s
  {
    assert s == s[0..|s|];
    TrimUnique(s, 0, s);
  }

  /** Trimming a trimmed string changes nothing. */
  lemma TrimIdempotent(s: string)
    ensures Trim(Trim(s)) == Trim(s)
  {
    TrimmedFixed(Trim(s));
  }

  /** `s.replace(/\D/g, '')`: the digits of `s`, in order. */
  function Digits(s: string): (r: string)
    ensures |r| <= |s|
    ensures forall i :: 0 <= i < |r| ==> IsDigit(r[i])
    ensures (forall i :: 0 <= i < |s| ==> IsDigit(s[i])) ==> r == s
    ensures (forall i :: 0 <= i < |s| ==> !IsDigit(s[i])) ==> r == []
  {
    if s == [] then []
    else (if IsDigit(s[0]) then [s[0]] else []) + Digits(s[1..])
  }

  /** Removing non-digits distributes over concatenation: together with the
      one-character cases of `Digits` this pins it down as a filter. */
  lemma {:induction false} DigitsAppend(a: string, b: string)
    ensures Digits(a + b) == Digits(a) + Digits(b)
  {
    if a == [] {
      assert a + b == b;
    } else {
      var head := if IsDigit(a[0]) then [a[0]] else [];
      assert (a + b)[0] == a[0];
      assert (a + b)[1..] == a[1..] + b;
      assert Digits(a + b) == head + Digits(a[1..] + b);
      DigitsAppend(a[1..], b);
      assert Digits(a) == head + Digits(a[1..]);
    }
  }

  /** The pattern `^[0-9]{10}$`. */
  predicate TenDigits(s: string)
  {
    |s| == 10 && forall i :: 0 <= i < |s| ==> IsDigit(s[i])
  }

  /** A phone is accepted exactly when ten digits remain after cleaning,
      and what remains then matches the schema's phone pattern. */
  lemma CleanPhoneIff(s: string)
    ensures TenDigits(Digits(s)) <==> |Digits(s)| == 10
    ensures Blank(s) ==> !TenDigits(Digits(s))
  {
    if Blank(s) {
      assert forall i :: 0 <= i < |s| ==> !IsDigit(s[i]);
    }
  }

  /** The ASCII part of `toLowerCase`. */
  function LowerChar(c: char): (r: char)
    ensures 'A' <= c <= 'Z' ==> 'a' <= r <= 'z' && r as int == c as int + 32
    ensures !('A' <= c <= 'Z') ==> r == c
  {
    if 'A' <= c <= 'Z' then (c as int + 32) as char else c
  }

  /** Mongoose's `lowercase` setter, on ASCII letters. */
  function Lower(s: string): (r: string)
    ensures |r| == |s|
    ensures forall i :: 0 <= i < |s| ==> r[i] == LowerChar(s[i])
  {
    seq(|s|, i requires 0 <= i < |s| => LowerChar(s[i]))
  }
}
