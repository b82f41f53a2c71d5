/** The few Python `str` operations the converter relies on, stated over
    `seq<char>`: `upper()`, `strip()`, `in`, `startswith`, `split`, the
    tokens of `re.findall(r'\b\w+\b', ...)`, and `int()` / `str()` on
    integers. Case mapping and word characters are the ASCII ones. */
module PyText {
  import opened Base

  // ------------------------------------------------------------------
  // Characters
  // ------------------------------------------------------------------

  /** The characters for which Python's `str.isspace()` holds (also the
      characters the regular-expression class `\s` matches in a `str`). */
  predicate IsSpace(c: char) {
    c == ' ' || ('\t' <= c <= '\r') || ('\U{1c}' <= c <= '\U{1f}')
    || c == '\U{85}' || c == '\U{a0}' || c == '\U{1680}'
    || ('\U{2000}' <= c <= '\U{200a}') || c == '\U{2028}' || c == '\U{2029}'
    || c == '\U{202f}' || c == '\U{205f}' || c == '\U{3000}'
  }

  predicate IsAsciiLetter(c: char) {
    ('A' <= c <= 'Z') || ('a' <= c <= 'z')
  }

  predicate IsDigit(c: char) {
    '0' <= c <= '9'
  }

  /** A character of the regular-expression class `\w`. */
  predicate IsWordChar(c: char) {
    IsAsciiLetter(c) || IsDigit(c) || c == '_'
  }

  function UpperChar(c: char): (u: char)
    ensures !('a' <= u <= 'z')
    ensures !('a' <= c <= 'z') ==> u == c
  {
    if 'a' <= c <= 'z' then (c as int - 32) as char else c
  }

  /** `s.upper()`. */
  function Upper(s: string): (u: string)
    ensures |u| == |s|
    ensures forall i :: 0 <= i < |s| ==> u[i] == UpperChar(s[i])
  {
    seq(|s|, i requires 0 <= i < |s| => UpperChar(s[i]))
  }

  function LowerChar(c: char): (l: char)
    ensures !('A' <= l <= 'Z')
    ensures !('A' <= c <= 'Z') ==> l == c
  {
    if 'A' <= c <= 'Z' then (c as int + 32) as char else c
  }

  /** `s.lower()`. */
  function Lower(s: string): (l: string)
    ensures |l| == |s|
    ensures forall i :: 0 <= i < |s| ==> l[i] == LowerChar(s[i])
  {
    seq(|s|, i requires 0 <= i < |s| => LowerChar(s[i]))
  }

  /** A capital letter in an upper-cased text comes from that letter or its
      small form; any other character comes from itself. */
  lemma UpperMissing(s: string, c: char)
    requires !('a' <= c <= 'z') && c !in s
    requires 'A' <= c <= 'Z' ==> (c as int + 32) as char !in s
    ensures c !in Upper(s)
  {

  }

  // ------------------------------------------------------------------
  // strip
  // ------------------------------------------------------------------

  /** `s` without its leading white space. */
  function TrimLeft(s: string): (t: string)
    ensures |t| <= |s| && t == s[|s| - |t|..]
    ensures t == [] || !IsSpace(t[0])
  {
    if |s| > 0 && IsSpace(s[0]) then TrimLeft(s[1..]) else s
  }

  /** What `TrimLeft` removes is white space. */
  lemma {:induction false} TrimLeftSpaces(s: string)
    ensures forall k :: 0 <= k < |s| - |TrimLeft(s)| ==> IsSpace(s[k])
  {
    if |s| > 0 && IsSpace(s[0]) {
      TrimLeftSpaces(s[1..]);
      forall k | 1 <= k < |s| - |TrimLeft(s)|
        ensures IsSpace(s[k])
      {
        assert s[k] == s[1..][k - 1];
      }
    }
  }

  /** `s` without its trailing white space. */
  function TrimRight(s: string): (t: string)
    ensures |t| <= |s| && t == s[..|t|]
    ensures t == [] || !IsSpace(t[|t| - 1])
  {
    if |s| > 0 && IsSpace(s[|s| - 1]) then TrimRight(s[..|s| - 1]) else s
  }

  /** What `TrimRight` removes is white space. */
  lemma {:induction false} TrimRightSpaces(s: string)
    ensures forall k :: |TrimRight(s)| <= k < |s| ==> IsSpace(s[k])
  {
    if |s| > 0 && IsSpace(s[|s| - 1]) {
      TrimRightSpaces(s[..|s| - 1]);
      forall k | |TrimRight(s)| <= k < |s| - 1
        ensures IsSpace(s[k])
      {
        assert s[k] == s[..|s| - 1][k];
      }
    }
  }

  /** `s.strip()`: the longest infix of `s` that neither starts nor ends
      with white space. */
  function Strip(s: string): (t: string)
    ensures |t| <= |s|
    ensures t == [] || (!IsSpace(t[0]) && !IsSpace(t[|t| - 1]))
  {
    var l := TrimLeft(s);
    var r := TrimRight(l);
    assert r == [] || r[0] == l[0];
    r
  }

  /** What `strip()` removes is white space only: the result occurs in `s`
      with nothing but white space before and after it. */
  lemma StripIsInfix(s: string)
    ensures exists i :: InfixAmidSpace(s, Strip(s), i)
  {
    var l := TrimLeft(s);
    TrimLeftSpaces(s);
    TrimRightSpaces(l);
    TrimmedInfix(s, l, TrimRight(l));
    assert Strip(s) == TrimRight(l);
  }

  /** `t` occurs in `s` at index `i`, and every character of `s` before or
      after that occurrence is white space. */
  predicate InfixAmidSpace(s: string, t: string, i: nat) {
    && i + |t| <= |s| && t == s[i..i + |t|]
    && (forall k :: 0 <= k < i ==> IsSpace(s[k]))
    && (forall k :: i + |t| <= k < |s| ==> IsSpace(s[k]))
  }

  /** What the two trims leave: a left trim `l` of `s`, then a right trim
      `r` of `l`, is an infix of `s` with only white space around it. */
  lemma TrimmedInfix(s: string, l: string, r: string)
    requires |l| <= |s| && l == s[|s| - |l|..] && forall k :: 0 <= k < |s| - |l| ==> IsSpace(s[k])
    requires |r| <= |l| && r == l[..|r|] && forall k :: |r| <= k < |l| ==> IsSpace(l[k])
    ensures InfixAmidSpace(s, r, |s| - |l|)
  {
    var i := |s| - |l|;
    assert r == s[i..i + |r|];
    forall k | i + |r| <= k < |s|
      ensures IsSpace(s[k])
    {
      assert s[k] == l[k - i];
    }
  }

  /** A text that already neither starts nor ends with white space is
      left as it is by `strip()`. */
  lemma StripKeeps(s: string)
    requires s == [] || (!IsSpace(s[0]) && !IsSpace(s[|s| - 1]))
    ensures Strip(s) == s
  {
  }

  lemma StripIdempotent(s: string)
    ensures Strip(Strip(s)) == Strip(s)
  {
    StripKeeps(Strip(s));
  }

  // ------------------------------------------------------------------
  // Substrings
  // ------------------------------------------------------------------

  predicate StartsWith(s: string, p: string) {
    |p| <= |s| && s[..|p|] == p
  }

  /** Python's `p in s` for two strings. */
  predicate Contains(s: string, p: string)
    decreases |s|
  {
    StartsWith(s, p) || (|s| > 0 && Contains(s[1..], p))
  }

  /** `p` occurs in `s` starting at index `i`. */
  predicate OccursAt(s: string, p: string, i: int) {
    0 <= i <= |s| - |p| && s[i..i + |p|] == p
  }

  /** `Contains` holds exactly when `p` occurs at some position of `s`. */
  lemma {:induction false} ContainsAt(s: string, p: string)
    ensures Contains(s, p) <==> exists i :: OccursAt(s, p, i)
    decreases |s|
  {
    if StartsWith(s, p) {
      assert OccursAt(s, p, 0);
    } else if |s| > 0 {
      ContainsAt(s[1..], p);
      if Contains(s[1..], p) {
        var i :| OccursAt(s[1..], p, i);
        assert s[1..][i..i + |p|] == s[i + 1..i + 1 + |p|];
        assert OccursAt(s, p, i + 1);
      }
      if exists i :: OccursAt(s, p, i) {
        var i :| OccursAt(s, p, i);
        assert i != 0;
        assert s[1..][i - 1..i - 1 + |p|] == s[i..i + |p|];
        assert OccursAt(s[1..], p, i - 1);
      }
    }
  }

  /** A text lacking one of the characters of `p` does not contain `p`. */
  lemma NotContainsMissingChar(s: string, p: string, c: char)
    requires c in p && c !in s
    ensures !Contains(s, p)
  {
    ContainsAt(s, p);
  }

  /** Python's `s[a:b]` for non-negative bounds: out-of-range bounds are
      clamped to the length. */
  function Slice(s: string, a: nat, b: nat): (t: string)
    ensures |t| <= |s|
    ensures a <= b <= |s| ==> t == s[a..b]
  {
    var hi := if b <= |s| then b else |s|;
    var lo := if a <= hi then a else hi;
    s[lo..hi]
  }

  // ------------------------------------------------------------------
  // split
  // ------------------------------------------------------------------

  /** `s.split(sep)` for a one-character separator: never empty, and no
      part holds the separator. */
  function Split(s: string, sep: char): (parts: seq<string>)
    ensures |parts| >= 1
    ensures forall k :: 0 <= k < |parts| ==> sep !in parts[k]
    decreases |s|
  {
    if |s| == 0 then [""]
    else
      var rest := Split(s[1..], sep);
      if s[0] == sep then [""] + rest else [[s[0]] + rest[0]] + rest[1..]
  }

  /** `sep.join(parts)`. */
  function Join(parts: seq<string>, sep: char): string
    requires |parts| >= 1
  {
    if |parts| == 1 then parts[0] else parts[0] + [sep] + Join(parts[1..], sep)
  }

  /** Splitting loses nothing: joining the parts again gives the text back. */
  lemma {:induction false} JoinSplit(s: string, sep: char)
    ensures Join(Split(s, sep), sep) == s
    decreases |s|
  {
    if |s| > 0 {
      var rest := Split(s[1..], sep);
      JoinSplit(s[1..], sep);
      if s[0] != sep {
        if |rest| == 1 {
          assert Join(Split(s, sep), sep) == [s[0]] + rest[0];
        } else {
          assert Join(Split(s, sep), sep) == [s[0]] + rest[0] + [sep] + Join(rest[1..], sep);
        }
        assert [s[0]] + s[1..] == s;
      }
    }
  }

  /** A text without the separator is its own single part. */
  lemma {:induction false} SplitWithoutSeparator(s: string, sep: char)
    requires sep !in s
    ensures Split(s, sep) == [s]
    decreases |s|
  {
    if |s| > 0 {
      SplitWithoutSeparator(s[1..], sep);
      assert [s[0]] + s[1..] == s;
    }
  }

  /** A part without the separator, then the separator: the part comes
      off the front of the split. */
  lemma {:induction false} SplitAfterPart(a: string, sep: char, b: string)
    requires sep !in a
    ensures Split(a + [sep] + b, sep) == [a] + Split(b, sep)
    decreases |a|
  {
    var s := a + [sep] + b;
    if a == [] {
      assert s == [sep] + b;
      assert s[1..] == b;
    } else {
      assert s[0] == a[0];
      assert s[1..] == a[1..] + [sep] + b;
      SplitAfterPart(a[1..], sep, b);
      assert [a[0]] + a[1..] == a;
    }
  }

  /** Four separator-free fields joined by the separator split back into
      those fields. */
  lemma SplitFourFields(a: string, b: string, c: string, d: string, sep: char)
    requires sep !in a && sep !in b && sep !in c && sep !in d
    ensures Split(a + ([sep] + (b + ([sep] + (c + ([sep] + d))))), sep) == [a, b, c, d]
  {
    var cd := c + [sep] + d;
    var bcd := b + [sep] + cd;
    assert c + ([sep] + d) == cd;
    assert b + ([sep] + cd) == bcd;
    assert a + ([sep] + bcd) == a + [sep] + bcd;
    SplitWithoutSeparator(d, sep);
    SplitAfterPart(c, sep, d);
    SplitAfterPart(b, sep, cd);
    SplitAfterPart(a, sep, bcd);
  }

  /** `[p.strip() for p in parts]`. */
  function StripAll(parts: seq<string>): (r: seq<string>)
    ensures |r| == |parts|
    ensures forall k :: 0 <= k < |parts| ==> r[k] == Strip(parts[k])
  {
    seq(|parts|, k requires 0 <= k < |parts| => Strip(parts[k]))
  }

  /** Index of the first occurrence of `c`. */
  function IndexOf(s: string, c: char): (i: nat)
    requires c in s
    ensures i < |s| && s[i] == c && c !in s[..i]
  {
    if s[0] == c then 0 else 1 + IndexOf(s[1..], c)
  }

  /** `s.split(sep, 1)` when `sep` occurs: the text before the first
      separator and everything after it. */
  function SplitOnce(s: string, sep: char): (kv: (string, string))
    requires sep in s
    ensures sep !in kv.0
    ensures kv.0 + [sep] + kv.1 == s
  {
    var i := IndexOf(s, sep);
    assert s[..i] + [sep] + s[i + 1..] == s;
    (s[..i], s[i + 1..])
  }

  // ------------------------------------------------------------------
  // Word tokens: re.findall(r'\b\w+\b', s)
  // ------------------------------------------------------------------

  function WordRunLength(s: string): (n: nat)
    ensures n <= |s|
    ensures forall i :: 0 <= i < n ==> IsWordChar(s[i])
    ensures n == |s| || !IsWordChar(s[n])
  {
    if |s| == 0 || !IsWordChar(s[0]) then 0 else 1 + WordRunLength(s[1..])
  }

  /** The maximal runs of word characters of `s`, left to right. */
  function Tokens(s: string): (toks: seq<string>)
    ensures forall k :: 0 <= k < |toks| ==> |toks[k]| > 0
    ensures forall k, i :: 0 <= k < |toks| && 0 <= i < |toks[k]| ==> IsWordChar(toks[k][i])
    decreases |s|
  {
    if |s| == 0 then []
    else if !IsWordChar(s[0]) then Tokens(s[1..])
    else
      var n := WordRunLength(s);
      [s[..n]] + Tokens(s[n..])
  }

  /** The empty text has no tokens, and a character that is not a word
      character starts no token. */
  lemma TokensSkip(c: char, rest: string)
    requires !IsWordChar(c)
    ensures Tokens([]) == []
    ensures Tokens([c] + rest) == Tokens(rest)
  {
    assert ([c] + rest)[1..] == rest;
  }

  /** A text of word characters only is one token. */
  lemma WordIsOneToken(s: string)
    requires |s| > 0 && forall i :: 0 <= i < |s| ==> IsWordChar(s[i])
    ensures Tokens(s) == [s]
  {
    assert WordRunLength(s) == |s|;
    assert s[..|s|] == s;
    assert s[|s|..] == [];
    assert Tokens(s[|s|..]) == [];
  }

  /** A run of word characters stops at the first character that is not
      one. */
  lemma {:induction false} WordRunOf(w: string, tail: string)
    requires forall i :: 0 <= i < |w| ==> IsWordChar(w[i])
    requires tail == [] || !IsWordChar(tail[0])
    ensures WordRunLength(w + tail) == |w|
    decreases |w|
  {
    if w != [] {
      assert (w + tail)[1..] == w[1..] + tail;
      WordRunOf(w[1..], tail);
    } else {
      assert w + tail == tail;
    }
  }

  /** A word followed by a separator is the first token, and the tokens
      of the rest follow it. */
  lemma TokensAfterWord(w: string, c: char, rest: string)
    requires |w| > 0 && forall i :: 0 <= i < |w| ==> IsWordChar(w[i])
    requires !IsWordChar(c)
    ensures Tokens(w + [c] + rest) == [w] + Tokens(rest)
  {
    var s := w + [c] + rest;
    assert s == w + ([c] + rest);
    WordRunOf(w, [c] + rest);
    assert s[..|w|] == w;
    assert s[|w|..] == [c] + rest;
    assert ([c] + rest)[1..] == rest;
  }

  /** Two words separated by a space are two tokens. */
  lemma TokensOfWordPair(a: string, b: string)
    requires |a| > 0 && forall i :: 0 <= i < |a| ==> IsWordChar(a[i])
    requires |b| > 0 && forall i :: 0 <= i < |b| ==> IsWordChar(b[i])
    ensures Tokens(a + [' '] + b) == [a, b]
  {
    WordIsOneToken(b);
    TokensAfterWord(a, ' ', b);
  }

  /** Two words separated by spaces are the first two tokens. */
  lemma TokensOfTwoWords(a: string, b: string, rest: string)
    requires |a| > 0 && forall i :: 0 <= i < |a| ==> IsWordChar(a[i])
    requires |b| > 0 && forall i :: 0 <= i < |b| ==> IsWordChar(b[i])
    ensures Tokens(a + [' '] + (b + [' '] + rest)) == [a, b] + Tokens(rest)
  {
    TokensAfterWord(a, ' ', b + [' '] + rest);
    TokensAfterWord(b, ' ', rest);
  }

  // ------------------------------------------------------------------
  // int() and str() on integers
  // ------------------------------------------------------------------

  /** The digits-and-underscores body that Python's `int()` accepts:
      digits, with single underscores allowed between two digits. */
  predicate IsIntBody(s: string) {
    && |s| > 0 && IsDigit(s[0]) && IsDigit(s[|s| - 1])
    && (forall i :: 0 <= i < |s| ==> IsDigit(s[i]) || s[i] == '_')
    && (forall i :: 0 <= i < |s| - 1 ==> s[i] == '_' ==> s[i + 1] != '_')
  }

  /** Value of a digit text, skipping underscores. */
  function DigitsValue(s: string): nat {
    if |s| == 0 then 0
    else if IsDigit(s[|s| - 1]) then DigitsValue(s[..|s| - 1]) * 10 + (s[|s| - 1] as int - '0' as int)
    else DigitsValue(s[..|s| - 1])
  }

  /** Python's `int(s)` in base 10: surrounding white space is ignored, one
      optional sign, then a digit body; anything else raises, here `None`. */
  function PyInt(s: string): (r: Option<int>)
    ensures r.Some? ==> |Strip(s)| > 0
  {
    var t := Strip(s);
    if |t| > 0 && (t[0] == '+' || t[0] == '-') then
      var v: int := DigitsValue(t[1..]);
      if IsIntBody(t[1..]) then Some(if t[0] == '-' then -v else v)
      else None
    else if IsIntBody(t) then Some(DigitsValue(t))
    else None
  }

  function DigitChar(d: nat): (c: char)
    requires d < 10
    ensures IsDigit(c) && c as int - '0' as int == d
  {
    ('0' as int + d) as char
  }

  /** Decimal digits of a natural number, without leading zeros. */
  function NatToString(n: nat): (s: string)
    ensures |s| > 0
    ensures forall i :: 0 <= i < |s| ==> IsDigit(s[i])
  {
    if n < 10 then [DigitChar(n)] else NatToString(n / 10) + [DigitChar(n % 10)]
  }

  /** Python's `str(n)` for an integer. */
  function IntToString(n: int): (s: string)
    ensures |s| > 0
  {
    if n < 0 then "-" + NatToString(-n) else NatToString(n)
  }

  lemma {:induction false} DigitsValueOfNat(n: nat)
    ensures DigitsValue(NatToString(n)) == n
  {
    var s := NatToString(n);
    if n >= 10 {
      DigitsValueOfNat(n / 10);
      assert s[..|s| - 1] == NatToString(n / 10);
    }
  }

  lemma NatIsIntBody(n: nat)
    ensures IsIntBody(NatToString(n))
  {
    var s := NatToString(n);
    assert forall i :: 0 <= i < |s| ==> IsDigit(s[i]);
  }

  /** `int()` of an unsigned digit body without surrounding space. */
  lemma PyIntUnsigned(s: string)
    requires Strip(s) == s && IsIntBody(s)
    ensures PyInt(s) == Some(DigitsValue(s))
  {
    var t := Strip(s);
    assert t == s && IsDigit(t[0]);
    assert t[0] != '+' && t[0] != '-';
  }

  /** `int()` of a minus sign before a digit body. */
  lemma PyIntNegative(s: string)
    requires |s| > 0 && s[0] == '-' && IsIntBody(s[1..])
    requires Strip(s) == s
    ensures var v: int := DigitsValue(s[1..]); PyInt(s) == Some(-v)
  {
    var t := Strip(s);
    assert t[0] == '-' && t[1..] == s[1..];
  }

  lemma NatRoundTrip(n: nat)
    ensures PyInt(NatToString(n)) == Some(n)
  {
    var s := NatToString(n);
    assert IsDigit(s[0]) && IsDigit(s[|s| - 1]);
    StripKeeps(s);
    NatIsIntBody(n);
    PyIntUnsigned(s);
    DigitsValueOfNat(n);
  }

  /** `int()` reads a minus sign before a digit body as the negated
      value of the body. */
  lemma SignedRoundTrip(d: string, m: nat)
    requires IsIntBody(d) && DigitsValue(d) == m
    ensures var v: int := m; PyInt("-" + d) == Some(-v)
  {
    var s := "-" + d;
    assert s[1..] == d;
    assert s[|s| - 1] == d[|d| - 1];
    StripKeeps(s);
    PyIntNegative(s);
  }

  lemma NegativeRoundTrip(n: int)
    requires n < 0
    ensures PyInt(IntToString(n)) == Some(n)
  {
    var m: nat := -n;
    var d := NatToString(m);
    NatIsIntBody(m);
    DigitsValueOfNat(m);
    assert IntToString(n) == "-" + d;
    SignedRoundTrip(d, m);
  }

  /** `int(str(n)) == n`: printing an integer and reading it back is the
      identity. */
  lemma IntRoundTrip(n: int)
    ensures PyInt(IntToString(n)) == Some(n)
  {
    if n < 0 {
      NegativeRoundTrip(n);
    } else {
      NatRoundTrip(n);
    }
  }
}
