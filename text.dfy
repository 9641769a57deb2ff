/**
 * The string operations the client relies on, with JavaScript's meaning:
 * `String.prototype.trim`, `split(/\s+/)` followed by a filter on non-empty
 * words, and the decimal rendering of an integer inside a template literal.
 */
module Text {

  /**
   * The characters JavaScript's `trim` removes and `\s` matches: the
   * ECMAScript WhiteSpace and LineTerminator code points.
   */
  predicate IsWhitespace(c: char) {
    || c == ' ' || c == '\t' || c == '\n' || c == '\r'
    || c == '\U{000B}' || c == '\U{000C}' || c == '\U{00A0}' || c == '\U{1680}'
    || ('\U{2000}' <= c <= '\U{200A}')
    || c == '\U{2028}' || c == '\U{2029}' || c == '\U{202F}' || c == '\U{205F}'
    || c == '\U{3000}' || c == '\U{FEFF}'
  }

  /** Every character of `s` is whitespace (the empty string included). */
  predicate Blank(s: string) {
    forall i :: 0 <= i < |s| ==> IsWhitespace(s[i])
  }

  /** Drops the trailing whitespace; the result is a prefix of `s`. */
  function TrimEnd(s: string): (r: string)
    ensures |r| <= |s| && r == s[..|r|]
    ensures Blank(s[|r|..])
    ensures r == [] || !IsWhitespace(r[|r| - 1])
  {
    if s != [] && IsWhitespace(s[|s| - 1]) then TrimEnd(s[..|s| - 1]) else s
  }

  /** The length of the run of whitespace that `s` starts with. */
  function LeadingBlanks(s: string): (n: nat)
    ensures n <= |s| && Blank(s[..n])
    ensures n < |s| ==> !IsWhitespace(s[n])
  {
    if s != [] && IsWhitespace(s[0]) then
      var m := LeadingBlanks(s[1..]);
      assert s[..m + 1] == [s[0]] + s[1..][..m];
      m + 1
    else 0
  }

  /** Drops the leading whitespace; the result is a suffix of `s`. */
  function TrimStart(s: string): (r: string)
    ensures |r| <= |s| && r == s[|s| - |r|..]
    ensures Blank(s[..|s| - |r|])
    ensures r == [] || !IsWhitespace(r[0])
  {
    s[LeadingBlanks(s)..]
  }

  /**
   * `s.trim()`: what follows the leading whitespace of the input, cut before
   * a blank suffix, leaving nothing or a string that starts and ends with
   * non-whitespace.
   */
  function Trim(s: string): (r: string)
    ensures LeadingBlanks(s) + |r| <= |s|
    ensures r == s[LeadingBlanks(s)..LeadingBlanks(s) + |r|]
    ensures Blank(s[LeadingBlanks(s) + |r|..])
    ensures r == [] <==> Blank(s)
    ensures r != [] ==> !IsWhitespace(r[0]) && !IsWhitespace(r[|r| - 1])
  {
    var n := LeadingBlanks(s);
    var r := TrimEnd(s[n..]);
    TrimFacts(s, n, r);
    r
  }

  /**
   * What follows the leading whitespace of the input, cut before a blank
   * suffix, is empty only for a blank input and otherwise starts and ends
   * with non-whitespace.
   */
  lemma {:induction false} TrimFacts(s: string, n: nat, r: string)
    requires n <= |s| && Blank(s[..n]) && (n < |s| ==> !IsWhitespace(s[n]))
    requires |r| <= |s[n..]| && r == s[n..][..|r|] && Blank(s[n..][|r|..]) && (r == [] || !IsWhitespace(r[|r| - 1]))
    ensures n + |r| <= |s| && r == s[n..n + |r|] && Blank(s[n + |r|..])
    ensures r == [] <==> Blank(s)
    ensures r != [] ==> !IsWhitespace(r[0]) && !IsWhitespace(r[|r| - 1])
  {
    assert s[n..][..|r|] == s[n..n + |r|];
    assert s[n..][|r|..] == s[n + |r|..];
    if r == [] {
      assert s == s[..n] + s[n..];
      assert s[n..] == s[n..][|r|..];
    } else {
      assert r[0] == s[n];
    }
  }

  /**
   * `s.split(/\s+/)`: the pieces between maximal runs of whitespace. A
   * leading run yields an empty first piece, and the empty string yields
   * one empty piece, as in JavaScript.
   */
  function Split(s: string): (r: seq<string>)
    ensures |r| >= 1
    ensures r[0] == [] <==> s == [] || IsWhitespace(s[0])
    ensures forall i, j :: 0 <= i < |r| && 0 <= j < |r[i]| ==> !IsWhitespace(r[i][j])
    ensures forall i :: 0 < i < |r| - 1 ==> r[i] != []
    decreases |s|
  {
    if s == [] then [[]]
    else if IsWhitespace(s[0]) then [[]] + Split(TrimStart(s))
    else
      var rest := Split(s[1..]);
      [[s[0]] + rest[0]] + rest[1..]
  }

  /** `pieces.filter(word => word.length > 0)`. */
  function NonEmpty(pieces: seq<string>): (r: seq<string>)
    ensures |r| <= |pieces|
    ensures forall w :: w in r <==> w in pieces && w != []
  {
    if pieces == [] then []
    else if pieces[0] == [] then NonEmpty(pieces[1..])
    else [pieces[0]] + NonEmpty(pieces[1..])
  }

  /** The editor's word count: `content.trim().split(/\s+/).filter(w => w.length > 0).length`. */
  function WordCount(content: string): (n: nat)
    ensures n == 0 <==> Blank(content)
  {
    |NonEmpty(Split(Trim(content)))|
  }

  /**
   * Reference definition: the number of maximal runs of non-whitespace
   * characters, counted at the character that ends each run.
   */
  function Words(s: string): nat
    decreases |s|
  {
    if s == [] then 0
    else if !IsWhitespace(s[0]) && (|s| == 1 || IsWhitespace(s[1])) then 1 + Words(s[1..])
    else Words(s[1..])
  }

  /** Whitespace at the front does not change the number of words. */
  lemma {:induction false} WordsTrimStart(s: string)
    ensures Words(TrimStart(s)) == Words(s)
    decreases |s|
  {
    if s != [] && IsWhitespace(s[0]) {
      WordsTrimStart(s[1..]);
    }
  }

  /** Appending a whitespace character does not change the number of words. */
  lemma {:induction false} WordsAppendWhitespace(s: string, c: char)
    requires IsWhitespace(c)
    ensures Words(s + [c]) == Words(s)
    decreases |s|
  {
    if s != [] {
      assert (s + [c])[1..] == s[1..] + [c];
      WordsAppendWhitespace(s[1..], c);
    }
  }

  /** Whitespace at the back does not change the number of words. */
  lemma {:induction false} WordsTrimEnd(s: string)
    ensures Words(TrimEnd(s)) == Words(s)
    decreases |s|
  {
    if s != [] && IsWhitespace(s[|s| - 1]) {
      var p := s[..|s| - 1];
      assert s == p + [s[|s| - 1]];
      WordsAppendWhitespace(p, s[|s| - 1]);
      WordsTrimEnd(p);
    }
  }

  /** The non-empty pieces of a whitespace split are exactly the words. */
  lemma {:induction false} SplitCountsWords(s: string)
    ensures |NonEmpty(Split(s))| == Words(s)
    decreases |s|
  {
    if s == [] {
    } else if IsWhitespace(s[0]) {
      var t := TrimStart(s);
      assert Split(s) == [[]] + Split(t);
      assert NonEmpty(Split(s)) == NonEmpty(Split(t)) by {
        assert (([[]] + Split(t))[1..]) == Split(t);
      }
      SplitCountsWords(t);
      WordsTrimStart(s);
    } else {
      var rest := Split(s[1..]);
      var r := [[s[0]] + rest[0]] + rest[1..];
      assert Split(s) == r;
      assert r[1..] == rest[1..];
      assert NonEmpty(r) == [r[0]] + NonEmpty(rest[1..]);
      assert rest == [rest[0]] + rest[1..];
      SplitCountsWords(s[1..]);
      if |s| == 1 || IsWhitespace(s[1]) {
        assert NonEmpty(rest) == NonEmpty(rest[1..]);
      } else {
        assert NonEmpty(rest) == [rest[0]] + NonEmpty(rest[1..]);
      }
    }
  }

  /** The editor's word count is the number of maximal non-whitespace runs. */
  lemma WordCountIsWords(content: string)
    ensures WordCount(content) == Words(content)
  {
    var t := TrimStart(content);
    SplitCountsWords(Trim(content));
    WordsTrimEnd(t);
    WordsTrimStart(content);
  }

  /** Blank content, the empty string included, has no words. */
  lemma BlankHasNoWords(s: string)
    requires Blank(s)
    ensures WordCount(s) == 0
  {
  }

  /** Words add up across a boundary that whitespace separates. */
  lemma {:induction false} WordsConcat(a: string, b: string)
    requires a == [] || b == [] || IsWhitespace(a[|a| - 1]) || IsWhitespace(b[0])
    ensures Words(a + b) == Words(a) + Words(b)
    decreases |a|
  {
    if a != [] {
      assert (a + b)[1..] == a[1..] + b;
      if |a| > 1 {
        WordsConcat(a[1..], b);
      } else {
        assert a[1..] + b == b;
      }
    } else {
      assert a + b == b;
    }
  }

  /** A blank string holds no word. */
  lemma {:induction false} WordsOfBlank(g: string)
    requires Blank(g)
    ensures Words(g) == 0
    decreases |g|
  {
    if g != [] {
      WordsOfBlank(g[1..]);
    }
  }

  /** A non-empty run without whitespace is one word. */
  lemma {:induction false} WordsOfRun(w: string)
    requires w != [] && forall i :: 0 <= i < |w| ==> !IsWhitespace(w[i])
    ensures Words(w) == 1
    decreases |w|
  {
    if |w| > 1 {
      WordsOfRun(w[1..]);
    }
  }

  /** The example of the post editor: "hello   world  " has two words. */
  lemma HelloWorldHasTwoWords()
    ensures WordCount("hello   world  ") == 2
  {
    var hello, gap, world, tail := "hello", "   ", "world", "  ";
    assert "hello   world  " == hello + gap + world + tail;
    WordsOfRun(hello);
    WordsOfBlank(gap);
    WordsOfRun(world);
    WordsOfBlank(tail);
    WordsConcat(hello, gap);
    WordsConcat(hello + gap, world);
    WordsConcat(hello + gap + world, tail);
    WordCountIsWords("hello   world  ");
  }

  function DigitChar(d: int): (c: char)
    requires 0 <= d < 10
    ensures '0' <= c <= '9' && c as int - '0' as int == d
  {
    ('0' as int + d) as char
  }

  /** The decimal digits of a non-negative integer, as `String(n)` writes them. */
  function NatToString(n: nat): (r: string)
    ensures |r| >= 1
    ensures forall i :: 0 <= i < |r| ==> '0' <= r[i] <= '9'
    decreases n
  {
    if n < 10 then [DigitChar(n)] else NatToString(n / 10) + [DigitChar(n % 10)]
  }

  /** An integer inside a template literal: an optional minus sign, then its digits. */
  function IntToString(n: int): (r: string)
    ensures |r| >= 1 && (r[0] == '-' <==> n < 0)
  {
    if n < 0 then "-" + NatToString(-n) else NatToString(n)
  }

  /** Reads a string of decimal digits back. */
  function ParseDigits(s: string): nat
    requires forall i :: 0 <= i < |s| ==> '0' <= s[i] <= '9'
  {
    if s == [] then 0 else ParseDigits(s[..|s| - 1]) * 10 + (s[|s| - 1] as int - '0' as int)
  }

  /** Decimal rendering loses nothing: the digits read back to the number. */
  lemma {:induction false} NatToStringRoundTrip(n: nat)
    ensures ParseDigits(NatToString(n)) == n
    decreases n
  {
    if n >= 10 {
      var r := NatToString(n);
      assert r[..|r| - 1] == NatToString(n / 10);
      NatToStringRoundTrip(n / 10);
    }
  }

  /** Distinct non-negative integers render as distinct strings. */
  lemma NatToStringInjective(a: nat, b: nat)
    requires NatToString(a) == NatToString(b)
    ensures a == b
  {
    NatToStringRoundTrip(a);
    NatToStringRoundTrip(b);
  }

  /** Distinct integers render as distinct strings. */
  lemma IntToStringInjective(a: int, b: int)
    requires IntToString(a) == IntToString(b)
    ensures a == b
  {
    if a < 0 {
      var r := IntToString(a);
      assert r == "-" + NatToString(-a);
      assert b < 0;
      assert r == "-" + NatToString(-b);
      assert r[1..] == NatToString(-a);
      assert r[1..] == NatToString(-b);
      NatToStringInjective(-a, -b);
    } else {
      assert b >= 0;
      NatToStringInjective(a, b);
    }
  }
}
