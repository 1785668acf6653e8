/**
 * Splitting a string into words at runs of whitespace, as Python 3's `str.split()` with
 * no argument does: used to read back kima's header line and to split the option string
 * of kima-showresults.
 */
module Text {
  /** The characters Python 3's str.split() treats as whitespace: tab to carriage
      return, the four ASCII separators 0x1C to 0x1F, space, and the Unicode spaces and
      line and paragraph separators. */
  predicate IsSpace(c: char) {
    if c <= ' ' then '\t' <= c <= '\r' || '\U{1C}' <= c
    else if c < '\U{85}' then false
    else
      || c == '\U{85}' || c == '\U{A0}' || c == '\U{1680}' || ('\U{2000}' <= c <= '\U{200A}')
      || c == '\U{2028}' || c == '\U{2029}' || c == '\U{202F}' || c == '\U{205F}' || c == '\U{3000}'
  }

  /** The leading run of non-space characters of s. */
  function Word(s: string): (w: string)
    ensures |w| <= |s| && w == s[..|w|]
    ensures forall k :: 0 <= k < |w| ==> !IsSpace(w[k])
    ensures |w| < |s| ==> IsSpace(s[|w|])
  {
    if |s| == 0 || IsSpace(s[0]) then "" else [s[0]] + Word(s[1..])
  }

  /** s split at runs of whitespace, leading and trailing whitespace ignored. */
  function Words(s: string): seq<string>
    decreases |s|
  {
    if |s| == 0 then []
    else if IsSpace(s[0]) then Words(s[1..])
    else
      var w := Word(s);
      [w] + Words(s[|w|..])
  }

  /** A string splitting gives back whole: non-empty and without whitespace. */
  predicate Token(w: string) {
    |w| >= 1 && forall k :: 0 <= k < |w| ==> !IsSpace(w[k])
  }

  /** Every word split off a string is a token. */
  lemma {:induction false} WordsAreTokens(s: string)
    ensures forall k :: 0 <= k < |Words(s)| ==> Token(Words(s)[k])
    decreases |s|
  {
    if |s| == 0 {
    } else if IsSpace(s[0]) {
      WordsAreTokens(s[1..]);
    } else {
      var w := Word(s);
      assert |w| >= 1 by {
        assert w == [s[0]] + Word(s[1..]);
      }
      WordsAreTokens(s[|w|..]);
    }
  }

  lemma {:induction false} WordOfToken(w: string, rest: string)
    requires Token(w)
    requires |rest| >= 1 && IsSpace(rest[0])
    ensures Word(w + rest) == w
  {
    if |w| == 1 {
      assert (w + rest)[1..] == rest;
    } else {
      assert (w + rest)[1..] == w[1..] + rest;
      WordOfToken(w[1..], rest);
    }
  }

  lemma {:induction false} WordOfTokenEnd(w: string)
    requires Token(w)
    ensures Word(w) == w
  {
    if |w| > 1 {
      WordOfTokenEnd(w[1..]);
    }
  }

  /** The printable ASCII characters other than space are not whitespace. */
  predicate Visible(c: char) {
    '!' <= c <= '~'
  }

  /** A non-empty string of printable ASCII characters other than space is a token. */
  lemma VisibleToken(w: string)
    requires |w| >= 1 && forall k :: 0 <= k < |w| ==> Visible(w[k])
    ensures Token(w)
  {
    forall k | 0 <= k < |w| ensures !IsSpace(w[k]) {
      assert Visible(w[k]);
    }
  }

  /** A token alone splits into itself. */
  lemma WordsOfLoneToken(w: string)
    requires Token(w)
    ensures Words(w) == [w]
  {
    WordOfTokenEnd(w);
    assert w[|w|..] == "";
  }

  /** A token followed by whitespace splits off as the first word. */
  lemma WordsAfterToken(w: string, t: string)
    requires Token(w)
    requires |t| >= 1 && IsSpace(t[0])
    ensures Words(w + t) == [w] + Words(t)
  {
    WordOfToken(w, t);
    assert (w + t)[0] == w[0];
    assert (w + t)[|w|..] == t;
  }

  /** A leading space is skipped. */
  lemma WordsSkipBlank(r: string)
    ensures Words([' '] + r) == Words(r)
  {
    assert ([' '] + r)[1..] == r;
  }

  /** A token followed by three spaces splits off as the first word. */
  lemma WordsOfToken(w: string, rest: string)
    requires Token(w)
    ensures Words(w + "   " + rest) == [w] + Words(rest)
  {
    var t := [' '] + ([' '] + ([' '] + rest));
    assert w + "   " + rest == w + t;
    WordsAfterToken(w, t);
    WordsSkipBlank([' '] + ([' '] + rest));
    WordsSkipBlank([' '] + rest);
    WordsSkipBlank(rest);
  }

  /** sub occurs in s at some position: Python's `sub in s` on strings. */
  predicate Contains(s: string, sub: string)
    decreases |s|
  {
    |sub| <= |s| && (s[..|sub|] == sub || Contains(s[1..], sub))
  }
}
