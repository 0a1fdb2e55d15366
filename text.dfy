/** `String.prototype.trim` and the title guards built on it. */
module Text {
  import opened Common

  /**
   * The characters `trim` strips: ECMAScript's WhiteSpace (tab, vertical tab,
   * form feed, space, no-break space, byte order mark and the Zs category)
   * and its LineTerminator characters.
   */
  predicate IsWhiteSpace(c: char) {
    || c == '\t' || c == '\n' || c == '\U{000B}' || c == '\U{000C}' || c == '\r' || c == ' '
    || c == '\U{00A0}' || c == '\U{1680}' || ('\U{2000}' <= c <= '\U{200A}')
    || c == '\U{2028}' || c == '\U{2029}' || c == '\U{202F}' || c == '\U{205F}'
    || c == '\U{3000}' || c == '\U{FEFF}'
  }

  predicate AllWhiteSpace(s: string) {
    forall i :: 0 <= i < |s| ==> IsWhiteSpace(s[i])
  }

  /** Length of the longest all-white-space prefix of `s`. */
  function LeadingWhiteSpace(s: string): (n: nat)
    ensures n <= |s|
    ensures AllWhiteSpace(s[..n])
    ensures n < |s| ==> !IsWhiteSpace(s[n])
  {
    if |s| == 0 || !IsWhiteSpace(s[0]) then 0 else 1 + LeadingWhiteSpace(s[1..])
  }

  /** Length of the longest all-white-space suffix of `s`. */
  function TrailingWhiteSpace(s: string): (n: nat)
    ensures n <= |s|
    ensures AllWhiteSpace(s[|s| - n..])
    ensures n < |s| ==> !IsWhiteSpace(s[|s| - 1 - n])
  {
    if |s| == 0 || !IsWhiteSpace(s[|s| - 1]) then 0
    else
      var n := TrailingWhiteSpace(s[..|s| - 1]);
      SuffixGrows(s, n);
      1 + n
  }

  /** A white-space suffix of `s` minus its last character, followed by that white-space character. */
  lemma SuffixGrows(s: string, n: nat)
    requires 0 < |s| && n < |s| && IsWhiteSpace(s[|s| - 1]) && AllWhiteSpace(s[..|s| - 1][|s| - 1 - n..])
    ensures AllWhiteSpace(s[|s| - 1 - n..])
  {
    var t, u := s[|s| - 1 - n..], s[..|s| - 1][|s| - 1 - n..];
    forall i | 0 <= i < |t| ensures IsWhiteSpace(t[i]) {
      if i < n {
        assert t[i] == u[i];
      }
    }
  }

  /** `s.trim()`: `s` without its leading and trailing white space. */
  function Trim(s: string): (r: string)
    ensures |r| <= |s|
    ensures r == [] || (!IsWhiteSpace(r[0]) && !IsWhiteSpace(r[|r| - 1]))
  {
    var t := s[LeadingWhiteSpace(s)..];
    t[..|t| - TrailingWhiteSpace(t)]
  }

  /** `s` is an all-white-space prefix, then `Trim(s)`, then an all-white-space suffix. */
  lemma TrimSplits(s: string)
    ensures var a := LeadingWhiteSpace(s);
            && a + |Trim(s)| <= |s|
            && s == s[..a] + Trim(s) + s[a + |Trim(s)|..]
            && AllWhiteSpace(s[..a])
            && AllWhiteSpace(s[a + |Trim(s)|..])
  {
    var a := LeadingWhiteSpace(s);
    var t := s[a..];
    var b := TrailingWhiteSpace(t);
    assert Trim(s) == s[a..|s| - b];
    assert s[|s| - b..] == t[|t| - b..];
    ThreeParts(s, a, |s| - b);
  }

  lemma ThreeParts<T>(s: seq<T>, i: nat, j: nat)
    requires i <= j <= |s|
    ensures s == s[..i] + s[i..j] + s[j..]
  {
  }

  /** `s.trim()` is falsy (empty) exactly when `s` is all white space. */
  lemma TrimEmptyIff(s: string)
    ensures Trim(s) == [] <==> AllWhiteSpace(s)
  {
    var a := LeadingWhiteSpace(s);
    var t := s[a..];
    var b := TrailingWhiteSpace(t);
    if a < |s| {
      assert t[0] == s[a];
      assert b < |t|;
    } else {
      assert s[..a] == s;
    }
  }

  /** Trimming twice is trimming once. */
  lemma TrimIdempotent(s: string)
    ensures Trim(Trim(s)) == Trim(s)
  {
    var r := Trim(s);
    assert LeadingWhiteSpace(r) == 0;
    assert r[0..] == r;
    assert TrailingWhiteSpace(r) == 0;
  }

  /**
   * The guard `if (input && input.trim())` around a `prompt` result or an input
   * field, followed by the use of `input.trim()`: the trimmed text when it is
   * accepted, `None` when the prompt was cancelled or the text is blank.
   */
  function AcceptedTitle(input: Option<string>): (r: Option<string>)
    ensures r.Some? <==> input.Some? && !AllWhiteSpace(input.value)
    ensures r.Some? ==> r.value == Trim(input.value) && r.value != []
  {
    match input
    case None => None
    case Some(t) =>
      TrimEmptyIff(t);
      if t != [] && Trim(t) != [] then Some(Trim(t)) else None
  }
}
