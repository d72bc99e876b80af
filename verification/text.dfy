/** JavaScript's `String.prototype.trim`, which the form applies to the bill
    name before its emptiness check and before submitting it. */
module Text {

  /** The code points ECMAScript counts as WhiteSpace or LineTerminator: tab,
      line feed, vertical tab, form feed, carriage return, space, no-break
      space, the space separators of category Zs, the line and paragraph
      separators, and the byte order mark. */
  predicate IsWhitespace(c: char) {
    || c == '\t' || c == '\n' || c == '\U{B}' || c == '\U{C}' || c == '\r'
    || c == ' ' || c == '\U{A0}' || c == '\U{1680}'
    || ('\U{2000}' <= c <= '\U{200A}')
    || c == '\U{2028}' || c == '\U{2029}' || c == '\U{202F}' || c == '\U{205F}'
    || c == '\U{3000}' || c == '\U{FEFF}'
  }

  predicate AllWhitespace(s: string) {
    forall i :: 0 <= i < |s| ==> IsWhitespace(s[i])
  }

  /** Scanning forward from position k, the first position that does not hold
      whitespace (or the end): everything skipped is whitespace. */
  function WhitespaceEnd(s: string, k: nat): (n: nat)
    requires k <= |s|
    ensures k <= n <= |s|
    ensures forall i :: k <= i < n ==> IsWhitespace(s[i])
    ensures n == |s| || !IsWhitespace(s[n])
    decreases |s| - k
  {
    if k < |s| && IsWhitespace(s[k]) then WhitespaceEnd(s, k + 1) else k
  }

  /** Scanning backward from position m, the start of the whitespace run that
      ends there: everything skipped is whitespace. */
  function WhitespaceStart(s: string, m: nat): (n: nat)
    requires m <= |s|
    ensures n <= m
    ensures forall i :: n <= i < m ==> IsWhitespace(s[i])
    ensures n == 0 || !IsWhitespace(s[n - 1])
  {
    if m > 0 && IsWhitespace(s[m - 1]) then WhitespaceStart(s, m - 1) else m
  }

  /** The number of leading whitespace characters. */
  function Leading(s: string): nat
    ensures Leading(s) <= |s|
  {
    WhitespaceEnd(s, 0)
  }

  /** `s.trim()`: cut the leading whitespace, then the trailing whitespace of
      what is left. */
  function Trim(s: string): string
  {
    var t := s[Leading(s)..];
    t[..WhitespaceStart(t, |t|)]
  }

  /** The trimmed text is the slice of `s` after its leading whitespace. */
  lemma TrimIsSlice(s: string)
    ensures Leading(s) + |Trim(s)| <= |s|
    ensures Trim(s) == s[Leading(s)..Leading(s) + |Trim(s)|]
  {
  }

  /** What precedes the trimmed text is whitespace. */
  lemma TrimLeading(s: string)
    ensures AllWhitespace(s[..Leading(s)])
  {
    var lead := Leading(s);
    forall i | 0 <= i < lead ensures IsWhitespace(s[..lead][i]) {
      assert s[..lead][i] == s[i];
    }
  }

  /** What follows the trimmed text is whitespace. */
  lemma TrimTrailing(s: string)
    ensures Leading(s) + |Trim(s)| <= |s|
    ensures AllWhitespace(s[Leading(s) + |Trim(s)|..])
  {
    var lead := Leading(s);
    var t := s[lead..];
    var e := WhitespaceStart(t, |t|);
    assert |Trim(s)| == e;
    var rest := s[lead + e..];
    forall i | 0 <= i < |rest| ensures IsWhitespace(rest[i]) {
      assert rest[i] == t[e + i];
    }
  }

  /** The trimmed text neither starts nor ends with whitespace. */
  lemma TrimEnds(s: string)
    ensures Trim(s) == [] || (!IsWhitespace(Trim(s)[0]) && !IsWhitespace(Trim(s)[|Trim(s)| - 1]))
  {
    var lead := Leading(s);
    var t := s[lead..];
    var e := WhitespaceStart(t, |t|);
    if e > 0 {
      assert Trim(s)[0] == t[0] == s[lead];
      assert Trim(s)[e - 1] == t[e - 1];
    }
  }

  /** The trimmed text is the middle of `s`: what lies before and after it is
      whitespace, and it neither starts nor ends with whitespace. */
  lemma TrimIsMiddle(s: string)
    ensures |Trim(s)| <= |s|
    ensures exists lead :: (0 <= lead <= |s| - |Trim(s)|
      && Trim(s) == s[lead..lead + |Trim(s)|]
      && AllWhitespace(s[..lead]) && AllWhitespace(s[lead + |Trim(s)|..]))
    ensures Trim(s) == [] || (!IsWhitespace(Trim(s)[0]) && !IsWhitespace(Trim(s)[|Trim(s)| - 1]))
  {
    TrimIsSlice(s);
    TrimLeading(s);
    TrimTrailing(s);
    TrimEnds(s);
    var lead := Leading(s);
    assert 0 <= lead <= |s| - |Trim(s)|
      && Trim(s) == s[lead..lead + |Trim(s)|]
      && AllWhitespace(s[..lead]) && AllWhitespace(s[lead + |Trim(s)|..]);
  }

  /** Trimming yields the empty string exactly when `s` is all whitespace. */
  lemma TrimEmptyIffAllWhitespace(s: string)
    ensures Trim(s) == [] <==> AllWhitespace(s)
  {
    var lead := Leading(s);
    var t := s[lead..];
    if Trim(s) == [] {
      // t is all whitespace, yet does not start with whitespace
      assert WhitespaceStart(t, |t|) == 0;
      assert lead == |s|;
    } else {
      TrimEnds(s);
      assert Trim(s)[0] == s[lead];
    }
  }
}
