/**
 * The string operations the forms and labels rely on: JavaScript's
 * `String.prototype.trim` and the decimal rendering of a natural number.
 */
module Text {

  /** JavaScript's WhiteSpace and LineTerminator code points, the set `trim` strips. */
  predicate IsWhitespace(c: char) {
    var n := c as int;
    || (0x09 <= n <= 0x0D)
    || n == 0x20 || n == 0xA0 || n == 0x1680
    || (0x2000 <= n <= 0x200A)
    || n == 0x2028 || n == 0x2029 || n == 0x202F || n == 0x205F
    || n == 0x3000 || n == 0xFEFF
  }

  predicate AllWhitespace(s: string) {
    forall k | 0 <= k < |s| :: IsWhitespace(s[k])
  }

  /** Every character before index `i` is whitespace. */
  predicate SpaceBefore(s: string, i: nat)
    requires i <= |s|
  {
    forall k | 0 <= k < i :: IsWhitespace(s[k])
  }

  /** Every character from index `j` on is whitespace. */
  predicate SpaceFrom(s: string, j: nat)
    requires j <= |s|
  {
    forall k | j <= k < |s| :: IsWhitespace(s[k])
  }

  /** The number of whitespace characters at the start of `s`. */
  function LeadingSpace(s: string): (n: nat)
    ensures n <= |s|
    ensures SpaceBefore(s, n)
    ensures n < |s| ==> !IsWhitespace(s[n])
  {
    if s == [] || !IsWhitespace(s[0]) then 0 else 1 + LeadingSpace(s[1..])
  }

  /** The number of whitespace characters at the end of `s`. */
  function TrailingSpace(s: string): (n: nat)
    ensures n <= |s|
    ensures SpaceFrom(s, |s| - n)
    ensures n < |s| ==> !IsWhitespace(s[|s| - 1 - n])
  {
    if s == [] || !IsWhitespace(s[|s| - 1]) then 0 else 1 + TrailingSpace(s[..|s| - 1])
  }

  /**
   * `s[i..j]` is what is left of `s` once leading and trailing whitespace is
   * removed: only whitespace lies outside it, and it neither starts nor ends
   * with whitespace.
   */
  predicate TrimBounds(s: string, i: int, j: int) {
    && 0 <= i <= j <= |s|
    && SpaceBefore(s, i) && SpaceFrom(s, j)
    && (i < j ==> !IsWhitespace(s[i]) && !IsWhitespace(s[j - 1]))
  }

  /** `r` is `s` with its leading and trailing whitespace removed. */
  ghost predicate TrimmedFrom(r: string, s: string) {
    exists i, j :: TrimBounds(s, i, j) && r == s[i..j]
  }

  /** `s.trim()` */
  function Trim(s: string): (r: string)
    ensures TrimmedFrom(r, s)
    ensures |r| <= |s|
  {
    var i := LeadingSpace(s);
    var t := TrailingSpace(s[i..]);
    assert TrimBounds(s, i, |s| - t) by {
      forall k | |s| - t <= k < |s| ensures IsWhitespace(s[k]) {
        assert s[i..][k - i] == s[k];
      }
      assert i < |s| - t ==> s[|s| - t - 1] == s[i..][|s[i..]| - 1 - t];
    }
    s[i..|s| - t]
  }

  /** `!s.trim()`: the trimmed string is empty, hence falsy. */
  predicate IsBlank(s: string) {
    Trim(s) == []
  }

  /** Two pairs of trim bounds cut out the same slice. */
  lemma TrimBoundsUnique(s: string, i: int, j: int, i': int, j': int)
    requires TrimBounds(s, i, j) && TrimBounds(s, i', j')
    ensures s[i..j] == s[i'..j']
  {
    if i == j || i' == j' {
      // one slice is empty, so every character of s is whitespace and so is the other
      assert AllWhitespace(s);
    } else {
      // the first and the last non-whitespace characters pin both ends
      assert !IsWhitespace(s[i]) && !IsWhitespace(s[i']);
      assert !IsWhitespace(s[j - 1]) && !IsWhitespace(s[j' - 1]);
    }
  }

  /** Trimming has only one possible result: `Trim` is the trim. */
  lemma TrimUnique(r: string, s: string)
    requires TrimmedFrom(r, s)
    ensures r == Trim(s)
  {
    var i, j :| TrimBounds(s, i, j) && r == s[i..j];
    var i', j' :| TrimBounds(s, i', j') && Trim(s) == s[i'..j'];
    TrimBoundsUnique(s, i, j, i', j');
  }

  /** A string is blank exactly when all of its characters are whitespace. */
  lemma BlankIffAllWhitespace(s: string)
    ensures IsBlank(s) <==> AllWhitespace(s)
  {
    if AllWhitespace(s) {
      assert TrimBounds(s, |s|, |s|) && [] == s[|s|..|s|];
      TrimUnique([], s);
    }
    if IsBlank(s) {
      var i, j :| TrimBounds(s, i, j) && Trim(s) == s[i..j];
      assert i == j;
      forall k | 0 <= k < |s| ensures IsWhitespace(s[k]) {
        assert k < i || j <= k;
      }
    }
  }

  /** Trimming twice is trimming once. */
  lemma TrimIdempotent(s: string)
    ensures Trim(Trim(s)) == Trim(s)
  {
    var r := Trim(s);
    var i, j :| TrimBounds(s, i, j) && r == s[i..j];
    assert TrimBounds(r, 0, |r|) && r == r[0..|r|];
    TrimUnique(r, r);
  }

  /** The decimal digit for `d`. */
  function DigitChar(d: nat): (c: char)
    requires d < 10
    ensures '0' <= c <= '9' && c as int - '0' as int == d
  {
    ['0', '1', '2', '3', '4', '5', '6', '7', '8', '9'][d]
  }

  /** The decimal rendering of `n` (what a template literal gives for an integer). */
  function NatToString(n: nat): (s: string)
    ensures s != []
    ensures forall k | 0 <= k < |s| :: '0' <= s[k] <= '9'
    ensures |s| > 1 ==> s[0] != '0'
  {
    if n < 10 then [DigitChar(n)] else NatToString(n / 10) + [DigitChar(n % 10)]
  }

  /** The value of a string of decimal digits. */
  function DigitsValue(s: string): nat
    requires forall k | 0 <= k < |s| :: '0' <= s[k] <= '9'
  {
    if s == [] then 0 else 10 * DigitsValue(s[..|s| - 1]) + (s[|s| - 1] as int - '0' as int)
  }

  /** Reading back the rendering of `n` gives `n`. */
  lemma {:induction false} NatToStringRoundTrip(n: nat)
    ensures DigitsValue(NatToString(n)) == n
  {
    var s := NatToString(n);
    if n >= 10 {
      NatToStringRoundTrip(n / 10);
      assert s[..|s| - 1] == NatToString(n / 10);
    }
  }
}
