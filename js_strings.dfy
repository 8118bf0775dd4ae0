/**
 * The few JavaScript string operations the core relies on, with the semantics
 * of the ECMAScript built-ins: `String.prototype.trim`, `split` with a
 * one-character separator, `indexOf`, `replace` with a string pattern (first
 * occurrence only) and the decimal text of a non-negative integer (`${n}`).
 */
module JsStrings {
  import opened Wrappers

  // ---------------------------------------------------------------------------
  // Whitespace and trim
  // ---------------------------------------------------------------------------

  /** ECMAScript WhiteSpace and LineTerminator code points: what `trim` removes. */
  predicate IsJsWhitespace(c: char) {
    var n := c as int;
    n == 0x09 || n == 0x0A || n == 0x0B || n == 0x0C || n == 0x0D || n == 0x20 ||
    n == 0xA0 || n == 0x1680 || (0x2000 <= n <= 0x200A) || n == 0x2028 || n == 0x2029 ||
    n == 0x202F || n == 0x205F || n == 0x3000 || n == 0xFEFF
  }

  predicate AllWhitespace(s: string) {
    forall i :: 0 <= i < |s| ==> IsJsWhitespace(s[i])
  }

  /** The end of the run of whitespace that starts at `i`. */
  function LeadingEnd(s: string, i: nat): (n: nat)
    requires i <= |s|
    ensures i <= n <= |s|
    ensures forall j :: i <= j < n ==> IsJsWhitespace(s[j])
    ensures n < |s| ==> !IsJsWhitespace(s[n])
    decreases |s| - i
  {
    if i < |s| && IsJsWhitespace(s[i]) then LeadingEnd(s, i + 1) else i
  }

  /** The start of the run of whitespace that ends at `e`, going back no further than `lo`. */
  function TrailingStart(s: string, lo: nat, e: nat): (n: nat)
    requires lo <= e <= |s|
    ensures lo <= n <= e
    ensures forall j :: n <= j < e ==> IsJsWhitespace(s[j])
    ensures lo < n ==> !IsJsWhitespace(s[n - 1])
    decreases e - lo
  {
    if lo < e && IsJsWhitespace(s[e - 1]) then TrailingStart(s, lo, e - 1) else e
  }

  /** `r` is `s` with the whitespace before position `i` and after `r` cut away. */
  predicate TrimmedAt(s: string, r: string, i: nat) {
    && i + |r| <= |s| && r == s[i..i + |r|]
    && (forall j :: 0 <= j < i ==> IsJsWhitespace(s[j]))
    && (forall j :: i + |r| <= j < |s| ==> IsJsWhitespace(s[j]))
  }

  /** `s.trim()`: an infix of `s` with only whitespace cut away on either side. */
  function Trim(s: string): (r: string)
    ensures exists i: nat :: TrimmedAt(s, r, i)
    ensures r == [] || (!IsJsWhitespace(r[0]) && !IsJsWhitespace(r[|r| - 1]))
  {
    var i := LeadingEnd(s, 0);
    var e := TrailingStart(s, i, |s|);
    assert TrimmedAt(s, s[i..e], i);
    s[i..e]
  }

  /** A string is falsy after trimming exactly when it is all whitespace. */
  lemma TrimEmptyIffAllWhitespace(s: string)
    ensures Trim(s) == [] <==> AllWhitespace(s)
  {
  }

  // ---------------------------------------------------------------------------
  // split / join with a one-character separator
  // ---------------------------------------------------------------------------

  /** `s.split(sep)`: the pieces between separators, always at least one (`"".split(",")` is `[""]`). */
  function Split(s: string, sep: char): (r: seq<string>)
    ensures |r| >= 1
    ensures forall k :: 0 <= k < |r| ==> sep !in r[k]
  {
    if |s| == 0 then [""]
    else
      var rest := Split(s[1..], sep);
      if s[0] == sep then [""] + rest
      else [[s[0]] + rest[0]] + rest[1..]
  }

  /** `parts.join(sep)`. */
  function Join(parts: seq<string>, sep: char): string
    requires |parts| >= 1
  {
    if |parts| == 1 then parts[0] else parts[0] + [sep] + Join(parts[1..], sep)
  }

  /** Number of occurrences of `c` in `s`. */
  function Count(s: string, c: char): nat {
    if |s| == 0 then 0 else (if s[0] == c then 1 else 0) + Count(s[1..], c)
  }

  /** Joining the pieces of a split gives back the original text. */
  lemma {:induction false} JoinSplit(s: string, sep: char)
    ensures Join(Split(s, sep), sep) == s
  {
    if |s| > 0 {
      var rest := Split(s[1..], sep);
      JoinSplit(s[1..], sep);
      if s[0] == sep {
        assert ([""] + rest)[1..] == rest;
        assert s == [s[0]] + s[1..];
      } else if |rest| == 1 {
        assert s == [s[0]] + s[1..];
      } else {
        var r := [[s[0]] + rest[0]] + rest[1..];
        assert r[1..] == rest[1..];
        assert Join(rest, sep) == rest[0] + [sep] + Join(rest[1..], sep);
        assert s == [s[0]] + s[1..];
      }
    }
  }

  /** A split yields one more piece than there are separators. */
  lemma {:induction false} SplitLength(s: string, sep: char)
    ensures |Split(s, sep)| == Count(s, sep) + 1
  {
    if |s| > 0 {
      SplitLength(s[1..], sep);
    }
  }

  /** One step of `split`: the first character either closes a piece or starts the first one. */
  lemma {:induction false} SplitCons(c: char, t: string, sep: char)
    ensures Split([c] + t, sep)
         == if c == sep then [""] + Split(t, sep) else [[c] + Split(t, sep)[0]] + Split(t, sep)[1..]
  {
    assert ([c] + t)[0] == c && ([c] + t)[1..] == t;
  }

  /** Gluing a character onto the first of two concatenated piece lists. */
  lemma {:induction false} GlueFirst(c: char, ra: seq<string>, rb: seq<string>)
    requires |ra| >= 1
    ensures [[c] + (ra + rb)[0]] + (ra + rb)[1..] == ([[c] + ra[0]] + ra[1..]) + rb
  {
    assert (ra + rb)[0] == ra[0];
    assert (ra + rb)[1..] == ra[1..] + rb;
  }

  /** Text joined at a separator splits into the pieces of each side. */
  lemma {:induction false} SplitAppend(a: string, b: string, sep: char)
    ensures Split(a + [sep] + b, sep) == Split(a, sep) + Split(b, sep)
    decreases |a|
  {
    if |a| == 0 {
      assert a + [sep] + b == [sep] + b;
      SplitCons(sep, b, sep);
    } else {
      var c, t := a[0], a[1..];
      assert a == [c] + t;
      assert a + [sep] + b == [c] + (t + [sep] + b);
      SplitAppend(t, b, sep);
      SplitCons(c, t + [sep] + b, sep);
      SplitCons(c, t, sep);
      var ra, rb := Split(t, sep), Split(b, sep);
      if c == sep {
        assert [""] + (ra + rb) == ([""] + ra) + rb;
      } else {
        GlueFirst(c, ra, rb);
      }
    }
  }

  /** A character counted in `s` occurs in it. */
  lemma {:induction false} CountedOccurs(s: string, c: char)
    requires Count(s, c) > 0
    ensures c in s
  {
    if s[0] != c {
      CountedOccurs(s[1..], c);
      assert s == [s[0]] + s[1..];
    }
  }

  // ---------------------------------------------------------------------------
  // indexOf and replace (string pattern: first occurrence only)
  // ---------------------------------------------------------------------------

  predicate OccursAt(s: string, p: string, j: nat) {
    j + |p| <= |s| && s[j..j + |p|] == p
  }

  function IndexFrom(s: string, p: string, from: nat): (r: Option<nat>)
    requires from <= |s|
    ensures r.Some? ==> from <= r.value && OccursAt(s, p, r.value)
    ensures r.Some? ==> forall j :: from <= j < r.value ==> !OccursAt(s, p, j)
    ensures r.None? ==> forall j :: from <= j <= |s| ==> !OccursAt(s, p, j)
    decreases |s| - from
  {
    if OccursAt(s, p, from) then Some(from)
    else if from == |s| then None
    else IndexFrom(s, p, from + 1)
  }

  /** `s.indexOf(p)`: the first position where `p` occurs, if any. */
  function IndexOf(s: string, p: string): (r: Option<nat>)
    ensures r.Some? ==> OccursAt(s, p, r.value)
    ensures r.Some? ==> forall j :: 0 <= j < r.value ==> !OccursAt(s, p, j)
    ensures r.None? ==> forall j :: 0 <= j <= |s| ==> !OccursAt(s, p, j)
  {
    IndexFrom(s, p, 0)
  }

  /** `s.replace(p, rep)` with a string pattern: only the first occurrence is replaced. */
  function ReplaceFirst(s: string, p: string, rep: string): (r: string)
    ensures IndexOf(s, p).None? ==> r == s
    ensures IndexOf(s, p).Some? ==>
      var i := IndexOf(s, p).value;
      r == s[..i] + rep + s[i + |p|..] && forall j :: 0 <= j < i ==> !OccursAt(s, p, j)
  {
    match IndexOf(s, p)
    case None => s
    case Some(i) => s[..i] + rep + s[i + |p|..]
  }

  /** Replacing a pattern at the very front strips exactly that prefix. */
  lemma ReplaceAtFront(p: string, t: string)
    ensures ReplaceFirst(p + t, p, "") == t
  {
    assert OccursAt(p + t, p, 0) by { assert (p + t)[0..|p|] == p; }
    assert (p + t)[|p|..] == t;
  }

  // ---------------------------------------------------------------------------
  // Decimal text of a non-negative integer (`${n}` for an integral number)
  // ---------------------------------------------------------------------------

  predicate IsDigit(c: char) { '0' <= c <= '9' }

  function DigitChar(d: nat): (c: char)
    requires d < 10
    ensures IsDigit(c) && (c as int) - ('0' as int) == d
  {
    ('0' as int + d) as char
  }

  /** The shortest decimal numeral of `n`, as JavaScript prints an integral number. */
  function NatToString(n: nat): (s: string)
    ensures |s| >= 1 && forall i :: 0 <= i < |s| ==> IsDigit(s[i])
    ensures |s| > 1 ==> s[0] != '0'
  {
    if n < 10 then [DigitChar(n)] else NatToString(n / 10) + [DigitChar(n % 10)]
  }

  /** The value a numeral denotes (its reading, independent of how it was printed). */
  function DecimalValue(s: string): nat
    requires forall i :: 0 <= i < |s| ==> IsDigit(s[i])
  {
    if |s| == 0 then 0
    else
      assert IsDigit(s[|s| - 1]);
      DecimalValue(s[..|s| - 1]) * 10 + ((s[|s| - 1] as int) - ('0' as int))
  }

  /** Reading back the printed numeral gives the number. */
  lemma {:induction false} DecimalRoundTrip(n: nat)
    ensures DecimalValue(NatToString(n)) == n
  {
    if n >= 10 {
      DecimalRoundTrip(n / 10);
      var s := NatToString(n);
      assert s[..|s| - 1] == NatToString(n / 10);
    }
  }

  /** Distinct numbers print as distinct numerals. */
  lemma NatToStringInjective(m: nat, n: nat)
    requires m != n
    ensures NatToString(m) != NatToString(n)
  {
    DecimalRoundTrip(m);
    DecimalRoundTrip(n);
  }
}
