/**
 * The handful of Python `str` operations the modelled code relies on:
 * `s.split("::")` and its inverse (the f-string join), `w in s`, `upper()`,
 * `lower()`, `strip()` and `str(int)`. Case mapping and whitespace are
 * ASCII-only here.
 */
module Text {

  // ---------------------------------------------------------------------------
  // The "::" separator

  /** "::" occurs in `s` starting at index `i`. */
  predicate SepAt(s: string, i: int) {
    0 <= i && i + 1 < |s| && s[i] == ':' && s[i + 1] == ':'
  }

  /** `"::" not in s`. */
  predicate NoSep(s: string) {
    forall i :: 0 <= i < |s| ==> !SepAt(s, i)
  }

  predicate EndsWithColon(s: string) {
    |s| > 0 && s[|s| - 1] == ':'
  }

  /**
   * A field that is cut back out unchanged when it is followed by "::":
   * it holds no "::" and does not end in ':' (otherwise the leftmost "::"
   * would start one character early).
   */
  predicate Clean(s: string) {
    NoSep(s) && !EndsWithColon(s)
  }

  /**
   * Python's `s.split("::")`: cut at every leftmost, non-overlapping "::".
   * There is always at least one part, and the first part is a prefix of `s`.
   */
  function Split(s: string): (parts: seq<string>)
    ensures |parts| >= 1
    ensures parts[0] <= s
    decreases |s|
  {
    if |s| < 2 then [s]
    else if s[0] == ':' && s[1] == ':' then [""] + Split(s[2..])
    else
      var rest := Split(s[1..]);
      [[s[0]] + rest[0]] + rest[1..]
  }

  /** `"::".join(parts)`, which is what the `REQUEST_BUY::...` f-strings build. */
  function Join(parts: seq<string>): string
    requires |parts| >= 1
  {
    if |parts| == 1 then parts[0] else parts[0] + "::" + Join(parts[1..])
  }

  lemma NoSepTail(s: string, d: nat)
    requires NoSep(s) && d <= |s|
    ensures NoSep(s[d..])
  {
    forall i | 0 <= i < |s| - d ensures !SepAt(s[d..], i) {
      assert !SepAt(s, i + d);
    }
  }

  lemma ConcatAssoc(a: string, b: string, c: string, d: string)
    ensures ((a + b) + c) + d == a + ((b + c) + d)
  {
  }

  lemma JoinCons(c: char, parts: seq<string>)
    requires |parts| >= 1
    ensures Join([[c] + parts[0]] + parts[1..]) == [c] + Join(parts)
  {
    var q := [[c] + parts[0]] + parts[1..];
    assert q[0] == [c] + parts[0];
    if |parts| > 1 {
      assert q[1..] == parts[1..];
      ConcatAssoc([c], parts[0], "::", Join(parts[1..]));
    }
  }

  /** A four-part join, unfolded. */
  lemma Join4(a: string, b: string, c: string, d: string)
    ensures Join([a, b, c, d]) == a + "::" + (b + "::" + (c + "::" + d))
  {
    var parts := [a, b, c, d];
    assert parts[1..] == [b, c, d];
    assert [b, c, d][1..] == [c, d];
    assert [c, d][1..] == [d];
    assert Join([c, d]) == c + "::" + d;
    assert Join([b, c, d]) == b + "::" + (c + "::" + d);
  }

  /** Joining the parts of a split gives back the original string. */
  lemma {:induction false} JoinSplit(s: string)
    ensures Join(Split(s)) == s
    decreases |s|
  {
    if |s| < 2 {
    } else if s[0] == ':' && s[1] == ':' {
      var t := Split(s[2..]);
      JoinSplit(s[2..]);
      assert ([""] + t)[1..] == t;
      assert "" + "::" + s[2..] == s;
    } else {
      var rest := Split(s[1..]);
      JoinSplit(s[1..]);
      JoinCons(s[0], rest);
      assert [s[0]] + s[1..] == s;
    }
  }

  /** No part of a split holds the separator. */
  lemma {:induction false} SplitPartsNoSep(s: string)
    ensures forall k :: 0 <= k < |Split(s)| ==> NoSep(Split(s)[k])
    decreases |s|
  {
    if |s| < 2 {
    } else if s[0] == ':' && s[1] == ':' {
      SplitPartsNoSep(s[2..]);
      var t := Split(s[2..]);
      assert Split(s) == [""] + t;
    } else {
      SplitPartsNoSep(s[1..]);
      var rest := Split(s[1..]);
      var head := [s[0]] + rest[0];
      assert NoSep(rest[0]);
      forall i | 0 <= i < |head| ensures !SepAt(head, i) {
        if i == 0 {
          if |rest[0]| > 0 {
            assert head[1] == rest[0][0] == s[1];
          }
        } else {
          assert !SepAt(rest[0], i - 1);
        }
      }
      assert Split(s) == [head] + rest[1..];
    }
  }

  /** A string without "::" is not cut at all. */
  lemma {:induction false} SplitNoSep(s: string)
    requires NoSep(s)
    ensures Split(s) == [s]
    decreases |s|
  {
    if |s| >= 2 {
      assert !SepAt(s, 0);
      NoSepTail(s, 1);
      SplitNoSep(s[1..]);
      assert [s[0]] + s[1..] == s;
    }
  }

  /** A clean field followed by "::" is cut off exactly. */
  lemma {:induction false} SplitAfterClean(a: string, b: string)
    requires Clean(a)
    ensures Split(a + "::" + b) == [a] + Split(b)
    decreases |a|
  {
    var s := a + "::" + b;
    if |a| == 0 {
      assert s[2..] == b;
    } else {
      var a' := a[1..];
      NoSepTail(a, 1);
      assert Clean(a');
      assert s[1..] == a' + "::" + b;
      SplitAfterClean(a', b);
      assert !(s[0] == ':' && s[1] == ':') by {
        if |a| >= 2 {
          assert !SepAt(a, 0);
        }
      }
      assert [a[0]] + a' == a;
    }
  }

  /**
   * The round trip: a join of fields of which all but the last are clean
   * and the last has no "::" splits back into exactly those fields.
   */
  lemma {:induction false} SplitJoin(parts: seq<string>)
    requires |parts| >= 1
    requires forall k :: 0 <= k < |parts| - 1 ==> Clean(parts[k])
    requires NoSep(parts[|parts| - 1])
    ensures Split(Join(parts)) == parts
    decreases |parts|
  {
    if |parts| == 1 {
      SplitNoSep(parts[0]);
    } else {
      SplitJoin(parts[1..]);
      SplitAfterClean(parts[0], Join(parts[1..]));
      assert [parts[0]] + parts[1..] == parts;
    }
  }

  /** The positions in `P` are occurrences of "::" in `s` that do not overlap. */
  predicate Separated(s: string, P: seq<int>) {
    && (forall m :: 0 <= m < |P| ==> SepAt(s, P[m]))
    && (forall m, n :: 0 <= m < n < |P| ==> P[m] + 2 <= P[n])
  }

  function Shift(P: seq<int>, d: int): (Q: seq<int>)
    ensures |Q| == |P|
    ensures forall m :: 0 <= m < |P| ==> Q[m] == P[m] - d
  {
    seq(|P|, m requires 0 <= m < |P| => P[m] - d)
  }

  lemma SeparatedTail(s: string, P: seq<int>)
    requires Separated(s, P) && |P| > 0
    ensures Separated(s, P[1..])
  {
    forall m, n | 0 <= m < n < |P| - 1 ensures P[1..][m] + 2 <= P[1..][n] {
      assert P[m + 1] + 2 <= P[n + 1];
    }
  }

  /** Dropping the first `d` characters, before every position, shifts the positions by `d`. */
  lemma SeparatedShift(s: string, P: seq<int>, d: nat)
    requires Separated(s, P) && d <= |s|
    requires |P| > 0 ==> d <= P[0]
    ensures Separated(s[d..], Shift(P, d))
  {
    var Q := Shift(P, d);
    forall m | 0 <= m < |Q| ensures SepAt(s[d..], Q[m]) {
      if m > 0 {
        assert P[0] + 2 <= P[m];
      }
      assert SepAt(s, P[m]);
      assert s[d..][P[m] - d] == s[P[m]] && s[d..][P[m] - d + 1] == s[P[m] + 1];
    }
    forall m, n | 0 <= m < n < |Q| ensures Q[m] + 2 <= Q[n] {
      assert P[m] + 2 <= P[n];
    }
  }

  /** `n` non-overlapping occurrences of "::" cut a string into more than `n` parts. */
  lemma {:induction false} SplitLowerBound(s: string, P: seq<int>)
    requires Separated(s, P)
    ensures |Split(s)| > |P|
    decreases |s|
  {
    if |P| > 0 {
      assert SepAt(s, P[0]);
      if s[0] == ':' && s[1] == ':' {
        if P[0] < 2 {
          SeparatedTail(s, P);
          if |P| > 1 {
            assert P[0] + 2 <= P[1];
          }
          SeparatedShift(s, P[1..], 2);
          SplitLowerBound(s[2..], Shift(P[1..], 2));
        } else {
          SeparatedShift(s, P, 2);
          SplitLowerBound(s[2..], Shift(P, 2));
        }
      } else {
        assert P[0] >= 1;
        SeparatedShift(s, P, 1);
        SplitLowerBound(s[1..], Shift(P, 1));
      }
    }
  }

  // ---------------------------------------------------------------------------
  // Substrings

  /** Python's `w in s`. */
  predicate Contains(s: string, w: string)
    decreases |s|
  {
    w <= s || (|s| > 0 && Contains(s[1..], w))
  }

  /** `w` occurs in `s` starting at index `i`. */
  predicate OccursAt(s: string, w: string, i: int) {
    0 <= i <= |s| - |w| && s[i..i + |w|] == w
  }

  /** A string appended last occurs right after what precedes it. */
  lemma OccursAtEnd(a: string, w: string)
    ensures OccursAt(a + w, w, |a|)
  {
    assert (a + w)[|a|..|a| + |w|] == w;
  }

  /** An occurrence survives appending on the right. */
  lemma OccursAtExtend(s: string, t: string, w: string, i: int)
    requires OccursAt(s, w, i)
    ensures OccursAt(s + t, w, i)
  {
    assert (s + t)[i..i + |w|] == s[i..i + |w|];
  }

  /** `Contains` holds exactly when `w` occurs at some index of `s`. */
  lemma {:induction false} ContainsIff(s: string, w: string)
    ensures Contains(s, w) <==> exists i :: OccursAt(s, w, i)
    decreases |s|
  {
    if w <= s {
      assert OccursAt(s, w, 0);
    } else if |s| > 0 {
      ContainsIff(s[1..], w);
      if exists i :: OccursAt(s, w, i) {
        var i :| OccursAt(s, w, i);
        assert i > 0;
        assert OccursAt(s[1..], w, i - 1);
      }
      if exists i :: OccursAt(s[1..], w, i) {
        var i :| OccursAt(s[1..], w, i);
        assert s[1..][i..i + |w|] == s[i + 1..i + 1 + |w|];
        assert OccursAt(s, w, i + 1);
      }
    }
  }

  // ---------------------------------------------------------------------------
  // Case mapping (ASCII letters only)

  function UpperChar(c: char): char {
    if 'a' <= c <= 'z' then (c as int - 32) as char else c
  }

  function LowerChar(c: char): char {
    if 'A' <= c <= 'Z' then (c as int + 32) as char else c
  }

  /** Python's `s.upper()` on ASCII: every character is mapped on its own. */
  function Upper(s: string): (r: string)
    ensures |r| == |s|
    ensures forall i :: 0 <= i < |s| ==> r[i] == UpperChar(s[i])
  {
    if s == [] then [] else [UpperChar(s[0])] + Upper(s[1..])
  }

  /** Python's `s.lower()` on ASCII: every character is mapped on its own. */
  function Lower(s: string): (r: string)
    ensures |r| == |s|
    ensures forall i :: 0 <= i < |s| ==> r[i] == LowerChar(s[i])
  {
    if s == [] then [] else [LowerChar(s[0])] + Lower(s[1..])
  }

  /** Upper-casing twice is upper-casing once. */
  lemma UpperIdempotent(s: string)
    ensures Upper(Upper(s)) == Upper(s)
  {
    assert forall i :: 0 <= i < |s| ==> UpperChar(UpperChar(s[i])) == UpperChar(s[i]);
  }

  /** Upper-casing forgets a previous lower-casing. */
  lemma UpperOfLower(s: string)
    ensures Upper(Lower(s)) == Upper(s)
  {
    assert forall i :: 0 <= i < |s| ==> UpperChar(LowerChar(s[i])) == UpperChar(s[i]);
  }

  /** Lower-casing forgets a previous upper-casing. */
  lemma LowerOfUpper(s: string)
    ensures Lower(Upper(s)) == Lower(s)
  {
    assert forall i :: 0 <= i < |s| ==> LowerChar(UpperChar(s[i])) == LowerChar(s[i]);
  }

  // ---------------------------------------------------------------------------
  // Whitespace

  /** `c.isspace()` for the ASCII range: space, \t \n \v \f \r and \x1c-\x1f. */
  predicate IsSpace(c: char) {
    c == ' ' || (9 <= c as int <= 13) || (28 <= c as int <= 31)
  }

  /** The first index at or after `i` that does not hold whitespace, or `|s|`. */
  function SkipSpace(s: string, i: nat): (j: nat)
    requires i <= |s|
    ensures i <= j <= |s|
    ensures forall k :: i <= k < j ==> IsSpace(s[k])
    ensures j == |s| || !IsSpace(s[j])
    decreases |s| - i
  {
    if i < |s| && IsSpace(s[i]) then SkipSpace(s, i + 1) else i
  }

  /** The end of `s[lo..hi]` once its trailing whitespace is dropped. */
  function TrimEnd(s: string, lo: nat, hi: nat): (j: nat)
    requires lo <= hi <= |s|
    ensures lo <= j <= hi
    ensures forall k :: j <= k < hi ==> IsSpace(s[k])
    ensures j == lo || !IsSpace(s[j - 1])
    decreases hi - lo
  {
    if lo < hi && IsSpace(s[hi - 1]) then TrimEnd(s, lo, hi - 1) else hi
  }

  /** `r` is the slice of `s` at `i`, with only whitespace before and after it. */
  predicate TrimmedAt(s: string, r: string, i: int) {
    && 0 <= i <= |s| - |r| && r == s[i..i + |r|]
    && (forall k :: 0 <= k < i ==> IsSpace(s[k]))
    && (forall k :: i + |r| <= k < |s| ==> IsSpace(s[k]))
  }

  /**
   * Python's `s.strip()`: the result is the slice of `s` that remains once
   * whitespace is removed from both ends, and it neither starts nor ends
   * with whitespace.
   */
  function Strip(s: string): (r: string)
    ensures exists i :: TrimmedAt(s, r, i)
    ensures r == [] || (!IsSpace(r[0]) && !IsSpace(r[|r| - 1]))
  {
    var lo := SkipSpace(s, 0);
    var hi := TrimEnd(s, lo, |s|);
    assert TrimmedAt(s, s[lo..hi], lo);
    s[lo..hi]
  }

  /** A string that neither starts nor ends with whitespace is its own strip. */
  lemma StripTrimmed(s: string)
    requires s == [] || (!IsSpace(s[0]) && !IsSpace(s[|s| - 1]))
    ensures Strip(s) == s
  {
    if s != [] {
      assert SkipSpace(s, 0) == 0;
      assert TrimEnd(s, 0, |s|) == |s|;
      assert s[0..|s|] == s;
    }
  }

  // ---------------------------------------------------------------------------
  // Integer rendering

  function DigitChar(d: int): char
    requires 0 <= d < 10
  {
    (48 + d) as char
  }

  /** Python's `str(n)` for a natural number: one or more decimal digits. */
  function NatToString(n: nat): (r: string)
    ensures |r| >= 1
    ensures forall k :: 0 <= k < |r| ==> '0' <= r[k] <= '9'
  {
    if n < 10 then [DigitChar(n)] else NatToString(n / 10) + [DigitChar(n % 10)]
  }

  /** Python's `str(n)`: an optional minus sign, then the digits of `|n|`. */
  function IntToString(n: int): (r: string)
    ensures |r| >= 1
    ensures forall k :: 0 <= k < |r| ==> r[k] == '-' || '0' <= r[k] <= '9'
  {
    if n < 0 then "-" + NatToString(-n) else NatToString(n)
  }

  /** The value of a string of decimal digits (the reference reading of a rendering). */
  function DecimalValue(s: string): int
  {
    if s == [] then 0 else DecimalValue(s[..|s| - 1]) * 10 + (s[|s| - 1] as int - 48)
  }

  /** Rendering a natural number loses nothing: its digits read back as the number. */
  lemma {:induction false} NatToStringValue(n: nat)
    ensures DecimalValue(NatToString(n)) == n
  {
    if n >= 10 {
      NatToStringValue(n / 10);
      var r := NatToString(n);
      assert r[..|r| - 1] == NatToString(n / 10);
    }
  }

  /** A rendered integer has no ':' at all, so it is a clean field. */
  lemma IntToStringClean(n: int)
    ensures Clean(IntToString(n))
  {
    var r := IntToString(n);
    forall i | 0 <= i < |r| ensures !SepAt(r, i) {
      assert r[i] != ':';
    }
  }
}
