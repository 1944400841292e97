/** The string primitives the application relies on: JavaScript's
    `String.prototype.trim`, `String.prototype.includes`, and the decimal
    rendering of a length. */
module Text {

  /** The code points `trim` removes: ECMAScript WhiteSpace (tab, vertical tab,
      form feed, space, no-break space, zero-width no-break space and every
      space separator) and LineTerminator (LF, CR, LS, PS). */
  predicate IsWhitespace(c: char) {
    || c == '\t' || c == '\n' || c == '\U{000B}' || c == '\U{000C}' || c == '\r'
    || c == ' ' || c == '\U{00A0}' || c == '\U{1680}'
    || ('\U{2000}' <= c <= '\U{200A}')
    || c == '\U{2028}' || c == '\U{2029}' || c == '\U{202F}' || c == '\U{205F}'
    || c == '\U{3000}' || c == '\U{FEFF}'
  }

  ghost predicate AllWhitespace(s: string) {
    forall i :: 0 <= i < |s| ==> IsWhitespace(s[i])
  }

  /** `s` without its leading whitespace. */
  function TrimStart(s: string): (r: string)
    ensures |r| <= |s| && r == s[|s| - |r|..]
    ensures AllWhitespace(s[..|s| - |r|])
    ensures r != [] ==> !IsWhitespace(r[0])
  {
    if s != [] && IsWhitespace(s[0]) then TrimStart(s[1..]) else s
  }

  /** `s` without its trailing whitespace. */
  function TrimEnd(s: string): (r: string)
    ensures |r| <= |s| && r == s[..|r|]
    ensures AllWhitespace(s[|r|..])
    ensures r != [] ==> !IsWhitespace(r[|r| - 1])
  {
    if s != [] && IsWhitespace(s[|s| - 1]) then TrimEnd(s[..|s| - 1]) else s
  }

  /** `r` is the slice `s[lo..hi]`, with whitespace only before and after it,
      and neither starts nor ends with whitespace. */
  ghost predicate TrimmedAt(s: string, r: string, lo: int, hi: int) {
    && 0 <= lo <= hi <= |s|
    && r == s[lo..hi]
    && AllWhitespace(s[..lo])
    && AllWhitespace(s[hi..])
    && (r != [] ==> !IsWhitespace(r[0]) && !IsWhitespace(r[|r| - 1]))
  }

  /** `r` is `s` with its leading and trailing whitespace removed. */
  ghost predicate IsTrimmed(s: string, r: string) {
    exists lo, hi :: TrimmedAt(s, r, lo, hi)
  }

  /** JavaScript's `s.trim()`. */
  function Trim(s: string): (r: string)
    ensures |r| <= |s|
    ensures r == [] <==> AllWhitespace(s)
    ensures r != [] ==> !IsWhitespace(r[0]) && !IsWhitespace(r[|r| - 1])
  {
    var t := TrimStart(s);
    var r := TrimEnd(t);
    assert r != [] ==> !IsWhitespace(r[0]) && !AllWhitespace(s) by {
      if r != [] { assert r[0] == t[0] == s[|s| - |t|]; }
    }
    assert r == [] ==> AllWhitespace(s) by {
      if r == [] {
        assert t == [];
        assert s[..|s| - |t|] == s;
      }
    }
    r
  }

  /** Trim meets its declarative description ... */
  lemma {:induction false} TrimIsTrimmed(s: string)
    ensures IsTrimmed(s, Trim(s))
  {
    var t := TrimStart(s);
    var r := Trim(s);
    var lo := |s| - |t|;
    var hi := lo + |r|;
    assert r == TrimEnd(t);
    assert t == s[lo..];
    assert r == t[..|r|] == s[lo..hi];
    assert s[hi..] == t[|r|..];
    assert TrimmedAt(s, r, lo, hi);
  }

  /** Leading whitespace up to the first other character is what TrimStart drops. */
  lemma {:induction false} TrimStartAt(s: string, lo: nat)
    requires lo <= |s| && AllWhitespace(s[..lo])
    requires lo < |s| ==> !IsWhitespace(s[lo])
    ensures TrimStart(s) == s[lo..]
    decreases lo
  {
    if lo > 0 {
      assert IsWhitespace(s[..lo][0]);
      assert s[1..][..lo - 1] == s[1..lo];
      assert AllWhitespace(s[1..][..lo - 1]) by {
        forall i | 0 <= i < lo - 1 ensures IsWhitespace(s[1..lo][i]) {
          assert s[1..lo][i] == s[..lo][i + 1];
        }
      }
      TrimStartAt(s[1..], lo - 1);
      assert s[1..][lo - 1..] == s[lo..];
    }
  }

  /** Trailing whitespace after the last other character is what TrimEnd drops. */
  lemma {:induction false} TrimEndAt(s: string, hi: nat)
    requires hi <= |s| && AllWhitespace(s[hi..])
    requires hi > 0 ==> !IsWhitespace(s[hi - 1])
    ensures TrimEnd(s) == s[..hi]
    decreases |s| - hi
  {
    if hi < |s| {
      var s' := s[..|s| - 1];
      assert IsWhitespace(s[hi..][|s| - 1 - hi]);
      assert AllWhitespace(s'[hi..]) by {
        forall i | 0 <= i < |s'| - hi ensures IsWhitespace(s'[hi..][i]) {
          assert s'[hi..][i] == s[hi..][i];
        }
      }
      TrimEndAt(s', hi);
      assert s'[..hi] == s[..hi];
    } else {
      assert s[..hi] == s;
    }
  }

  /** Whitespace on both sides of an empty middle is whitespace throughout. */
  lemma {:induction false} WhitespaceAroundEmpty(s: string, k: nat)
    requires k <= |s| && AllWhitespace(s[..k]) && AllWhitespace(s[k..])
    ensures AllWhitespace(s)
  {
    forall i | 0 <= i < |s| ensures IsWhitespace(s[i]) {
      if i < k { assert s[i] == s[..k][i]; } else { assert s[i] == s[k..][i - k]; }
    }
  }

  /** The slice `s[lo..hi]` that IsTrimmed describes is Trim(s). */
  lemma {:induction false} TrimmedSliceIsTrim(s: string, lo: nat, hi: nat)
    requires lo <= hi <= |s|
    requires AllWhitespace(s[..lo]) && AllWhitespace(s[hi..])
    requires lo < hi ==> !IsWhitespace(s[lo]) && !IsWhitespace(s[hi - 1])
    ensures Trim(s) == s[lo..hi]
  {
    if lo == hi {
      WhitespaceAroundEmpty(s, lo);
    } else {
      TrimStartAt(s, lo);
      TrimEndOfSuffix(s, lo, hi);
    }
  }

  /** Dropping trailing whitespace from `s[lo..]` leaves `s[lo..hi]`. */
  lemma TrimEndOfSuffix(s: string, lo: nat, hi: nat)
    requires lo < hi <= |s|
    requires AllWhitespace(s[hi..]) && !IsWhitespace(s[hi - 1])
    ensures TrimEnd(s[lo..]) == s[lo..hi]
  {
    var t := s[lo..];
    assert t[..hi - lo] == s[lo..hi];
    assert t[hi - lo..] == s[hi..];
    assert t[hi - lo - 1] == s[hi - 1];
    TrimEndAt(t, hi - lo);
  }

  /** ... and that description determines it: no other slice qualifies. */
  lemma {:induction false} TrimmedIsUnique(s: string, r: string)
    requires IsTrimmed(s, r)
    ensures r == Trim(s)
  {
    var lo, hi :| TrimmedAt(s, r, lo, hi);
    assert lo < hi ==> s[lo] == r[0] && s[hi - 1] == r[|r| - 1];
    TrimmedSliceIsTrim(s, lo, hi);
  }

  /** `t` occurs in `s` starting at index `i`. */
  predicate OccursAt(s: string, t: string, i: int) {
    0 <= i && i + |t| <= |s| && s[i..i + |t|] == t
  }

  /** JavaScript's `s.includes(t)`: `t` occurs in `s` as a contiguous run. */
  function Contains(s: string, t: string): (r: bool)
    ensures r <==> exists i :: OccursAt(s, t, i)
    decreases |s|
  {
    if |t| > |s| then
      assert forall i :: !OccursAt(s, t, i);
      false
    else if s[..|t|] == t then
      assert OccursAt(s, t, 0);
      true
    else
      var r := Contains(s[1..], t);
      assert r ==> exists i :: OccursAt(s, t, i) by {
        if r {
          var i :| OccursAt(s[1..], t, i);
          assert s[1..][i..i + |t|] == s[i + 1..i + 1 + |t|];
          assert OccursAt(s, t, i + 1);
        }
      }
      assert (exists i :: OccursAt(s, t, i)) ==> r by {
        if exists i :: OccursAt(s, t, i) {
          var i :| OccursAt(s, t, i);
          assert i != 0;
          assert s[1..][i - 1..i - 1 + |t|] == s[i..i + |t|];
          assert OccursAt(s[1..], t, i - 1);
        }
      }
      r
  }

  /** The value of a string of decimal digits. */
  function DecimalValue(digits: string): nat
    requires forall i :: 0 <= i < |digits| ==> '0' <= digits[i] <= '9'
  {
    if digits == [] then 0
    else 10 * DecimalValue(digits[..|digits| - 1]) + (digits[|digits| - 1] - '0') as nat
  }

  /** How JavaScript renders a non-negative integer in a template literal:
      its decimal digits, without leading zeros. */
  function NatToDecimal(n: nat): (r: string)
    ensures r != []
    ensures forall i :: 0 <= i < |r| ==> '0' <= r[i] <= '9'
    ensures r[0] == '0' ==> r == "0"
    ensures DecimalValue(r) == n
  {
    var last := ['0' + (n % 10) as char];
    if n < 10 then last
    else
      var prefix := NatToDecimal(n / 10);
      var r := prefix + last;
      assert r[..|r| - 1] == prefix;
      r
  }
}
