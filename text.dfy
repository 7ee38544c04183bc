/** The two operations of Go's `strings` package that the login chain uses. */
module Text {

  /** `strings.HasPrefix(s, prefix)`. */
  predicate StartsWith(s: string, prefix: string)
  {
    |prefix| <= |s| && s[..|prefix|] == prefix
  }

  /** `pat` occurs in `s` starting at index `i`. */
  predicate OccursAt(s: string, pat: string, i: int)
  {
    0 <= i && i + |pat| <= |s| && s[i..i + |pat|] == pat
  }

  /**
   * `strings.ReplaceAll(s, pat, rep)` for a non-empty `pat`: the occurrences of `pat`
   * are found left to right without overlap and each one is replaced by `rep`.
   */
  function ReplaceAll(s: string, pat: string, rep: string): string
    requires pat != []
    decreases |s|
  {
    if |s| < |pat| then s
    else if s[..|pat|] == pat then rep + ReplaceAll(s[|pat|..], pat, rep)
    else [s[0]] + ReplaceAll(s[1..], pat, rep)
  }

  /** A string in which `pat` does not occur is left as it is. */
  lemma {:induction false} ReplaceAllAbsent(s: string, pat: string, rep: string)
    requires pat != []
    requires forall i :: !OccursAt(s, pat, i)
    ensures ReplaceAll(s, pat, rep) == s
    decreases |s|
  {
    if |s| >= |pat| {
      assert !OccursAt(s, pat, 0);
      forall i ensures !OccursAt(s[1..], pat, i) {
        if OccursAt(s[1..], pat, i) {
          assert s[1..][i..i + |pat|] == s[i + 1..i + 1 + |pat|];
          assert OccursAt(s, pat, i + 1);
        }
      }
      ReplaceAllAbsent(s[1..], pat, rep);
    }
  }

  /** No occurrence of `pat` in `a + b` starts inside `a` and ends inside `b`. */
  predicate NoStraddle(a: string, b: string, pat: string)
  {
    forall k | 0 <= k < |a| < k + |pat| :: !OccursAt(a + b, pat, k)
  }

  lemma NoStraddleDrop(a: string, b: string, pat: string, d: nat)
    requires d <= |a| && NoStraddle(a, b, pat)
    ensures NoStraddle(a[d..], b, pat)
  {
    var s := a + b;
    assert a[d..] + b == s[d..];
    forall k | 0 <= k < |a[d..]| < k + |pat| ensures !OccursAt(a[d..] + b, pat, k) {
      assert !OccursAt(s, pat, k + d);
    }
  }

  /** Replacing in a concatenation works piece by piece when no occurrence of `pat` straddles the seam. */
  lemma {:induction false} ReplaceAllConcat(a: string, b: string, pat: string, rep: string)
    requires pat != []
    requires NoStraddle(a, b, pat)
    ensures ReplaceAll(a + b, pat, rep) == ReplaceAll(a, pat, rep) + ReplaceAll(b, pat, rep)
    decreases |a|
  {
    var s := a + b;
    if a == [] {
      assert s == b;
    } else if |s| < |pat| {
      assert ReplaceAll(b, pat, rep) == b;
    } else if s[..|pat|] == pat {
      assert OccursAt(s, pat, 0);
      NoStraddleDrop(a, b, pat, |pat|);
      ReplaceAllConcat(a[|pat|..], b, pat, rep);
      ConcatMatchCase(a, b, pat, rep);
    } else {
      NoStraddleDrop(a, b, pat, 1);
      ReplaceAllConcat(a[1..], b, pat, rep);
      ConcatSkipCase(a, b, pat, rep);
    }
  }

  /** The step of ReplaceAllConcat where `pat` occurs at the head of `a`. */
  lemma ConcatMatchCase(a: string, b: string, pat: string, rep: string)
    requires pat != [] && |pat| <= |a| && a[..|pat|] == pat
    requires ReplaceAll(a[|pat|..] + b, pat, rep) == ReplaceAll(a[|pat|..], pat, rep) + ReplaceAll(b, pat, rep)
    ensures ReplaceAll(a + b, pat, rep) == ReplaceAll(a, pat, rep) + ReplaceAll(b, pat, rep)
  {
    var s := a + b;
    assert s[..|pat|] == pat;
    assert s[|pat|..] == a[|pat|..] + b;
  }

  /** When no occurrence of `pat` starts at its head, `s` keeps its first character. */
  lemma SkipHead(s: string, pat: string, rep: string)
    requires pat != [] && s != [] && (|s| < |pat| || s[..|pat|] != pat)
    ensures ReplaceAll(s, pat, rep) == [s[0]] + ReplaceAll(s[1..], pat, rep)
  {
    if |s| < |pat| {
      assert ReplaceAll(s[1..], pat, rep) == s[1..];
      assert s == [s[0]] + s[1..];
    }
  }

  /** The step of ReplaceAllConcat where no occurrence starts at the head of `a + b`. */
  lemma ConcatSkipCase(a: string, b: string, pat: string, rep: string)
    requires pat != [] && a != [] && |pat| <= |a + b| && (a + b)[..|pat|] != pat
    requires ReplaceAll(a[1..] + b, pat, rep) == ReplaceAll(a[1..], pat, rep) + ReplaceAll(b, pat, rep)
    ensures ReplaceAll(a + b, pat, rep) == ReplaceAll(a, pat, rep) + ReplaceAll(b, pat, rep)
  {
    var s := a + b;
    var tail, rb := ReplaceAll(a[1..], pat, rep), ReplaceAll(b, pat, rep);
    calc {
      ReplaceAll(s, pat, rep);
    == { SkipHead(s, pat, rep); }
      [s[0]] + ReplaceAll(s[1..], pat, rep);
    == { assert s[1..] == a[1..] + b; }
      [a[0]] + (tail + rb);
    ==
      ([a[0]] + tail) + rb;
    == { if |pat| <= |a| { assert a[..|pat|] == s[..|pat|]; }
         SkipHead(a, pat, rep); }
      ReplaceAll(a, pat, rep) + rb;
    }
  }

  /** `c` does not occur in `s`. */
  predicate Lacks(s: string, c: char)
  {
    forall p | 0 <= p < |s| :: s[p] != c
  }

  /** A string without the first character of `pat` contains no occurrence of `pat`. */
  lemma AbsentByFirst(s: string, pat: string)
    requires pat != [] && Lacks(s, pat[0])
    ensures forall i :: !OccursAt(s, pat, i)
  {
  }

  /** An occurrence straddling the seam would contain the last character of `a`. */
  lemma NoStraddleByLast(a: string, b: string, pat: string)
    requires a != [] && Lacks(pat, a[|a| - 1])
    ensures NoStraddle(a, b, pat)
  {
    var s := a + b;
    forall k | 0 <= k < |a| < k + |pat| ensures !OccursAt(s, pat, k) {
      if k + |pat| <= |s| {
        assert s[k..k + |pat|][|a| - 1 - k] == s[|a| - 1] != pat[|a| - 1 - k];
      }
    }
  }

  /** An occurrence straddling the seam would start inside `a` with the first character of `pat`. */
  lemma NoStraddleByFirst(a: string, b: string, pat: string)
    requires pat != [] && Lacks(a, pat[0])
    ensures NoStraddle(a, b, pat)
  {
  }

  /** An occurrence straddling the seam would contain the first character of `b`. */
  lemma NoStraddleByNext(a: string, b: string, pat: string)
    requires b != [] && Lacks(pat, b[0])
    ensures NoStraddle(a, b, pat)
  {
    var s := a + b;
    forall k | 0 <= k < |a| < k + |pat| ensures !OccursAt(s, pat, k) {
      if k + |pat| <= |s| {
        assert s[k..k + |pat|][|a| - k] == s[|a|] != pat[|a| - k];
      }
    }
  }

  /** A prefix without the first character of `pat` is copied unchanged. */
  lemma ReplaceAllAfterPlain(a: string, b: string, pat: string, rep: string)
    requires pat != [] && Lacks(a, pat[0])
    ensures ReplaceAll(a + b, pat, rep) == a + ReplaceAll(b, pat, rep)
  {
    NoStraddleByFirst(a, b, pat);
    ReplaceAllConcat(a, b, pat, rep);
    AbsentByFirst(a, pat);
    ReplaceAllAbsent(a, pat, rep);
  }

  /** `pat` itself is replaced by `rep`. */
  lemma ReplaceAllWhole(pat: string, rep: string)
    requires pat != []
    ensures ReplaceAll(pat, pat, rep) == rep
  {
    assert pat[..|pat|] == pat && pat[|pat|..] == [];
    assert ReplaceAll(pat, pat, rep) == rep + ReplaceAll([], pat, rep);
  }
}
