/**
 * checkEmail of auth/auth.go: `regexp.MatchString` of
 * `\b[A-Za-z0-9._%+-]+@[A-Za-z0-9.-]+\.[A-Z|a-z]{2,7}\b`, which holds when the
 * pattern matches some substring of the input. `\b` is an ASCII word boundary,
 * where the word characters are `[0-9A-Za-z_]`. Inside a character class `|` is
 * a literal character, so the last part of the pattern also admits `|`.
 */
module Email {

  predicate IsLetter(c: char)
  {
    'A' <= c <= 'Z' || 'a' <= c <= 'z'
  }

  predicate IsDigit(c: char)
  {
    '0' <= c <= '9'
  }

  /** `\w` in Go's regular expressions. */
  predicate IsWordChar(c: char)
  {
    IsLetter(c) || IsDigit(c) || c == '_'
  }

  /** `[A-Za-z0-9._%+-]`, the characters before `@`. */
  predicate IsLocalChar(c: char)
  {
    IsLetter(c) || IsDigit(c) || c == '.' || c == '_' || c == '%' || c == '+' || c == '-'
  }

  /** `[A-Za-z0-9.-]`, the characters between `@` and the last dot. */
  predicate IsDomainChar(c: char)
  {
    IsLetter(c) || IsDigit(c) || c == '.' || c == '-'
  }

  /** `[A-Z|a-z]`, the characters of the top-level part. */
  predicate IsTldChar(c: char)
  {
    IsLetter(c) || c == '|'
  }

  /** The three character classes of the pattern. */
  datatype Class = Local | Domain | Tld

  predicate InClass(c: char, cl: Class)
  {
    match cl
    case Local => IsLocalChar(c)
    case Domain => IsDomainChar(c)
    case Tld => IsTldChar(c)
  }

  /** Every character of `s[lo..hi]` is in class `cl`. */
  predicate AllIn(s: string, lo: int, hi: int, cl: Class)
    requires 0 <= lo <= hi <= |s|
  {
    forall k | lo <= k < hi :: InClass(s[k], cl)
  }

  /** The character at `i` exists and is a word character. */
  predicate WordAt(s: string, i: int)
  {
    0 <= i < |s| && IsWordChar(s[i])
  }

  /** `\b` holds at position `i`: exactly one of the characters on either side is a word character. */
  predicate Boundary(s: string, i: int)
  {
    WordAt(s, i - 1) != WordAt(s, i)
  }

  /**
   * The pattern matches `s[i..j]`, with the `@` at `at` and the dot before the
   * top-level part at `dot`.
   */
  predicate MatchAt(s: string, i: int, at: int, dot: int, j: int)
  {
    0 <= i < at && at + 1 < dot && dot + 3 <= j <= dot + 8 && j <= |s| &&
    Boundary(s, i) && Boundary(s, j) &&
    AllIn(s, i, at, Local) && s[at] == '@' &&
    AllIn(s, at + 1, dot, Domain) && s[dot] == '.' &&
    AllIn(s, dot + 1, j, Tld)
  }

  /** checkEmail: the pattern matches somewhere in `s`. */
  predicate CheckEmail(s: string)
  {
    exists i, at, dot, j | 0 <= i < at < dot < j <= |s| :: MatchAt(s, i, at, dot, j)
  }

  /**
   * An address made of a local part that starts with a word character, a domain,
   * and a top-level part of two to seven letters is accepted.
   */
  lemma AddressAccepted(local: string, domain: string, tld: string)
    requires local != [] && IsWordChar(local[0]) && forall k | 0 <= k < |local| :: IsLocalChar(local[k])
    requires domain != [] && forall k | 0 <= k < |domain| :: IsDomainChar(domain[k])
    requires 2 <= |tld| <= 7 && forall k | 0 <= k < |tld| :: IsLetter(tld[k])
    ensures CheckEmail(local + "@" + domain + "." + tld)
  {
    var s := local + "@" + domain + "." + tld;
    var at, dot := |local|, |local| + 1 + |domain|;
    assert s[0] == local[0];
    assert s[at] == '@' && s[dot] == '.';
    assert forall k | 0 <= k < at :: s[k] == local[k];
    assert forall k | at < k < dot :: s[k] == domain[k - at - 1];
    assert forall k | dot < k < |s| :: s[k] == tld[k - dot - 1];
    assert s[|s| - 1] == tld[|tld| - 1];
    assert MatchAt(s, 0, at, dot, |s|);
  }

  /**
   * The match is not anchored: text around an accepted string is ignored as long
   * as it does not run into the match with a word character.
   */
  lemma EmbeddedAccepted(pre: string, s: string, post: string)
    requires CheckEmail(s)
    requires pre == [] || !IsWordChar(pre[|pre| - 1])
    requires post == [] || !IsWordChar(post[0])
    ensures CheckEmail(pre + s + post)
  {
    var i, at, dot, j :| 0 <= i < at < dot < j <= |s| && MatchAt(s, i, at, dot, j);
    var t, d := pre + s + post, |pre|;
    assert t[d..d + |s|] == s;
    assert d > 0 ==> t[d - 1] == pre[|pre| - 1];
    assert d + |s| < |t| ==> t[d + |s|] == post[0];
    InsideAccepted(t, d, s, i, at, dot, j);
  }

  /** A match inside `s`, where `s` sits in `t` at `d` with no word character touching it, is a match in `t`. */
  lemma InsideAccepted(t: string, d: int, s: string, i: int, at: int, dot: int, j: int)
    requires 0 <= d && d + |s| <= |t| && t[d..d + |s|] == s
    requires d == 0 || !IsWordChar(t[d - 1])
    requires d + |s| == |t| || !IsWordChar(t[d + |s|])
    requires MatchAt(s, i, at, dot, j)
    ensures CheckEmail(t)
  {
    BoundaryShift(t, d, s, i);
    BoundaryShift(t, d, s, j);
    ShiftedMatch(s, t, d, i, at, dot, j);
    assert 0 <= d + i < d + at < d + dot < d + j <= |t|;
  }

  /** A boundary of `s` is a boundary of `t` when `s` sits in `t` at `d` with no word character touching it. */
  lemma BoundaryShift(t: string, d: int, s: string, i: int)
    requires 0 <= d && d + |s| <= |t| && t[d..d + |s|] == s
    requires d == 0 || !IsWordChar(t[d - 1])
    requires d + |s| == |t| || !IsWordChar(t[d + |s|])
    requires 0 <= i <= |s| && Boundary(s, i)
    ensures Boundary(t, d + i)
  {
    if i > 0 {
      assert t[d..d + |s|][i - 1] == t[d + i - 1];
    }
    if i < |s| {
      assert t[d..d + |s|][i] == t[d + i];
    }
  }

  /** A match inside `s` is a match at the shifted positions inside `t`, given that its boundaries stay boundaries. */
  lemma ShiftedMatch(s: string, t: string, d: int, i: int, at: int, dot: int, j: int)
    requires 0 <= d && d + |s| <= |t| && t[d..d + |s|] == s
    requires MatchAt(s, i, at, dot, j)
    requires Boundary(t, d + i) && Boundary(t, d + j)
    ensures MatchAt(t, d + i, d + at, d + dot, d + j)
  {
    AllInShift(s, t, d, i, at, Local);
    AllInShift(s, t, d, at + 1, dot, Domain);
    AllInShift(s, t, d, dot + 1, j, Tld);
    assert t[d..d + |s|][at] == t[d + at];
    assert t[d..d + |s|][dot] == t[d + dot];
  }

  lemma AllInShift(s: string, t: string, d: int, lo: int, hi: int, cl: Class)
    requires 0 <= d && d + |s| <= |t| && t[d..d + |s|] == s
    requires 0 <= lo <= hi <= |s| && AllIn(s, lo, hi, cl)
    ensures AllIn(t, d + lo, d + hi, cl)
  {
    forall k | d + lo <= k < d + hi ensures InClass(t[k], cl) {
      assert t[d..d + |s|][k - d] == t[k];
    }
  }

  /** Without an `@` nothing is accepted. */
  lemma NoAtRejected(s: string)
    requires forall k | 0 <= k < |s| :: s[k] != '@'
    ensures !CheckEmail(s)
  {
  }

  /** The top-level part must be at least two characters long: `a@b.c` is rejected. */
  lemma ShortTldRejected()
    ensures !CheckEmail("a@b.c")
  {
  }

  /** A common address is accepted. */
  lemma PlainAddressAccepted()
    ensures CheckEmail("xxx@example.com")
  {
    var s := "xxx@example.com";
    assert MatchAt(s, 0, 3, 11, 15);
  }

  /** A `|` in the top-level part is accepted, since the character class `[A-Z|a-z]` includes it. */
  lemma PipeInTldAccepted()
    ensures CheckEmail("a@b.c|d")
  {
    var s := "a@b.c|d";
    assert MatchAt(s, 0, 1, 3, 7);
  }
}
