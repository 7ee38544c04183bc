/**
 * What `http.NewRequest` does with the URLs the chain builds from text the
 * provider supplies (the preauth cookie, the login page's `state`, a `Location`
 * header). It parses the URL with `url.Parse` and fails, before anything is
 * sent, when that parse fails.
 *
 * These URLs all have the fixed scheme, host and path of `https://auth0.openai.com/...`,
 * and the provider's text sits in the query. So `url.Parse` can reject them for
 * only two reasons: a control character before the first `#`, or an invalid
 * percent escape in the fragment after it.
 */
module RequestUrl {
  import opened Wrappers
  import opened Text

  /** An ASCII control character or DEL, which `url.Parse` refuses anywhere before the fragment. */
  predicate IsControl(c: char)
  {
    c < ' ' || c == '\U{7F}'
  }

  predicate IsHex(c: char)
  {
    ('0' <= c <= '9') || ('a' <= c <= 'f') || ('A' <= c <= 'F')
  }

  /** The index of the first `#` in `s`, or `|s|` when there is none. */
  function HashIndex(s: string): (k: nat)
    ensures k <= |s|
    ensures k < |s| ==> s[k] == '#'
    ensures forall i | 0 <= i < k :: s[i] != '#'
  {
    if s == [] then 0
    else if s[0] == '#' then 0
    else 1 + HashIndex(s[1..])
  }

  /**
   * The escape check of `unescape` in fragment mode, from index `i` on: every `%`
   * must be followed by two hex digits, and a valid escape is skipped whole. The
   * result is the offending text, at most three characters from the bad `%`.
   */
  function BadEscape(f: string, i: nat): (e: Option<string>)
    requires i <= |f|
    ensures e.Some? ==> e.value != [] && e.value[0] == '%'
    decreases |f| - i
  {
    if i == |f| then None
    else if f[i] == '%' then
      if i + 2 >= |f| || !IsHex(f[i + 1]) || !IsHex(f[i + 2]) then
        Some(f[i..if i + 3 <= |f| then i + 3 else |f|])
      else BadEscape(f, i + 3)
    else BadEscape(f, i + 1)
  }

  /**
   * The error `http.NewRequest` returns for `url`, or None when it accepts it. A
   * control character before the fragment is reported with the text before the `#`;
   * a bad escape in the fragment with the whole URL.
   */
  function NewRequestFault(url: string): Option<string>
  {
    FaultFrom(url, 0)
  }

  /**
   * The scan behind NewRequestFault, from index `i` on, where no `#` and no control
   * character occurs before `i`: the first control character or the first `#` decides.
   */
  function FaultFrom(url: string, i: nat): Option<string>
    requires i <= |url|
    decreases |url| - i
  {
    if i == |url| then None
    else if url[i] == '#' then
      match BadEscape(url[i + 1..], 0)
      case Some(esc) => Some("parse \"" + url + "\": invalid URL escape \"" + esc + "\"")
      case None => None
    else if IsControl(url[i]) then
      Some("parse \"" + url[..HashIndex(url)] + "\": net/url: invalid control character in URL")
    else FaultFrom(url, i + 1)
  }

  /** Text with neither a control character nor a `#`: the kind of text that cannot make a URL fail. */
  predicate Plain(s: string)
  {
    forall i | 0 <= i < |s| :: !IsControl(s[i]) && s[i] != '#'
  }

  lemma PlainConcat(a: string, b: string)
    requires Plain(a) && Plain(b)
    ensures Plain(a + b)
  {
    forall i | 0 <= i < |a + b| ensures !IsControl((a + b)[i]) && (a + b)[i] != '#' {
      if i >= |a| {
        assert (a + b)[i] == b[i - |a|];
      }
    }
  }

  /** Replacing in plain text with plain text leaves it plain. */
  lemma {:induction false} ReplaceAllPlain(s: string, pat: string, rep: string)
    requires pat != [] && Plain(s) && Plain(rep)
    ensures Plain(ReplaceAll(s, pat, rep))
    decreases |s|
  {
    if |s| < |pat| {
    } else if s[..|pat|] == pat {
      ReplaceAllPlain(s[|pat|..], pat, rep);
      PlainConcat(rep, ReplaceAll(s[|pat|..], pat, rep));
    } else {
      ReplaceAllPlain(s[1..], pat, rep);
      PlainConcat([s[0]], ReplaceAll(s[1..], pat, rep));
    }
  }

  /** A URL made of plain text is accepted. */
  lemma PlainAccepted(url: string)
    requires Plain(url)
    ensures NewRequestFault(url) == None
  {
    PlainScan(url, 0);
  }

  lemma {:induction false} PlainScan(url: string, i: nat)
    requires i <= |url| && Plain(url)
    ensures FaultFrom(url, i) == None
    decreases |url| - i
  {
    if i < |url| {
      PlainScan(url, i + 1);
    }
  }

  /** A control character with no `#` before it makes `http.NewRequest` fail. */
  lemma ControlRejected(url: string, i: nat)
    requires i < |url| && IsControl(url[i])
    requires forall j | 0 <= j < i :: url[j] != '#'
    ensures NewRequestFault(url).Some?
  {
    ControlScan(url, 0, i);
  }

  lemma {:induction false} ControlScan(url: string, k: nat, i: nat)
    requires k <= i < |url| && IsControl(url[i])
    requires forall j | 0 <= j < i :: url[j] != '#'
    ensures FaultFrom(url, k).Some?
    decreases i - k
  {
    if k < i && !IsControl(url[k]) {
      ControlScan(url, k + 1, i);
    }
  }

  /** A fragment without `%` passes the escape check. */
  lemma {:induction false} NoPercentNoBadEscape(f: string, i: nat)
    requires i <= |f|
    requires forall j | i <= j < |f| :: f[j] != '%'
    ensures BadEscape(f, i) == None
    decreases |f| - i
  {
    if i < |f| {
      NoPercentNoBadEscape(f, i + 1);
    }
  }

  /** A `%` followed by a non-hex character inside the fragment, reached by the scan, fails it. */
  lemma BadEscapeAtHead(f: string)
    requires |f| >= 3 && f[0] == '%' && !IsHex(f[1])
    ensures BadEscape(f, 0) == Some(f[..3])
  {
  }

  /** Before the first `#` and any control character, the scan only moves on. */
  lemma {:induction false} ScanTo(url: string, i: nat, k: nat)
    requires i <= k <= |url|
    requires forall j | i <= j < k :: !IsControl(url[j]) && url[j] != '#'
    ensures FaultFrom(url, i) == FaultFrom(url, k)
    decreases k - i
  {
    if i < k {
      ScanTo(url, i + 1, k);
    }
  }

  /** A URL whose text before its first `#` is plain and whose fragment holds no `%` is accepted. */
  lemma FragmentAccepted(url: string, k: nat)
    requires k < |url| && url[k] == '#'
    requires forall j | 0 <= j < k :: !IsControl(url[j]) && url[j] != '#'
    requires forall j | k < j < |url| :: url[j] != '%'
    ensures NewRequestFault(url) == None
  {
    ScanTo(url, 0, k);
    var f := url[k + 1..];
    forall j | 0 <= j < |f| ensures f[j] != '%' {
      assert f[j] == url[k + 1 + j];
    }
    NoPercentNoBadEscape(f, 0);
  }

  /**
   * A fragment that opens with `%` and a non-hex character, after plain text, is
   * refused with the whole URL and the three characters of the bad escape.
   */
  lemma EscapeRejected(url: string, k: nat)
    requires k + 3 < |url| && url[k] == '#' && url[k + 1] == '%' && !IsHex(url[k + 2])
    requires forall j | 0 <= j < k :: !IsControl(url[j]) && url[j] != '#'
    ensures NewRequestFault(url) == Some("parse \"" + url + "\": invalid URL escape \"" + url[k + 1..k + 4] + "\"")
  {
    ScanTo(url, 0, k);
    BadEscapeAtHead(url[k + 1..]);
    assert url[k + 1..][..3] == url[k + 1..k + 4];
  }
}
