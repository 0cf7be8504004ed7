/**
 * URL schemes: completing a schema-relative stream URL (`://host/path`) with
 * a scheme, and the scheme check with which the WHATWG URL parser (and with
 * it Node's `http.get` and `new URL`) refuses a string that has none.
 */
module Urls {
  import opened Text
  import opened Piped

  predicate AsciiLetter(c: char) {
    ('a' <= c <= 'z') || ('A' <= c <= 'Z')
  }

  /** A character allowed in a URL scheme after its first letter. */
  predicate SchemeChar(c: char) {
    AsciiLetter(c) || ('0' <= c <= '9') || c == '+' || c == '-' || c == '.'
  }

  /** A scheme name such as `http`: a letter followed by scheme characters. */
  predicate IsSchemeName(w: string) {
    w != [] && AsciiLetter(w[0]) && forall i :: 0 <= i < |w| ==> SchemeChar(w[i])
  }

  /**
   * A character the URL parser trims from the ends of its input before it
   * reads anything: a C0 control or a space.
   */
  predicate Blank(c: char) {
    c <= ' '
  }

  /** A character the URL parser removes wherever it stands: tab, line feed or carriage return. */
  predicate TabOrNewline(c: char) {
    c == '\t' || c == '\n' || c == '\r'
  }

  /**
   * The rest of a scheme: scheme characters up to the `:` that ends it, with
   * tabs and newlines in between ignored.
   */
  predicate SchemeTail(s: string)
    decreases |s|
  {
    s != [] && (s[0] == ':' || ((SchemeChar(s[0]) || TabOrNewline(s[0])) && SchemeTail(s[1..])))
  }

  /**
   * Once leading blanks are trimmed and tabs and newlines dropped, the string
   * opens with a scheme and a `:`. (Trailing blanks, also trimmed, come after
   * the `:` of any scheme, so they do not matter here.) Without a scheme, a
   * URL parsed with no base fails, so `new URL(s)` and `http.get(s)` throw.
   */
  function HasScheme(url: string): (b: bool)
    ensures b ==> url != "" && !StartsWith(url, "://")
    decreases |url|
  {
    if url == [] then false
    else if Blank(url[0]) then HasScheme(url[1..])
    else AsciiLetter(url[0]) && SchemeTail(url[1..])
  }

  /** Blanks in front of a URL make no difference to whether it has a scheme. */
  lemma {:induction false} LeadingBlanksSkipped(blanks: string, url: string)
    requires forall i :: 0 <= i < |blanks| ==> Blank(blanks[i])
    ensures HasScheme(blanks + url) == HasScheme(url)
    decreases |blanks|
  {
    if blanks != [] {
      LeadingBlanksSkipped(blanks[1..], url);
      var s := blanks + url;
      assert s != [] && s[0] == blanks[0] && Blank(s[0]);
      assert s[1..] == blanks[1..] + url;
      assert HasScheme(s) == HasScheme(s[1..]);
    } else {
      assert blanks + url == url;
    }
  }

  /** A URL with a scheme keeps it behind any blanks: `" https://h/x"` is still an absolute URL. */
  lemma BlanksThenScheme(blanks: string, w: string, rest: string)
    requires forall i :: 0 <= i < |blanks| ==> Blank(blanks[i])
    requires IsSchemeName(w)
    ensures HasScheme(blanks + w + ":" + rest)
  {
    SchemeNameThenColon(w, rest);
    LeadingBlanksSkipped(blanks, w + ":" + rest);
    assert blanks + w + ":" + rest == blanks + (w + ":" + rest);
  }

  /** The first character other than a blank must be a letter: `://…`, `/…` or `piped.local,…` have no scheme. */
  lemma {:induction false} NoSchemeWithoutLetter(blanks: string, c: char, rest: string)
    requires forall i :: 0 <= i < |blanks| ==> Blank(blanks[i])
    requires !Blank(c) && !AsciiLetter(c)
    ensures !HasScheme(blanks + [c] + rest)
  {
    LeadingBlanksSkipped(blanks, [c] + rest);
    assert blanks + [c] + rest == blanks + ([c] + rest);
  }

  /** A scheme name followed by `:` is recognised as a scheme, whatever follows. */
  lemma {:induction false} SchemeNameThenColon(w: string, rest: string)
    ensures IsSchemeName(w) ==> HasScheme(w + ":" + rest)
  {
    if IsSchemeName(w) {
      SchemeCharsThenColon(w[1..], rest);
      assert (w + ":" + rest)[1..] == w[1..] + ":" + rest;
    }
  }

  lemma {:induction false} SchemeCharsThenColon(w: string, rest: string)
    requires forall i :: 0 <= i < |w| ==> SchemeChar(w[i]) || TabOrNewline(w[i])
    ensures SchemeTail(w + ":" + rest)
    decreases |w|
  {
    if w != [] {
      SchemeCharsThenColon(w[1..], rest);
      assert (w + ":" + rest)[1..] == w[1..] + ":" + rest;
    }
  }

  /** A tab or newline inside a scheme name is dropped: `ht\ttp://h/x` still has a scheme. */
  lemma BreakInsideScheme(w: string, k: nat, c: char, rest: string)
    requires IsSchemeName(w) && 0 < k <= |w| && TabOrNewline(c)
    ensures HasScheme(w[..k] + [c] + w[k..] + ":" + rest)
  {
    var t := w[1..k] + [c] + w[k..];
    forall i | 0 <= i < |t| ensures SchemeChar(t[i]) || TabOrNewline(t[i]) {
      if i < k - 1 {
        assert t[i] == w[i + 1];
      } else if i > k - 1 {
        assert t[i] == w[i];
      }
    }
    SchemeCharsThenColon(t, rest);
    var u := w[..k] + [c] + w[k..] + ":" + rest;
    assert u[0] == w[0];
    assert u[1..] == t + ":" + rest;
  }

  /** Scheme characters followed by any other character than `:` do not end a scheme. */
  lemma {:induction false} SchemeCharsThenOther(w: string, c: char, rest: string)
    requires forall i :: 0 <= i < |w| ==> SchemeChar(w[i])
    requires !SchemeChar(c) && !TabOrNewline(c) && c != ':'
    ensures !SchemeTail(w + [c] + rest)
    decreases |w|
  {
    if w != [] {
      SchemeCharsThenOther(w[1..], c, rest);
      assert (w + [c] + rest)[1..] == w[1..] + [c] + rest;
    }
  }

  lemma HttpSchemes()
    ensures IsSchemeName("http") && IsSchemeName("https")
  {
  }

  /**
   * `if (url.startsWith('://')) url = scheme + url`: the scheme is only ever
   * put in front, a URL that has a scheme is kept, and a completed URL has a
   * scheme whenever `scheme` is a scheme name.
   */
  function AbsoluteUrl(scheme: string, url: string): (r: string)
    ensures r == url || r == scheme + url
    ensures HasScheme(url) ==> r == url
    ensures StartsWith(url, "://") && IsSchemeName(scheme) ==> HasScheme(r)
  {
    if StartsWith(url, "://") then
      SchemeNameThenColon(scheme, url[1..]);
      assert scheme + url == scheme + ":" + url[1..];
      scheme + url
    else url
  }

  /** A schema-relative URL gets the scheme in front. */
  lemma AbsoluteUrlOfRelative(scheme: string, rest: string)
    ensures AbsoluteUrl(scheme, "://" + rest) == scheme + "://" + rest
  {
    assert ("://" + rest)[..3] == "://";
  }

  /** Any other URL, in particular one that already has a scheme, is left alone. */
  lemma AbsoluteUrlKeeps(scheme: string, url: string)
    requires !StartsWith(url, "://")
    ensures AbsoluteUrl(scheme, url) == url
  {
  }

  /** Completing twice is completing once, for a scheme that does not itself begin with ':'. */
  lemma AbsoluteUrlIdempotent(scheme: string, url: string)
    requires scheme != [] && scheme[0] != ':'
    ensures AbsoluteUrl(scheme, AbsoluteUrl(scheme, url)) == AbsoluteUrl(scheme, url)
  {
    var once := AbsoluteUrl(scheme, url);
    if StartsWith(url, "://") {
      assert once[0] == scheme[0];
    }
  }

  /** The result is never schema-relative, for a non-empty scheme that does not begin with ':'. */
  lemma AbsoluteUrlIsAbsolute(scheme: string, url: string)
    requires scheme != [] && scheme[0] != ':'
    requires StartsWith(url, "://")
    ensures !StartsWith(AbsoluteUrl(scheme, url), "://")
    ensures StartsWith(AbsoluteUrl(scheme, url), scheme + "://")
  {
    var r := AbsoluteUrl(scheme, url);
    assert r[0] == scheme[0];
    assert r[..|scheme| + 3] == scheme + url[..3];
  }

  /**
   * What a metadata request yields once Node has looked at its URL:
   * `http.get` parses a string URL as `new URL` does, so a URL without a
   * scheme makes it throw before anything is sent (inside the promise
   * executor, so the promise rejects); any other gets `answer`.
   */
  function HttpGet(url: string, answer: Attempt): (a: Attempt)
    ensures !HasScheme(url) ==> a == Threw
    ensures HasScheme(url) ==> a == answer
  {
    if HasScheme(url) then answer else Threw
  }
}
