/**
 * The JavaScript string operations the servers use: `startsWith`, `indexOf`,
 * `replace` with a string pattern, `split` on one character and `join`.
 * Strings are sequences of characters.
 */
module Text {
  import opened Wrappers

  predicate StartsWith(s: string, prefix: string) {
    |prefix| <= |s| && s[..|prefix|] == prefix
  }

  /** JavaScript truthiness of a string: only the empty string is falsy. */
  predicate Truthy(s: string) {
    s != ""
  }

  /** `pat` occurs in `s` at position `k`. */
  predicate OccursAt(s: string, pat: string, k: int) {
    0 <= k && k + |pat| <= |s| && s[k..k + |pat|] == pat
  }

  lemma OccursAtTail(s: string, pat: string, j: int)
    requires s != [] && 0 <= j
    ensures OccursAt(s[1..], pat, j) <==> OccursAt(s, pat, j + 1)
  {
    if j + |pat| <= |s[1..]| {
      assert s[1..][j..j + |pat|] == s[j + 1..j + 1 + |pat|];
    }
  }

  lemma ConcatAssoc(a: string, b: string, c: string)
    ensures a + b + c == a + (b + c)
  {
  }

  /** `s.indexOf(pat)`: the first position at which `pat` occurs, if any. */
  function IndexOf(s: string, pat: string): (r: Option<nat>)
    ensures r.Some? ==> OccursAt(s, pat, r.value)
    ensures r.Some? ==> forall j :: 0 <= j < r.value ==> !OccursAt(s, pat, j)
    ensures r.None? ==> forall j :: !OccursAt(s, pat, j)
    decreases |s|
  {
    if |s| < |pat| then None
    else if s[..|pat|] == pat then Some(0)
    else
      var tail := IndexOf(s[1..], pat);
      assert forall j :: 1 <= j ==> (OccursAt(s, pat, j) <==> OccursAt(s[1..], pat, j - 1)) by {
        forall j | 1 <= j ensures OccursAt(s, pat, j) <==> OccursAt(s[1..], pat, j - 1) {
          OccursAtTail(s, pat, j - 1);
        }
      }
      match tail
      case None => None
      case Some(k) => Some(k + 1)
  }

  /**
   * `s.replace(pat, rep)` with a string pattern: only the first occurrence is
   * replaced (`rep` is assumed free of `$` substitution patterns).
   */
  function ReplaceFirst(s: string, pat: string, rep: string): (r: string)
    ensures (forall j :: !OccursAt(s, pat, j)) ==> r == s
    ensures forall k ::
      OccursAt(s, pat, k) && (forall j :: 0 <= j < k ==> !OccursAt(s, pat, j)) ==>
        r == s[..k] + rep + s[k + |pat|..]
  {
    match IndexOf(s, pat)
    case None => s
    case Some(k) => s[..k] + rep + s[k + |pat|..]
  }

  /** When the first occurrence of `pat` follows `before`, exactly that one is replaced. */
  lemma ReplaceFirstAfter(before: string, pat: string, rep: string, after: string)
    requires forall j :: 0 <= j < |before| ==> !OccursAt(before + pat, pat, j)
    ensures ReplaceFirst(before + pat + after, pat, rep) == before + rep + after
  {
    var head := before + pat;
    var s := head + after;
    assert s[|before|..|before| + |pat|] == pat;
    forall j | 0 <= j < |before| ensures !OccursAt(s, pat, j) {
      assert j + |pat| <= |head|;
      assert s[j..j + |pat|] == head[j..j + |pat|];
      assert !OccursAt(head, pat, j);
    }
    assert OccursAt(s, pat, |before|);
    assert s[..|before|] == before;
    assert s[|before| + |pat|..] == after;
  }

  /** `s.split(sep)` for a one-character separator. */
  function Split(s: string, sep: char): (parts: seq<string>)
    ensures |parts| >= 1
    ensures forall i :: 0 <= i < |parts| ==> sep !in parts[i]
    ensures StartsWith(s, parts[0])
    ensures |parts[0]| < |s| ==> s[|parts[0]|] == sep
    ensures |parts| == 1 ==> parts[0] == s
    decreases |s|
  {
    if s == [] then [""]
    else if s[0] == sep then [""] + Split(s[1..], sep)
    else
      var rest := Split(s[1..], sep);
      [[s[0]] + rest[0]] + rest[1..]
  }

  /** `parts.join(sep)`; also what an array becomes when interpolated into a template string (with ","). */
  function Join(parts: seq<string>, sep: string): (s: string)
    ensures |parts| == 1 ==> s == parts[0]
  {
    if parts == [] then ""
    else if |parts| == 1 then parts[0]
    else parts[0] + sep + Join(parts[1..], sep)
  }

  /** The joined string opens with the first part, and with the separator after it when more parts follow. */
  lemma JoinPrefix(parts: seq<string>, sep: string)
    ensures parts != [] ==> StartsWith(Join(parts, sep), parts[0])
    ensures |parts| >= 2 ==> StartsWith(Join(parts, sep), parts[0] + sep)
  {
    if |parts| >= 2 {
      var s := Join(parts, sep);
      assert s == parts[0] + sep + Join(parts[1..], sep);
      assert s[..|parts[0] + sep|] == parts[0] + sep;
      assert s[..|parts[0]|] == parts[0];
    }
  }

  /** Splitting and joining again on the same separator gives back the string. */
  lemma {:induction false} JoinSplit(s: string, sep: char)
    ensures Join(Split(s, sep), [sep]) == s
    decreases |s|
  {
    if s == [] {
    } else if s[0] == sep {
      JoinSplit(s[1..], sep);
      assert Split(s, sep) == [""] + Split(s[1..], sep);
      assert s == [sep] + s[1..];
    } else {
      JoinSplit(s[1..], sep);
      var rest := Split(s[1..], sep);
      if |rest| == 1 {
        assert s == [s[0]] + s[1..];
      } else {
        assert Split(s, sep)[1..] == rest[1..];
        assert s == [s[0]] + s[1..];
      }
    }
  }

  /** A path of the shape `/<word>/<rest>` splits on `/` into "", the word, then the pieces of the rest. */
  lemma SplitAfterWord(word: string, rest: string)
    requires '/' !in word
    ensures Split("/" + word + "/" + rest, '/') == ["", word] + Split(rest, '/')
    decreases |word|
  {
    var s := "/" + word + "/" + rest;
    assert s[1..] == word + "/" + rest;
    SplitWordThenSeparator(word, rest, '/');
  }

  lemma {:induction false} SplitWordThenSeparator(word: string, rest: string, sep: char)
    requires sep !in word
    ensures Split(word + [sep] + rest, sep) == [word] + Split(rest, sep)
    decreases |word|
  {
    var s := word + [sep] + rest;
    if word == [] {
      assert s[0] == sep && s[1..] == rest;
    } else {
      assert s[0] == word[0] && s[1..] == word[1..] + [sep] + rest;
      SplitWordThenSeparator(word[1..], rest, sep);
      assert [word[0]] + word[1..] == word;
    }
  }
}
