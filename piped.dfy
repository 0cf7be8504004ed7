/**
 * The metadata a Piped instance answers for `/streams/<id>`, the outcome of
 * one request for it, and the choice of the best audio candidate: a stable
 * sort by bitrate, highest first (a missing bitrate counts as 0), of which
 * the first element is taken.
 */
module Piped {
  import opened Wrappers

  /** One entry of `audioStreams`. */
  datatype Candidate = Candidate(url: Option<string>, bitrate: Option<int>, mimeType: Option<string>)

  /**
   * The parsed body. `error` is "" when the field is absent or falsy.
   * `audioStreams` is None when the field is absent or falsy.
   */
  datatype Info = Info(
    error: string,
    audioStreams: Option<seq<Candidate>>,
    title: Option<string>,
    uploader: Option<string>,
    duration: Option<int>)

  /**
   * What one request to an instance produced: it threw (connection error,
   * refused URL, timeout), it never answered, or it answered with a status
   * and a body, which is None when `JSON.parse` threw or produced `null`.
   */
  datatype Attempt = Threw | Hung | Got(status: int, body: Option<Info>)

  /**
   * What `getAudioStreamUrl` returns: the chosen candidate's url (not yet
   * normalised) and content type, with the title, uploader and duration.
   */
  datatype Stream = Stream(
    url: Option<string>,
    title: Option<string>,
    author: Option<string>,
    duration: Option<int>,
    mimeType: string)

  const DEFAULT_MIME_TYPE := "audio/webm"

  /** `mimeType || 'audio/webm'`. */
  function MimeTypeOr(m: Option<string>): (r: string)
    ensures r != ""
    ensures m.Some? && m.value != "" ==> r == m.value
    ensures m.None? || m.value == "" ==> r == DEFAULT_MIME_TYPE
  {
    if m.Some? && m.value != "" then m.value else DEFAULT_MIME_TYPE
  }

  /**
   * The checks an answer must pass before its streams are used: status 200,
   * a parsed body, no truthy `error`, and a present, non-empty `audioStreams`.
   */
  function HasStreams(a: Attempt): (b: bool)
    ensures b ==> a.Got?
    ensures a.Got? && a.status != 200 ==> !b
    ensures a.Got? && a.body.None? ==> !b
    ensures a.Got? && a.body.Some? && a.body.value.error != "" ==> !b
    ensures b ==> a.body.value.audioStreams.Some? && a.body.value.audioStreams.value != []
    ensures (a.Got? && a.status == 200 && a.body.Some? && a.body.value.error == "" &&
             a.body.value.audioStreams.GetOr([]) != []) ==> b
  {
    a.Got? && a.status == 200 && a.body.Some? && a.body.value.error == "" &&
    a.body.value.audioStreams.Some? && |a.body.value.audioStreams.value| > 0
  }

  /** The sort key `bitrate || 0`: the bitrate, or 0 when there is none. */
  function Key(c: Candidate): (k: int)
    ensures c.bitrate.Some? ==> k == c.bitrate.value
    ensures c.bitrate.None? ==> k == 0
  {
    c.bitrate.GetOr(0)
  }

  predicate SortedDesc(s: seq<Candidate>) {
    forall i, j :: 0 <= i < j < |s| ==> Key(s[i]) >= Key(s[j])
  }

  /** The index of the first candidate whose key is maximal. */
  function FirstMaxIndex(s: seq<Candidate>): (k: nat)
    requires |s| > 0
    ensures k < |s|
    ensures forall i :: 0 <= i < |s| ==> Key(s[i]) <= Key(s[k])
    ensures forall i :: 0 <= i < k ==> Key(s[i]) < Key(s[k])
    decreases |s|
  {
    if |s| == 1 then 0
    else
      var k := FirstMaxIndex(s[..|s| - 1]);
      if Key(s[|s| - 1]) > Key(s[k]) then |s| - 1 else k
  }

  /** The candidate the servers pick: the earliest-listed one of highest key. */
  function Best(s: seq<Candidate>): Candidate
    requires |s| > 0
  {
    s[FirstMaxIndex(s)]
  }

  /** Inserts `x` after every element whose key is at least its own. */
  function Insert(x: Candidate, s: seq<Candidate>): (r: seq<Candidate>)
    ensures |r| == |s| + 1
  {
    if s == [] then [x]
    else if Key(s[0]) < Key(x) then [x] + s
    else [s[0]] + Insert(x, s[1..])
  }

  lemma {:induction false} InsertPermutes(x: Candidate, s: seq<Candidate>)
    ensures multiset(Insert(x, s)) == multiset(s) + multiset{x}
  {
    if s != [] && Key(s[0]) >= Key(x) {
      InsertPermutes(x, s[1..]);
      assert s == [s[0]] + s[1..];
    }
  }

  lemma {:induction false} InsertSorted(x: Candidate, s: seq<Candidate>)
    requires SortedDesc(s)
    ensures SortedDesc(Insert(x, s))
  {
    if s != [] && Key(s[0]) >= Key(x) {
      var t := Insert(x, s[1..]);
      InsertSorted(x, s[1..]);
      InsertPermutes(x, s[1..]);
      forall i | 0 <= i < |t| ensures Key(s[0]) >= Key(t[i]) {
        assert t[i] in multiset(t);
        assert t[i] == x || t[i] in multiset(s[1..]);
      }
      assert Insert(x, s) == [s[0]] + t;
    }
  }

  /** The stable descending order a comparator `(a, b) => key(b) - key(a)` produces. */
  function SortDesc(s: seq<Candidate>): (r: seq<Candidate>)
    ensures |r| == |s|
  {
    if s == [] then [] else Insert(s[|s| - 1], SortDesc(s[..|s| - 1]))
  }

  /** The sort orders by key, highest first. */
  lemma {:induction false} SortDescSorted(s: seq<Candidate>)
    ensures SortedDesc(SortDesc(s))
    decreases |s|
  {
    if s != [] {
      SortDescSorted(s[..|s| - 1]);
      InsertSorted(s[|s| - 1], SortDesc(s[..|s| - 1]));
    }
  }

  /** The sort only rearranges the candidates. */
  lemma {:induction false} SortDescPermutes(s: seq<Candidate>)
    ensures multiset(SortDesc(s)) == multiset(s)
    decreases |s|
  {
    if s != [] {
      var init := s[..|s| - 1];
      SortDescPermutes(init);
      InsertPermutes(s[|s| - 1], SortDesc(init));
      assert s == init + [s[|s| - 1]];
    }
  }

  /** Where `x` lands when the sorted `s` has exactly `k` elements of key at least `x`'s. */
  lemma {:induction false} InsertAt(x: Candidate, s: seq<Candidate>, k: nat)
    requires k <= |s|
    requires forall i :: 0 <= i < k ==> Key(s[i]) >= Key(x)
    requires k < |s| ==> Key(s[k]) < Key(x)
    ensures Insert(x, s) == s[..k] + [x] + s[k..]
  {
    if k == 0 {
      assert s[..0] + [x] + s[0..] == [x] + s;
    } else {
      var tail := s[1..];
      assert Key(s[0]) >= Key(x);
      InsertAt(x, tail, k - 1);
      assert s[..k] == [s[0]] + tail[..k - 1];
      assert s[k..] == tail[k - 1..];
    }
  }

  /** In a sorted sequence, `x` goes right after the last element whose key is at least its own. */
  lemma InsertIntoSorted(x: Candidate, s: seq<Candidate>, k: nat)
    requires SortedDesc(s) && k <= |s|
    requires k > 0 ==> Key(s[k - 1]) >= Key(x)
    requires k < |s| ==> Key(s[k]) < Key(x)
    ensures Insert(x, s) == s[..k] + [x] + s[k..]
  {
    forall m | 0 <= m < k ensures Key(s[m]) >= Key(x) {
      assert Key(s[m]) >= Key(s[k - 1]);
    }
    InsertAt(x, s, k);
  }

  /** Sorting one more element of `s` inserts it into the sorted prefix. */
  lemma SortDescExtend(s: seq<Candidate>, i: nat)
    requires i < |s|
    ensures SortDesc(s[..i + 1]) == Insert(s[i], SortDesc(s[..i]))
  {
    assert s[..i + 1][..i] == s[..i];
  }

  /** One step of insertion sort: the next element lands at `j`, after the keys at least its own. */
  lemma SortDescStep(s: seq<Candidate>, i: nat, j: nat)
    requires j <= i < |s|
    requires j > 0 ==> Key(SortDesc(s[..i])[j - 1]) >= Key(s[i])
    requires forall m :: j <= m < i ==> Key(SortDesc(s[..i])[m]) < Key(s[i])
    ensures SortDesc(s[..i + 1]) == SortDesc(s[..i])[..j] + [s[i]] + SortDesc(s[..i])[j..]
  {
    SortDescSorted(s[..i]);
    InsertIntoSorted(s[i], SortDesc(s[..i]), j);
    SortDescExtend(s, i);
  }

  /** The head of the stable descending sort is the earliest candidate of highest key. */
  lemma {:induction false} SortHeadIsBest(s: seq<Candidate>)
    requires |s| > 0
    ensures SortDesc(s)[0] == Best(s)
    decreases |s|
  {
    if |s| > 1 {
      var init := s[..|s| - 1];
      SortHeadIsBest(init);
      assert init[..|init| - 1] == s[..|s| - 2];
    }
  }

  /**
   * `formats.sort((a, b) => (b.bitrate || 0) - (a.bitrate || 0))`: an in-place
   * stable sort, highest key first (insertion sort; every stable sort agrees).
   */
  method SortByBitrate(a: array<Candidate>)
    modifies a
    ensures a[..] == SortDesc(old(a[..]))
  {
    ghost var input := a[..];
    var i := 0;
    while i < a.Length
      invariant 0 <= i <= a.Length
      invariant a[..i] == SortDesc(input[..i])
      invariant a[i..] == input[i..]
    {
      ghost var sorted := a[..i];
      var x := a[i];
      assert x == input[i];
      var j := InsertNext(a, i);
      SortDescStep(input, i, j);
      i := i + 1;
    }
    assert input[..a.Length] == input;
  }

  /**
   * Moves `a[i]` left past the elements of `a[..i]` whose key is smaller than
   * its own, and reports where it landed.
   */
  method InsertNext(a: array<Candidate>, i: nat) returns (j: nat)
    requires i < a.Length
    modifies a
    ensures j <= i
    ensures a[..i + 1] == old(a[..j]) + [old(a[i])] + old(a[j..i])
    ensures j > 0 ==> Key(old(a[j - 1])) >= Key(old(a[i]))
    ensures forall m :: j <= m < i ==> Key(old(a[m])) < Key(old(a[i]))
    ensures a[i + 1..] == old(a[i + 1..])
  {
    ghost var prefix := a[..i];
    var x := a[i];
    j := i;
    while j > 0 && Key(a[j - 1]) < Key(x)
      invariant 0 <= j <= i
      invariant forall m :: 0 <= m < j ==> a[m] == prefix[m]
      invariant forall m :: j < m <= i ==> a[m] == prefix[m - 1]
      invariant forall m :: j <= m < i ==> Key(prefix[m]) < Key(x)
      invariant forall m :: i < m < a.Length ==> a[m] == old(a[m])
    {
      a[j] := a[j - 1];
      j := j - 1;
    }
    a[j] := x;
    assert a[..i + 1] == prefix[..j] + [x] + prefix[j..];
    assert a[i + 1..] == old(a[i + 1..]);
  }

  /**
   * Sorts a fresh copy of the parsed `audioStreams` in place and takes
   * element 0, as each server does.
   */
  method SortedHead(formats: seq<Candidate>) returns (best: Candidate)
    requires |formats| > 0
    ensures best == Best(formats)
  {
    var a := new Candidate[|formats|](i requires 0 <= i < |formats| => formats[i]);
    assert a[..] == formats;
    SortByBitrate(a);
    SortHeadIsBest(formats);
    best := a[0];
  }
}
