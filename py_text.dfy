/**
 * The two Python string operations the client relies on: `str.strip()` applied
 * to each channel id, and `",".join(ids)` that packs a page of video ids into
 * one request parameter, together with the comma split by which the API reads
 * that parameter back.
 */
module PyText {

  /** The characters for which Python's `str.isspace()` holds; `str.strip()` with
      no argument removes exactly these from both ends. */
  predicate IsSpace(c: char) {
    c in Whitespace
  }

  const Whitespace: set<char> := {
    ' ', '\t', '\n', '\U{0B}', '\U{0C}', '\r', '\U{1C}', '\U{1D}', '\U{1E}', '\U{1F}',
    '\U{85}', '\U{A0}', '\U{1680}',
    '\U{2000}', '\U{2001}', '\U{2002}', '\U{2003}', '\U{2004}', '\U{2005}',
    '\U{2006}', '\U{2007}', '\U{2008}', '\U{2009}', '\U{200A}',
    '\U{2028}', '\U{2029}', '\U{202F}', '\U{205F}', '\U{3000}'
  }

  /** Every character of `s` at an index in `[lo, hi)` is whitespace. */
  predicate SpaceBetween(s: string, lo: int, hi: int)
    requires 0 <= lo && hi <= |s|
  {
    forall k :: lo <= k < hi ==> IsSpace(s[k])
  }

  /** Every character of `s` is whitespace. */
  predicate AllSpace(s: string) {
    SpaceBetween(s, 0, |s|)
  }

  /** `r` sits at offset `i` of `s`, everything of `s` around it is whitespace,
      and `r` neither starts nor ends with whitespace: what `s.strip()` returns. */
  predicate StrippedAt(s: string, i: nat, r: string) {
    i + |r| <= |s| && r == s[i..i + |r|]
    && SpaceBetween(s, 0, i) && SpaceBetween(s, i + |r|, |s|)
    && (r == [] || (!IsSpace(r[0]) && !IsSpace(r[|r| - 1])))
  }

  /** The index of the first non-whitespace character of `s` at or after
      `from`, or `|s|` when there is none. */
  function LeadingSpace(s: string, from: nat): (i: nat)
    requires from <= |s|
    ensures from <= i <= |s| && SpaceBetween(s, from, i)
    ensures i < |s| ==> !IsSpace(s[i])
    decreases |s| - from
  {
    if from == |s| || !IsSpace(s[from]) then from else LeadingSpace(s, from + 1)
  }

  /** The end of `s[lo..hi]` once its trailing whitespace is removed. */
  function TrailingSpace(s: string, lo: nat, hi: nat): (e: nat)
    requires lo <= hi <= |s|
    ensures lo <= e <= hi && SpaceBetween(s, e, hi)
    ensures lo < e ==> !IsSpace(s[e - 1])
    decreases hi - lo
  {
    if hi == lo || !IsSpace(s[hi - 1]) then hi else TrailingSpace(s, lo, hi - 1)
  }

  /** Python's `s.strip()`. */
  function Strip(s: string): (r: string)
    ensures StrippedAt(s, LeadingSpace(s, 0), r)
  {
    var i := LeadingSpace(s, 0);
    s[i..TrailingSpace(s, i, |s|)]
  }

  /** There is only one way to strip a string. */
  lemma StrippedUnique(s: string, i: nat, r: string, j: nat, q: string)
    requires StrippedAt(s, i, r) && StrippedAt(s, j, q)
    ensures r == q
  {
    assert r != [] ==> r[0] == s[i] && r[|r| - 1] == s[i + |r| - 1];
    assert q != [] ==> q[0] == s[j] && q[|q| - 1] == s[j + |q| - 1];
  }

  /** Stripping twice is stripping once. */
  lemma StripIdempotent(s: string)
    ensures Strip(Strip(s)) == Strip(s)
  {
    var r := Strip(s);
    assert StrippedAt(r, 0, r);
    StrippedUnique(r, LeadingSpace(r, 0), Strip(r), 0, r);
  }

  /** Whitespace added around a string leaves its stripped part in place. */
  lemma StrippedAtPadded(before: string, s: string, after: string, i: nat, r: string)
    requires AllSpace(before) && AllSpace(after) && StrippedAt(s, i, r)
    ensures StrippedAt(before + s + after, |before| + i, r)
  {
    var p := before + s + after;
    var k := |before| + i;
    assert p[k..k + |r|] == s[i..i + |r|];
    forall m | 0 <= m < k ensures IsSpace(p[m]) {
      if m >= |before| { assert p[m] == s[m - |before|]; }
    }
    forall m | k + |r| <= m < |p| ensures IsSpace(p[m]) {
      if m < |before| + |s| { assert p[m] == s[m - |before|]; }
      else { assert p[m] == after[m - |before| - |s|]; }
    }
  }

  /** Whitespace added around a string does not change what it strips to. */
  lemma StripIgnoresPadding(before: string, s: string, after: string)
    requires AllSpace(before) && AllSpace(after)
    ensures Strip(before + s + after) == Strip(s)
  {
    var p := before + s + after;
    var i, r := LeadingSpace(s, 0), Strip(s);
    var j, q := LeadingSpace(p, 0), Strip(p);
    StrippedAtPadded(before, s, after, i, r);
    StrippedUnique(p, |before| + i, r, j, q);
  }

  /** The combined length of `parts`. */
  function TotalLength(parts: seq<string>): nat {
    if parts == [] then 0 else |parts[0]| + TotalLength(parts[1..])
  }

  /** Python's `sep.join(parts)` for a one-character separator: the parts in
      order with one separator between neighbours and nothing else, so its
      length is theirs plus one per gap. */
  function Join(sep: char, parts: seq<string>): (r: string)
    ensures |parts| == 0 ==> r == ""
    ensures |parts| > 0 ==> |r| + 1 == TotalLength(parts) + |parts|
    decreases |parts|
  {
    if |parts| == 0 then ""
    else if |parts| == 1 then parts[0]
    else
      assert TotalLength(parts) == |parts[0]| + TotalLength(parts[1..]);
      parts[0] + [sep] + Join(sep, parts[1..])
  }

  /** The join starts with the first part and ends with the last one. */
  lemma {:induction false} JoinEnds(sep: char, parts: seq<string>)
    requires |parts| > 0
    ensures parts[0] <= Join(sep, parts)
    ensures var r, last := Join(sep, parts), parts[|parts| - 1];
      |last| <= |r| && r[|r| - |last|..] == last
  {
    if |parts| > 1 {
      var rest := Join(sep, parts[1..]);
      var r := parts[0] + [sep] + rest;
      var last := parts[|parts| - 1];
      JoinEnds(sep, parts[1..]);
      assert parts[1..][|parts| - 2] == last;
      assert r[|r| - |last|..] == rest[|rest| - |last|..];
    }
  }

  /** Index of the first `c` in `s`, or `|s|` when there is none. */
  function IndexOf(s: string, c: char): (i: nat)
    ensures i <= |s| && (i < |s| ==> s[i] == c)
    ensures forall k :: 0 <= k < i ==> s[k] != c
  {
    if |s| == 0 || s[0] == c then 0 else 1 + IndexOf(s[1..], c)
  }

  /** The fields of a `sep`-separated list, as the API reads a comma-separated
      `id` parameter; like Python's `s.split(sep)`, the empty string is one
      empty field. */
  function Split(s: string, sep: char): (r: seq<string>)
    decreases |s|
  {
    var i := IndexOf(s, sep);
    if i == |s| then [s] else [s[..i]] + Split(s[i + 1..], sep)
  }

  /** A string without `sep` is a single field. */
  lemma SingleField(p: string, sep: char)
    requires sep !in p
    ensures Split(p, sep) == [p]
  {
    forall k | 0 <= k < |p| ensures p[k] != sep { assert p[k] in p; }
    assert IndexOf(p, sep) == |p|;
  }

  /** The first field of `p + [sep] + rest` is `p` when `p` holds no `sep`. */
  lemma FirstFieldOf(p: string, sep: char, rest: string)
    requires sep !in p
    ensures Split(p + [sep] + rest, sep) == [p] + Split(rest, sep)
  {
    var s := p + [sep] + rest;
    forall k | 0 <= k < |p| ensures s[k] != sep { assert s[k] == p[k] && p[k] in p; }
    assert s[|p|] == sep;
    assert IndexOf(s, sep) == |p|;
    assert s[..|p|] == p && s[|p| + 1..] == rest;
  }

  /** Joining at least two parts puts the first one, then a separator, in
      front of the join of the others. */
  lemma JoinCons(sep: char, parts: seq<string>)
    requires |parts| >= 2
    ensures Join(sep, parts) == parts[0] + [sep] + Join(sep, parts[1..])
  {
  }

  /** A non-empty list of fields free of the separator survives `Join` then
      `Split`: the request parameter carries exactly the list, in order. */
  lemma {:induction false} SplitJoin(sep: char, parts: seq<string>)
    requires |parts| >= 1
    requires forall k :: 0 <= k < |parts| ==> sep !in parts[k]
    ensures Split(Join(sep, parts), sep) == parts
  {
    var p := parts[0];
    if |parts| == 1 {
      SingleField(p, sep);
    } else {
      var tail := parts[1..];
      var rest := Join(sep, tail);
      JoinCons(sep, parts);
      FirstFieldOf(p, sep, rest);
      assert forall k :: 0 <= k < |tail| ==> tail[k] == parts[k + 1];
      SplitJoin(sep, tail);
      assert Split(rest, sep) == tail;
      assert parts == [p] + tail;
    }
  }

}
