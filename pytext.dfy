/** The pieces of Python's string behaviour the importer uses:
    `str.split` on a separator, `str.join`, `str.strip`, and the `repr`
    of a list of strings as an f-string renders it. */
module PyText {
  import opened Frames

  /** `sep` occurs in `s` starting at index `i`. */
  predicate OccursAt(s: string, sep: string, i: int)
  {
    0 <= i && i + |sep| <= |s| && s[i..i + |sep|] == sep
  }

  predicate Contains(s: string, sep: string)
  {
    exists i :: 0 <= i <= |s| && OccursAt(s, sep, i)
  }

  /** `s.find(sep)`: the first index at which `sep` occurs. */
  function Find(s: string, sep: string): (r: Option<nat>)
    requires |sep| > 0
    ensures r.Some? ==> OccursAt(s, sep, r.value)
    ensures r.Some? ==> forall i :: 0 <= i < r.value ==> !OccursAt(s, sep, i)
    ensures r.None? ==> !Contains(s, sep)
    decreases |s|
  {
    if |s| < |sep| then None
    else if s[..|sep|] == sep then Some(0)
    else
      var rest := Find(s[1..], sep);
      ShiftOccurrence(s, sep);
      assert !OccursAt(s, sep, 0);
      match rest
      case None => None
      case Some(i) => Some(i + 1)
  }

  /** An occurrence at index i >= 1 of s is an occurrence at index i - 1 of s[1..]. */
  lemma ShiftOccurrence(s: string, sep: string)
    requires |s| > 0
    ensures forall i :: 1 <= i ==> (OccursAt(s, sep, i) <==> OccursAt(s[1..], sep, i - 1))
  {
    forall i | 1 <= i
      ensures OccursAt(s, sep, i) <==> OccursAt(s[1..], sep, i - 1)
    {
      if i + |sep| <= |s| {
        assert s[1..][i - 1..i - 1 + |sep|] == s[i..i + |sep|];
      }
    }
  }

  /** `s.split(sep)` for a non-empty separator (Python raises on an empty one). */
  function Split(s: string, sep: string): (r: seq<string>)
    requires |sep| > 0
    ensures |r| >= 1
    ensures forall k :: 0 <= k < |r| ==> !Contains(r[k], sep)
    decreases |s|
  {
    match Find(s, sep)
    case None => [s]
    case Some(i) =>
      PrefixBeforeFirst(s, sep, i);
      [s[..i]] + Split(s[i + |sep|..], sep)
  }

  lemma PrefixBeforeFirst(s: string, sep: string, i: nat)
    requires |sep| > 0 && i <= |s|
    requires forall j :: 0 <= j < i ==> !OccursAt(s, sep, j)
    ensures !Contains(s[..i], sep)
  {
    forall j | OccursAt(s[..i], sep, j)
      ensures false
    {
      assert s[..i][j..j + |sep|] == s[j..j + |sep|];
      assert OccursAt(s, sep, j);
    }
  }

  /** `sep.join(xs)` */
  function Join(xs: seq<string>, sep: string): string
    decreases |xs|
  {
    if |xs| == 0 then ""
    else if |xs| == 1 then xs[0]
    else xs[0] + sep + Join(xs[1..], sep)
  }

  /** Splitting loses nothing: joining the pieces back with the separator
      gives the original text. */
  lemma {:induction false} SplitJoin(s: string, sep: string)
    requires |sep| > 0
    ensures Join(Split(s, sep), sep) == s
    decreases |s|
  {
    match Find(s, sep)
    case None =>
    case Some(i) =>
      var rest := s[i + |sep|..];
      var tail := Split(rest, sep);
      SplitJoin(rest, sep);
      var xs := [s[..i]] + tail;
      assert Split(s, sep) == xs;
      assert xs[1..] == tail;
      assert Join(xs, sep) == s[..i] + sep + Join(tail, sep);
      assert s == s[..i] + s[i..i + |sep|] + rest;
  }

  /** Splitting text made of separator-free pieces joined with a one-character
      separator gives back the pieces. */
  lemma {:induction false} JoinSplit(xs: seq<string>, c: char)
    requires |xs| >= 1
    requires forall k :: 0 <= k < |xs| ==> c !in xs[k]
    ensures Split(Join(xs, [c]), [c]) == xs
    decreases |xs|
  {
    var s := Join(xs, [c]);
    NoCharNoOccurrence(xs[0], c);
    if |xs| == 1 {
      assert Find(s, [c]) == None;
    } else {
      var tail := Join(xs[1..], [c]);
      assert s == xs[0] + [c] + tail;
      forall j | 0 <= j < |xs[0]|
        ensures !OccursAt(s, [c], j)
      {
        assert s[j] == xs[0][j];
      }
      assert OccursAt(s, [c], |xs[0]|);
      assert Find(s, [c]) == Some(|xs[0]|) by {
        FirstOccurrenceUnique(s, [c], Find(s, [c]), |xs[0]|);
      }
      assert s[..|xs[0]|] == xs[0];
      assert s[|xs[0]| + 1..] == tail;
      JoinSplit(xs[1..], c);
    }
  }

  lemma NoCharNoOccurrence(x: string, c: char)
    requires c !in x
    ensures !Contains(x, [c])
  {
    forall j | 0 <= j < |x|
      ensures !OccursAt(x, [c], j)
    {
      assert x[j..j + 1] == [x[j]];
    }
  }

  lemma FirstOccurrenceUnique(s: string, sep: string, r: Option<nat>, i: nat)
    requires |sep| > 0
    requires r == Find(s, sep)
    requires OccursAt(s, sep, i)
    requires forall j :: 0 <= j < i ==> !OccursAt(s, sep, j)
    ensures r == Some(i)
  {
    assert Contains(s, sep);
  }

  /** `str.isspace()` for one character: Python's whitespace set. */
  predicate IsSpace(c: char)
  {
    ('\U{9}' <= c <= '\U{D}') || ('\U{1C}' <= c <= '\U{20}')
    || c == '\U{85}' || c == '\U{A0}' || c == '\U{1680}'
    || ('\U{2000}' <= c <= '\U{200A}')
    || c == '\U{2028}' || c == '\U{2029}' || c == '\U{202F}'
    || c == '\U{205F}' || c == '\U{3000}'
  }

  function TrimStart(s: string): (r: string)
    ensures |r| <= |s| && r == s[|s| - |r|..]
    ensures forall i :: 0 <= i < |s| - |r| ==> IsSpace(s[i])
    ensures |r| > 0 ==> !IsSpace(r[0])
    decreases |s|
  {
    if |s| > 0 && IsSpace(s[0]) then TrimStart(s[1..]) else s
  }

  function TrimEnd(s: string): (r: string)
    ensures |r| <= |s| && r == s[..|r|]
    ensures forall i :: |r| <= i < |s| ==> IsSpace(s[i])
    ensures |r| > 0 ==> !IsSpace(r[|r| - 1])
    decreases |s|
  {
    if |s| > 0 && IsSpace(s[|s| - 1]) then TrimEnd(s[..|s| - 1]) else s
  }

  /** `s.strip()`: the text between the leading and the trailing whitespace. */
  function Strip(s: string): (r: string)
    ensures var lo := |s| - |TrimStart(s)|;
            lo + |r| <= |s| && r == s[lo..lo + |r|]
            && (forall i :: 0 <= i < lo ==> IsSpace(s[i]))
            && (forall i :: lo + |r| <= i < |s| ==> IsSpace(s[i]))
    ensures |r| > 0 ==> !IsSpace(r[0]) && !IsSpace(r[|r| - 1])
  {
    var left := TrimStart(s);
    var r := TrimEnd(left);
    TrimmedMiddle(s, left, r);
    r
  }

  /** The part `right` keeps of the suffix `left` of `s` is a slice of `s`,
      and what it drops at the end is whitespace of `s`. */
  lemma TrimmedMiddle(s: string, left: string, right: string)
    requires |left| <= |s| && left == s[|s| - |left|..]
    requires |right| <= |left| && right == left[..|right|]
    requires forall i :: |right| <= i < |left| ==> IsSpace(left[i])
    ensures var lo := |s| - |left|;
            right == s[lo..lo + |right|]
            && forall i :: lo + |right| <= i < |s| ==> IsSpace(s[i])
  {
    var lo := |s| - |left|;
    forall i | lo + |right| <= i < |s|
      ensures IsSpace(s[i])
    {
      assert s[i] == left[i - lo];
    }
  }

  /** Python's repr of a string, written with single quotes
      (the escaping of quotes and control characters is not modelled). */
  function StrRepr(s: string): string
  {
    "'" + s + "'"
  }

  /** `str(xs)` for a list of strings, as an f-string renders it: ['a', 'b']. */
  function ListRepr(xs: seq<string>): string
  {
    "[" + Join(seq(|xs|, k requires 0 <= k < |xs| => StrRepr(xs[k])), ", ") + "]"
  }
}
