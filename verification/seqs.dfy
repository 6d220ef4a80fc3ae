/** Generic sequence helpers: element-wise map, first-match search, joining
    with a separator and splitting at a delimiter. */
module Seqs {

  /** `f` applied to each of `xs`, in order. */
  function Map<T, U>(f: T -> U, xs: seq<T>): (r: seq<U>)
    ensures |r| == |xs|
    ensures forall i :: 0 <= i < |xs| ==> r[i] == f(xs[i])
  {
    seq(|xs|, i requires 0 <= i < |xs| => f(xs[i]))
  }

  /** Extending a prefix by one element. */
  lemma PrefixSnoc<T>(xs: seq<T>, i: nat)
    requires i < |xs|
    ensures xs[..i + 1] == xs[..i] + [xs[i]]
  {
  }

  /** The index of the first element satisfying `p`, or `|xs|` when none does. */
  function FirstIndex<T>(xs: seq<T>, p: T -> bool): (k: nat)
    ensures k <= |xs|
    ensures forall i :: 0 <= i < k ==> !p(xs[i])
    ensures k < |xs| ==> p(xs[k])
    decreases |xs|
  {
    if |xs| == 0 then 0
    else if p(xs[0]) then 0
    else 1 + FirstIndex(xs[1..], p)
  }

  /** The index of the first occurrence of `x` in `s`, or `|s|`. */
  function IndexOf<T(==)>(s: seq<T>, x: T): (i: nat)
    ensures i <= |s|
    ensures i < |s| ==> s[i] == x
    ensures forall j :: 0 <= j < i ==> s[j] != x
  {
    FirstIndex(s, y => y == x)
  }

  lemma IndexOfAfter<T>(p: seq<T>, x: T, q: seq<T>)
    requires x !in p
    ensures IndexOf(p + [x] + q, x) == |p|
  {
    var s := p + [x] + q;
    assert s[|p|] == x;
  }

  /** `parts` with `sep` between consecutive parts, as Go's `strings.Join`. */
  function Join<T>(parts: seq<seq<T>>, sep: seq<T>): seq<T>
    decreases |parts|
  {
    if |parts| == 0 then []
    else if |parts| == 1 then parts[0]
    else parts[0] + sep + Join(parts[1..], sep)
  }

  lemma {:induction false} JoinSnoc<T>(parts: seq<seq<T>>, last: seq<T>, sep: seq<T>)
    ensures Join(parts + [last], sep) == if |parts| == 0 then last else Join(parts, sep) + sep + last
    decreases |parts|
  {
    if |parts| == 0 {
      assert parts + [last] == [last];
    } else if |parts| == 1 {
      assert (parts + [last])[1..] == [last];
    } else {
      assert (parts + [last])[1..] == parts[1..] + [last];
      JoinSnoc(parts[1..], last, sep);
    }
  }

  /** The fields of `s` between occurrences of `delim`; always at least one. */
  function Split<T(==)>(s: seq<T>, delim: T): (r: seq<seq<T>>)
    ensures |r| > 0
    decreases |s|
  {
    if |s| == 0 then [[]]
    else
      var rest := Split(s[1..], delim);
      if s[0] == delim then [[]] + rest
      else [[s[0]] + rest[0]] + rest[1..]
  }

  lemma {:induction false} SplitWithoutDelimiter<T>(p: seq<T>, delim: T)
    requires delim !in p
    ensures Split(p, delim) == [p]
    decreases |p|
  {
    if |p| > 0 {
      SplitWithoutDelimiter(p[1..], delim);
      assert [p[0]] + p[1..] == p;
    }
  }

  lemma {:induction false} SplitAfterField<T>(p: seq<T>, delim: T, q: seq<T>)
    requires delim !in p
    ensures Split(p + [delim] + q, delim) == [p] + Split(q, delim)
    decreases |p|
  {
    var s := p + [delim] + q;
    if |p| == 0 {
      assert s[1..] == q;
    } else {
      assert s[1..] == p[1..] + [delim] + q;
      SplitAfterField(p[1..], delim, q);
      assert [p[0]] + p[1..] == p;
    }
  }

  /** Splitting undoes joining when no part contains the delimiter. */
  lemma {:induction false} SplitJoin<T>(parts: seq<seq<T>>, delim: T)
    requires |parts| > 0
    requires forall i :: 0 <= i < |parts| ==> delim !in parts[i]
    ensures Split(Join(parts, [delim]), delim) == parts
    decreases |parts|
  {
    if |parts| == 1 {
      SplitWithoutDelimiter(parts[0], delim);
    } else {
      SplitJoin(parts[1..], delim);
      SplitAfterField(parts[0], delim, Join(parts[1..], [delim]));
      assert [parts[0]] + parts[1..] == parts;
    }
  }

  /** `s` back to front. */
  function Reverse<T>(s: seq<T>): (r: seq<T>)
    ensures |r| == |s|
    ensures forall i :: 0 <= i < |s| ==> r[i] == s[|s| - 1 - i]
    decreases |s|
  {
    if |s| == 0 then [] else [s[|s| - 1]] + Reverse(s[..|s| - 1])
  }
}
