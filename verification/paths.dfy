/** `path.Join` for clean segments: empty segments are dropped and the rest
    are joined with "/". */
module Paths {
  import Seqs

  /** `segments` with the empty ones removed, order kept. */
  function NonEmpty(segments: seq<string>): (r: seq<string>)
    ensures forall i :: 0 <= i < |r| ==> r[i] != ""
    ensures |r| <= |segments|
    decreases |segments|
  {
    if |segments| == 0 then []
    else (if segments[0] == "" then [] else [segments[0]]) + NonEmpty(segments[1..])
  }

  function Join(segments: seq<string>): string
  {
    Seqs.Join(NonEmpty(segments), "/")
  }

  lemma {:induction false} NonEmptyAppend(a: seq<string>, b: seq<string>)
    ensures NonEmpty(a + b) == NonEmpty(a) + NonEmpty(b)
    decreases |a|
  {
    if |a| > 0 {
      assert (a + b)[1..] == a[1..] + b;
      NonEmptyAppend(a[1..], b);
    } else {
      assert a + b == b;
    }
  }

  /** An empty segment contributes no directory level. */
  lemma JoinSkipsEmpty(a: seq<string>, b: seq<string>)
    ensures Join(a + [""] + b) == Join(a + b)
  {
    NonEmptyAppend(a + [""], b);
    NonEmptyAppend(a, [""]);
    NonEmptyAppend(a, b);
    assert NonEmpty([""]) == [];
    assert NonEmpty(a + [""]) == NonEmpty(a);
    assert NonEmpty(a + [""] + b) == NonEmpty(a + b);
  }

  /** Where a file goes: the directory segments and the file name. */
  datatype Location = Location(dir: seq<string>, leaf: string) {
    /** What `filepath.Dir` of the joined path names: the directory created first. */
    function Dir(): string { Join(dir) }

    function Path(): string { Join(dir + [leaf]) }
  }

  /** A non-empty file name sits directly inside the location's directory. */
  lemma FileInDir(loc: Location)
    requires loc.leaf != ""
    ensures loc.Path() == if loc.Dir() == "" then loc.leaf else loc.Dir() + "/" + loc.leaf
  {
    NonEmptyAppend(loc.dir, [loc.leaf]);
    assert NonEmpty([loc.leaf]) == [loc.leaf];
    Seqs.JoinSnoc(NonEmpty(loc.dir), loc.leaf, "/");
    if NonEmpty(loc.dir) != [] {
      assert Seqs.Join(NonEmpty(loc.dir), "/") != "" by {
        JoinNonEmpty(NonEmpty(loc.dir));
      }
    }
  }

  lemma {:induction false} JoinNonEmpty(parts: seq<string>)
    requires |parts| > 0
    requires forall i :: 0 <= i < |parts| ==> parts[i] != ""
    ensures Seqs.Join(parts, "/") != ""
  {
    if |parts| > 1 {
      assert |Seqs.Join(parts, "/")| >= |parts[0]|;
    }
  }
}
