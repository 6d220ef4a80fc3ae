/** The observable trace of one collection step, the short-circuit
    composition the collector's loops use, and the file contents a
    successful trace leaves behind. */
module Effects {
  import opened Base
  import opened Kube
  import Seqs

  /** One call to the outside world, in the order the collector makes it. */
  datatype Effect =
    | Discover
    | ListObjects(resource: GroupVersionResource, options: ListOptions)
    | ListPods(podOptions: PodListOptions)
    | StreamLogs(namespace: string, pod: string, logOptions: PodLogOptions)
    | GetConfigMap(namespace: string, name: string)
    | MkdirAll(dir: string)
    | OpenAppend(path: string)
    | WriteFile(path: string, data: Bytes)
    | Create(path: string)
    | Copy(path: string, data: Bytes)
    | Close(path: string)

  /** The calls a step made and the error it returned (`None` for nil). */
  datatype Run = Run(effects: seq<Effect>, err: Option<Error>)

  const Done: Run := Run([], None)

  predicate Failed(r: Run)
  {
    r.err.Some?
  }

  /** `first`, then `next` only if `first` returned nil. */
  function Then(first: Run, next: Run): Run
  {
    if first.err.Some? then first else Run(first.effects + next.effects, next.err)
  }

  /** The Go loop `for each step { if err := step(); err != nil { return err } }; return nil`. */
  function Sequence(runs: seq<Run>): Run
    decreases |runs|
  {
    if |runs| == 0 then Done else Then(runs[0], Sequence(runs[1..]))
  }

  /** The run of `step` on each of `xs`, in order. */
  function Steps<T>(step: T -> Run, xs: seq<T>): (r: seq<Run>)
    ensures |r| == |xs|
    ensures forall i :: 0 <= i < |xs| ==> r[i] == step(xs[i])
  {
    Seqs.Map(step, xs)
  }

  lemma StepsAppend<T>(step: T -> Run, a: seq<T>, b: seq<T>)
    ensures Steps(step, a + b) == Steps(step, a) + Steps(step, b)
  {
  }

  /** Every run's calls, one after another. */
  function Concat(runs: seq<Run>): seq<Effect>
    decreases |runs|
  {
    if |runs| == 0 then [] else runs[0].effects + Concat(runs[1..])
  }

  lemma {:induction false} ConcatAppend(a: seq<Run>, b: seq<Run>)
    ensures Concat(a + b) == Concat(a) + Concat(b)
    decreases |a|
  {
    if |a| == 0 {
      assert a + b == b;
    } else {
      assert (a + b)[1..] == a[1..] + b;
      ConcatAppend(a[1..], b);
    }
  }

  lemma ThenAssociative(a: Run, b: Run, c: Run)
    ensures Then(a, Then(b, c)) == Then(Then(a, b), c)
  {
    if a.err.None? && b.err.None? {
      assert a.effects + (b.effects + c.effects) == (a.effects + b.effects) + c.effects;
    }
  }

  lemma SequenceCons(r: Run, rest: seq<Run>)
    ensures Sequence([r] + rest) == Then(r, Sequence(rest))
  {
    assert ([r] + rest)[1..] == rest;
  }

  lemma {:induction false} SequenceAppend(a: seq<Run>, b: seq<Run>)
    ensures Sequence(a + b) == Then(Sequence(a), Sequence(b))
    decreases |a|
  {
    if |a| == 0 {
      assert a + b == b;
      assert Done.effects + Sequence(b).effects == Sequence(b).effects;
    } else {
      assert (a + b)[1..] == a[1..] + b;
      SequenceAppend(a[1..], b);
      ThenAssociative(a[0], Sequence(a[1..]), Sequence(b));
    }
  }

  /** The loop stops at the first failing step and returns its error: the
      calls made are those of every earlier step and of the failing one, and
      nil comes back only when no step failed. */
  lemma {:induction false} SequenceStopsAtFirstFailure(runs: seq<Run>)
    ensures var k := Seqs.FirstIndex(runs, Failed);
      Sequence(runs) ==
        if k == |runs| then Run(Concat(runs), None)
        else Run(Concat(runs[..k]) + runs[k].effects, runs[k].err)
    decreases |runs|
  {
    var k := Seqs.FirstIndex(runs, Failed);
    if |runs| > 0 {
      SequenceStopsAtFirstFailure(runs[1..]);
      if Failed(runs[0]) {
        assert k == 0;
        assert runs[..0] == [];
      } else {
        var k' := Seqs.FirstIndex(runs[1..], Failed);
        assert k == 1 + k';
        if k < |runs| {
          assert runs[1..][..k'] == runs[..k][1..];
          assert runs[..k][0] == runs[0];
        }
      }
    }
  }

  /** Corollary: nil exactly when every step returned nil. */
  lemma SequenceSucceedsIff(runs: seq<Run>)
    ensures Sequence(runs).err.None? <==> forall i :: 0 <= i < |runs| ==> runs[i].err.None?
  {
    SequenceStopsAtFirstFailure(runs);
  }

  /** The local file tree: directories made and file contents by path. */
  datatype Store = Store(dirs: set<string>, files: map<string, Bytes>)

  /** What a successful call does to the file tree. `OpenAppend` creates a
      missing file and keeps an existing one; `WriteFile` replaces the content;
      `Create` truncates; `Copy` writes at the end of what is there. */
  function Apply(s: Store, e: Effect): Store
  {
    match e
    case MkdirAll(d) => s.(dirs := s.dirs + {d})
    case OpenAppend(p) => if p in s.files then s else s.(files := s.files[p := []])
    case WriteFile(p, data) => s.(files := s.files[p := data])
    case Create(p) => s.(files := s.files[p := []])
    case Copy(p, data) => s.(files := s.files[p := (if p in s.files then s.files[p] else []) + data])
    case _ => s
  }

  function ApplyAll(s: Store, effects: seq<Effect>): Store
    decreases |effects|
  {
    if |effects| == 0 then s else ApplyAll(Apply(s, effects[0]), effects[1..])
  }

  lemma {:induction false} ApplyAllAppend(s: Store, a: seq<Effect>, b: seq<Effect>)
    ensures ApplyAll(s, a + b) == ApplyAll(ApplyAll(s, a), b)
    decreases |a|
  {
    if |a| == 0 {
      assert a + b == b;
    } else {
      assert (a + b)[1..] == a[1..] + b;
      ApplyAllAppend(Apply(s, a[0]), a[1..], b);
    }
  }
}
