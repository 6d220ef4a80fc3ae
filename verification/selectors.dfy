/** The selector strings built from a target's label filters, and the
    namespace field selector of the generic object listing. */
module Selectors {
  import opened Base
  import opened Config
  import Seqs

  /** One filter in the label-selector grammar: `key=value` for `Equal`,
      `key!=value` for any other operation. Nothing is escaped. */
  function Render(f: LabelFilter): string
  {
    if f.operation == OperationEqual then f.key + "=" + f.value
    else f.key + "!=" + f.value
  }

  /** The loop `dumpResources` and `collectLogs` both run: before each
      rendering a comma goes in only when the selector built so far is non-empty. */
  function Append(selector: string, filters: seq<LabelFilter>): string
    decreases |filters|
  {
    if |filters| == 0 then selector
    else
      var separated := if selector != "" then selector + "," else selector;
      Append(separated + Render(filters[0]), filters[1..])
  }

  function LabelSelector(filters: seq<LabelFilter>): string
  {
    Append("", filters)
  }

  /** The renderings of `filters`, in input order. */
  function Rendered(filters: seq<LabelFilter>): (r: seq<string>)
    ensures |r| == |filters|
    ensures forall i :: 0 <= i < |filters| ==> r[i] == Render(filters[i])
  {
    Seqs.Map(Render, filters)
  }

  lemma {:induction false} AppendJoins(selector: string, filters: seq<LabelFilter>)
    ensures Append(selector, filters) ==
      if |filters| == 0 then selector
      else if selector == "" then Seqs.Join(Rendered(filters), ",")
      else selector + "," + Seqs.Join(Rendered(filters), ",")
    decreases |filters|
  {
    if |filters| > 0 {
      var f := filters[0];
      var separated := if selector != "" then selector + "," else selector;
      var next := separated + Render(f);
      assert Render(f) != [] by {
        assert '=' in Render(f);
      }
      assert next != "";
      AppendJoins(next, filters[1..]);
      assert Rendered(filters)[1..] == Rendered(filters[1..]);
      assert Rendered(filters)[0] == Render(f);
    }
  }

  /** The selector is the renderings joined by "," in input order, so there
      is no leading or trailing comma. */
  lemma SelectorIsJoin(filters: seq<LabelFilter>)
    ensures LabelSelector(filters) == Seqs.Join(Rendered(filters), ",")
  {
    AppendJoins("", filters);
  }

  /** No label filters leaves the label selector empty, and only then. */
  lemma SelectorEmptyIff(filters: seq<LabelFilter>)
    ensures LabelSelector(filters) == "" <==> |filters| == 0
  {
    SelectorIsJoin(filters);
    if |filters| > 0 {
      var parts := Rendered(filters);
      assert Render(filters[0]) != "" by {
        assert '=' in Render(filters[0]);
      }
      if |parts| == 1 {
        assert Seqs.Join(parts, ",") == parts[0];
      } else {
        assert Seqs.Join(parts, ",") == parts[0] + "," + Seqs.Join(parts[1..], ",");
      }
    }
  }

  /** What one rendered filter demands of a label. */
  datatype Requirement = Requirement(key: string, equal: bool, value: string)

  function Meaning(f: LabelFilter): Requirement
  {
    Requirement(f.key, f.operation == OperationEqual, f.value)
  }

  /** A filter whose text the selector grammar reads back unambiguously:
      no comma anywhere, and no `=` or `!` in the key. */
  predicate Plain(f: LabelFilter)
  {
    ',' !in f.key && ',' !in f.value && '=' !in f.key && '!' !in f.key
  }

  /** Reads one `key=value` or `key!=value` term; `None` when there is no `=`. */
  function ParseRequirement(term: string): Option<Requirement>
  {
    var i := Seqs.IndexOf(term, '=');
    if i == |term| then None
    else if i > 0 && term[i - 1] == '!' then Some(Requirement(term[..i - 1], false, term[i + 1..]))
    else Some(Requirement(term[..i], true, term[i + 1..]))
  }

  /** Reads a whole selector back: one requirement per comma-separated term. */
  function ParseSelector(selector: string): (r: seq<Option<Requirement>>)
  {
    if selector == "" then []
    else
      var terms := Seqs.Split(selector, ',');
      seq(|terms|, i requires 0 <= i < |terms| => ParseRequirement(terms[i]))
  }

  lemma RenderParses(f: LabelFilter)
    requires Plain(f)
    ensures ParseRequirement(Render(f)) == Some(Meaning(f))
  {
    var term := Render(f);
    if f.operation == OperationEqual {
      Seqs.IndexOfAfter(f.key, '=', f.value);
      assert term == f.key + ['='] + f.value;
      if |f.key| > 0 {
        assert term[|f.key| - 1] == f.key[|f.key| - 1];
      }
      assert term[..|f.key|] == f.key;
      assert term[|f.key| + 1..] == f.value;
    } else {
      assert term == (f.key + ['!']) + ['='] + f.value;
      assert '=' !in f.key + ['!'];
      Seqs.IndexOfAfter(f.key + ['!'], '=', f.value);
      assert term[..|f.key|] == f.key;
      assert term[|f.key| + 2..] == f.value;
    }
  }

  /** Reading the selector back yields each filter's meaning, in input order:
      the rendering loses nothing but the name of a non-`Equal` operation. */
  lemma SelectorRoundTrip(filters: seq<LabelFilter>)
    requires forall i :: 0 <= i < |filters| ==> Plain(filters[i])
    ensures |ParseSelector(LabelSelector(filters))| == |filters|
    ensures forall i :: 0 <= i < |filters| ==>
      ParseSelector(LabelSelector(filters))[i] == Some(Meaning(filters[i]))
  {
    SelectorIsJoin(filters);
    SelectorEmptyIff(filters);
    if |filters| > 0 {
      var parts := Rendered(filters);
      forall i | 0 <= i < |parts|
        ensures ',' !in parts[i]
      {
        assert parts[i] == Render(filters[i]);
      }
      Seqs.SplitJoin(parts, ',');
      forall i | 0 <= i < |filters|
        ensures ParseSelector(LabelSelector(filters))[i] == Some(Meaning(filters[i]))
      {
        RenderParses(filters[i]);
      }
    }
  }

  /** Conjoins `metadata.namespace=<namespace>` onto a field selector when the
      namespace is non-empty, with a comma only after a non-empty prior selector. */
  function AddNamespaceField(fieldSelector: string, namespace: string): string
  {
    if namespace != "" then
      var separated := if fieldSelector != "" then fieldSelector + "," else fieldSelector;
      separated + "metadata.namespace=" + namespace
    else fieldSelector
  }
}
