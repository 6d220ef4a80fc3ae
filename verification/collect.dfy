/** `CollectResouces`, `loadConfiguration` and `collectData`: read the
    configuration, then attempt every target and fold their errors into one. */
module Collect {
  import opened Base
  import opened Config
  import opened Kube
  import opened Oracles
  import opened Effects
  import Resources
  import Logs
  import Seqs

  // ---- loadConfiguration ----

  /** One ConfigMap entry read as YAML first and, only when that fails, as JSON. */
  function Decode(codec: Codec, content: string): Option<Configuration>
  {
    var fromYaml := codec.unmarshalYaml(content);
    if fromYaml.Some? then fromYaml else codec.unmarshalJson(content)
  }

  function Decoded(codec: Codec, entries: seq<(string, string)>): (r: seq<Option<Configuration>>)
    ensures |r| == |entries|
    ensures forall i :: 0 <= i < |entries| ==> r[i] == Decode(codec, entries[i].1)
  {
    Seqs.Map((entry: (string, string)) => Decode(codec, entry.1), entries)
  }

  predicate Parsed(o: Option<Configuration>)
  {
    o.Some?
  }

  /** An entry that parses in neither format. */
  predicate Unparseable(codec: Codec, content: string)
  {
    codec.unmarshalYaml(content).None? && codec.unmarshalJson(content).None?
  }

  /** Entry `k` parses and no entry before it does. */
  predicate FirstParseable(codec: Codec, entries: seq<(string, string)>, k: int)
  {
    0 <= k < |entries| && !Unparseable(codec, entries[k].1) &&
    forall i :: 0 <= i < k ==> Unparseable(codec, entries[i].1)
  }

  /** The first entry that parses wins, YAML tried before JSON on each entry;
      when no entry parses there is no configuration. */
  function FirstConfiguration(codec: Codec, entries: seq<(string, string)>): (r: Option<Configuration>)
    ensures r.None? <==> forall i :: 0 <= i < |entries| ==> Unparseable(codec, entries[i].1)
    ensures r.Some? ==> exists k :: FirstParseable(codec, entries, k) && r == Decode(codec, entries[k].1)
  {
    var decoded := Decoded(codec, entries);
    var k := Seqs.FirstIndex(decoded, Parsed);
    if k < |decoded| then decoded[k] else None
  }

  /** The ConfigMap fetch and what loading made of it. */
  datatype Loaded = Loaded(effects: seq<Effect>, outcome: Result<Option<Configuration>>)

  const NilData: Error := Failure("nil ConfigMap.Data")

  /** `namespace` is the value of the COLLECTOR_NAMESPACE environment variable. */
  function LoadConfiguration(env: Env, namespace: string, name: string): Loaded
  {
    var fetched := [GetConfigMap(namespace, name)];
    match env.api.getConfigMap(namespace, name)
    case Err(e) => Loaded(fetched, Err(e))
    case Ok(cm) =>
      if cm.data.None? then Loaded(fetched, Err(NilData))
      else Loaded(fetched, Ok(FirstConfiguration(env.codec, cm.data.value)))
  }

  /** Loading fails only when the ConfigMap cannot be read or its Data is nil;
      a ConfigMap none of whose entries parses yields no configuration, which
      is success. */
  lemma LoadConfigurationOutcome(env: Env, namespace: string, name: string)
    ensures var fetched := env.api.getConfigMap(namespace, name);
      var loaded := LoadConfiguration(env, namespace, name);
      && loaded.effects == [GetConfigMap(namespace, name)]
      && (loaded.outcome.Err? <==> fetched.Err? || fetched.value.data.None?)
      && (fetched.Ok? && fetched.value.data.None? ==> loaded.outcome == Err(NilData))
      && (loaded.outcome == Ok(None) <==>
          fetched.Ok? && fetched.value.data.Some? &&
          forall i :: 0 <= i < |fetched.value.data.value| ==> Unparseable(env.codec, fetched.value.data.value[i].1))
  {
  }

  // ---- collectData ----

  /** One collection target. */
  datatype Target = LogTarget(log: Log) | ResourceTarget(resource: Resource)

  function LogTargets(logs: seq<Log>): (r: seq<Target>)
    ensures |r| == |logs|
    ensures forall i :: 0 <= i < |logs| ==> r[i] == LogTarget(logs[i])
  {
    Seqs.Map(log => LogTarget(log), logs)
  }

  function ResourceTargets(resources: seq<Resource>): (r: seq<Target>)
    ensures |r| == |resources|
    ensures forall i :: 0 <= i < |resources| ==> r[i] == ResourceTarget(resources[i])
  {
    Seqs.Map(res => ResourceTarget(res), resources)
  }

  /** The order targets are attempted in: every Log target, then every
      Resource target, each list in configuration order. */
  function Targets(config: Configuration): (r: seq<Target>)
    ensures |r| == |config.logs| + |config.resources|
    ensures forall i :: 0 <= i < |config.logs| ==> r[i] == LogTarget(config.logs[i])
    ensures forall j :: |config.logs| <= j < |r| ==>
      r[j] == ResourceTarget(config.resources[j - |config.logs|])
  {
    LogTargets(config.logs) + ResourceTargets(config.resources)
  }

  function CollectTarget(env: Env, dir: string, t: Target): Run
  {
    match t
    case LogTarget(l) => Logs.CollectLogs(env, dir, l)
    case ResourceTarget(r) => Resources.DumpResources(env, dir, r)
  }

  /** The session loop is written over `collect`, the step that attempts one
      target; `CollectData` instantiates it with `CollectTarget`. */
  function Collector(env: Env, dir: string): Target -> Run
  {
    t => CollectTarget(env, dir, t)
  }

  /** The errors of the failed runs, in run order. */
  function Failures(runs: seq<Run>): seq<Error>
    decreases |runs|
  {
    if |runs| == 0 then []
    else
      var last := runs[|runs| - 1];
      Failures(runs[..|runs| - 1]) + (if last.err.Some? then [last.err.value] else [])
  }

  lemma {:induction false} FailuresEmptyIff(runs: seq<Run>)
    ensures |Failures(runs)| == 0 <==> forall i :: 0 <= i < |runs| ==> runs[i].err.None?
    decreases |runs|
  {
    if |runs| > 0 {
      var front := runs[..|runs| - 1];
      FailuresEmptyIff(front);
      assert forall i :: 0 <= i < |front| ==> front[i] == runs[i];
    }
  }

  /** One step of the fold: the first error is kept as it is, every later one
      wraps what has accumulated so far with its own message. */
  function Accumulate(acc: Option<Error>, e: Error): Error
  {
    if acc.None? then e else Wrapped(acc.value, Message(e))
  }

  /** The aggregate of `errors`, folded in order. */
  function Aggregate(errors: seq<Error>): (r: Option<Error>)
    ensures r.None? <==> |errors| == 0
    ensures |errors| == 1 ==> r == Some(errors[0])
    decreases |errors|
  {
    if |errors| == 0 then None
    else Some(Accumulate(Aggregate(errors[..|errors| - 1]), errors[|errors| - 1]))
  }

  function Messages(errors: seq<Error>): (r: seq<string>)
    ensures |r| == |errors|
    ensures forall i :: 0 <= i < |errors| ==> r[i] == Message(errors[i])
  {
    Seqs.Map(Message, errors)
  }

  /** No failure is lost: the aggregate's message lists every failure's
      message, newest first, separated by ": ". */
  lemma {:induction false} AggregateMessage(errors: seq<Error>)
    requires |errors| > 0
    ensures Message(Aggregate(errors).value) == Seqs.Join(Seqs.Reverse(Messages(errors)), ": ")
    decreases |errors|
  {
    var n := |errors|;
    if n > 1 {
      var front := errors[..n - 1];
      AggregateMessage(front);
      assert Messages(errors)[..n - 1] == Messages(front);
      var reversed := Seqs.Reverse(Messages(errors));
      assert reversed == [Message(errors[n - 1])] + Seqs.Reverse(Messages(front));
      assert reversed[1..] == Seqs.Reverse(Messages(front));
    }
  }

  lemma StepsSnoc(collect: Target -> Run, targets: seq<Target>, t: Target)
    ensures Steps(collect, targets + [t]) == Steps(collect, targets) + [collect(t)]
  {
    StepsAppend(collect, targets, [t]);
  }

  lemma ConcatSnoc(runs: seq<Run>, r: Run)
    ensures Concat(runs + [r]) == Concat(runs) + r.effects
  {
    ConcatAppend(runs, [r]);
    assert [r][1..] == [];
    assert Concat([r]) == r.effects + Concat([]);
  }

  lemma FailuresSnoc(runs: seq<Run>, r: Run)
    ensures Failures(runs + [r]) == Failures(runs) + (if r.err.Some? then [r.err.value] else [])
  {
    assert (runs + [r])[..|runs|] == runs;
  }

  /** The fold after one more run, as each loop body of `collectData` updates it. */
  lemma AggregateSnoc(runs: seq<Run>, tmp: Run)
    ensures Aggregate(Failures(runs + [tmp])) ==
      if tmp.err.Some? then Some(Accumulate(Aggregate(Failures(runs)), tmp.err.value))
      else Aggregate(Failures(runs))
  {
    FailuresSnoc(runs, tmp);
    if tmp.err.Some? {
      var fs := Failures(runs) + [tmp.err.value];
      assert fs[..|fs| - 1] == Failures(runs);
    } else {
      assert Failures(runs) + [] == Failures(runs);
    }
  }

  /** The folded error is nil exactly when no run failed, and a lone failure
      is returned unwrapped. */
  lemma AggregateOutcome(runs: seq<Run>)
    ensures Aggregate(Failures(runs)).None? <==> forall i :: 0 <= i < |runs| ==> runs[i].err.None?
    ensures |Failures(runs)| == 1 ==> Aggregate(Failures(runs)) == Some(Failures(runs)[0])
  {
    FailuresEmptyIff(runs);
  }

  /** What one loop body of `collectData` does to the call trace and to the
      folded error when it attempts `t` after the targets `attempts`. */
  lemma AttemptStep(collect: Target -> Run, attempts: seq<Target>, t: Target)
    ensures var tmp := collect(t);
      && Concat(Steps(collect, attempts + [t])) == Concat(Steps(collect, attempts)) + tmp.effects
      && Aggregate(Failures(Steps(collect, attempts + [t]))) ==
           if tmp.err.Some? then Some(Accumulate(Aggregate(Failures(Steps(collect, attempts))), tmp.err.value))
           else Aggregate(Failures(Steps(collect, attempts)))
  {
    var tmp := collect(t);
    StepsSnoc(collect, attempts, t);
    AggregateSnoc(Steps(collect, attempts), tmp);
    ConcatSnoc(Steps(collect, attempts), tmp);
  }

  /** One loop of `collectData`: attempts each of `targets` in order after
      the targets `done`, whatever the earlier ones returned, extending the
      call trace and the folded error. */
  method AttemptEach(collect: Target -> Run, targets: seq<Target>,
                     done: seq<Target>, effects0: seq<Effect>, err0: Option<Error>)
    returns (effects: seq<Effect>, attempts: seq<Target>, err: Option<Error>)
    requires effects0 == Concat(Steps(collect, done))
    requires err0 == Aggregate(Failures(Steps(collect, done)))
    ensures attempts == done + targets
    ensures effects == Concat(Steps(collect, attempts))
    ensures err == Aggregate(Failures(Steps(collect, attempts)))
  {
    effects, attempts, err := effects0, done, err0;
    var i := 0;
    while i < |targets|
      invariant 0 <= i <= |targets|
      invariant attempts == done + targets[..i]
      invariant effects == Concat(Steps(collect, attempts))
      invariant err == Aggregate(Failures(Steps(collect, attempts)))
    {
      var t := targets[i];
      var tmp := collect(t);
      AttemptStep(collect, attempts, t);
      if tmp.err.Some? {
        if err.None? {
          err := tmp.err;
        } else {
          err := Some(Wrapped(err.value, Message(tmp.err.value)));
        }
      }
      effects := effects + tmp.effects;
      Seqs.PrefixSnoc(targets, i);
      attempts := attempts + [t];
      i := i + 1;
    }
    assert targets[..i] == targets;
  }

  /** The two loops of `collectData` over any step `collect`. */
  method AttemptAll(collect: Target -> Run, config: Configuration)
    returns (effects: seq<Effect>, attempts: seq<Target>, err: Option<Error>)
    ensures attempts == Targets(config)
    ensures var runs := Steps(collect, attempts);
      && effects == Concat(runs)
      && err == Aggregate(Failures(runs))
      && (err.None? <==> forall i :: 0 <= i < |runs| ==> runs[i].err.None?)
      && (|Failures(runs)| == 1 ==> err == Some(Failures(runs)[0]))
  {
    effects, attempts, err := AttemptEach(collect, LogTargets(config.logs), [], [], None);
    effects, attempts, err := AttemptEach(collect, ResourceTargets(config.resources), attempts, effects, err);
    AggregateOutcome(Steps(collect, attempts));
  }

  /** A configuration with neither resources nor logs collects nothing and
      returns nil. */
  lemma NothingToCollect(collect: Target -> Run, config: Configuration)
    requires |config.logs| == 0 && |config.resources| == 0
    ensures Concat(Steps(collect, Targets(config))) == []
    ensures Aggregate(Failures(Steps(collect, Targets(config)))).None?
  {
  }

  /** Every Log target and then every Resource target is attempted exactly
      once, whatever earlier targets returned; the calls made are each
      target's own calls in that order, and the errors are folded in order:
      nil iff no target failed, the one error itself when exactly one failed. */
  method CollectData(env: Env, dir: string, config: Configuration)
    returns (effects: seq<Effect>, attempts: seq<Target>, err: Option<Error>)
    ensures attempts == Targets(config)
    ensures var runs := Steps(Collector(env, dir), attempts);
      && effects == Concat(runs)
      && err == Aggregate(Failures(runs))
      && (err.None? <==> forall i :: 0 <= i < |runs| ==> runs[i].err.None?)
      && (|Failures(runs)| == 1 ==> err == Some(Failures(runs)[0]))
  {
    effects, attempts, err := AttemptAll(Collector(env, dir), config);
  }

  /** The whole run: a loading error is returned and nothing is collected; no
      configuration returns nil without collecting; otherwise `collectData`. */
  method CollectResources(env: Env, dir: string, namespace: string, configMapName: string)
    returns (effects: seq<Effect>, attempts: seq<Target>, err: Option<Error>)
    ensures var loaded := LoadConfiguration(env, namespace, configMapName);
      match loaded.outcome
      case Err(e) => effects == loaded.effects && attempts == [] && err == Some(e)
      case Ok(None) => effects == loaded.effects && attempts == [] && err.None?
      case Ok(Some(config)) =>
        && attempts == Targets(config)
        && effects == loaded.effects + Concat(Steps(Collector(env, dir), attempts))
        && err == Aggregate(Failures(Steps(Collector(env, dir), attempts)))
  {
    var loaded := LoadConfiguration(env, namespace, configMapName);
    match loaded.outcome
    case Err(e) =>
      effects, attempts, err := loaded.effects, [], Some(e);
    case Ok(None) =>
      effects, attempts, err := loaded.effects, [], None;
    case Ok(Some(config)) =>
      var collected;
      collected, attempts, err := CollectData(env, dir, config);
      effects := loaded.effects + collected;
  }
}
