/** `collectLogs`, `dumpPodLogs` and `collectPodLogs`: list the selected
    pods and stream every container's live log, and its previous
    incarnation's log when it restarted, into files. */
module Logs {
  import opened Base
  import opened Config
  import opened Kube
  import opened Oracles
  import opened Effects
  import opened Paths
  import Selectors
  import Seqs

  /** The log options of one request: the container, whether it asks for the
      previous incarnation, and the time window passed through unchanged. */
  function LogOptions(containerName: string, previous: bool, since: Option<Int64>): (o: PodLogOptions)
    ensures o.container == containerName
    ensures o.previous == previous
    ensures o.sinceSeconds == since
  {
    var blank := PodLogOptions("", false, None);
    var named := if containerName != "" then blank.(container := containerName) else blank;
    var flagged := if previous then named.(previous := previous) else named;
    if since.Some? then flagged.(sinceSeconds := since) else flagged
  }

  /** One log request: which container's log, where it goes, and how. */
  datatype LogRequest = LogRequest(
    namespace: string,
    pod: string,
    container: string,
    location: Location,
    previous: bool,
    since: Option<Int64>)

  /** The live log of `c` goes to `dir/logs/<namespace>/<pod>-<container>`. */
  function LiveRequest(dir: string, since: Option<Int64>, pod: Pod, c: Container): LogRequest
  {
    LogRequest(pod.namespace, pod.name, c.name,
      Location([dir, "logs", pod.namespace], pod.name + "-" + c.name), false, since)
  }

  /** The previous incarnation's log goes beside it, with ".previous" appended. */
  function PreviousRequest(dir: string, since: Option<Int64>, pod: Pod, c: Container): LogRequest
  {
    LogRequest(pod.namespace, pod.name, c.name,
      Location([dir, "logs", pod.namespace], pod.name + "-" + c.name + ".previous"), true, since)
  }

  /** Create (or truncate) the output file, open the stream, copy it into the
      file; the deferred close's error becomes the result only when nothing
      failed before it. */
  function CollectPodLogs(env: Env, req: LogRequest): Run
  {
    var p := req.location.Path();
    if env.disk.create(p).Some? then Run([Create(p)], env.disk.create(p))
    else
      var options := LogOptions(req.container, req.previous, req.since);
      var started := [Create(p), StreamLogs(req.namespace, req.pod, options)];
      match env.api.streamLogs(req.namespace, req.pod, options)
      case Err(e) => Run(started + [Close(p)], Some(e))
      case Ok(data) =>
        var copyErr := env.disk.copy(p, data);
        Run(started + [Copy(p, data), Close(p)], if copyErr.Some? then copyErr else env.disk.close(p))
  }

  /** The directory for the request is made first; a failure there stops it. */
  function Fetch(env: Env, req: LogRequest): Run
  {
    var d := req.location.Dir();
    if env.disk.mkdirAll(d).Some? then Run([MkdirAll(d)], env.disk.mkdirAll(d))
    else Then(Run([MkdirAll(d)], None), CollectPodLogs(env, req))
  }

  /** The error rule of `collectPodLogs`: nil exactly when all four calls
      succeed; a close error is the result only if create, stream and copy
      all succeeded, and a stream error wins over any close error. */
  lemma CollectPodLogsErrorRule(env: Env, req: LogRequest)
    ensures var p := req.location.Path();
      var options := LogOptions(req.container, req.previous, req.since);
      var streamed := env.api.streamLogs(req.namespace, req.pod, options);
      var r := CollectPodLogs(env, req);
      && (r.err.None? <==>
          env.disk.create(p).None? && streamed.Ok? &&
          env.disk.copy(p, streamed.value).None? && env.disk.close(p).None?)
      && (env.disk.create(p).None? && streamed.Err? ==> r.err == Some(streamed.error))
      && (env.disk.create(p).None? && streamed.Ok? && env.disk.copy(p, streamed.value).None? ==>
          r.err == env.disk.close(p))
  {
  }

  /** The request's options name its container, its previous flag and its window. */
  lemma CollectPodLogsStreamsRequest(env: Env, req: LogRequest)
    requires env.disk.create(req.location.Path()).None?
    ensures CollectPodLogs(env, req).effects[1] ==
      StreamLogs(req.namespace, req.pod, PodLogOptions(req.container, req.previous, req.since))
  {
  }

  /** The calls of a request that succeeded: mkdir, create, stream, copy, close. */
  lemma FetchTrace(env: Env, req: LogRequest)
    requires Fetch(env, req).err.None?
    ensures var p := req.location.Path();
      var options := LogOptions(req.container, req.previous, req.since);
      var streamed := env.api.streamLogs(req.namespace, req.pod, options);
      && streamed.Ok?
      && Fetch(env, req).effects ==
           [MkdirAll(req.location.Dir()), Create(p), StreamLogs(req.namespace, req.pod, options),
            Copy(p, streamed.value), Close(p)]
  {
  }

  /** Creating a file and then copying `data` into it leaves exactly `data`. */
  lemma CreateThenCopy(s: Store, d: string, p: string, stream: Effect, data: Bytes)
    requires stream.StreamLogs?
    ensures var after := ApplyAll(s, [MkdirAll(d), Create(p), stream, Copy(p, data), Close(p)]);
      p in after.files && after.files[p] == data
  {
    var s1 := Apply(s, MkdirAll(d));
    var s2 := Apply(s1, Create(p));
    var s4 := Apply(s2, Copy(p, data));
    assert s2.files[p] == [];
    assert s4.files[p] == data;
    assert ApplyAll(s4, [Close(p)]) == s4;
    assert ApplyAll(s2, [stream, Copy(p, data), Close(p)]) == s4;
    assert ApplyAll(s1, [Create(p), stream, Copy(p, data), Close(p)]) == s4;
  }

  /** After a successful request the file holds exactly the streamed log,
      whatever it held before: the file is truncated before streaming. */
  lemma FetchWritesStream(env: Env, req: LogRequest, s: Store)
    requires Fetch(env, req).err.None?
    ensures var p := req.location.Path();
      var data := env.api.streamLogs(req.namespace, req.pod, LogOptions(req.container, req.previous, req.since)).value;
      p in ApplyAll(s, Fetch(env, req).effects).files &&
      ApplyAll(s, Fetch(env, req).effects).files[p] == data
  {
    var options := LogOptions(req.container, req.previous, req.since);
    FetchTrace(env, req);
    CreateThenCopy(s, req.location.Dir(), req.location.Path(), StreamLogs(req.namespace, req.pod, options),
      env.api.streamLogs(req.namespace, req.pod, options).value);
  }

  /** The previous path is the live path with ".previous" appended, in the
      same directory, so both files sit side by side. */
  lemma PreviousBesideLive(dir: string, since: Option<Int64>, pod: Pod, c: Container)
    ensures PreviousRequest(dir, since, pod, c).location.Dir() == LiveRequest(dir, since, pod, c).location.Dir()
    ensures PreviousRequest(dir, since, pod, c).location.Path() ==
      LiveRequest(dir, since, pod, c).location.Path() + ".previous"
  {
    var live := LiveRequest(dir, since, pod, c).location;
    var previous := PreviousRequest(dir, since, pod, c).location;
    FileInDir(live);
    FileInDir(previous);
  }

  /** A status that calls for the previous log of `c`. */
  predicate Restarted(c: Container, s: ContainerStatus)
  {
    s.name == c.name && s.restartCount > 0
  }

  // ---- As written: the nested loops of dumpPodLogs ----

  /** The loops below are written over `fetch`, the step that performs one
      request; `DumpPodLogs` instantiates it with `Fetch`. */
  function Fetcher(env: Env): LogRequest -> Run
  {
    req => Fetch(env, req)
  }

  /** The inner loop over container statuses for container `c`. */
  function DumpPrevious(fetch: LogRequest -> Run, dir: string, since: Option<Int64>, pod: Pod, c: Container,
                        statuses: seq<ContainerStatus>): Run
    decreases |statuses|
  {
    if |statuses| == 0 then Done
    else if Restarted(c, statuses[0]) then
      Then(fetch(PreviousRequest(dir, since, pod, c)), DumpPrevious(fetch, dir, since, pod, c, statuses[1..]))
    else DumpPrevious(fetch, dir, since, pod, c, statuses[1..])
  }

  /** The outer loop over the pod's containers, in `Spec.Containers` order. */
  function DumpContainers(fetch: LogRequest -> Run, dir: string, since: Option<Int64>, pod: Pod,
                          containers: seq<Container>): Run
    decreases |containers|
  {
    if |containers| == 0 then Done
    else
      var c := containers[0];
      Then(fetch(LiveRequest(dir, since, pod, c)),
        Then(DumpPrevious(fetch, dir, since, pod, c, pod.statuses),
          DumpContainers(fetch, dir, since, pod, containers[1..])))
  }

  function DumpPodLogs(env: Env, dir: string, since: Option<Int64>, pod: Pod): Run
  {
    DumpContainers(Fetcher(env), dir, since, pod, pod.containers)
  }

  // ---- Reference: the ordered plan of log requests for a pod ----

  /** One previous-log request per status naming `c` with a positive restart count. */
  function PreviousPlan(dir: string, since: Option<Int64>, pod: Pod, c: Container,
                        statuses: seq<ContainerStatus>): seq<LogRequest>
    decreases |statuses|
  {
    if |statuses| == 0 then []
    else
      (if Restarted(c, statuses[0]) then [PreviousRequest(dir, since, pod, c)] else []) +
      PreviousPlan(dir, since, pod, c, statuses[1..])
  }

  /** The live request for `c`, then its previous-log requests. */
  function ContainerPlan(dir: string, since: Option<Int64>, pod: Pod, c: Container): seq<LogRequest>
  {
    [LiveRequest(dir, since, pod, c)] + PreviousPlan(dir, since, pod, c, pod.statuses)
  }

  function PlanFor(dir: string, since: Option<Int64>, pod: Pod, containers: seq<Container>): seq<LogRequest>
    decreases |containers|
  {
    if |containers| == 0 then []
    else ContainerPlan(dir, since, pod, containers[0]) + PlanFor(dir, since, pod, containers[1..])
  }

  /** Every log request for `pod`, in the order they are issued. */
  function Plan(dir: string, since: Option<Int64>, pod: Pod): seq<LogRequest>
  {
    PlanFor(dir, since, pod, pod.containers)
  }

  lemma {:induction false} DumpPreviousFollowsPlan(fetch: LogRequest -> Run, dir: string, since: Option<Int64>,
                                                   pod: Pod, c: Container, statuses: seq<ContainerStatus>)
    ensures DumpPrevious(fetch, dir, since, pod, c, statuses) ==
      Sequence(Steps(fetch, PreviousPlan(dir, since, pod, c, statuses)))
    decreases |statuses|
  {
    if |statuses| > 0 {
      DumpPreviousFollowsPlan(fetch, dir, since, pod, c, statuses[1..]);
      var rest := PreviousPlan(dir, since, pod, c, statuses[1..]);
      if Restarted(c, statuses[0]) {
        var req := PreviousRequest(dir, since, pod, c);
        StepsAppend(fetch, [req], rest);
        SequenceCons(fetch(req), Steps(fetch, rest));
      } else {
        assert PreviousPlan(dir, since, pod, c, statuses) == rest;
      }
    }
  }

  lemma {:induction false} DumpContainersFollowsPlan(fetch: LogRequest -> Run, dir: string, since: Option<Int64>,
                                                     pod: Pod, containers: seq<Container>)
    ensures DumpContainers(fetch, dir, since, pod, containers) ==
      Sequence(Steps(fetch, PlanFor(dir, since, pod, containers)))
    decreases |containers|
  {
    if |containers| > 0 {
      var c := containers[0];
      var live := LiveRequest(dir, since, pod, c);
      var previous := PreviousPlan(dir, since, pod, c, pod.statuses);
      var rest := PlanFor(dir, since, pod, containers[1..]);
      DumpContainersFollowsPlan(fetch, dir, since, pod, containers[1..]);
      DumpPreviousFollowsPlan(fetch, dir, since, pod, c, pod.statuses);
      assert PlanFor(dir, since, pod, containers) == [live] + (previous + rest);
      StepsAppend(fetch, [live], previous + rest);
      StepsAppend(fetch, previous, rest);
      SequenceCons(fetch(live), Steps(fetch, previous + rest));
      SequenceAppend(Steps(fetch, previous), Steps(fetch, rest));
    }
  }

  /** The nested loops issue exactly the planned requests, in plan order,
      and stop at the first failing one (a mkdir, create, stream, copy or
      close failure), skipping the rest of that pod's requests. */
  lemma DumpPodLogsFollowsPlan(env: Env, dir: string, since: Option<Int64>, pod: Pod)
    ensures var runs := Steps(Fetcher(env), Plan(dir, since, pod));
      var k := Seqs.FirstIndex(runs, Failed);
      && (forall i :: 0 <= i < |runs| ==> runs[i] == Fetch(env, Plan(dir, since, pod)[i]))
      && DumpPodLogs(env, dir, since, pod) == Sequence(runs)
      && DumpPodLogs(env, dir, since, pod) ==
           if k == |runs| then Run(Concat(runs), None)
           else Run(Concat(runs[..k]) + runs[k].effects, runs[k].err)
  {
    DumpContainersFollowsPlan(Fetcher(env), dir, since, pod, pod.containers);
    SequenceStopsAtFirstFailure(Steps(Fetcher(env), Plan(dir, since, pod)));
  }

  // ---- Properties of the plan ----

  /** The indices of the statuses that call for a previous log of `c`. */
  function RestartedIndices(c: Container, statuses: seq<ContainerStatus>): set<int>
  {
    set i | 0 <= i < |statuses| && Restarted(c, statuses[i])
  }

  lemma {:induction false} PreviousPlanAppend(dir: string, since: Option<Int64>, pod: Pod, c: Container,
                                              a: seq<ContainerStatus>, b: seq<ContainerStatus>)
    ensures PreviousPlan(dir, since, pod, c, a + b) ==
      PreviousPlan(dir, since, pod, c, a) + PreviousPlan(dir, since, pod, c, b)
    decreases |a|
  {
    if |a| == 0 {
      assert a + b == b;
    } else {
      assert (a + b)[1..] == a[1..] + b;
      PreviousPlanAppend(dir, since, pod, c, a[1..], b);
    }
  }

  lemma RestartedIndicesSnoc(c: Container, statuses: seq<ContainerStatus>)
    requires |statuses| > 0
    ensures var n := |statuses|;
      RestartedIndices(c, statuses) ==
        RestartedIndices(c, statuses[..n - 1]) + (if Restarted(c, statuses[n - 1]) then {n - 1} else {})
  {
    var n := |statuses|;
    var front := statuses[..n - 1];
    forall i | 0 <= i < n - 1
      ensures statuses[i] == front[i]
    {
    }
  }

  /** One previous-log request per status that names `c` with a positive
      restart count: none when no status matches or every matching count is 0. */
  lemma {:induction false} PreviousPlanCounts(dir: string, since: Option<Int64>, pod: Pod, c: Container,
                                              statuses: seq<ContainerStatus>)
    ensures |PreviousPlan(dir, since, pod, c, statuses)| == |RestartedIndices(c, statuses)|
    decreases |statuses|
  {
    var n := |statuses|;
    if n == 0 {
      assert RestartedIndices(c, statuses) == {};
    } else {
      var front := statuses[..n - 1];
      var last := statuses[n - 1];
      assert statuses == front + [last];
      PreviousPlanCounts(dir, since, pod, c, front);
      PreviousPlanAppend(dir, since, pod, c, front, [last]);
      assert [last][1..] == [];
      var tail: set<int> := if Restarted(c, last) then {n - 1} else {};
      RestartedIndicesSnoc(c, statuses);
      assert RestartedIndices(c, front) !! tail;
      assert |RestartedIndices(c, statuses)| == |RestartedIndices(c, front)| + |tail|;
      assert |PreviousPlan(dir, since, pod, c, [last])| == |tail|;
    }
  }

  /** Every previous-log request for `c` is for `c`'s previous incarnation:
      restart detection never crosses containers. */
  lemma {:induction false} PreviousPlanIsPrevious(dir: string, since: Option<Int64>, pod: Pod, c: Container,
                                                  statuses: seq<ContainerStatus>)
    ensures forall j :: 0 <= j < |PreviousPlan(dir, since, pod, c, statuses)| ==>
      PreviousPlan(dir, since, pod, c, statuses)[j] == PreviousRequest(dir, since, pod, c)
    decreases |statuses|
  {
    if |statuses| > 0 {
      PreviousPlanIsPrevious(dir, since, pod, c, statuses[1..]);
    }
  }

  /** The requests for one container: first its live log, then one
      previous-log request per matching restarted status, and nothing else. */
  lemma ContainerPlanShape(dir: string, since: Option<Int64>, pod: Pod, c: Container)
    ensures var cp := ContainerPlan(dir, since, pod, c);
      && cp[0] == LiveRequest(dir, since, pod, c)
      && |cp| == 1 + |RestartedIndices(c, pod.statuses)|
      && forall j :: 1 <= j < |cp| ==> cp[j] == PreviousRequest(dir, since, pod, c)
  {
    PreviousPlanCounts(dir, since, pod, c, pod.statuses);
    PreviousPlanIsPrevious(dir, since, pod, c, pod.statuses);
  }

  /** The live requests of a request list, order kept. */
  function Lives(reqs: seq<LogRequest>): seq<LogRequest>
    decreases |reqs|
  {
    if |reqs| == 0 then []
    else (if reqs[0].previous then [] else [reqs[0]]) + Lives(reqs[1..])
  }

  lemma {:induction false} LivesAppend(a: seq<LogRequest>, b: seq<LogRequest>)
    ensures Lives(a + b) == Lives(a) + Lives(b)
    decreases |a|
  {
    if |a| == 0 {
      assert a + b == b;
    } else {
      assert (a + b)[1..] == a[1..] + b;
      LivesAppend(a[1..], b);
    }
  }

  lemma {:induction false} LivesOfPrevious(dir: string, since: Option<Int64>, pod: Pod, c: Container,
                                           statuses: seq<ContainerStatus>)
    ensures Lives(PreviousPlan(dir, since, pod, c, statuses)) == []
    decreases |statuses|
  {
    if |statuses| > 0 {
      var head := if Restarted(c, statuses[0]) then [PreviousRequest(dir, since, pod, c)] else [];
      LivesOfPrevious(dir, since, pod, c, statuses[1..]);
      LivesAppend(head, PreviousPlan(dir, since, pod, c, statuses[1..]));
      assert Lives(head) == [] by {
        if |head| > 0 {
          assert head[1..] == [];
        }
      }
    }
  }

  lemma LivesOfOne(r: LogRequest)
    ensures Lives([r]) == if r.previous then [] else [r]
  {
    assert [r][1..] == [];
  }

  /** A container's requests contribute exactly its live request. */
  lemma LivesOfContainerPlan(dir: string, since: Option<Int64>, pod: Pod, c: Container, rest: seq<LogRequest>)
    ensures Lives(ContainerPlan(dir, since, pod, c) + rest) == [LiveRequest(dir, since, pod, c)] + Lives(rest)
  {
    var live := LiveRequest(dir, since, pod, c);
    var previous := PreviousPlan(dir, since, pod, c, pod.statuses);
    calc {
      Lives(ContainerPlan(dir, since, pod, c) + rest);
      { assert ContainerPlan(dir, since, pod, c) + rest == [live] + (previous + rest); }
      Lives([live] + (previous + rest));
      { LivesAppend([live], previous + rest); }
      Lives([live]) + Lives(previous + rest);
      { LivesOfOne(live); LivesAppend(previous, rest); }
      [live] + (Lives(previous) + Lives(rest));
      { LivesOfPrevious(dir, since, pod, c, pod.statuses); }
      [live] + Lives(rest);
    }
  }

  /** Exactly one live request per container, in `Spec.Containers` order. */
  lemma {:induction false} OneLiveRequestPerContainer(dir: string, since: Option<Int64>, pod: Pod,
                                                      containers: seq<Container>)
    ensures |Lives(PlanFor(dir, since, pod, containers))| == |containers|
    ensures forall i :: 0 <= i < |containers| ==>
      Lives(PlanFor(dir, since, pod, containers))[i] == LiveRequest(dir, since, pod, containers[i])
    decreases |containers|
  {
    if |containers| > 0 {
      var rest := PlanFor(dir, since, pod, containers[1..]);
      OneLiveRequestPerContainer(dir, since, pod, containers[1..]);
      LivesOfContainerPlan(dir, since, pod, containers[0], rest);
      var lives := Lives(PlanFor(dir, since, pod, containers));
      var later := Lives(rest);
      assert lives == [LiveRequest(dir, since, pod, containers[0])] + later;
      forall i | 1 <= i < |containers|
        ensures lives[i] == LiveRequest(dir, since, pod, containers[i])
      {
        assert lives[i] == later[i - 1];
        assert containers[1..][i - 1] == containers[i];
      }
    }
  }

  /** `collectLogs` scopes the pod listing: a selector only when there are
      label filters, parsed from their comma join, and a namespace only when
      the target names one. */
  function PodScope(log: Log): (o: PodListOptions)
    ensures o.namespace == log.namespace
    ensures o.labelSelector.None? <==> |log.labelFilters| == 0
    ensures o.labelSelector.Some? ==>
      o.labelSelector.value == Seqs.Join(Selectors.Rendered(log.labelFilters), ",")
  {
    var selector := if |log.labelFilters| > 0 then Some(Selectors.LabelSelector(log.labelFilters)) else None;
    Selectors.SelectorIsJoin(log.labelFilters);
    var scoped := PodListOptions(selector, "");
    if log.namespace != "" then scoped.(namespace := log.namespace) else scoped
  }

  /** The loop body of `collectLogs`: the log dump of one listed pod. */
  function PodDumper(env: Env, dir: string, since: Option<Int64>): Pod -> Run
  {
    pod => DumpPodLogs(env, dir, since, pod)
  }

  function CollectLogs(env: Env, dir: string, log: Log): Run
  {
    var filters := log.labelFilters;
    if |filters| > 0 && env.codec.parseSelector(Selectors.LabelSelector(filters)).Some? then
      Run([], env.codec.parseSelector(Selectors.LabelSelector(filters)))
    else
      var options := PodScope(log);
      match env.api.listPods(options)
      case Err(e) => Run([ListPods(options)], Some(e))
      case Ok(pods) => Then(Run([ListPods(options)], None), Sequence(Steps(PodDumper(env, dir, log.sinceSeconds), pods)))
  }

  /** A selector that fails to parse is returned before any pod is listed;
      otherwise the pods are listed once with `PodScope`, then processed in
      list order until the first failing pod, whose error is returned. */
  lemma CollectLogsOutcome(env: Env, dir: string, log: Log)
    ensures var filters := log.labelFilters;
      var parsed := env.codec.parseSelector(Selectors.LabelSelector(filters));
      var r := CollectLogs(env, dir, log);
      if |filters| > 0 && parsed.Some? then r == Run([], parsed)
      else
        && r.effects[0] == ListPods(PodScope(log))
        && match env.api.listPods(PodScope(log))
           case Err(e) => r == Run([ListPods(PodScope(log))], Some(e))
           case Ok(pods) =>
             var runs := Steps(PodDumper(env, dir, log.sinceSeconds), pods);
             var k := Seqs.FirstIndex(runs, Failed);
             if k == |pods| then r.err.None? && r.effects[1..] == Concat(runs)
             else r.err == runs[k].err && r.effects[1..] == Concat(runs[..k]) + runs[k].effects
  {
    match env.api.listPods(PodScope(log))
    case Err(e) =>
    case Ok(pods) =>
      SequenceStopsAtFirstFailure(Steps(PodDumper(env, dir, log.sinceSeconds), pods));
  }
}
