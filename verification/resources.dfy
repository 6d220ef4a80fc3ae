/** `dumpResources`, `dumpObject` and `addTypeInformationToObject`: list the
    objects of one kind and write each one to its own YAML file. */
module Resources {
  import opened Base
  import opened Config
  import opened Kube
  import opened Oracles
  import opened Effects
  import opened Paths
  import Selectors
  import Seqs

  /** `runtime.APIVersionInternal`, the version a scheme uses for internal types. */
  const APIVersionInternal: string := "__internal"

  /** A scheme kind that may be attached to a stored object. */
  predicate Qualifies(gvk: GroupVersionKind)
  {
    gvk.kind != "" && gvk.version != "" && gvk.version != APIVersionInternal
  }

  /** Sets the first qualifying kind the scheme reports for the object; with
      none qualifying the object is left as it is, and that is not an error. */
  function AddTypeInformation(obj: Object, gvks: seq<GroupVersionKind>): (r: Object)
    ensures r.(gvk := obj.gvk) == obj
    ensures (forall i :: 0 <= i < |gvks| ==> !Qualifies(gvks[i])) ==> r == obj
    ensures (exists i :: 0 <= i < |gvks| && Qualifies(gvks[i])) ==>
      exists k :: 0 <= k < |gvks| && r.gvk == gvks[k] && Qualifies(gvks[k]) &&
        forall i :: 0 <= i < k ==> !Qualifies(gvks[i])
  {
    var k := Seqs.FirstIndex(gvks, Qualifies);
    if k < |gvks| then obj.(gvk := gvks[k]) else obj
  }

  /** The object `dumpObject` stores and its YAML: resourceVersion cleared,
      type information attached; or the scheme's or serialiser's error. */
  function Prepare(codec: Codec, obj: Object): (r: Result<(Object, Bytes)>)
    ensures r.Ok? ==> r.value.0.resourceVersion == ""
    ensures r.Ok? ==> r.value.0.(gvk := obj.gvk, resourceVersion := obj.resourceVersion) == obj
    ensures r.Ok? ==> codec.marshalYaml(r.value.0) == Ok(r.value.1)
    ensures r.Ok? <==>
      && codec.objectKinds(obj.(resourceVersion := "")).Ok?
      && codec.marshalYaml(AddTypeInformation(obj.(resourceVersion := ""), codec.objectKinds(obj.(resourceVersion := "")).value)).Ok?
    ensures r.Ok? ==>
      r.value.0 == AddTypeInformation(obj.(resourceVersion := ""), codec.objectKinds(obj.(resourceVersion := "")).value)
  {
    var cleared := obj.(resourceVersion := "");
    match codec.objectKinds(cleared)
    case Err(e) => Err(e)
    case Ok(gvks) =>
      var typed := AddTypeInformation(cleared, gvks);
      match codec.marshalYaml(typed)
      case Err(e) => Err(e)
      case Ok(yaml) => Ok((typed, yaml))
  }

  /** `dir/resources/<namespace>/<kind>/<name>.yaml`, kind taken after type
      information was attached. */
  function ObjectLocation(dir: string, obj: Object): Location
  {
    Location([dir, "resources", obj.namespace, obj.gvk.kind], obj.name + ".yaml")
  }

  /** Make the directory, open the file for appending (creating it), then
      `os.WriteFile`, which truncates. The deferred close's error is dropped. */
  function WriteObject(disk: Disk, loc: Location, yaml: Bytes): Run
  {
    var d := loc.Dir();
    var p := loc.Path();
    if disk.mkdirAll(d).Some? then Run([MkdirAll(d)], disk.mkdirAll(d))
    else if disk.openAppend(p).Some? then Run([MkdirAll(d), OpenAppend(p)], disk.openAppend(p))
    else Run([MkdirAll(d), OpenAppend(p), WriteFile(p, yaml), Close(p)], disk.writeFile(p, yaml))
  }

  function DumpObject(env: Env, dir: string, obj: Object): Run
  {
    match Prepare(env.codec, obj)
    case Err(e) => Run([], Some(e))
    case Ok(prepared) => WriteObject(env.disk, ObjectLocation(dir, prepared.0), prepared.1)
  }

  /** After a successful write the file holds exactly the YAML, whatever it
      held before: a rerun overwrites rather than appends. */
  lemma WriteObjectOverwrites(disk: Disk, loc: Location, yaml: Bytes, s: Store)
    requires WriteObject(disk, loc, yaml).err.None?
    ensures loc.Path() in ApplyAll(s, WriteObject(disk, loc, yaml).effects).files
    ensures ApplyAll(s, WriteObject(disk, loc, yaml).effects).files[loc.Path()] == yaml
  {
    var d := loc.Dir();
    var p := loc.Path();
    var effects := WriteObject(disk, loc, yaml).effects;
    assert effects == [MkdirAll(d), OpenAppend(p), WriteFile(p, yaml), Close(p)];
    var s1 := Apply(s, MkdirAll(d));
    var s2 := Apply(s1, OpenAppend(p));
    var s3 := Apply(s2, WriteFile(p, yaml));
    assert ApplyAll(s3, [Close(p)]) == s3;
    assert ApplyAll(s2, [WriteFile(p, yaml), Close(p)]) == s3;
    assert ApplyAll(s1, [OpenAppend(p), WriteFile(p, yaml), Close(p)]) == s3;
  }

  /** A successful dump leaves the file at the object's path holding exactly
      the serialised, normalised object. */
  lemma DumpObjectWritesSerialisedObject(env: Env, dir: string, obj: Object, s: Store)
    requires DumpObject(env, dir, obj).err.None?
    ensures Prepare(env.codec, obj).Ok?
    ensures var prepared := Prepare(env.codec, obj).value;
      var p := ObjectLocation(dir, prepared.0).Path();
      p in ApplyAll(s, DumpObject(env, dir, obj).effects).files &&
      ApplyAll(s, DumpObject(env, dir, obj).effects).files[p] == prepared.1 &&
      prepared.0.resourceVersion == ""
  {
    var prepared := Prepare(env.codec, obj).value;
    WriteObjectOverwrites(env.disk, ObjectLocation(dir, prepared.0), prepared.1, s);
  }

  /** A dump succeeds exactly when the scheme, the serialiser and the three
      file calls succeed; the deletion timestamp plays no part. */
  lemma DumpObjectSucceedsIff(env: Env, dir: string, obj: Object)
    ensures DumpObject(env, dir, obj).err.None? <==>
      Prepare(env.codec, obj).Ok? &&
      var loc := ObjectLocation(dir, Prepare(env.codec, obj).value.0);
      env.disk.mkdirAll(loc.Dir()).None? && env.disk.openAppend(loc.Path()).None? &&
      env.disk.writeFile(loc.Path(), Prepare(env.codec, obj).value.1).None?
  {
  }

  /** An object marked for deletion is still written. */
  lemma DeletionMarkedObjectsAreWritten(env: Env, dir: string, obj: Object)
    requires obj.deletionTimestamp.Some?
    requires Prepare(env.codec, obj).Ok?
    requires var loc := ObjectLocation(dir, Prepare(env.codec, obj).value.0);
      env.disk.mkdirAll(loc.Dir()).None? && env.disk.openAppend(loc.Path()).None?
    ensures var prepared := Prepare(env.codec, obj).value;
      WriteFile(ObjectLocation(dir, prepared.0).Path(), prepared.1) in DumpObject(env, dir, obj).effects
  {
  }

  /** The artifact path: `dir/resources/<namespace>/<kind>/<name>.yaml`, with an
      empty namespace contributing no directory level. */
  lemma ObjectPath(dir: string, obj: Object)
    ensures ObjectLocation(dir, obj).Path() ==
      Join([dir, "resources", obj.namespace, obj.gvk.kind]) + "/" + obj.name + ".yaml"
    ensures obj.namespace == "" ==>
      ObjectLocation(dir, obj).Path() == Join([dir, "resources", obj.gvk.kind, obj.name + ".yaml"])
  {
    var loc := ObjectLocation(dir, obj);
    FileInDir(loc);
    assert NonEmpty(loc.dir) != [] by {
      NonEmptyAppend([dir], ["resources", obj.namespace, obj.gvk.kind]);
      NonEmptyAppend(["resources"], [obj.namespace, obj.gvk.kind]);
      assert NonEmpty(["resources"]) == ["resources"];
    }
    JoinNonEmpty(NonEmpty(loc.dir));
    if obj.namespace == "" {
      JoinSkipsEmpty([dir, "resources"], [obj.gvk.kind, obj.name + ".yaml"]);
      assert loc.dir + [loc.leaf] == [dir, "resources"] + [""] + [obj.gvk.kind, obj.name + ".yaml"];
      assert [dir, "resources"] + [obj.gvk.kind, obj.name + ".yaml"] == [dir, "resources", obj.gvk.kind, obj.name + ".yaml"];
    }
  }

  /** The list options: the rendered label filters joined by ",", and the
      namespace field selector only for a namespaced target. */
  function ResourceListOptions(res: Resource): (o: ListOptions)
    ensures o.labelSelector == "" <==> |res.labelFilters| == 0
    ensures o.labelSelector == Seqs.Join(Selectors.Rendered(res.labelFilters), ",")
    ensures o.fieldSelector == if res.namespace == "" then "" else "metadata.namespace=" + res.namespace
  {
    var selector := if |res.labelFilters| > 0 then Selectors.LabelSelector(res.labelFilters) else "";
    Selectors.SelectorIsJoin(res.labelFilters);
    Selectors.SelectorEmptyIff(res.labelFilters);
    ListOptions(selector, Selectors.AddNamespaceField("", res.namespace))
  }

  /** The loop body of `dumpResources`: the dump of one listed object. */
  function ObjectDumper(env: Env, dir: string): Object -> Run
  {
    obj => DumpObject(env, dir, obj)
  }

  /** The kind to list: group and version from the target, only the plural
      resource name from the mapping. */
  function ListedResource(res: Resource, m: GroupVersionResource): GroupVersionResource
  {
    GroupVersionResource(res.group, res.version, m.resource)
  }

  /** Discovery is fetched afresh for every target. */
  function DumpResources(env: Env, dir: string, res: Resource): Run
  {
    if env.api.discovery.Some? then Run([Discover], env.api.discovery)
    else
      match env.api.restMapping(GroupKind(res.group, res.kind), res.version)
      case NoMatch(_) => Run([Discover], None)
      case MappingFailed(e) => Run([Discover], Some(e))
      case Mapped(m) =>
        var gvr := ListedResource(res, m);
        var options := ResourceListOptions(res);
        var listed := [Discover, ListObjects(gvr, options)];
        match env.api.listObjects(gvr, options)
        case Err(e) => Run(listed, Some(e))
        case Ok(items) => Then(Run(listed, None), Sequence(Steps(ObjectDumper(env, dir), items)))
  }

  /** A "no match" mapping is a silent skip: nil, and nothing listed or
      written. A discovery or any other mapping error is returned as it is. */
  lemma DumpResourcesMappingOutcome(env: Env, dir: string, res: Resource)
    ensures env.api.discovery.Some? ==>
      DumpResources(env, dir, res) == Run([Discover], env.api.discovery)
    ensures env.api.discovery.None? && env.api.restMapping(GroupKind(res.group, res.kind), res.version).NoMatch? ==>
      DumpResources(env, dir, res).err.None? &&
      forall e :: e in DumpResources(env, dir, res).effects ==> e == Discover
    ensures env.api.discovery.None? && env.api.restMapping(GroupKind(res.group, res.kind), res.version).MappingFailed? ==>
      DumpResources(env, dir, res).err == Some(env.api.restMapping(GroupKind(res.group, res.kind), res.version).error)
  {
  }

  /** Once mapped, the objects are listed with the target's group and version
      and the mapping's plural, then dumped in list order; the first failing
      dump ends the loop and its error is returned. */
  lemma DumpResourcesStopsAtFirstFailedObject(env: Env, dir: string, res: Resource)
    requires env.api.discovery.None?
    requires env.api.restMapping(GroupKind(res.group, res.kind), res.version).Mapped?
    ensures var m := env.api.restMapping(GroupKind(res.group, res.kind), res.version).resource;
      var gvr := GroupVersionResource(res.group, res.version, m.resource);
      var r := DumpResources(env, dir, res);
      r.effects[..2] == [Discover, ListObjects(gvr, ResourceListOptions(res))] &&
      match env.api.listObjects(gvr, ResourceListOptions(res))
      case Err(e) => r == Run([Discover, ListObjects(gvr, ResourceListOptions(res))], Some(e))
      case Ok(items) =>
        var runs := Steps(ObjectDumper(env, dir), items);
        var k := Seqs.FirstIndex(runs, Failed);
        if k == |items| then r.err.None? && r.effects[2..] == Concat(runs)
        else r.err == runs[k].err && r.effects[2..] == Concat(runs[..k]) + runs[k].effects
  {
    var m := env.api.restMapping(GroupKind(res.group, res.kind), res.version).resource;
    var gvr := GroupVersionResource(res.group, res.version, m.resource);
    match env.api.listObjects(gvr, ResourceListOptions(res))
    case Err(e) =>
    case Ok(items) =>
      SequenceStopsAtFirstFailure(Steps(ObjectDumper(env, dir), items));
  }

  /** nil exactly when the kind is not served, or when every listed object was dumped. */
  lemma DumpResourcesSucceedsIff(env: Env, dir: string, res: Resource)
    ensures var mapping := env.api.restMapping(GroupKind(res.group, res.kind), res.version);
      DumpResources(env, dir, res).err.None? <==>
        env.api.discovery.None? &&
        (mapping.NoMatch? ||
         (mapping.Mapped? &&
          var listed := env.api.listObjects(ListedResource(res, mapping.resource), ResourceListOptions(res));
          listed.Ok? && forall i :: 0 <= i < |listed.value| ==> DumpObject(env, dir, listed.value[i]).err.None?))
  {
    var mapping := env.api.restMapping(GroupKind(res.group, res.kind), res.version);
    if env.api.discovery.None? && mapping.Mapped? {
      var listed := env.api.listObjects(ListedResource(res, mapping.resource), ResourceListOptions(res));
      if listed.Ok? {
        SequenceSucceedsIff(Steps(ObjectDumper(env, dir), listed.value));
      }
    }
  }
}
