/** The slice of the Kubernetes API types the collector reads and sends. */
module Kube {
  import opened Base

  datatype GroupKind = GroupKind(group: string, kind: string)

  datatype GroupVersionKind = GroupVersionKind(group: string, version: string, kind: string)

  datatype GroupVersionResource = GroupVersionResource(group: string, version: string, resource: string)

  /** What the discovery-backed REST mapper answers for a (group, kind) at a
      version: a mapping whose resource names the plural, the "no match"
      error class, or any other error. */
  datatype Mapping =
    | Mapped(resource: GroupVersionResource)
    | NoMatch(noMatch: Error)
    | MappingFailed(error: Error)

  /** `metav1.ListOptions` as the dynamic client sends it. */
  datatype ListOptions = ListOptions(labelSelector: string, fieldSelector: string)

  /** A listed object in its generic form. A present `deletionTimestamp` means
      the object is marked for deletion; `body` stands for every other field. */
  datatype Object = Object(
    gvk: GroupVersionKind,
    namespace: string,
    name: string,
    resourceVersion: string,
    deletionTimestamp: Option<int>,
    body: string)

  datatype Container = Container(name: string)

  datatype ContainerStatus = ContainerStatus(name: string, restartCount: Int32)

  /** A pod: its containers in `Spec.Containers` order and its container statuses in status order. */
  datatype Pod = Pod(
    namespace: string,
    name: string,
    containers: seq<Container>,
    statuses: seq<ContainerStatus>)

  /** controller-runtime `client.ListOptions` for pods. `labelSelector` is the
      selector string that `collectLogs` hands to `labels.Parse`; the listing
      receives the selector parsed from it, so only a string that parses is
      ever listed with. It is `None` when no selector is set, and an empty
      `namespace` lists every namespace. */
  datatype PodListOptions = PodListOptions(labelSelector: Option<string>, namespace: string)

  /** `corev1.PodLogOptions`: the fields the collector sets. */
  datatype PodLogOptions = PodLogOptions(container: string, previous: bool, sinceSeconds: Option<Int64>)

  /** A ConfigMap's `Data`, `None` when nil. Go iterates a map in no fixed
      order, so the entries are an arbitrary sequence of (key, content) pairs. */
  datatype ConfigMap = ConfigMap(data: Option<seq<(string, string)>>)
}
