/** The collector's instructions, as read from the ConfigMap: which resource
    kinds to dump and which pods' logs to capture. */
module Config {
  import opened Base

  /** The label-filter operation that renders as `=`; every other operation
      renders as `!=`. */
  const OperationEqual: string := "Equal"

  /** One label constraint; all filters of a target are conjoined. */
  datatype LabelFilter = LabelFilter(key: string, operation: string, value: string)

  /** One kind to snapshot. An empty `namespace` means cluster scope, that is
      no namespace filter; an empty `group` is the core API group. */
  datatype Resource = Resource(
    namespace: string,
    group: string,
    version: string,
    kind: string,
    labelFilters: seq<LabelFilter>)

  /** One pod-log capture. An empty `namespace` means every namespace;
      `sinceSeconds` is the optional `*int64` time window. */
  datatype Log = Log(
    namespace: string,
    labelFilters: seq<LabelFilter>,
    sinceSeconds: Option<Int64>)

  /** Both lists are optional; an empty configuration is a valid no-op run. */
  datatype Configuration = Configuration(resources: seq<Resource>, logs: seq<Log>)
}
