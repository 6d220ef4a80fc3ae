/** Everything the collector asks of the outside world, as fixed answers.
    Each field stands for one library or system call; the model never looks
    inside them, it only follows their success or failure. */
module Oracles {
  import opened Base
  import opened Config
  import opened Kube

  /** The cluster: discovery, REST mapping, listing and log streaming. */
  datatype Api = Api(
    discovery: Option<Error>,
    restMapping: (GroupKind, string) -> Mapping,
    listObjects: (GroupVersionResource, ListOptions) -> Result<seq<Object>>,
    listPods: PodListOptions -> Result<seq<Pod>>,
    streamLogs: (string, string, PodLogOptions) -> Result<Bytes>,
    getConfigMap: (string, string) -> Result<ConfigMap>)

  /** The runtime scheme, the serialisers and the label-selector parser. */
  datatype Codec = Codec(
    objectKinds: Object -> Result<seq<GroupVersionKind>>,
    marshalYaml: Object -> Result<Bytes>,
    parseSelector: string -> Option<Error>,
    unmarshalYaml: string -> Option<Configuration>,
    unmarshalJson: string -> Option<Configuration>)

  /** The local filesystem, by path: `None` is success. */
  datatype Disk = Disk(
    mkdirAll: string -> Option<Error>,
    openAppend: string -> Option<Error>,
    writeFile: (string, Bytes) -> Option<Error>,
    create: string -> Option<Error>,
    copy: (string, Bytes) -> Option<Error>,
    close: string -> Option<Error>)

  datatype Env = Env(api: Api, codec: Codec, disk: Disk)
}
