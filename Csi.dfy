/** The CSI and Kubernetes objects that the drivers read and return, and
    the shape of the errors they report: gRPC status errors with a code,
    and plain Go errors. */
module Csi {
  import opened Wrappers
  import opened GoInt
  import Strings

  /** The gRPC status codes. */
  datatype Code =
    | Canceled | Unknown | InvalidArgument | DeadlineExceeded | NotFound | AlreadyExists
    | PermissionDenied | ResourceExhausted | FailedPrecondition | Aborted | OutOfRange
    | Unimplemented | Internal | Unavailable | DataLoss | Unauthenticated

  function CodeName(c: Code): string {
    match c
    case Canceled => "Canceled"
    case Unknown => "Unknown"
    case InvalidArgument => "InvalidArgument"
    case DeadlineExceeded => "DeadlineExceeded"
    case NotFound => "NotFound"
    case AlreadyExists => "AlreadyExists"
    case PermissionDenied => "PermissionDenied"
    case ResourceExhausted => "ResourceExhausted"
    case FailedPrecondition => "FailedPrecondition"
    case Aborted => "Aborted"
    case OutOfRange => "OutOfRange"
    case Unimplemented => "Unimplemented"
    case Internal => "Internal"
    case Unavailable => "Unavailable"
    case DataLoss => "DataLoss"
    case Unauthenticated => "Unauthenticated"
  }

  /** An error as a handler returns it: a gRPC status (`status.Error`) or a
      plain Go error (`errors.New`, `fmt.Errorf`, or an error passed on). */
  datatype Error = Status(code: Code, msg: string) | Plain(msg: string)

  /** `err.Error()`: the text of an error, as a wrapping message embeds it. */
  function ErrorText(e: Error): (t: string)
    ensures e.Plain? ==> t == e.msg
    ensures e.Status? ==> Strings.Contains(t, e.msg)
  {
    match e
    case Plain(m) => m
    case Status(c, m) =>
      var head := "rpc error: code = " + CodeName(c) + " desc = ";
      Strings.SuffixContained(head, m);
      head + m
  }

  /** Where a volume's data comes from (CSI VolumeContentSource): a snapshot
      or another volume. The id is None when the request names the kind of
      source but leaves the source itself unset. */
  datatype ContentSource = FromSnapshot(snapshotId: Option<string>) | FromVolume(volumeId: Option<string>)

  /** A provisioned volume as CreateVolume returns it. */
  datatype Volume = Volume(
    volumeId: string,
    capacityBytes: int64,
    volumeContext: map<string, string>,
    accessibleTopology: seq<map<string, string>>,
    contentSource: Option<ContentSource>)

  /** CSI access modes. */
  datatype AccessMode =
    | UnknownMode | SingleNodeWriter | SingleNodeReaderOnly | MultiNodeReaderOnly
    | MultiNodeSingleWriter | MultiNodeMultiWriter

  /** One node-selector requirement of a PV's node affinity. */
  datatype Requirement = Requirement(key: string, values: seq<string>)

  /** One node-selector term: its match expressions. */
  datatype Term = Term(matchExpressions: seq<Requirement>)

  /** A PV's node affinity; `required` is None when the required selector
      is unset. */
  datatype NodeAffinity = NodeAffinity(required: Option<seq<Term>>)

  /** The CSI section of a PV. */
  datatype CsiSource = CsiSource(driver: string, volumeHandle: string, volumeAttributes: map<string, string>)

  /** The parts of a PersistentVolume the drivers read. */
  datatype PersistentVolume = PersistentVolume(
    csi: Option<CsiSource>,
    reclaimPolicy: string,
    nodeAffinity: Option<NodeAffinity>,
    capacityBytes: int64)

  /** The PV's volume attributes; a PV without a CSI section has none. */
  function Attributes(pv: PersistentVolume): map<string, string> {
    if pv.csi.Some? then pv.csi.value.volumeAttributes else map[]
  }
}
