/** The field list of every control message, requests and replies, in wire order. */
module WireCatalog {
  import opened Bits
  import opened WireFormat
  import opened WireLaws
  import opened WireMessages

  datatype Message =
    | RegisterRankRequest | RegisterRankResponse | HeartbeatRequest | HeartbeatResponse
    | RequestOffloadRequest | RequestOffloadResponse | MarkD2HSubmittedRequest | MarkD2HSubmittedResponse
    | MarkD2HCompleteRequest | MarkD2HCompleteResponse | RequestPrefetchRequest | RequestPrefetchResponse
    | MarkH2DSubmittedRequest | MarkH2DSubmittedResponse | MarkH2DCompleteRequest | MarkH2DCompleteResponse
    | ReleaseLeaseRequest | ReleaseLeaseResponse | LocationQueryRequest | LocationQueryResponse
    | BatchCompleteRequest | BatchCompleteResponse | GetStatsRequest | GetStatsResponse
    | ShutdownRequest | ShutdownResponse
    | RegisterJobRequest | RegisterJobResponse | CanonicalEvictRequest | CanonicalEvictResponse
    | CommitObjectRequest | CommitObjectResponse | SealVersionRequest | SealVersionResponse
    | LatestSealedRequest | LatestSealedResponse | GetManifestRequest | GetManifestResponse
    | PullTensorRequest | PullTensorResponse | CanonicalRestoreRequest | CanonicalRestoreResponse
    | ReleaseRestoreRequest | ReleaseRestoreResponse | DropVersionRequest | DropVersionResponse
    | ReleaseCanonicalRequest | ReleaseCanonicalResponse

  /** A verdict with its message text, as replies begin. */
  const VERDICT: seq<Ty> := [TBool, TStr]
  const RANK: seq<Ty> := [TU32, TU64]
  const LEASED: seq<Ty> := [TU64, TU64, TU64, TU32]
  const TENSOR: seq<Ty> := [TU64, TU64, TU64]
  const ARENA: seq<Ty> := [TU64, TU32, TU32, TU64, TU64, TU32, TU64, TU32, TU32, TU32]
  const COMPLETION: seq<Ty> := [TU32, TU64, TU64, TU64, TU32, TU64, TU64, TBool]

  function Fields(m: Message): seq<Ty> {
    match m
    case RegisterRankRequest => [TU32, TU32, TU32, TU32, TU32, TU64, TU64]
    case RegisterRankResponse => VERDICT + [TU64, TU64, TList(ARENA), TU32, TU64, TU32, TU32]
    case HeartbeatRequest => RANK + [TU64]
    case RequestOffloadRequest => RANK + TENSOR + [TU32, TU32, TU32, TU32, TU64, TStr]
    case RequestOffloadResponse => VERDICT + [TU64, TU32, TU64, TU64, TU64, TU32, TBool]
    case MarkD2HSubmittedRequest => RANK + LEASED + [TU64, TU64]
    case MarkD2HCompleteRequest => RANK + LEASED + [TU64, TU64]
    case MarkD2HCompleteResponse => VERDICT + [TBool, TBool]
    case RequestPrefetchRequest => RANK + TENSOR + [TU32, TU32, TU32, TU64]
    case RequestPrefetchResponse => VERDICT + [TU64, TU32, TU64, TU64, TU64, TU32, TBool, TU64]
    case MarkH2DSubmittedRequest => RANK + LEASED + [TU64, TU64]
    case MarkH2DCompleteRequest => RANK + LEASED + [TBool, TU64, TU64]
    case ReleaseLeaseRequest => RANK + [TU64, TU32, TStr]
    case LocationQueryRequest => [TU64, TU64]
    case LocationQueryResponse => VERDICT + [TU32, TU32, TU64, TU64]
    case BatchCompleteRequest => RANK + [TList(COMPLETION)]
    case BatchCompleteResponse => VERDICT + [TU32, TU32]
    case GetStatsRequest => [TU32]
    case GetStatsResponse => STATS
    case ShutdownRequest => [TU64]
    case RegisterJobRequest => [TU64, TStr, TU64, TList([TStr]), TList([TStr])]
    case RegisterJobResponse => VERDICT + JOB + [TU64]
    case CanonicalEvictRequest =>
      RANK + JOB + KEY_TAIL + [TU64, TU64, TBool, TBool, TBool, TU32, TBool, TU32, TU32, TU32, TU32]
    case CanonicalEvictResponse => VERDICT + [TU32, TU64, TU64, TU32, TU64, TU64, TU64, TU64]
    case CommitObjectRequest => RANK + [TU64, TU64, TU32, TU64, TU64]
    case CommitObjectResponse => VERDICT + [TU64, TBool]
    case SealVersionRequest => JOB + VERSION + [TBool, TList([TU64]), TBool]
    case SealVersionResponse => VERDICT + [TU32, TU64, TU64, TU64, TU64]
    case LatestSealedRequest => JOB + [TU32]
    case LatestSealedResponse => VERDICT + [TBool, TU64]
    case GetManifestRequest => MANIFEST_REQUEST
    case GetManifestResponse => MANIFEST
    case PullTensorRequest => JOB + VERSION + [TU64, TU32, TStr]
    case PullTensorResponse => VERDICT + [TU64, TU64, TU32, TU64, TU64, TStr]
    case CanonicalRestoreRequest => RANK + [TU64, TU32, TU32]
    case CanonicalRestoreResponse => VERDICT + [TBool, TU64, TU64, TU64, TU64]
    case ReleaseRestoreRequest => RANK + [TU64]
    case DropVersionRequest => JOB + VERSION
    case DropVersionResponse => VERDICT + [TU64, TU64, TU64]
    case ReleaseCanonicalRequest => RANK + JOB + VERSION + [TU64]
    case ReleaseCanonicalResponse => VERDICT + [TU64, TU64, TU64]
    case _ => VERDICT
  }

  /** Every message comes back exactly if its counts fit, and no strict prefix of it decodes. */
  lemma EveryMessage(m: Message, vs: seq<Val>, rest: seq<Byte>)
    requires HasTypes(Fields(m), vs)
    ensures DecodeAll(Fields(m), EncodeAll(Fields(m), vs) + rest) == Done(vs, rest) <==> CountedAll(Fields(m), vs)
    ensures CountedAll(Fields(m), vs) ==>
      forall n: nat | n < |EncodeAll(Fields(m), vs)| :: DecodeAll(Fields(m), EncodeAll(Fields(m), vs)[..n]).Fail?
  {
    var tys := Fields(m);
    RoundTripIff(tys, vs, rest);
    if CountedAll(tys, vs) {
      forall n: nat | n < |EncodeAll(tys, vs)| ensures DecodeAll(tys, EncodeAll(tys, vs)[..n]).Fail? {
        PrefixRejected(tys, vs, n);
      }
    }
  }
}
