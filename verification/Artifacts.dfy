/**
 The durable artifacts of one order directory (dizzy_poll_deliver.mjs:73-135, 290-407).

 A file is named after the digest of its type and payload. The digest is taken to be collision-free,
 so a key is modelled by the payload it digests: two keys are equal exactly when the payloads are.
 */
module Artifacts {
  import opened Options

  datatype Mode = DryRun | GenerateQc | ManualDelivery

  /** A polled order after `normalizeOrder`. */
  datatype Order = Order(
    orderId: string,
    serviceId: Option<string>,
    status: Option<string>,
    brief: string,
    createdAt: Option<string>,
    updatedAt: Option<string>)

  /** Digest of the service and the trimmed brief (lib/order_fulfillment.mjs:50-52). */
  datatype RequestKey = RequestKey(serviceId: Option<string>, brief: string)

  /** A file inside a sub-directory of the runtime root, the root itself having the empty name. */
  datatype Path = Path(dir: string, name: string)

  datatype Key = Digest(payload: Payload)

  datatype QcStatus = Passed | FailedQc

  datatype Issue =
    | MissingOrderId | OrderIdMismatch | MissingFilePath | FileMissing | FileNotPng | FileEmpty
    | FileOutsideOrderDir | RequestKeyMismatch | PlaceholderFlagged | PlaceholderModel
    | MissingMetadataPath | MetadataMissing | MetadataOutsideOrderDir

  datatype Checks = Checks(fileExists: bool, isPng: bool, fileSize: nat, deliverable: bool, issues: seq<Issue>)

  datatype Decision = Allow | Revise | Block

  datatype PolicyReason = MissingBrief | RestrictedContent | IterationCapReached(cap: nat)

  datatype Reason =
    | AlreadyDelivered | MissingIntake | PolicyGateClosed(decision: Decision) | MissingCandidate
    | CandidateStale | MissingQc | QcFailed | AmbiguousUpload | MissingUpload | AmbiguousDelivery
    | MissingDelivery | NothingMissing

  datatype PrepareFailure =
    | NoOrderId | CandidateFileMissing(path: Path) | MetadataFileMissing(path: Path)
    | MetadataFileInvalid(path: Path) | NotDeliverable

  datatype Event =
    | NoopEvent | PolicyGate | DryRunSkipGenerate | RequiresPreparedCandidate(failure: PrepareFailure)
    | DryRunSkipQc | UploadBlockedByMode | UploadMissingCandidatePath | UploadBlockedInvalid(issues: seq<Issue>)
    | DeliverBlockedByMode | DeliverNotAllowlisted | DeliverMissingUpload | DeliverBlockedInvalid(issues: seq<Issue>)

  datatype Payload =
    | IntakePayload(order: Order)
    | CandidatePayload(
        orderId: string, requestKey: RequestKey, attempt: nat, filePath: Option<Path>, fileHash: string,
        refinedPrompt: string, model: string, metadataPath: Option<Path>, sourceKind: string,
        placeholder: bool, fileSize: nat)
    | QcPayload(candidateKey: Key, status: QcStatus, checks: Checks)
    | UploadPayload(candidateKey: Key, url: string, mediaType: string)
    | DeliveryPayload(uploadKey: Key, url: string, mediaType: string, responseStatus: int)
    | PendingUpload(candidateKey: Key, requestKey: RequestKey)
    | PendingDeliver(uploadKey: Key, requestKey: RequestKey)
    | DiagnosticPayload(mode: Mode, reason: Reason, decision: Decision, reasons: seq<PolicyReason>, event: Event)

  datatype Kind = IntakeKind | CandidateKind | QcKind | UploadKind | DeliveryKind | PendingKind | DiagnosticKind

  function KindOf(p: Payload): Kind {
    match p
    case IntakePayload(_) => IntakeKind
    case CandidatePayload(_, _, _, _, _, _, _, _, _, _, _) => CandidateKind
    case QcPayload(_, _, _) => QcKind
    case UploadPayload(_, _, _) => UploadKind
    case DeliveryPayload(_, _, _, _) => DeliveryKind
    case PendingUpload(_, _) => PendingKind
    case PendingDeliver(_, _) => PendingKind
    case DiagnosticPayload(_, _, _, _, _) => DiagnosticKind
  }

  /** The field `candidate_key` of a payload, where it has one. */
  function CandidateRef(p: Payload): Option<Key> {
    match p
    case QcPayload(k, _, _) => Some(k)
    case UploadPayload(k, _, _) => Some(k)
    case PendingUpload(k, _) => Some(k)
    case _ => None
  }

  /** The field `upload_key` of a payload, where it has one. */
  function UploadRef(p: Payload): Option<Key> {
    match p
    case DeliveryPayload(k, _, _, _) => Some(k)
    case PendingDeliver(k, _) => Some(k)
    case _ => None
  }

  /** The artifacts grouped by type, each group in chronological order. */
  datatype View = View(
    intake: seq<Payload>,
    candidate: seq<Payload>,
    qc: seq<Payload>,
    upload: seq<Payload>,
    delivery: seq<Payload>,
    pending: seq<Payload>,
    diagnostic: seq<Payload>)

  /** The records of one type, in the order in which they were first written. */
  function Group(log: seq<Payload>, kind: Kind): (g: seq<Payload>)
    ensures forall p :: p in g <==> p in log && KindOf(p) == kind
  {
    if log == [] then [] else
      var last := log[|log| - 1];
      Group(log[..|log| - 1], kind) + if KindOf(last) == kind then [last] else []
  }

  function ViewOf(log: seq<Payload>): View {
    View(Group(log, IntakeKind), Group(log, CandidateKind), Group(log, QcKind), Group(log, UploadKind),
         Group(log, DeliveryKind), Group(log, PendingKind), Group(log, DiagnosticKind))
  }

  lemma GroupAppend(log: seq<Payload>, p: Payload, kind: Kind)
    ensures Group(log + [p], kind) == Group(log, kind) + if KindOf(p) == kind then [p] else []
  {
    assert (log + [p])[..|log|] == log;
  }

  predicate Distinct<T(==)>(s: seq<T>) {
    forall i, j :: 0 <= i < j < |s| ==> s[i] != s[j]
  }
}
