/**
 Candidate preparation and assessment (lib/order_fulfillment.mjs).
 */
module Fulfillment {
  import opened Options
  import opened Artifacts
  import opened Text

  datatype Metadata = Metadata(
    model: string, placeholder: bool, refinedPrompt: Option<string>, sourceKind: Option<string>)

  /** A file on disk; `metadata` is its content read as candidate metadata, when it parses. */
  datatype DiskFile = DiskFile(hash: string, size: nat, metadata: Option<Metadata>)

  /** What one pass sees of the prepared assets. */
  type Disk = map<Path, DiskFile>

  const CANDIDATE_FILE := "candidate.png"
  const METADATA_FILE := "candidate.json"
  const PLACEHOLDER_MODELS: set<string> := {"placeholder_local_png", "placeholder", "stub"}

  predicate IsSafeChar(c: char) {
    IsAlnum(c) || c == '_' || c == '-'
  }

  function SanitizeOrderId(orderId: string): (r: string)
    ensures |r| == |orderId|
    ensures forall i :: 0 <= i < |r| ==> IsSafeChar(r[i])
    ensures forall i :: 0 <= i < |r| ==> r[i] == if IsSafeChar(orderId[i]) then orderId[i] else '_'
  {
    seq(|orderId|, i requires 0 <= i < |orderId| => if IsSafeChar(orderId[i]) then orderId[i] else '_')
  }

  /** The directory name, character by character: letters of either case, digits, underscores and hyphens stay, and
      every other character becomes an underscore. */
  lemma SanitizedIs(orderId: string, i: nat)
    requires i < |orderId|
    ensures var c := orderId[i];
            SanitizeOrderId(orderId)[i]
            == if Lower(c) in "abcdefghijklmnopqrstuvwxyz" || c in "0123456789" || c in "_-" then c else '_'
  {
    AlnumIs(orderId[i]);
  }

  function ExpectedRequestKey(order: Order): RequestKey {
    RequestKey(order.serviceId, Trim(order.brief, JS_SPACE))
  }

  function FulfilledId(order: Order): string {
    Trim(order.orderId, JS_SPACE)
  }

  function CandidatePath(orderId: string): Path {
    Path(SanitizeOrderId(orderId), CANDIDATE_FILE)
  }

  function MetadataPath(orderId: string): Path {
    Path(SanitizeOrderId(orderId), METADATA_FILE)
  }

  function NormalModel(model: string): string {
    LowerAll(Trim(model, JS_SPACE))
  }

  predicate IsPng(path: Path) {
    |path.name| >= 4 && LowerAll(path.name)[|path.name| - 4..] == ".png"
  }

  /** The model named by a candidate is a real one. */
  predicate RealModel(model: string) {
    NormalModel(model) != "" && NormalModel(model) !in PLACEHOLDER_MODELS
  }

  predicate LeadsUp(name: string) {
    |name| >= 2 && name[0] == name[1] == '.'
  }

  /** The path relative to the directory is not empty and does not start with two dots. The empty directory name is
      the runtime root, which every directory lies in. */
  predicate Inside(path: Path, dir: string) {
    if path.dir == dir then path.name != "" && !LeadsUp(path.name)
    else dir == "" && !LeadsUp(path.dir)
  }

  predicate InsideDirectory(path: Path, orderId: string) {
    Inside(path, SanitizeOrderId(orderId))
  }

  datatype Prepared = Prepared(payload: Payload) | NotPrepared(failure: PrepareFailure)

  /** lib/order_fulfillment.mjs:74-119. `candidateCount` is the number of candidates so far. */
  function PrepareCandidate(order: Order, candidateCount: nat, disk: Disk): (r: Prepared)
    ensures r.Prepared? ==> r.payload.CandidatePayload? && r.payload.attempt == candidateCount + 1
                            && r.payload.requestKey == ExpectedRequestKey(order)
                            && r.payload.orderId == FulfilledId(order)
  {
    var orderId := FulfilledId(order);
    if orderId == "" then NotPrepared(NoOrderId)
    else
      var candidate, metadata := CandidatePath(orderId), MetadataPath(orderId);
      if candidate !in disk then NotPrepared(CandidateFileMissing(candidate))
      else if metadata !in disk then NotPrepared(MetadataFileMissing(metadata))
      else if disk[metadata].metadata.None? then NotPrepared(MetadataFileInvalid(metadata))
      else
        var m := disk[metadata].metadata.value;
        var model := NormalModel(m.model);
        if model == "" || model in PLACEHOLDER_MODELS || m.placeholder then NotPrepared(NotDeliverable)
        else Prepared(CandidatePayload(
          orderId, ExpectedRequestKey(order), candidateCount + 1, Some(candidate), disk[candidate].hash,
          Trim(if m.refinedPrompt.Some? then m.refinedPrompt.value else order.brief, JS_SPACE), model,
          Some(metadata), if m.sourceKind.Some? then m.sourceKind.value else "prepared_asset", false,
          disk[candidate].size))
  }

  function When(condition: bool, issue: Issue): (r: seq<Issue>)
    ensures forall x :: x in r <==> condition && x == issue
  {
    if condition then [issue] else []
  }

  function IdentityIssues(c: Payload, orderId: string): seq<Issue>
    requires c.CandidatePayload?
  {
    When(orderId == "", MissingOrderId) + When(c.orderId != orderId, OrderIdMismatch)
  }

  function FileIssues(file: Option<Path>, dir: string, disk: Disk): seq<Issue> {
    match file
    case None => [MissingFilePath]
    case Some(path) =>
      When(path !in disk, FileMissing)
      + When(!IsPng(path), FileNotPng)
      + When(path in disk && disk[path].size == 0, FileEmpty)
      + When(!Inside(path, dir), FileOutsideOrderDir)
  }

  function ContentIssues(c: Payload, request: RequestKey): seq<Issue>
    requires c.CandidatePayload?
  {
    When(c.requestKey != request, RequestKeyMismatch)
    + When(c.placeholder, PlaceholderFlagged)
    + When(NormalModel(c.model) == "" || NormalModel(c.model) in PLACEHOLDER_MODELS, PlaceholderModel)
  }

  function MetadataIssues(file: Option<Path>, dir: string, disk: Disk): seq<Issue> {
    match file
    case None => [MissingMetadataPath]
    case Some(path) =>
      if path !in disk then [MetadataMissing]
      else When(!Inside(path, dir), MetadataOutsideOrderDir)
  }

  /** The issues found in a candidate; none means deliverable (lib/order_fulfillment.mjs:121-155). */
  function Assess(c: Payload, order: Order, disk: Disk): (issues: seq<Issue>)
    requires c.CandidatePayload?
    ensures issues == [] ==> c.orderId == FulfilledId(order) != "" && c.requestKey == ExpectedRequestKey(order)
                             && c.filePath.Some? && c.filePath.value in disk
  {
    var orderId := FulfilledId(order);
    var dir := SanitizeOrderId(orderId);
    IdentityIssues(c, orderId)
    + FileIssues(c.filePath, dir, disk)
    + ContentIssues(c, ExpectedRequestKey(order))
    + MetadataIssues(c.metadataPath, dir, disk)
  }

  lemma DeliverableIff(c: Payload, order: Order, disk: Disk)
    requires c.CandidatePayload?
    ensures Assess(c, order, disk) == [] <==>
            && FulfilledId(order) != "" && c.orderId == FulfilledId(order)
            && c.requestKey == ExpectedRequestKey(order)
            && RealModel(c.model) && !c.placeholder
            && c.filePath.Some? && c.filePath.value in disk && disk[c.filePath.value].size > 0
            && IsPng(c.filePath.value) && InsideDirectory(c.filePath.value, FulfilledId(order))
            && c.metadataPath.Some? && c.metadataPath.value in disk
            && InsideDirectory(c.metadataPath.value, FulfilledId(order))
  {
    hide IsPng, NormalModel, SanitizeOrderId, FulfilledId, ExpectedRequestKey;
  }

  /** Up to case and surrounding whitespace no name, or a placeholder's. */
  predicate NoRealModel(model: string) {
    LowerAll(Trim(model, JS_SPACE)) in {"", "placeholder_local_png", "placeholder", "stub"}
  }

  lemma RealModelIff(model: string)
    ensures RealModel(model) <==> !NoRealModel(model)
  {
    hide Trim, LowerAll;
  }

  /** A file in the directory of an order with an id: at least one name below it, and not above it. */
  predicate Below(path: Path, id: string) {
    path.dir == SanitizeOrderId(id) && path.name != "" && !(".." <= path.name)
  }

  /** Below the directory of the order; without an id that is the runtime root, with every directory in it. */
  predicate Within(path: Path, id: string) {
    if id != "" || path.dir == "" then Below(path, id) else !(".." <= path.dir)
  }

  lemma WithinIff(path: Path, id: string)
    ensures InsideDirectory(path, id) <==> Within(path, id)
  {
    assert LeadsUp(path.dir) ==> path.dir[..2] == "..";
    assert LeadsUp(path.name) ==> path.name[..2] == "..";
  }

  lemma PngIff(path: Path)
    ensures IsPng(path) <==> exists stem :: LowerAll(path.name) == stem + ".png"
  {
    var name := LowerAll(path.name);
    if IsPng(path) { assert name == name[..|name| - 4] + ".png"; }
  }

  /** When a candidate may be uploaded and delivered for an order, exactly: it has an id and is this order's, it was
      made for this service and brief, it names a real model, and its two files lie in the order's directory, the
      image as a PNG that is not empty. */
  lemma EligibleIff(c: Payload, order: Order, disk: Disk)
    requires c.CandidatePayload?
    ensures var id := Trim(order.orderId, JS_SPACE);
            Assess(c, order, disk) == [] <==>
              && c.orderId == id != "" && c.requestKey == RequestKey(order.serviceId, Trim(order.brief, JS_SPACE))
              && !c.placeholder && !NoRealModel(c.model)
              && c.filePath.Some? && c.filePath.value in disk && disk[c.filePath.value].size > 0
              && Below(c.filePath.value, id) && (exists stem :: LowerAll(c.filePath.value.name) == stem + ".png")
              && c.metadataPath.Some? && c.metadataPath.value in disk && Below(c.metadataPath.value, id)
  {
    hide Trim, Assess, RealModel, NoRealModel, IsPng, InsideDirectory, Below, LowerAll;
    var id := Trim(order.orderId, JS_SPACE);
    DeliverableIff(c, order, disk);
    RealModelIff(c.model);
    if c.filePath.Some? { WithinIff(c.filePath.value, id); }
    if c.metadataPath.Some? { WithinIff(c.metadataPath.value, id); }
    if c.filePath.Some? { PngIff(c.filePath.value); }
  }

  /** When preparation succeeds, and what it then records of the files. */
  lemma PreparedIff(order: Order, candidateCount: nat, disk: Disk)
    ensures var r := PrepareCandidate(order, candidateCount, disk);
            var id := FulfilledId(order);
            var image, data := CandidatePath(id), MetadataPath(id);
            && (r.Prepared? <==>
                  && id != "" && image in disk && data in disk && disk[data].metadata.Some?
                  && RealModel(disk[data].metadata.value.model) && !disk[data].metadata.value.placeholder)
            && (r.Prepared? ==>
                  && r.payload.filePath == Some(image) && r.payload.fileHash == disk[image].hash
                  && r.payload.fileSize == disk[image].size && r.payload.metadataPath == Some(data)
                  && r.payload.model == NormalModel(disk[data].metadata.value.model) && !r.payload.placeholder)
  {
    hide NormalModel, FulfilledId, CandidatePath, MetadataPath, ExpectedRequestKey;
  }

  /** The record of the candidate with this number, as the two prepared files and the order give it. */
  ghost predicate Describes(c: Payload, order: Order, number: nat, image: DiskFile, m: Metadata) {
    var dir := SanitizeOrderId(Trim(order.orderId, JS_SPACE));
    && c.CandidatePayload? && c.orderId == Trim(order.orderId, JS_SPACE) && c.attempt == number
    && c.requestKey == RequestKey(order.serviceId, Trim(order.brief, JS_SPACE))
    && c.filePath == Some(Path(dir, "candidate.png")) && c.fileHash == image.hash && c.fileSize == image.size
    && c.metadataPath == Some(Path(dir, "candidate.json"))
    && c.model == LowerAll(Trim(m.model, JS_SPACE)) && !c.placeholder
    && c.refinedPrompt == Trim(if m.refinedPrompt.Some? then m.refinedPrompt.value else order.brief, JS_SPACE)
    && c.sourceKind == if m.sourceKind.Some? then m.sourceKind.value else "prepared_asset"
  }

  /** A candidate can be prepared exactly when the order has an id, its directory holds both files, and the metadata
      parses, names a real model and flags no placeholder. */
  ghost predicate AssetReady(order: Order, disk: Disk) {
    var id := Trim(order.orderId, JS_SPACE);
    var image, data := Path(SanitizeOrderId(id), "candidate.png"), Path(SanitizeOrderId(id), "candidate.json");
    && id != "" && image in disk && data in disk && disk[data].metadata.Some?
    && !NoRealModel(disk[data].metadata.value.model) && !disk[data].metadata.value.placeholder
  }

  /** Preparation, written out: when it succeeds and every field of what it then records. */
  lemma PreparedIs(order: Order, candidateCount: nat, disk: Disk)
    ensures var r := PrepareCandidate(order, candidateCount, disk);
            var dir := SanitizeOrderId(Trim(order.orderId, JS_SPACE));
            && (r.Prepared? <==> AssetReady(order, disk))
            && (AssetReady(order, disk) ==>
                  Describes(r.payload, order, candidateCount + 1, disk[Path(dir, "candidate.png")],
                            disk[Path(dir, "candidate.json")].metadata.value))
  {
    hide Trim, LowerAll, SanitizeOrderId;
  }

  /** This is the first thing wrong with the prepared asset, in the order in which it is looked at. */
  ghost predicate IsFirstWrong(order: Order, disk: Disk, failure: PrepareFailure) {
    var id := Trim(order.orderId, JS_SPACE);
    var image, data := Path(SanitizeOrderId(id), "candidate.png"), Path(SanitizeOrderId(id), "candidate.json");
    match failure
    case NoOrderId => id == ""
    case CandidateFileMissing(path) => id != "" && path == image && image !in disk
    case MetadataFileMissing(path) => id != "" && image in disk && path == data && data !in disk
    case MetadataFileInvalid(path) =>
      id != "" && image in disk && path == data && data in disk && disk[data].metadata.None?
    case NotDeliverable =>
      && id != "" && image in disk && data in disk && disk[data].metadata.Some?
      && (NoRealModel(disk[data].metadata.value.model) || disk[data].metadata.value.placeholder)
  }

  /** Why preparation is refused: exactly the first thing wrong. */
  lemma RefusalIff(order: Order, candidateCount: nat, disk: Disk, failure: PrepareFailure)
    ensures PrepareCandidate(order, candidateCount, disk) == NotPrepared(failure)
            <==> IsFirstWrong(order, disk, failure)
  {
    hide Trim, LowerAll, SanitizeOrderId;
  }

  /** When an issue is found in a candidate. */
  ghost predicate IssueApplies(issue: Issue, c: Payload, order: Order, disk: Disk)
    requires c.CandidatePayload?
  {
    var id := Trim(order.orderId, JS_SPACE);
    match issue
    case MissingOrderId => id == ""
    case OrderIdMismatch => c.orderId != id
    case MissingFilePath => c.filePath.None?
    case FileMissing => c.filePath.Some? && c.filePath.value !in disk
    case FileNotPng => c.filePath.Some? && !exists stem :: LowerAll(c.filePath.value.name) == stem + ".png"
    case FileEmpty => c.filePath.Some? && c.filePath.value in disk && disk[c.filePath.value].size == 0
    case FileOutsideOrderDir => c.filePath.Some? && !Within(c.filePath.value, id)
    case RequestKeyMismatch => c.requestKey != RequestKey(order.serviceId, Trim(order.brief, JS_SPACE))
    case PlaceholderFlagged => c.placeholder
    case PlaceholderModel => NoRealModel(c.model)
    case MissingMetadataPath => c.metadataPath.None?
    case MetadataMissing => c.metadataPath.Some? && c.metadataPath.value !in disk
    case MetadataOutsideOrderDir =>
      c.metadataPath.Some? && c.metadataPath.value in disk && !Within(c.metadataPath.value, id)
  }

  lemma FileFacts(path: Path, id: string)
    ensures Inside(path, SanitizeOrderId(id)) <==> Within(path, id)
    ensures IsPng(path) <==> exists stem :: LowerAll(path.name) == stem + ".png"
  {
    WithinIff(path, id);
    PngIff(path);
  }

  lemma IdentityIssuesExact(c: Payload, order: Order, disk: Disk, issue: Issue)
    requires c.CandidatePayload?
    ensures issue in IdentityIssues(c, FulfilledId(order)) <==>
              (issue.MissingOrderId? || issue.OrderIdMismatch?) && IssueApplies(issue, c, order, disk)
  {
    hide Trim;
  }

  predicate OfFile(issue: Issue) {
    || issue.MissingFilePath? || issue.FileMissing? || issue.FileNotPng? || issue.FileEmpty?
    || issue.FileOutsideOrderDir?
  }

  lemma FileIssuesExact(c: Payload, order: Order, disk: Disk, issue: Issue)
    requires c.CandidatePayload?
    ensures issue in FileIssues(c.filePath, SanitizeOrderId(FulfilledId(order)), disk) <==>
              OfFile(issue) && IssueApplies(issue, c, order, disk)
  {
    hide IsPng, Inside, Within, SanitizeOrderId, LowerAll, Trim;
    if c.filePath.Some? { FileFacts(c.filePath.value, FulfilledId(order)); }
  }

  predicate OfContent(issue: Issue) {
    issue.RequestKeyMismatch? || issue.PlaceholderFlagged? || issue.PlaceholderModel?
  }

  lemma ContentIssuesExact(c: Payload, order: Order, disk: Disk, issue: Issue)
    requires c.CandidatePayload?
    ensures issue in ContentIssues(c, ExpectedRequestKey(order)) <==>
              OfContent(issue) && IssueApplies(issue, c, order, disk)
  {
    hide NormalModel, NoRealModel, Trim;
    RealModelIff(c.model);
  }

  predicate OfMetadata(issue: Issue) {
    issue.MissingMetadataPath? || issue.MetadataMissing? || issue.MetadataOutsideOrderDir?
  }

  lemma MetadataIssuesExact(c: Payload, order: Order, disk: Disk, issue: Issue)
    requires c.CandidatePayload?
    ensures issue in MetadataIssues(c.metadataPath, SanitizeOrderId(FulfilledId(order)), disk) <==>
              OfMetadata(issue) && IssueApplies(issue, c, order, disk)
  {
    hide Inside, Within, SanitizeOrderId, Trim;
    if c.metadataPath.Some? { FileFacts(c.metadataPath.value, FulfilledId(order)); }
  }

  lemma AssessedInGroups(c: Payload, order: Order, disk: Disk, issue: Issue)
    requires c.CandidatePayload?
    ensures var id := FulfilledId(order);
            issue in Assess(c, order, disk) <==>
              || issue in IdentityIssues(c, id) || issue in FileIssues(c.filePath, SanitizeOrderId(id), disk)
              || issue in ContentIssues(c, ExpectedRequestKey(order))
              || issue in MetadataIssues(c.metadataPath, SanitizeOrderId(id), disk)
  {
    hide IdentityIssues, FileIssues, ContentIssues, MetadataIssues, FulfilledId, SanitizeOrderId, ExpectedRequestKey;
  }

  /** Each issue is listed exactly when it applies. */
  lemma IssuesAreExact(c: Payload, order: Order, disk: Disk, issue: Issue)
    requires c.CandidatePayload?
    ensures issue in Assess(c, order, disk) <==> IssueApplies(issue, c, order, disk)
  {
    hide Assess, IdentityIssues, FileIssues, ContentIssues, MetadataIssues, IssueApplies, SanitizeOrderId,
         FulfilledId, ExpectedRequestKey;
    AssessedInGroups(c, order, disk, issue);
    IdentityIssuesExact(c, order, disk, issue);
    FileIssuesExact(c, order, disk, issue);
    ContentIssuesExact(c, order, disk, issue);
    MetadataIssuesExact(c, order, disk, issue);
  }

  lemma NormalModelIdempotent(model: string)
    ensures NormalModel(NormalModel(model)) == NormalModel(model)
  {
    var t := Trim(model, JS_SPACE);
    JsTrimLowerCommute(t);
    TrimIdempotent(model, JS_SPACE);
    LowerIdempotent(t);
  }

  lemma CandidateFileIsPng(orderId: string)
    ensures IsPng(CandidatePath(orderId))
  {
    assert CANDIDATE_FILE[9..] == ".png";
    assert forall i :: 0 <= i < |CANDIDATE_FILE| ==> Lower(CANDIDATE_FILE[i]) == CANDIDATE_FILE[i];
    assert LowerAll(CANDIDATE_FILE) == CANDIDATE_FILE;
  }

  /** Preparation and assessment agree: a freshly prepared candidate has no issue exactly when its file
      is not empty. */
  lemma PreparedPassesAssessment(order: Order, candidateCount: nat, disk: Disk)
    requires PrepareCandidate(order, candidateCount, disk).Prepared?
    ensures Assess(PrepareCandidate(order, candidateCount, disk).payload, order, disk) == []
            <==> disk[CandidatePath(FulfilledId(order))].size > 0
  {
    hide IsPng, NormalModel;
    var orderId := FulfilledId(order);
    NormalModelIdempotent(disk[MetadataPath(orderId)].metadata.value.model);
    CandidateFileIsPng(orderId);
  }

  /** dizzy_poll_deliver.mjs:265-289. */
  function RunQc(c: Payload, order: Order, disk: Disk): (r: Payload)
    requires c.CandidatePayload?
    ensures r.QcPayload? && r.candidateKey == Digest(c)
    ensures r.status == Passed <==> Assess(c, order, disk) == []
    ensures r.checks.issues == Assess(c, order, disk) && (r.checks.deliverable <==> r.checks.issues == [])
    ensures r.checks.fileExists <==> c.filePath.Some? && c.filePath.value in disk
    ensures r.checks.isPng <==> c.filePath.Some? && IsPng(c.filePath.value)
    ensures r.checks.fileSize == if r.checks.fileExists then disk[c.filePath.value].size else 0
  {
    var issues := Assess(c, order, disk);
    var exists_ := c.filePath.Some? && c.filePath.value in disk;
    var png := c.filePath.Some? && IsPng(c.filePath.value);
    var size := if exists_ then disk[c.filePath.value].size else 0;
    var pass := exists_ && png && size > 0 && issues == [];
    QcPayload(Digest(c), if pass then Passed else FailedQc, Checks(exists_, png, size, issues == [], issues))
  }

  /** An operation was announced and never completed (lib/order_fulfillment.mjs:5-12). */
  predicate HasUnresolvedUpload(pending: seq<Payload>, completions: seq<Payload>, reference: Option<Key>) {
    && reference.Some?
    && !(exists r :: r in completions && CandidateRef(r) == reference)
    && exists r :: r in pending && r.PendingUpload? && CandidateRef(r) == reference
  }

  predicate HasUnresolvedDelivery(pending: seq<Payload>, completions: seq<Payload>, reference: Option<Key>) {
    && reference.Some?
    && !(exists r :: r in completions && UploadRef(r) == reference)
    && exists r :: r in pending && r.PendingDeliver? && UploadRef(r) == reference
  }
}
