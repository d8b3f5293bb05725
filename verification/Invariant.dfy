/**
 The inductive invariant of the reconciler and its preservation by every pass, whatever the order,
 the mode, the environment and the crash.
 */
module Invariant {
  import opened Options
  import opened Artifacts
  import opened Reconciler

  ghost function Candidates(log: seq<Payload>): seq<Payload> {
    Group(log, CandidateKind)
  }

  ghost predicate NamesCandidate(log: seq<Payload>, k: Key) {
    k.payload.CandidatePayload? && k.payload in log
  }

  ghost predicate NamesUpload(log: seq<Payload>, k: Key) {
    k.payload.UploadPayload? && k.payload in log && NamesCandidate(log, k.payload.candidateKey)
  }

  /** The request for which the candidate behind an upload was prepared. */
  ghost function RequestOf(upload: Key): RequestKey
    requires upload.payload.UploadPayload? && upload.payload.candidateKey.payload.CandidatePayload?
  {
    upload.payload.candidateKey.payload.requestKey
  }

  ghost predicate PassedQc(log: seq<Payload>, k: Key) {
    exists q :: q in log && q.QcPayload? && q.candidateKey == k && q.status == Passed
  }

  /** Candidates are numbered 1, 2, ... and never exceed the cap. */
  ghost predicate CandidatesOk(cap: nat, log: seq<Payload>) {
    var c := Candidates(log);
    |c| <= cap && forall i :: 0 <= i < |c| ==> c[i].CandidatePayload? && c[i].attempt == i + 1
  }

  ghost predicate OneQcPerCandidate(log: seq<Payload>) {
    forall q, r :: q in log && r in log && q.QcPayload? && r.QcPayload? ==> q.candidateKey == r.candidateKey ==> q == r
  }

  ghost predicate OneUploadPerCandidate(log: seq<Payload>) {
    forall u, v :: u in log && v in log && u.UploadPayload? && v.UploadPayload? ==>
      u.candidateKey == v.candidateKey ==> u == v
  }

  /** A QC record names a candidate below the cap, and a candidate has at most one QC record. */
  ghost predicate QcOk(cap: nat, log: seq<Payload>) {
    && (forall q :: q in log && q.QcPayload? ==>
          NamesCandidate(log, q.candidateKey) && q.candidateKey.payload.attempt < cap)
    && OneQcPerCandidate(log)
  }

  ghost predicate PendingUploadsOk(log: seq<Payload>) {
    forall p :: p in log && p.PendingUpload? ==>
      NamesCandidate(log, p.candidateKey) && p.requestKey == p.candidateKey.payload.requestKey
      && PassedQc(log, p.candidateKey)
  }

  ghost predicate UploadsOk(log: seq<Payload>) {
    && (forall u :: u in log && u.UploadPayload? ==>
          NamesCandidate(log, u.candidateKey)
          && PendingUpload(u.candidateKey, u.candidateKey.payload.requestKey) in log)
    && OneUploadPerCandidate(log)
  }

  ghost predicate PendingDeliversOk(log: seq<Payload>) {
    forall p :: p in log && p.PendingDeliver? ==>
      NamesUpload(log, p.uploadKey) && p.requestKey == RequestOf(p.uploadKey)
  }

  /** A delivery repeats its upload, was announced, and belongs to the last candidate; there is at most one. */
  ghost predicate DeliveriesOk(log: seq<Payload>) {
    && (forall d :: d in log && d.DeliveryPayload? ==>
          && NamesUpload(log, d.uploadKey)
          && d.url == d.uploadKey.payload.url && d.mediaType == d.uploadKey.payload.mediaType
          && PendingDeliver(d.uploadKey, RequestOf(d.uploadKey)) in log
          && Latest(Candidates(log)) == Some(d.uploadKey.payload.candidateKey.payload))
    && (forall d, e :: d in log && e in log && d.DeliveryPayload? && e.DeliveryPayload? ==> d == e)
  }

  /** The call of this operation on this key was made. */
  ghost predicate WasCalled(calls: seq<Call>, k: Key) {
    exists c :: c in calls && TargetOf(c) == k
  }

  /** The reference key of an external call; candidate keys and upload keys never coincide. */
  ghost function TargetOf(c: Call): Key {
    match c
    case UploadCall(k, _) => k
    case DeliverCall(k, _, _, _) => k
  }

  ghost predicate CallOk(log: seq<Payload>, c: Call) {
    match c
    case UploadCall(k, path) =>
      NamesCandidate(log, k) && k.payload.filePath == Some(path) && PendingUpload(k, k.payload.requestKey) in log
    case DeliverCall(k, orderId, url, mediaType) =>
      && NamesUpload(log, k) && url == k.payload.url && mediaType == k.payload.mediaType
      && PendingDeliver(k, RequestOf(k)) in log
  }

  ghost predicate CallsOk(log: seq<Payload>, calls: seq<Call>) {
    && (forall c :: c in calls ==> CallOk(log, c))
    && (forall i, j :: 0 <= i < j < |calls| ==> TargetOf(calls[i]) != TargetOf(calls[j]))
    && (forall u :: u in log && u.UploadPayload? ==> WasCalled(calls, u.candidateKey))
    && (forall d :: d in log && d.DeliveryPayload? ==> WasCalled(calls, d.uploadKey))
  }

  ghost predicate HasIntake(log: seq<Payload>) {
    exists p :: p in log && p.IntakePayload?
  }

  /** What must already be on record when a record is written. */
  ghost predicate Caused(before: seq<Payload>, p: Payload) {
    match p
    case CandidatePayload(_, _, _, _, _, _, _, _, _, _, _) => HasIntake(before)
    case QcPayload(k, _, _) => NamesCandidate(before, k)
    case PendingUpload(k, _) => PassedQc(before, k)
    case UploadPayload(k, _, _) => k.payload.CandidatePayload? && PendingUpload(k, k.payload.requestKey) in before
    case PendingDeliver(k, _) => NamesUpload(before, k)
    case DeliveryPayload(k, _, _, _) => NamesUpload(before, k) && PendingDeliver(k, RequestOf(k)) in before
    case _ => true
  }

  /** Every record was written after the records it depends on. */
  ghost predicate CausalOk(log: seq<Payload>) {
    forall j :: 0 <= j < |log| ==> Caused(log[..j], log[j])
  }

  /** A candidate that passed QC is only ever replaced by one for another request. */
  ghost predicate ReplacementOk(log: seq<Payload>) {
    var c := Candidates(log);
    forall i, j :: 0 <= i && j == i + 1 && j < |c| && PassedQc(log, Digest(c[i])) ==>
      c[i].CandidatePayload? && c[j].CandidatePayload? && c[i].requestKey != c[j].requestKey
  }

  ghost predicate FilesOk(w: World) {
    Distinct(w.log) && forall p :: p in w.log ==> p !in w.torn
  }

  /** A half-written record, too, refers only to what was on record. */
  ghost predicate TornOk(log: seq<Payload>, torn: set<Payload>) {
    forall p :: p in torn ==> Caused(log, p)
  }

  ghost predicate Inv(cap: nat, w: World) {
    && FilesOk(w)
    && TornOk(w.log, w.torn)
    && CandidatesOk(cap, w.log)
    && QcOk(cap, w.log)
    && CausalOk(w.log)
    && ReplacementOk(w.log)
    && PendingUploadsOk(w.log)
    && UploadsOk(w.log)
    && PendingDeliversOk(w.log)
    && DeliveriesOk(w.log)
    && CallsOk(w.log, w.calls)
  }

  lemma EmptyInv(cap: nat)
    ensures Inv(cap, EMPTY)
  {
  }

  // --- one new file or call at a time ------------------------------------------------------------

  lemma CandidatesOfAppend(log: seq<Payload>, p: Payload)
    ensures Candidates(log + [p]) == if p.CandidatePayload? then Candidates(log) + [p] else Candidates(log)
  {
    GroupAppend(log, p, CandidateKind);
  }

  lemma PassedQcGrows(log: seq<Payload>, p: Payload, k: Key)
    requires PassedQc(log, k)
    ensures PassedQc(log + [p], k)
  {
    var q :| q in log && q.QcPayload? && q.candidateKey == k && q.status == Passed;
    assert q in log + [p];
  }

  ghost predicate IsNote(p: Payload) {
    p.IntakePayload? || p.DiagnosticPayload?
  }

  ghost predicate NoDelivery(log: seq<Payload>) {
    forall d :: d in log ==> !d.DeliveryPayload?
  }

  ghost predicate MayReplace(log: seq<Payload>, p: Payload)
    requires p.CandidatePayload?
  {
    var latest := Latest(Candidates(log));
    latest.Some? && PassedQc(log, Digest(latest.value)) ==>
      latest.value.CandidatePayload? && latest.value.requestKey != p.requestKey
  }

  /** When writing a record keeps the invariant, type by type. */
  ghost predicate MayAppend(cap: nat, log: seq<Payload>, calls: seq<Call>, p: Payload) {
    match p
    case IntakePayload(_) => true
    case DiagnosticPayload(_, _, _, _, _) => true
    case CandidatePayload(_, _, attempt, _, _, _, _, _, _, _, _) =>
      && |Candidates(log)| < cap && attempt == |Candidates(log)| + 1 && NoDelivery(log)
      && MayReplace(log, p) && HasIntake(log)
    case QcPayload(k, _, _) =>
      NamesCandidate(log, k) && k.payload.attempt < cap && Latest(Candidates(log)) == Some(k.payload)
      && forall q :: q in log && q.QcPayload? ==> q.candidateKey != k
    case PendingUpload(k, request) =>
      NamesCandidate(log, k) && PassedQc(log, k) && request == k.payload.requestKey
    case UploadPayload(k, _, _) =>
      NamesCandidate(log, k) && PendingUpload(k, k.payload.requestKey) in log && WasCalled(calls, k)
      && forall u :: u in log && u.UploadPayload? ==> u.candidateKey != k
    case PendingDeliver(k, request) =>
      NamesUpload(log, k) && request == RequestOf(k)
    case DeliveryPayload(k, url, mediaType, _) =>
      && NamesUpload(log, k) && url == k.payload.url && mediaType == k.payload.mediaType
      && PendingDeliver(k, RequestOf(k)) in log && WasCalled(calls, k)
      && Latest(Candidates(log)) == Some(k.payload.candidateKey.payload)
      && NoDelivery(log)
  }

  lemma CandidatesGrow(cap: nat, log: seq<Payload>, p: Payload)
    requires CandidatesOk(cap, log)
    requires p.CandidatePayload? ==> |Candidates(log)| < cap && p.attempt == |Candidates(log)| + 1
    ensures CandidatesOk(cap, log + [p])
  {
    CandidatesOfAppend(log, p);
  }

  lemma QcGrows(cap: nat, log: seq<Payload>, p: Payload)
    requires QcOk(cap, log)
    requires p.QcPayload? ==> NamesCandidate(log, p.candidateKey) && p.candidateKey.payload.attempt < cap
                              && forall q :: q in log && q.QcPayload? ==> q.candidateKey != p.candidateKey
    ensures QcOk(cap, log + [p])
  {
  }

  lemma IntakeStays(log: seq<Payload>, p: Payload)
    requires HasIntake(log)
    ensures HasIntake(log + [p])
  {
    var q :| q in log && q.IntakePayload?;
    assert q in log + [p];
  }

  lemma CausedStays(log: seq<Payload>, q: Payload, p: Payload)
    requires Caused(log, q)
    ensures Caused(log + [p], q)
  {
    match q
    case CandidatePayload(_, _, _, _, _, _, _, _, _, _, _) => IntakeStays(log, p);
    case PendingUpload(k, _) => PassedQcGrows(log, p, k);
    case _ =>
  }

  lemma TornStaysOk(log: seq<Payload>, torn: set<Payload>, p: Payload)
    requires TornOk(log, torn)
    ensures TornOk(log + [p], torn)
  {
    forall q | q in torn ensures Caused(log + [p], q) { CausedStays(log, q, p); }
  }

  /** What may be written has its causes on record. */
  lemma PermittedIsCaused(cap: nat, log: seq<Payload>, calls: seq<Call>, p: Payload)
    requires MayAppend(cap, log, calls, p)
    ensures Caused(log, p)
  {
  }

  lemma CausesGrow(log: seq<Payload>, p: Payload)
    requires CausalOk(log) && Caused(log, p)
    ensures CausalOk(log + [p])
  {
    var longer := log + [p];
    forall j | 0 <= j < |longer| ensures Caused(longer[..j], longer[j]) {
      assert longer[..j] == log[..j];
      assert log[..|log|] == log;
    }
  }

  lemma ReplacementsGrow(cap: nat, log: seq<Payload>, p: Payload)
    requires CandidatesOk(cap, log) && ReplacementOk(log)
    requires p.CandidatePayload? ==> MayReplace(log, p)
    requires p.QcPayload? ==> Latest(Candidates(log)) == Some(p.candidateKey.payload)
    ensures ReplacementOk(log + [p])
  {
    CandidatesOfAppend(log, p);
    var c, c' := Candidates(log), Candidates(log + [p]);
    forall i, j | 0 <= i && j == i + 1 && j < |c'| && PassedQc(log + [p], Digest(c'[i]))
      ensures c'[i].CandidatePayload? && c'[j].CandidatePayload? && c'[i].requestKey != c'[j].requestKey
    {
      var q :| q in log + [p] && q.QcPayload? && q.candidateKey == Digest(c'[i]) && q.status == Passed;
      assert c'[i] == c[i] && c[i].CandidatePayload? && c[i].attempt == i + 1;
      assert c[|c| - 1].attempt == |c|;
      assert c[i] == c[|c| - 1] ==> i == |c| - 1;
      assert q in log;
      assert PassedQc(log, Digest(c[i]));
    }
  }

  lemma PendingUploadsGrow(log: seq<Payload>, p: Payload)
    requires PendingUploadsOk(log)
    requires p.PendingUpload? ==> NamesCandidate(log, p.candidateKey) && PassedQc(log, p.candidateKey)
                                  && p.requestKey == p.candidateKey.payload.requestKey
    ensures PendingUploadsOk(log + [p])
  {
    forall r | r in log + [p] && r.PendingUpload? ensures PassedQc(log + [p], r.candidateKey) {
      PassedQcGrows(log, p, r.candidateKey);
    }
  }

  lemma UploadsGrow(log: seq<Payload>, p: Payload)
    requires UploadsOk(log)
    requires p.UploadPayload? ==> NamesCandidate(log, p.candidateKey)
                                  && PendingUpload(p.candidateKey, p.candidateKey.payload.requestKey) in log
                                  && forall u :: u in log && u.UploadPayload? ==> u.candidateKey != p.candidateKey
    ensures UploadsOk(log + [p])
  {
  }

  lemma PendingDeliversGrow(log: seq<Payload>, p: Payload)
    requires PendingDeliversOk(log)
    requires p.PendingDeliver? ==> NamesUpload(log, p.uploadKey) && p.requestKey == RequestOf(p.uploadKey)
    ensures PendingDeliversOk(log + [p])
  {
  }

  lemma DeliveriesGrow(log: seq<Payload>, p: Payload)
    requires DeliveriesOk(log)
    requires p.CandidatePayload? || p.DeliveryPayload? ==> NoDelivery(log)
    requires p.DeliveryPayload? ==>
               && NamesUpload(log, p.uploadKey)
               && p.url == p.uploadKey.payload.url && p.mediaType == p.uploadKey.payload.mediaType
               && PendingDeliver(p.uploadKey, RequestOf(p.uploadKey)) in log
               && Latest(Candidates(log)) == Some(p.uploadKey.payload.candidateKey.payload)
    ensures DeliveriesOk(log + [p])
  {
    CandidatesOfAppend(log, p);
  }

  lemma CallsStayOk(log: seq<Payload>, calls: seq<Call>, p: Payload)
    requires CallsOk(log, calls)
    requires p.UploadPayload? ==> WasCalled(calls, p.candidateKey)
    requires p.DeliveryPayload? ==> WasCalled(calls, p.uploadKey)
    ensures CallsOk(log + [p], calls)
  {
    forall c | c in calls ensures CallOk(log + [p], c) {
      assert CallOk(log, c);
    }
  }

  /** Writing a permitted record keeps the invariant. */
  lemma AddRecord(cap: nat, w: World, p: Payload)
    requires Inv(cap, w) && MayAppend(cap, w.log, w.calls, p) && p !in w.log && p !in w.torn
    ensures Inv(cap, Logged(w, p))
  {
    hide CandidatesOk, QcOk, CausalOk, ReplacementOk, PendingUploadsOk, UploadsOk, PendingDeliversOk, DeliveriesOk,
         CallsOk, TornOk, Caused;
    assert FilesOk(Logged(w, p));
    PermittedIsCaused(cap, w.log, w.calls, p);
    TornStaysOk(w.log, w.torn, p);
    CandidatesGrow(cap, w.log, p);
    QcGrows(cap, w.log, p);
    CausesGrow(w.log, p);
    ReplacementsGrow(cap, w.log, p);
    PendingUploadsGrow(w.log, p);
    UploadsGrow(w.log, p);
    PendingDeliversGrow(w.log, p);
    DeliveriesGrow(w.log, p);
    CallsStayOk(w.log, w.calls, p);
  }

  /** A half-written permitted record keeps the invariant. */
  lemma AddTorn(cap: nat, w: World, p: Payload)
    requires Inv(cap, w) && MayAppend(cap, w.log, w.calls, p) && p !in w.log
    ensures Inv(cap, Tear(w, p))
  {
    hide CandidatesOk, QcOk, CausalOk, ReplacementOk, PendingUploadsOk, UploadsOk, PendingDeliversOk, DeliveriesOk,
         CallsOk, MayAppend, Caused;
    PermittedIsCaused(cap, w.log, w.calls, p);
  }

  // --- one new call ------------------------------------------------------------------------------

  lemma CallsRemembered(calls: seq<Call>, c: Call, k: Key)
    requires WasCalled(calls, k) || k == TargetOf(c)
    ensures WasCalled(calls + [c], k)
  {
    hide TargetOf;
    var longer := calls + [c];
    if k == TargetOf(c) {
      assert c in longer;
    } else {
      var e :| e in calls && TargetOf(e) == k;
      assert e in longer;
    }
  }

  lemma TargetsStayDistinct(calls: seq<Call>, c: Call)
    requires forall i, j :: 0 <= i < j < |calls| ==> TargetOf(calls[i]) != TargetOf(calls[j])
    requires !WasCalled(calls, TargetOf(c))
    ensures var longer := calls + [c];
            forall i, j :: 0 <= i < j < |longer| ==> TargetOf(longer[i]) != TargetOf(longer[j])
  {
    hide TargetOf;
    forall i | 0 <= i < |calls| ensures TargetOf(calls[i]) != TargetOf(c) {
      assert calls[i] in calls;
    }
  }

  lemma CallsGrow(log: seq<Payload>, calls: seq<Call>, c: Call)
    requires CallsOk(log, calls) && CallOk(log, c) && !WasCalled(calls, TargetOf(c))
    ensures CallsOk(log, calls + [c])
  {
    hide CallOk, TargetOf, WasCalled;
    TargetsStayDistinct(calls, c);
    forall u | u in log && u.UploadPayload? ensures WasCalled(calls + [c], u.candidateKey) {
      CallsRemembered(calls, c, u.candidateKey);
    }
    forall d | d in log && d.DeliveryPayload? ensures WasCalled(calls + [c], d.uploadKey) {
      CallsRemembered(calls, c, d.uploadKey);
    }
  }

  /** An announced call that was never made before keeps the invariant. */
  lemma AddCall(cap: nat, w: World, c: Call)
    requires Inv(cap, w) && CallOk(w.log, c) && !WasCalled(w.calls, TargetOf(c))
    ensures Inv(cap, Called(w, c))
    ensures WasCalled(Called(w, c).calls, TargetOf(c))
  {
    hide CandidatesOk, QcOk, CausalOk, ReplacementOk, PendingUploadsOk, UploadsOk, PendingDeliversOk, DeliveriesOk,
         CallsOk, TornOk, CallOk, WasCalled, TargetOf;
    CallsGrow(w.log, w.calls, c);
    CallsRemembered(w.calls, c, TargetOf(c));
  }
}
