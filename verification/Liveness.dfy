/**
 How a waiting order is completed: a store on any rung of the ladder, crashes behind it or not, climbs one rung
 with every crash-free pass whose next record no crash has left half-written, up to the delivery.
 */
module Liveness {
  import opened Options
  import opened Artifacts
  import opened Fulfillment
  import opened Text
  import opened Reconciler
  import opened Invariant
  import opened Preservation
  import opened Safety
  import opened Bounds

  ghost function Repeat(pass: Pass, n: nat): seq<Pass> {
    seq(n, _ => pass)
  }

  /** A pass over an order that has an id, is not marked delivered, and whose brief the policy lets through. */
  ghost predicate Admitted(pass: Pass) {
    var order := NormalizeOrder(pass.raw);
    && order.orderId != "" && order.brief != "" && !IsRestricted(order.brief)
    && LowerAll(OrEmpty(order.status)) != "delivered"
  }

  /** A crash-free pass, in either mode that works, over such an order whose asset is prepared. */
  ghost predicate Preparing(pass: Pass) {
    var order := NormalizeOrder(pass.raw);
    && Admitted(pass) && pass.mode != DryRun && pass.fault == NoFault
    && PrepareCandidate(order, 0, pass.env.disk).Prepared?
    && pass.env.disk[CandidatePath(FulfilledId(order))].size > 0
  }

  /** Such a pass in manual mode, with an upload service that answers. */
  ghost predicate Ready(pass: Pass) {
    && Preparing(pass) && pass.mode == ManualDelivery
    && pass.env.uploadReply.Some?
    && pass.env.uploadReply.value.url != "" && pass.env.uploadReply.value.mediaType != ""
  }

  /** A ready pass over an allowlisted order. */
  ghost predicate Willing(pass: Pass) {
    Ready(pass) && NormalizeOrder(pass.raw).orderId in AllowedIds(pass)
  }

  ghost function RequestOfPass(pass: Pass): RequestKey {
    ExpectedRequestKey(NormalizeOrder(pass.raw))
  }

  ghost predicate Delivered(log: seq<Payload>) {
    !NoDelivery(log)
  }

  /** A delivery of the order is on record. */
  ghost predicate DeliveredFor(log: seq<Payload>, id: string) {
    exists d :: d in log && d.DeliveryPayload? && d.uploadKey.payload.UploadPayload?
                && d.uploadKey.payload.candidateKey.payload.CandidatePayload?
                && d.uploadKey.payload.candidateKey.payload.orderId == id
  }

  // --- the rungs ---------------------------------------------------------------------------------

  /** No candidate yet, or the latest one is for another request. */
  ghost predicate WantsCandidate(log: seq<Payload>, request: RequestKey) {
    var latest := Latest(Candidates(log));
    latest.Some? ==> latest.value.CandidatePayload? && latest.value.requestKey != request
  }

  ghost predicate Unchecked(log: seq<Payload>, c: Payload) {
    forall p :: p in log && p.QcPayload? ==> p.candidateKey != Digest(c)
  }

  /** The candidate was checked and did not pass. */
  ghost predicate FailedQcOnly(log: seq<Payload>, c: Payload) {
    !Unchecked(log, c) && !PassedQc(log, Digest(c))
  }

  /** The latest candidate failed QC, so another attempt is due. */
  ghost predicate RetriesFailed(log: seq<Payload>) {
    var latest := Latest(Candidates(log));
    latest.Some? && FailedQcOnly(log, latest.value)
  }

  ghost predicate Unreferenced(log: seq<Payload>, c: Payload) {
    forall p :: p in log && (p.PendingUpload? || p.UploadPayload?) ==> p.candidateKey != Digest(c)
  }

  ghost predicate Unannounced(log: seq<Payload>, u: Payload) {
    forall p :: p in log && p.PendingDeliver? ==> p.uploadKey != Digest(u)
  }

  /** The upload of the candidate was never announced, not even by half. */
  ghost predicate UploadOpen(w: World, c: Payload) {
    c.CandidatePayload? && Unreferenced(w.log, c) && PendingUpload(Digest(c), c.requestKey) !in w.torn
  }

  /** The candidate was uploaded as `u`, whose delivery was never announced, not even by half. */
  ghost predicate DeliveryOpen(w: World, c: Payload, u: Payload) {
    && c.CandidatePayload? && u in w.log && u.UploadPayload? && u.candidateKey == Digest(c)
    && u.url != "" && u.mediaType != ""
    && Unannounced(w.log, u) && PendingDeliver(Digest(u), c.requestKey) !in w.torn
  }

  /** An order that is neither delivered nor out of candidates. */
  ghost predicate Open(cap: nat, w: World) {
    Inv(cap, w) && HasIntake(w.log) && !Delivered(w.log) && |Candidates(w.log)| < cap
  }

  ghost predicate HasCurrentCandidate(w: World, pass: Pass, c: Payload) {
    && Latest(Candidates(w.log)) == Some(c) && c.CandidatePayload? && c in w.log
    && c.requestKey == RequestOfPass(pass)
    && Assess(c, NormalizeOrder(pass.raw), pass.env.disk) == []
  }

  /** What preparation yields for the next candidate. */
  ghost function NextCandidate(w: World, pass: Pass): Prepared {
    PrepareCandidate(NormalizeOrder(pass.raw), |Candidates(w.log)|, pass.env.disk)
  }

  /** What an open order needs next. */
  datatype Rung = NeedsCandidate | NeedsQc(c: Payload) | NeedsUpload(c: Payload) | NeedsDelivery(c: Payload, u: Payload)

  /** The store is on the rung for this pass, and the record to be written next is not torn. */
  ghost predicate On(cap: nat, w: World, pass: Pass, rung: Rung) {
    && Open(cap, w)
    && match rung
       case NeedsCandidate =>
         && (WantsCandidate(w.log, RequestOfPass(pass)) || RetriesFailed(w.log)) && |Candidates(w.log)| + 1 < cap
         && NextCandidate(w, pass).Prepared? && NextCandidate(w, pass).payload !in w.torn
       case NeedsQc(c) =>
         && HasCurrentCandidate(w, pass, c) && Unchecked(w.log, c)
         && RunQc(c, NormalizeOrder(pass.raw), pass.env.disk) !in w.torn
       case NeedsUpload(c) => HasCurrentCandidate(w, pass, c) && PassedQc(w.log, Digest(c)) && UploadOpen(w, c)
       case NeedsDelivery(c, u) =>
         HasCurrentCandidate(w, pass, c) && PassedQc(w.log, Digest(c)) && DeliveryOpen(w, c, u)
  }

  ghost function PassesLeft(rung: Rung): nat {
    match rung
    case NeedsCandidate => 4
    case NeedsQc(_) => 3
    case NeedsUpload(_) => 2
    case NeedsDelivery(_, _) => 1
  }

  // --- what half-written records cannot be about -------------------------------------------------

  lemma NewCandidateIsClear(cap: nat, w: World, c: Payload)
    requires Inv(cap, w) && c !in w.log && c.CandidatePayload?
    ensures Unchecked(w.log + [c], c)
    ensures forall q :: q in w.torn && q.QcPayload? ==> q.candidateKey != Digest(c)
  {
    hide CandidatesOk, CausalOk, ReplacementOk, PendingUploadsOk, UploadsOk, PendingDeliversOk, DeliveriesOk,
         CallsOk, FilesOk;
  }

  lemma UncheckedIsClear(cap: nat, w: World, c: Payload)
    requires Inv(cap, w) && Unchecked(w.log, c)
    ensures Unreferenced(w.log, c)
    ensures forall p :: p in w.torn && p.PendingUpload? ==> p.candidateKey != Digest(c)
  {
    hide CandidatesOk, QcOk, CausalOk, ReplacementOk, PendingDeliversOk, DeliveriesOk, CallsOk, FilesOk;
    assert !PassedQc(w.log, Digest(c));
  }

  lemma UnreferencedIsClear(cap: nat, w: World, c: Payload, u: Payload)
    requires Inv(cap, w) && Unreferenced(w.log, c) && u.UploadPayload? && u.candidateKey == Digest(c)
             && c.CandidatePayload?
    ensures u !in w.torn && u !in w.log && Unannounced(w.log, u)
    ensures forall p :: p in w.torn && p.PendingDeliver? ==> p.uploadKey != Digest(u)
  {
    hide CandidatesOk, QcOk, CausalOk, ReplacementOk, PendingUploadsOk, UploadsOk, DeliveriesOk, CallsOk, FilesOk;
  }

  lemma UnannouncedIsClear(cap: nat, w: World, u: Payload)
    requires Inv(cap, w) && Unannounced(w.log, u)
    ensures forall d :: d in w.torn && d.DeliveryPayload? ==> d.uploadKey != Digest(u)
  {
    hide CandidatesOk, QcOk, CausalOk, ReplacementOk, PendingUploadsOk, UploadsOk, DeliveriesOk, CallsOk, FilesOk;
    forall d | d in w.torn && d.DeliveryPayload? ensures d.uploadKey != Digest(u) {
      assert Caused(w.log, d);
    }
  }

  // --- facts of an open order --------------------------------------------------------------------

  lemma AllowedWhen(order: Order, f: Facts, cap: nat)
    requires order.brief != "" && !IsRestricted(order.brief) && f.candidateCount < cap
    ensures EvaluatePolicies(order, f, cap).decision == Allow
  {
    assert PolicyReasons(order, f, cap) == [];
  }

  lemma NoDeliveryIsSeen(order: Order, log: seq<Payload>)
    requires !Delivered(log)
    ensures DeriveFacts(order, ViewOf(log)).latestDelivery.None?
  {
  }

  lemma OpenFacts(cap: nat, w: World, pass: Pass, order: Order, f: Facts)
    requires Open(cap, w) && Admitted(pass)
    requires order == NormalizeOrder(pass.raw) && f == DeriveFacts(order, ViewOf(w.log))
    ensures !f.remoteAlreadyDelivered && f.latestDelivery.None? && f.hasIntake
    ensures EvaluatePolicies(order, f, cap).decision == Allow
  {
    hide Inv, Delivered, HasIntake, NormalizeOrder, PrepareCandidate, EvaluatePolicies, IsRestricted;
    IntakeIsSeen(order, w.log);
    NoDeliveryIsSeen(order, w.log);
    AllowedWhen(order, f, cap);
  }

  lemma LoggedQcPassIsSeen(cap: nat, log: seq<Payload>, order: Order, c: Payload)
    requires QcOk(cap, log) && Latest(Candidates(log)) == Some(c) && PassedQc(log, Digest(c))
    ensures DeriveFacts(order, ViewOf(log)).HasQcPass()
  {
    var q :| q in log && q.QcPayload? && q.candidateKey == Digest(c) && q.status == Passed;
    LoggedQcIsSeen(cap, log, order, c, q);
  }

  /** The QC record of the latest candidate is seen. */
  lemma LoggedQcIsSeen(cap: nat, log: seq<Payload>, order: Order, c: Payload, q: Payload)
    requires QcOk(cap, log) && Latest(Candidates(log)) == Some(c)
    requires q in log && q.QcPayload? && q.candidateKey == Digest(c)
    ensures DeriveFacts(order, ViewOf(log)).latestQc == Some(q)
  {
    hide Group, LatestFor, Latest, HasUnresolvedUpload, HasUnresolvedDelivery;
    OnlyMatchIsLatest(Group(log, QcKind), CandidateRef, c, q);
  }

  lemma QcPassIsSeen(cap: nat, w: World, order: Order, c: Payload)
    requires Inv(cap, w) && Latest(Candidates(w.log)) == Some(c) && PassedQc(w.log, Digest(c))
    ensures DeriveFacts(order, ViewOf(w.log)).HasQcPass()
  {
    hide QcOk, DeriveFacts, PassedQc;
    LoggedQcPassIsSeen(cap, w.log, order, c);
  }

  lemma FailedQcIsSeen(cap: nat, log: seq<Payload>, order: Order, c: Payload)
    requires QcOk(cap, log) && Latest(Candidates(log)) == Some(c) && FailedQcOnly(log, c)
    ensures var f := DeriveFacts(order, ViewOf(log)); f.latestQc.Some? && !f.HasQcPass()
  {
    hide QcOk, DeriveFacts;
    var q :| q in log && q.QcPayload? && q.candidateKey == Digest(c);
    LoggedQcIsSeen(cap, log, order, c, q);
  }

  lemma FailedCandidateIsSeen(cap: nat, w: World, order: Order, c: Payload)
    requires Inv(cap, w) && Latest(Candidates(w.log)) == Some(c) && FailedQcOnly(w.log, c)
    ensures var f := DeriveFacts(order, ViewOf(w.log)); f.latestQc.Some? && !f.HasQcPass()
  {
    hide QcOk, DeriveFacts, FailedQcOnly;
    FailedQcIsSeen(cap, w.log, order, c);
  }

  lemma NoUploadIsSeen(log: seq<Payload>, order: Order, c: Payload)
    requires Latest(Candidates(log)) == Some(c) && Unreferenced(log, c)
    ensures var f := DeriveFacts(order, ViewOf(log)); f.latestUpload.None? && !f.hasUnresolvedUpload
  {
  }

  lemma UploadIsSeen(log: seq<Payload>, order: Order, c: Payload, u: Payload)
    requires UploadsOk(log) && Latest(Candidates(log)) == Some(c)
    requires u in log && u.UploadPayload? && u.candidateKey == Digest(c) && Unannounced(log, u)
    ensures var f := DeriveFacts(order, ViewOf(log));
            f.latestUpload == Some(u) && !f.hasUnresolvedUpload && !f.hasUnresolvedDelivery
  {
    hide UploadsOk, Group, Latest;
    UploadOfLatestIsSeen(log, order, u);
  }

  // --- what a pass does --------------------------------------------------------------------------

  lemma StepWrites(cap: nat, w: World, pass: Pass, p: Payload)
    requires NormalizeOrder(pass.raw).orderId != "" && pass.fault == NoFault
    requires PlanOf(cap, w.log, pass) == [Write(p)] && p !in w.log && p !in w.torn
    ensures Step(cap, w, pass) == Logged(w, p)
  {
    PerformOne(w, p, NoFault);
  }

  /** An undisturbed exchange leaves the intent, the call and the completion. */
  lemma ExchangeUndisturbed(w: World, intent: Payload, call: Call, completion: Option<Payload>)
    requires intent !in w.log && intent !in w.torn
    requires completion.Some? ==> completion.value !in w.log && completion.value !in w.torn
                                  && completion.value != intent
    ensures Perform(w, Exchange(intent, call, completion), NoFault)
            == if completion.Some? then Logged(Called(Logged(w, intent), call), completion.value)
               else Called(Logged(w, intent), call)
  {
    var announced := Logged(w, intent);
    ExchangeSteps(w, intent, call, completion, NoFault);
    CallSteps(announced, call, completion, NoFault);
    if completion.Some? { PerformOne(Called(announced, call), completion.value, NoFault); }
  }

  lemma PlanAtGenerate(order: Order, config: Config, env: Environment, f: Facts, policy: Policy)
    requires WellTyped(f) && !f.remoteAlreadyDelivered && f.latestDelivery.None? && f.hasIntake
             && policy.decision == Allow
    requires f.latestCandidate.None? || !f.latestCandidateMatchesRequest || (f.latestQc.Some? && !f.HasQcPass())
    requires config.mode != DryRun && PrepareCandidate(order, f.candidateCount, env.disk).Prepared?
    ensures Plan(order, config, env, f, policy) == [Write(PrepareCandidate(order, f.candidateCount, env.disk).payload)]
  {
  }

  lemma PlanAtQc(order: Order, config: Config, env: Environment, f: Facts, policy: Policy, c: Payload)
    requires WellTyped(f) && !f.remoteAlreadyDelivered && f.latestDelivery.None? && f.hasIntake
             && policy.decision == Allow
    requires f.latestCandidate == Some(c) && f.latestCandidateMatchesRequest && f.latestQc.None?
    requires config.mode != DryRun
    ensures Plan(order, config, env, f, policy) == [Write(RunQc(c, order, env.disk))]
  {
  }

  lemma PlanAtUpload(order: Order, config: Config, env: Environment, f: Facts, policy: Policy, c: Payload)
    requires WellTyped(f) && !f.remoteAlreadyDelivered && f.latestDelivery.None? && f.hasIntake
             && policy.decision == Allow
    requires f.latestCandidate == Some(c) && f.latestCandidateMatchesRequest && f.HasQcPass()
    requires !f.hasUnresolvedUpload && f.latestUpload.None?
    requires config.mode == ManualDelivery && c.filePath.Some? && Assess(c, order, env.disk) == []
    ensures Plan(order, config, env, f, policy)
            == Exchange(PendingUpload(Digest(c), f.currentRequestKey), UploadCall(Digest(c), c.filePath.value),
                        UploadCompletion(Digest(c), env.uploadReply))
  {
  }

  lemma PlanAtDeliver(order: Order, config: Config, env: Environment, f: Facts, policy: Policy, c: Payload, u: Payload)
    requires WellTyped(f) && !f.remoteAlreadyDelivered && f.latestDelivery.None? && f.hasIntake
             && policy.decision == Allow
    requires f.latestCandidate == Some(c) && f.latestCandidateMatchesRequest && f.HasQcPass()
    requires !f.hasUnresolvedUpload && f.latestUpload == Some(u) && !f.hasUnresolvedDelivery
    requires u.url != "" && u.mediaType != "" && order.orderId in config.allowlist
    requires config.mode == ManualDelivery && Assess(c, order, env.disk) == []
    ensures Plan(order, config, env, f, policy)
            == Exchange(PendingDeliver(Digest(u), f.currentRequestKey),
                        DeliverCall(Digest(u), order.orderId, u.url, u.mediaType),
                        DeliverCompletion(u, env.deliverReply))
  {
  }

  // --- first rung: a candidate -------------------------------------------------------------------

  lemma NextNumberIsNew(cap: nat, w: World, c: Payload)
    requires Inv(cap, w) && c.CandidatePayload? && c.attempt == |Candidates(w.log)| + 1
    ensures c !in w.log
  {
    hide QcOk, CausalOk, ReplacementOk, PendingUploadsOk, UploadsOk, PendingDeliversOk, DeliveriesOk, CallsOk,
         FilesOk, TornOk;
    if c in w.log { CandidateByAttempt(cap, w.log, c); }
  }

  lemma FreshCandidateIsSound(pass: Pass, n: nat)
    requires Preparing(pass)
    ensures var order := NormalizeOrder(pass.raw);
            var prepared := PrepareCandidate(order, n, pass.env.disk);
            prepared.Prepared? && Assess(prepared.payload, order, pass.env.disk) == []
  {
    hide IsRestricted, Assess, IsPng;
    PreparedPassesAssessment(NormalizeOrder(pass.raw), n, pass.env.disk);
  }

  lemma StepAtGenerate(cap: nat, w: World, pass: Pass, c: Payload)
    requires On(cap, w, pass, NeedsCandidate) && Preparing(pass) && NextCandidate(w, pass) == Prepared(c)
    requires c !in w.log
    ensures Step(cap, w, pass) == Logged(w, c)
  {
    hide Plan, Perform, EvaluatePolicies, NormalizeOrder, Inv, HasIntake, Delivered, PrepareCandidate, Group,
         IsRestricted;
    var order := NormalizeOrder(pass.raw);
    FactsAreWellTyped(order, w.log);
    var f := DeriveFacts(order, ViewOf(w.log));
    OpenFacts(cap, w, pass, order, f);
    if RetriesFailed(w.log) { FailedCandidateIsSeen(cap, w, order, f.latestCandidate.value); }
    PlanAtGenerate(order, ConfigOf(cap, pass), pass.env, f, EvaluatePolicies(order, f, cap));
    StepWrites(cap, w, pass, c);
  }

  /** A new record other than a delivery leaves the order open. */
  lemma StaysOpen(cap: nat, w: World, p: Payload)
    requires Open(cap, w) && Inv(cap, Logged(w, p)) && !p.DeliveryPayload?
    requires p.CandidatePayload? ==> |Candidates(w.log)| + 1 < cap
    ensures Open(cap, Logged(w, p))
  {
    hide Inv, Candidates;
    IntakeStays(w.log, p);
    CandidatesOfAppend(w.log, p);
  }

  lemma GenerateStage(cap: nat, w: World, pass: Pass) returns (c: Payload)
    requires On(cap, w, pass, NeedsCandidate) && Preparing(pass)
    ensures NextCandidate(w, pass) == Prepared(c) && Step(cap, w, pass) == Logged(w, c)
    ensures On(cap, Logged(w, c), pass, NeedsQc(c))
    ensures |Candidates(Logged(w, c).log)| == |Candidates(w.log)| + 1
  {
    hide Assess, PrepareCandidate, Step, NormalizeOrder, Inv, IsRestricted, HasIntake, Delivered, Unchecked,
         Candidates;
    FreshCandidateIsSound(pass, |Candidates(w.log)|);
    c := NextCandidate(w, pass).payload;
    NextNumberIsNew(cap, w, c);
    StepAtGenerate(cap, w, pass, c);
    StepKeepsInv(cap, w, pass);
    StaysOpen(cap, w, c);
    CandidatesOfAppend(w.log, c);
    NewCandidateIsClear(cap, w, c);
  }

  // --- second rung: quality control --------------------------------------------------------------

  lemma AssessedMeansSound(c: Payload, order: Order, disk: Disk)
    requires c.CandidatePayload? && Assess(c, order, disk) == []
    ensures c.filePath.Some? && RunQc(c, order, disk).status == Passed
  {
  }

  lemma NoQcIsSeen(log: seq<Payload>, order: Order, c: Payload)
    requires Latest(Candidates(log)) == Some(c) && Unchecked(log, c)
    ensures DeriveFacts(order, ViewOf(log)).latestQc.None?
  {
  }

  lemma StepAtQc(cap: nat, w: World, pass: Pass, c: Payload, q: Payload)
    requires Open(cap, w) && Preparing(pass) && Unchecked(w.log, c)
    requires Latest(Candidates(w.log)) == Some(c) && c.CandidatePayload? && c.requestKey == RequestOfPass(pass)
    requires q == RunQc(c, NormalizeOrder(pass.raw), pass.env.disk) && q !in w.log && q !in w.torn
    ensures Step(cap, w, pass) == Logged(w, q)
  {
    hide Plan, Perform, EvaluatePolicies, NormalizeOrder, Inv, HasIntake, Delivered, RunQc, Group, IsRestricted,
         Assess, PrepareCandidate, Unchecked;
    var order := NormalizeOrder(pass.raw);
    FactsAreWellTyped(order, w.log);
    var f := DeriveFacts(order, ViewOf(w.log));
    OpenFacts(cap, w, pass, order, f);
    NoQcIsSeen(w.log, order, c);
    PlanAtQc(order, ConfigOf(cap, pass), pass.env, f, EvaluatePolicies(order, f, cap), c);
    StepWrites(cap, w, pass, q);
  }

  lemma CandidateStays(w: World, pass: Pass, c: Payload, p: Payload)
    requires HasCurrentCandidate(w, pass, c) && !p.CandidatePayload?
    ensures HasCurrentCandidate(Logged(w, p), pass, c)
  {
    hide Assess, NormalizeOrder, Candidates;
    CandidatesOfAppend(w.log, p);
  }

  lemma QcStage(cap: nat, w: World, pass: Pass, c: Payload) returns (q: Payload)
    requires On(cap, w, pass, NeedsQc(c)) && Preparing(pass)
    ensures !q.CandidatePayload? && Step(cap, w, pass) == Logged(w, q)
    ensures On(cap, Logged(w, q), pass, NeedsUpload(c))
  {
    hide Assess, NormalizeOrder, Inv, HasIntake, Delivered, Step, IsRestricted, PrepareCandidate,
         HasCurrentCandidate, RequestOfPass, Candidates;
    var order := NormalizeOrder(pass.raw);
    CurrentIsAssessed(w, pass, c);
    AssessedMeansSound(c, order, pass.env.disk);
    q := RunQc(c, order, pass.env.disk);
    StepAtQc(cap, w, pass, c, q);
    StepKeepsInv(cap, w, pass);
    StaysOpen(cap, w, q);
    CandidateStays(w, pass, c, q);
    UncheckedIsClear(cap, w, c);
    assert q in Logged(w, q).log;
  }

  lemma CurrentIsAssessed(w: World, pass: Pass, c: Payload)
    requires HasCurrentCandidate(w, pass, c)
    ensures c.CandidatePayload? && Assess(c, NormalizeOrder(pass.raw), pass.env.disk) == []
    ensures Latest(Candidates(w.log)) == Some(c) && c.requestKey == RequestOfPass(pass)
  {
  }

  // --- third rung: upload ------------------------------------------------------------------------

  lemma StepAtUpload(cap: nat, w: World, pass: Pass, c: Payload, u: Payload)
    requires On(cap, w, pass, NeedsUpload(c)) && Ready(pass) && c.filePath.Some?
    requires UploadCompletion(Digest(c), pass.env.uploadReply) == Some(u) && u !in w.log && u !in w.torn
    ensures Step(cap, w, pass)
            == Logged(Called(Logged(w, PendingUpload(Digest(c), c.requestKey)),
                             UploadCall(Digest(c), c.filePath.value)), u)
  {
    hide Plan, Perform, EvaluatePolicies, NormalizeOrder, Inv, HasIntake, Delivered, Group, IsRestricted, Assess,
         PrepareCandidate, PassedQc, Exchange;
    var order := NormalizeOrder(pass.raw);
    FactsAreWellTyped(order, w.log);
    var f := DeriveFacts(order, ViewOf(w.log));
    OpenFacts(cap, w, pass, order, f);
    QcPassIsSeen(cap, w, order, c);
    NoUploadIsSeen(w.log, order, c);
    PlanAtUpload(order, ConfigOf(cap, pass), pass.env, f, EvaluatePolicies(order, f, cap), c);
    ExchangeUndisturbed(w, PendingUpload(Digest(c), c.requestKey), UploadCall(Digest(c), c.filePath.value), Some(u));
  }

  /** After the upload the order is open, with the same candidate. */
  lemma AfterUpload(cap: nat, w: World, pass: Pass, c: Payload, p: Payload, u: Payload, w': World)
    requires Open(cap, w) && HasCurrentCandidate(w, pass, c) && PassedQc(w.log, Digest(c)) && Inv(cap, w')
    requires p.PendingUpload? && u.UploadPayload? && w'.log == w.log + [p] + [u]
    ensures Open(cap, w') && HasCurrentCandidate(w', pass, c) && PassedQc(w'.log, Digest(c))
    ensures |Candidates(w'.log)| == |Candidates(w.log)|
  {
    hide Candidates, PassedQc, HasIntake, Inv, Assess, NormalizeOrder;
    IntakeStays(w.log, p);
    IntakeStays(w.log + [p], u);
    CandidatesOfAppend(w.log, p);
    CandidatesOfAppend(w.log + [p], u);
    PassedQcGrows(w.log, p, Digest(c));
    PassedQcGrows(w.log + [p], u, Digest(c));
  }

  lemma UnannouncedStays(log: seq<Payload>, p: Payload, u: Payload)
    requires Unannounced(log, u) && p.PendingUpload? && u.UploadPayload?
    ensures Unannounced(log + [p] + [u], u)
  {
  }

  lemma UploadStage(cap: nat, w: World, pass: Pass, c: Payload) returns (u: Payload, w': World, call: Call)
    requires On(cap, w, pass, NeedsUpload(c)) && Ready(pass)
    ensures w' == Step(cap, w, pass) && On(cap, w', pass, NeedsDelivery(c, u)) && w'.torn == w.torn
    ensures call.UploadCall? && call.candidateKey == Digest(c) && w'.calls == w.calls + [call]
    ensures |Candidates(w'.log)| == |Candidates(w.log)|
  {
    hide Assess, NormalizeOrder, Inv, HasIntake, Delivered, Step, IsRestricted, PrepareCandidate, Candidates,
         PassedQc, Unreferenced, Unannounced;
    AssessedMeansSound(c, NormalizeOrder(pass.raw), pass.env.disk);
    var intent := PendingUpload(Digest(c), c.requestKey);
    call := UploadCall(Digest(c), c.filePath.value);
    u := UploadCompletion(Digest(c), pass.env.uploadReply).value;
    UnreferencedIsClear(cap, w, c, u);
    StepAtUpload(cap, w, pass, c, u);
    w' := Step(cap, w, pass);
    StepKeepsInv(cap, w, pass);
    AfterUpload(cap, w, pass, c, intent, u, w');
    UnannouncedStays(w.log, intent, u);
  }

  // --- fourth rung: delivery ---------------------------------------------------------------------

  lemma StepAtDeliver(cap: nat, w: World, pass: Pass, c: Payload, u: Payload)
    requires On(cap, w, pass, NeedsDelivery(c, u)) && Willing(pass)
    ensures var completion := DeliverCompletion(u, pass.env.deliverReply);
            var called := Called(Logged(w, PendingDeliver(Digest(u), c.requestKey)),
                                 DeliverCall(Digest(u), NormalizeOrder(pass.raw).orderId, u.url, u.mediaType));
            Step(cap, w, pass) == if completion.Some? then Logged(called, completion.value) else called
  {
    hide Plan, Perform, EvaluatePolicies, NormalizeOrder, HasIntake, Group, IsRestricted, Assess, PrepareCandidate,
         PassedQc, Exchange, AllowedIds, CandidatesOk, QcOk, CausalOk, ReplacementOk, PendingUploadsOk, UploadsOk,
         PendingDeliversOk, DeliveriesOk, CallsOk, FilesOk, TornOk;
    var order := NormalizeOrder(pass.raw);
    FactsAreWellTyped(order, w.log);
    var f := DeriveFacts(order, ViewOf(w.log));
    OpenFacts(cap, w, pass, order, f);
    QcPassIsSeen(cap, w, order, c);
    UploadIsSeen(w.log, order, c, u);
    PlanAtDeliver(order, ConfigOf(cap, pass), pass.env, f, EvaluatePolicies(order, f, cap), c, u);
    UnannouncedIsClear(cap, w, u);
    ExchangeUndisturbed(w, PendingDeliver(Digest(u), c.requestKey),
                        DeliverCall(Digest(u), order.orderId, u.url, u.mediaType),
                        DeliverCompletion(u, pass.env.deliverReply));
  }

  /** The latest candidate is for the request of this pass. */
  ghost predicate IsCurrent(w: World, pass: Pass) {
    var latest := Latest(Candidates(w.log));
    latest.Some? && latest.value.CandidatePayload? && latest.value.requestKey == RequestOfPass(pass)
  }

  /** What a last pass leaves behind: the delivery, or when the service does not answer an open order. */
  ghost predicate Served(cap: nat, pass: Pass, w': World) {
    && Inv(cap, w')
    && (pass.env.deliverReply.Some? ==> Delivered(w'.log))
    && (pass.env.deliverReply.None? ==> Open(cap, w') && IsCurrent(w', pass))
  }

  lemma DeliverStage(cap: nat, w: World, pass: Pass, c: Payload, u: Payload) returns (w': World, call: Call)
    requires On(cap, w, pass, NeedsDelivery(c, u)) && Willing(pass)
    ensures w' == Step(cap, w, pass) && Served(cap, pass, w') && w'.torn == w.torn
    ensures call.DeliverCall? && call.uploadKey == Digest(u) && w'.calls == w.calls + [call]
    ensures |Candidates(w'.log)| == |Candidates(w.log)|
  {
    hide Assess, NormalizeOrder, Inv, HasIntake, Step, IsRestricted, PrepareCandidate, Candidates, PassedQc,
         AllowedIds;
    call := DeliverCall(Digest(u), NormalizeOrder(pass.raw).orderId, u.url, u.mediaType);
    StepAtDeliver(cap, w, pass, c, u);
    w' := Step(cap, w, pass);
    StepKeepsInv(cap, w, pass);
    var completion := DeliverCompletion(u, pass.env.deliverReply);
    var intent := PendingDeliver(Digest(u), c.requestKey);
    CandidatesOfAppend(w.log, intent);
    if completion.Some? {
      assert completion.value in w'.log;
      CandidatesOfAppend(w.log + [intent], completion.value);
    } else {
      IntakeStays(w.log, intent);
    }
  }

  // --- from any rung to the delivery -------------------------------------------------------------

  lemma CountAppend(calls: seq<Call>, c: Call, op: Operation)
    ensures Count(calls + [c], op) == Count(calls, op) + if OperationOf(c) == op then 1 else 0
  {
    assert (calls + [c])[..|calls|] == calls;
  }

  ghost function If(b: bool): nat {
    if b then 1 else 0
  }

  lemma ReadyIsPreparing(pass: Pass)
    requires Ready(pass)
    ensures Preparing(pass)
  {
  }

  /** One pass takes the order from its rung to the next, with an upload call on the third: the first two rungs in
      either mode that works, the third in manual mode. */
  lemma Climb(cap: nat, w: World, pass: Pass, rung: Rung) returns (w': World, next: Rung)
    requires On(cap, w, pass, rung) && Preparing(pass) && !rung.NeedsDelivery? && (rung.NeedsUpload? ==> Ready(pass))
    ensures w' == Step(cap, w, pass) && On(cap, w', pass, next) && PassesLeft(next) + 1 == PassesLeft(rung)
    ensures w'.torn == w.torn
    ensures Count(w'.calls, Uploading) == Count(w.calls, Uploading) + If(rung.NeedsUpload?)
    ensures Count(w'.calls, Delivering) == Count(w.calls, Delivering)
    ensures |Candidates(w'.log)| == |Candidates(w.log)| + If(rung.NeedsCandidate?)
    ensures rung.NeedsCandidate? ==> NextCandidate(w, pass) == Prepared(next.c)
    ensures !rung.NeedsCandidate? ==> next.c == rung.c
    ensures rung.NeedsUpload? ==> WasCalled(w'.calls, Digest(rung.c))
  {
    hide On, Step, Ready, Preparing, Candidates, NextCandidate, Count;
    match rung
    case NeedsCandidate =>
      var c := GenerateStage(cap, w, pass);
      w', next := Logged(w, c), NeedsQc(c);
    case NeedsQc(c) =>
      var q := QcStage(cap, w, pass, c);
      CandidatesOfAppend(w.log, q);
      w', next := Logged(w, q), NeedsUpload(c);
    case NeedsUpload(c) =>
      var u, v, call := UploadStage(cap, w, pass, c);
      assert call in v.calls;
      CountAppend(w.calls, call, Uploading);
      CountAppend(w.calls, call, Delivering);
      w', next := v, NeedsDelivery(c, u);
  }

  lemma RunFront(cap: nat, w: World, pass: Pass, n: nat)
    ensures Run(cap, w, Repeat(pass, n + 1)) == Run(cap, Step(cap, w, pass), Repeat(pass, n))
  {
    hide Step;
    assert Repeat(pass, n + 1) == [pass] + Repeat(pass, n);
    RunConcat(cap, w, [pass], Repeat(pass, n));
    assert [pass][..0] == [];
  }

  /** From whatever rung, after crashes or not: as many willing passes as there are rungs left make exactly one
      delivery call, and one upload call if the upload was still open, and complete the delivery when the service
      answers. */
  lemma {:induction false} WillingPassesFinish(cap: nat, w: World, pass: Pass, rung: Rung)
    requires On(cap, w, pass, rung) && Willing(pass)
    ensures var w' := Run(cap, w, Repeat(pass, PassesLeft(rung)));
            && Served(cap, pass, w') && w'.torn == w.torn
            && Count(w'.calls, Delivering) == Count(w.calls, Delivering) + 1
            && Count(w'.calls, Uploading) == Count(w.calls, Uploading) + If(!rung.NeedsDelivery?)
            && |Candidates(w'.log)| == |Candidates(w.log)| + If(rung.NeedsCandidate?)
    decreases PassesLeft(rung)
  {
    hide On, Step, Served, Candidates, Count, Run, Repeat, Ready, Preparing;
    RunFront(cap, w, pass, PassesLeft(rung) - 1);
    match rung
    case NeedsDelivery(c, u) =>
      var w', call := DeliverStage(cap, w, pass, c, u);
      NoPasses(cap, w', pass);
      CountAppend(w.calls, call, Uploading);
      CountAppend(w.calls, call, Delivering);
    case _ =>
      ReadyIsPreparing(pass);
      var w', next := Climb(cap, w, pass, rung);
      WillingPassesFinish(cap, w', pass, next);
  }

  lemma NoPasses(cap: nat, w: World, pass: Pass)
    ensures Run(cap, w, Repeat(pass, 0)) == w
  {
  }

  /** Three ready passes upload the next candidate. */
  lemma ReadyPassesUpload(cap: nat, w: World, pass: Pass)
    requires On(cap, w, pass, NeedsCandidate) && Ready(pass)
    ensures WasCalled(Run(cap, w, Repeat(pass, 3)).calls, Digest(NextCandidate(w, pass).payload))
  {
    hide On, Step, Candidates, Count, Run, Repeat, Ready, Preparing, WasCalled, NextCandidate;
    ReadyIsPreparing(pass);
    RunFront(cap, w, pass, 2);
    var w1, r1 := Climb(cap, w, pass, NeedsCandidate);
    RunFront(cap, w1, pass, 1);
    var w2, r2 := Climb(cap, w1, pass, r1);
    RunFront(cap, w2, pass, 0);
    var w3, r3 := Climb(cap, w2, pass, r2);
    NoPasses(cap, w3, pass);
  }

  // --- a new order -------------------------------------------------------------------------------

  lemma PlanAtIntake(order: Order, config: Config, env: Environment, f: Facts, policy: Policy)
    requires WellTyped(f) && !f.remoteAlreadyDelivered && f.latestDelivery.None? && !f.hasIntake
    ensures Plan(order, config, env, f, policy) == [Write(IntakePayload(order))]
  {
  }

  /** The first pass writes the intake, unless a crash left this very intake half-written. */
  lemma IntakeStage(cap: nat, w: World, pass: Pass)
    requires Inv(cap, w) && !HasIntake(w.log) && !Delivered(w.log) && Preparing(pass)
    requires IntakePayload(NormalizeOrder(pass.raw)) !in w.torn
    ensures var w' := Step(cap, w, pass);
            && w' == Logged(w, IntakePayload(NormalizeOrder(pass.raw))) && Inv(cap, w')
            && HasIntake(w'.log) && !Delivered(w'.log) && Candidates(w'.log) == Candidates(w.log)
  {
    hide Inv, NormalizeOrder, Candidates, Plan, Group, IsRestricted, PrepareCandidate, EvaluatePolicies;
    var order := NormalizeOrder(pass.raw);
    var p := IntakePayload(order);
    FactsAreWellTyped(order, w.log);
    var f := DeriveFacts(order, ViewOf(w.log));
    IntakeIsSeen(order, w.log);
    NoDeliveryIsSeen(order, w.log);
    PlanAtIntake(order, ConfigOf(cap, pass), pass.env, f, EvaluatePolicies(order, f, cap));
    StepWrites(cap, w, pass, p);
    StepKeepsInv(cap, w, pass);
    CandidatesOfAppend(w.log, p);
    assert p in Logged(w, p).log;
  }

  /** An open order without candidates is on the first rung. */
  lemma NewOrderNeedsCandidate(cap: nat, w: World, pass: Pass)
    requires Open(cap, w) && Candidates(w.log) == [] && cap >= 2 && w.torn == {} && Preparing(pass)
    ensures On(cap, w, pass, NeedsCandidate)
  {
    hide Inv, NormalizeOrder, Candidates, IsRestricted, Delivered, HasIntake, Assess;
    FreshCandidateIsSound(pass, 0);
  }

  lemma FirstPass(cap: nat, pass: Pass)
    requires Preparing(pass) && cap >= 2
    ensures var w := Reach(cap, Repeat(pass, 1));
            && On(cap, w, pass, NeedsCandidate) && w.torn == {} && w.calls == [] && Candidates(w.log) == []
  {
    hide NormalizeOrder, Step, IsRestricted, PrepareCandidate, On, CandidatesOk, QcOk, CausalOk, ReplacementOk,
         PendingUploadsOk, UploadsOk, PendingDeliversOk, DeliveriesOk, CallsOk, FilesOk, TornOk;
    EmptyInv(cap);
    IntakeStage(cap, EMPTY, pass);
    RunFront(cap, EMPTY, pass, 0);
    NoPasses(cap, Step(cap, EMPTY, pass), pass);
    NewOrderNeedsCandidate(cap, Reach(cap, Repeat(pass, 1)), pass);
  }

  /** Five willing passes over a new order deliver it, with one upload call and one delivery call. */
  lemma FivePassesDeliver(cap: nat, pass: Pass)
    requires Willing(pass) && cap >= 2
    ensures var w := Reach(cap, Repeat(pass, 1) + Repeat(pass, 4));
            && Served(cap, pass, w) && w.torn == {} && |Candidates(w.log)| == 1
            && Count(w.calls, Uploading) == 1 && Count(w.calls, Delivering) == 1
  {
    hide Step, Served, On, Ready, Preparing, Candidates, Repeat;
    ReadyIsPreparing(pass);
    FirstPass(cap, pass);
    WillingPassesFinish(cap, Reach(cap, Repeat(pass, 1)), pass, NeedsCandidate);
    hide Run;
    RunConcat(cap, EMPTY, Repeat(pass, 1), Repeat(pass, 4));
  }
}
