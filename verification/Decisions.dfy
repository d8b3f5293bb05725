/**
 What one crash-free pass does to any store that runs can reach, situation by situation and told from the records alone
 (dizzy_poll_deliver.mjs:137-440): which record it leaves, which call it makes, and how it ends.
 */
module Decisions {
  import opened Options
  import opened Artifacts
  import opened Fulfillment
  import opened Text
  import opened Reconciler
  import opened Invariant
  import opened Preservation
  import opened Safety
  import opened Liveness
  import opened PolicyGate
  import OrderReconciler
  import ArtifactStore

  // --- what the pass is given --------------------------------------------------------------------

  /** The polled order, with the blanks around its brief removed. */
  ghost function AsOrder(pass: Pass): Order {
    Order(OrEmpty(pass.raw.id), pass.raw.serviceId, pass.raw.status, BriefOf(pass), pass.raw.createdAt,
          pass.raw.updatedAt)
  }

  ghost function RequestIn(pass: Pass): RequestKey {
    RequestKey(pass.raw.serviceId, BriefOf(pass))
  }

  ghost predicate SaysDelivered(pass: Pass) {
    LowerAll(OrEmpty(pass.raw.status)) == "delivered"
  }

  /** A crash-free pass over an order with an id, in a store that runs can reach. */
  ghost predicate Undisturbed(cap: nat, w: World, pass: Pass) {
    Inv(cap, w) && pass.fault == NoFault && OrEmpty(pass.raw.id) != ""
  }

  /** The order is waiting for work. */
  ghost predicate Waits(cap: nat, w: World, pass: Pass) {
    Undisturbed(cap, w, pass) && !SaysDelivered(pass) && !Delivered(w.log) && HasIntake(w.log)
  }

  ghost function Verdict(cap: nat, w: World, pass: Pass): Decision {
    if MentionsRestricted(BriefOf(pass)) || |Candidates(w.log)| >= cap then Block
    else if BriefOf(pass) == "" then Revise
    else Allow
  }

  ghost function Grounds(cap: nat, w: World, pass: Pass): seq<PolicyReason> {
    (if BriefOf(pass) == "" then [MissingBrief] else [])
    + (if MentionsRestricted(BriefOf(pass)) then [RestrictedContent] else [])
    + (if |Candidates(w.log)| >= cap then [IterationCapReached(cap)] else [])
  }

  /** The order is waiting for work that the policy allows. */
  ghost predicate Works(cap: nat, w: World, pass: Pass) {
    Waits(cap, w, pass) && Permitted(BriefOf(pass)) && |Candidates(w.log)| < cap
  }

  // --- what the pass does ------------------------------------------------------------------------

  ghost function EndOf(cap: nat, w: World, pass: Pass): Ending {
    OrderReconciler.PassEnding(cap, w, pass, ArtifactStore.Proceed)
  }

  /** The pass ends with this record on file: new, or there already; or it fails at the record's half-written file. */
  ghost predicate Leaves(cap: nat, w: World, pass: Pass, p: Payload) {
    && Step(cap, w, pass) == (if p in w.log || p in w.torn then w else Logged(w, p))
    && EndOf(cap, w, pass) == (if p in w.torn then Threw else Completed)
    && CutWrite(cap, w, pass, p)
  }

  /** The same pass, killed before that write leaves nothing, and killed during it a half-written file, unless there
      was a file already. */
  ghost predicate CutWrite(cap: nat, w: World, pass: Pass, p: Payload) {
    var before, during := pass.(fault := CrashBefore(0)), pass.(fault := TearAt(0));
    && Step(cap, w, before) == w && EndOf(cap, w, before) == Died
    && Step(cap, w, during) == (if p in w.log || p in w.torn then w else Tear(w, p))
    && EndOf(cap, w, during) == if p in w.torn then Threw else if p in w.log then Completed else Died
  }

  /** The pass ends with this note. */
  ghost predicate Notes(cap: nat, w: World, pass: Pass, reason: Reason, event: Event) {
    Leaves(cap, w, pass, DiagnosticPayload(pass.mode, reason, Verdict(cap, w, pass), Grounds(cap, w, pass), event))
  }

  /** The pass announces the call, makes it, and records its result; it fails when there is none. A half-written
      announcement makes it fail before the call. */
  ghost predicate Calls(cap: nat, w: World, pass: Pass, intent: Payload, call: Call, completion: Option<Payload>) {
    var called := Called(Logged(w, intent), call);
    if intent in w.torn then Step(cap, w, pass) == w && EndOf(cap, w, pass) == Threw
    else
      && CutCall(cap, w, pass, intent, call, completion)
      && if completion.None? then Step(cap, w, pass) == called && EndOf(cap, w, pass) == Threw
         else Step(cap, w, pass) == Logged(called, completion.value) && EndOf(cap, w, pass) == Completed
  }

  /** The same pass, killed at each of its points: the announcement is missing, half-written or there, then the call
      is made, then its result is half-written. */
  ghost predicate CutCall(cap: nat, w: World, pass: Pass, intent: Payload, call: Call, completion: Option<Payload>) {
    var called := Called(Logged(w, intent), call);
    && Step(cap, w, pass.(fault := CrashBefore(0))) == w
    && Step(cap, w, pass.(fault := TearAt(0))) == Tear(w, intent)
    && Step(cap, w, pass.(fault := CrashBefore(1))) == Logged(w, intent)
    && Step(cap, w, pass.(fault := CrashBefore(2))) == called
    && (completion.Some? ==> Step(cap, w, pass.(fault := TearAt(2))) == Tear(called, completion.value))
  }

  lemma OrderIs(pass: Pass)
    ensures NormalizeOrder(pass.raw) == AsOrder(pass) && RequestOfPass(pass) == RequestIn(pass)
  {
    hide Trim;
    TrimIdempotent(OrEmpty(pass.raw.brief), JS_SPACE);
  }

  lemma SamePlan(cap: nat, log: seq<Payload>, pass: Pass, fault: Fault)
    ensures PlanOf(cap, log, pass.(fault := fault)) == PlanOf(cap, log, pass)
  {
  }

  lemma OneRecordLeft(cap: nat, w: World, pass: Pass, p: Payload)
    requires Undisturbed(cap, w, pass) && PlanOf(cap, w.log, pass) == [Write(p)]
    ensures Leaves(cap, w, pass, p)
  {
    hide Inv, PlanOf, Perform, EndingOf;
    forall fault ensures PlanOf(cap, w.log, pass.(fault := fault)) == [Write(p)] { SamePlan(cap, w.log, pass, fault); }
    forall fault
      ensures Perform(w, [Write(p)], fault)
              == if fault == CrashBefore(0) || p in w.torn || p in w.log then w
                 else if fault == TearAt(0) then Tear(w, p) else Logged(w, p)
      ensures EndingOf(w, [Write(p)], fault)
              == if fault == CrashBefore(0) then Died
                 else if p in w.torn then Threw
                 else if p !in w.log && fault == TearAt(0) then Died
                 else Completed
    {
      PerformOne(w, p, fault);
      OneEnding(w, p, fault);
    }
  }

  // --- the facts, read off the log ---------------------------------------------------------------

  lemma CapReachedIff(cap: nat, w: World, order: Order, f: Facts)
    requires Inv(cap, w) && f == DeriveFacts(order, ViewOf(w.log))
    ensures CapReached(f, cap) <==> |Candidates(w.log)| >= cap
  {
    hide CausalOk, ReplacementOk, PendingUploadsOk, UploadsOk, PendingDeliversOk, DeliveriesOk, CallsOk, FilesOk,
         TornOk, QcOk, CandidatesOk;
    if f.HasQcPass() { QcPassMeansBelowCap(cap, w.log, order); }
  }

  lemma DeliveryFact(cap: nat, w: World, order: Order)
    requires Inv(cap, w)
    ensures DeriveFacts(order, ViewOf(w.log)).latestDelivery.Some? <==> Delivered(w.log)
  {
    hide CausalOk, ReplacementOk, PendingUploadsOk, UploadsOk, PendingDeliversOk, DeliveriesOk, CallsOk, FilesOk,
         TornOk, QcOk, CandidatesOk, DeriveFacts;
    if Delivered(w.log) {
      var d :| d in w.log && d.DeliveryPayload?;
      DeliveryIsSeen(w.log, order, d);
    } else {
      NoDeliveryIsSeen(order, w.log);
    }
  }

  lemma FactsAre(cap: nat, w: World, pass: Pass, f: Facts)
    requires Inv(cap, w) && f == DeriveFacts(AsOrder(pass), ViewOf(w.log))
    ensures WellTyped(f)
    ensures f.remoteAlreadyDelivered == SaysDelivered(pass) && f.hasIntake == HasIntake(w.log)
    ensures f.latestDelivery.Some? <==> Delivered(w.log)
    ensures f.candidateCount == |Candidates(w.log)| && f.currentRequestKey == RequestIn(pass)
    ensures f.latestCandidate == Latest(Candidates(w.log))
    ensures f.latestCandidateMatchesRequest <==>
              f.latestCandidate.Some? && f.latestCandidate.value.CandidatePayload?
              && f.latestCandidate.value.requestKey == RequestIn(pass)
    ensures var policy := EvaluatePolicies(AsOrder(pass), f, cap);
            policy.decision == Verdict(cap, w, pass) && policy.reasons == Grounds(cap, w, pass)
  {
    hide Inv, EvaluatePolicies, Group, Trim, MentionsRestricted, CapReached, HasIntake, Delivered;
    FactsAreWellTyped(AsOrder(pass), w.log);
    IntakeIsSeen(AsOrder(pass), w.log);
    DeliveryFact(cap, w, AsOrder(pass));
    CapReachedIff(cap, w, AsOrder(pass), f);
    PolicyIs(AsOrder(pass), f, cap);
    OrderIs(pass);
  }

  // --- orders without work -----------------------------------------------------------------------

  /** An order without an id is passed over. */
  lemma NamelessOrder(cap: nat, w: World, pass: Pass)
    requires OrEmpty(pass.raw.id) == ""
    ensures Step(cap, w, pass) == w
    ensures EndOf(cap, w, pass) == Completed
  {
  }

  /** An order that is marked delivered, in whatever case, or has a delivery on record, is only noted. */
  lemma DeliveredOrder(cap: nat, w: World, pass: Pass)
    requires Undisturbed(cap, w, pass) && (SaysDelivered(pass) || Delivered(w.log))
    ensures Notes(cap, w, pass, AlreadyDelivered, NoopEvent)
  {
    hide Inv, DeriveFacts, EvaluatePolicies, Verdict, Grounds, Delivered, SaysDelivered, ViewOf, WellTyped, Leaves;
    OrderIs(pass);
    FactsAre(cap, w, pass, DeriveFacts(AsOrder(pass), ViewOf(w.log)));
    OneRecordLeft(cap, w, pass, PlanOf(cap, w.log, pass)[0].payload);
  }

  /** A new order is taken in: its record repeats what was polled. */
  lemma NewOrder(cap: nat, w: World, pass: Pass)
    requires Undisturbed(cap, w, pass) && !SaysDelivered(pass) && !Delivered(w.log) && !HasIntake(w.log)
    ensures Leaves(cap, w, pass, IntakePayload(AsOrder(pass)))
  {
    hide Inv, DeriveFacts, EvaluatePolicies, Verdict, Grounds, Delivered, SaysDelivered, ViewOf, WellTyped, Leaves,
         HasIntake;
    OrderIs(pass);
    FactsAre(cap, w, pass, DeriveFacts(AsOrder(pass), ViewOf(w.log)));
    OneRecordLeft(cap, w, pass, PlanOf(cap, w.log, pass)[0].payload);
  }

  /** A blank or restricted brief, or a used-up cap, is noted with its reasons. */
  lemma RefusedOrder(cap: nat, w: World, pass: Pass)
    requires Waits(cap, w, pass) && !(Permitted(BriefOf(pass)) && |Candidates(w.log)| < cap)
    ensures Notes(cap, w, pass, PolicyGateClosed(Verdict(cap, w, pass)), PolicyGate)
  {
    hide Inv, DeriveFacts, EvaluatePolicies, Grounds, Delivered, SaysDelivered, ViewOf, WellTyped, Leaves,
         HasIntake, MentionsRestricted, Trim;
    OrderIs(pass);
    FactsAre(cap, w, pass, DeriveFacts(AsOrder(pass), ViewOf(w.log)));
    OneRecordLeft(cap, w, pass, PlanOf(cap, w.log, pass)[0].payload);
  }

  // --- a new candidate ---------------------------------------------------------------------------

  /** Why a new candidate is due, if it is. */
  ghost function WhyNew(w: World, request: RequestKey): Option<Reason> {
    var latest := Latest(Candidates(w.log));
    if latest.None? then Some(MissingCandidate)
    else if latest.value.CandidatePayload? && latest.value.requestKey != request then Some(CandidateStale)
    else if FailedQcOnly(w.log, latest.value) then Some(QcFailed)
    else None
  }

  lemma WorksMeans(cap: nat, w: World, pass: Pass)
    requires Works(cap, w, pass)
    ensures Verdict(cap, w, pass) == Allow && Grounds(cap, w, pass) == []
  {
    hide MentionsRestricted, Trim;
  }

  lemma GenerateDecided(cap: nat, w: World, pass: Pass, f: Facts)
    requires Works(cap, w, pass) && WhyNew(w, RequestIn(pass)).Some?
    requires f == DeriveFacts(AsOrder(pass), ViewOf(w.log))
    ensures WellTyped(f) && f.candidateCount == |Candidates(w.log)|
    ensures DecideNextAction(f, EvaluatePolicies(AsOrder(pass), f, cap))
            == Action(Generate, WhyNew(w, RequestIn(pass)).value)
  {
    hide Inv, DeriveFacts, EvaluatePolicies, Delivered, SaysDelivered, ViewOf, WellTyped, HasIntake, BriefOf,
         FailedQcOnly, Candidates, Permitted, Verdict, Grounds;
    FactsAre(cap, w, pass, f);
    WorksMeans(cap, w, pass);
    var latest := Latest(Candidates(w.log));
    if latest.Some? {
      CurrentIsCandidate(cap, w);
      if FailedQcOnly(w.log, latest.value) { FailedCandidateIsSeen(cap, w, AsOrder(pass), latest.value); }
    }
  }

  lemma CurrentIsCandidate(cap: nat, w: World)
    requires Inv(cap, w)
    ensures var latest := Latest(Candidates(w.log));
            latest.Some? ==> latest.value.CandidatePayload? && latest.value in w.log
  {
    if Candidates(w.log) != [] { LatestCandidateIsLast(cap, w.log); }
  }

  /** When the order has no candidate, or its latest one is for another request or failed QC: a dry run notes that;
      otherwise, in either mode that works, the prepared asset becomes the next candidate, and a missing or unfit
      asset is noted with the first thing that is wrong. */
  lemma CandidateDue(cap: nat, w: World, pass: Pass)
    requires Works(cap, w, pass) && WhyNew(w, RequestIn(pass)).Some?
    ensures var reason, order := WhyNew(w, RequestIn(pass)).value, AsOrder(pass);
            var dir := SanitizeOrderId(Trim(order.orderId, JS_SPACE));
            if pass.mode == DryRun then Notes(cap, w, pass, reason, DryRunSkipGenerate)
            else if AssetReady(order, pass.env.disk) then
              exists c :: && Describes(c, order, |Candidates(w.log)| + 1, pass.env.disk[Path(dir, "candidate.png")],
                                       pass.env.disk[Path(dir, "candidate.json")].metadata.value)
                          && Leaves(cap, w, pass, c)
            else exists failure :: && IsFirstWrong(order, pass.env.disk, failure)
                                   && Notes(cap, w, pass, reason, RequiresPreparedCandidate(failure))
  {
    hide Inv, DeriveFacts, EvaluatePolicies, ViewOf, WellTyped, Leaves, PrepareCandidate, Verdict, Grounds, WhyNew,
         Describes, AssetReady, IsFirstWrong, DecideNextAction, Candidates, Works, BriefOf;
    OrderIs(pass);
    var order := AsOrder(pass);
    var f := DeriveFacts(order, ViewOf(w.log));
    GenerateDecided(cap, w, pass, f);
    assert Undisturbed(cap, w, pass) by { WorksIsUndisturbed(cap, w, pass); }
    FactsAre(cap, w, pass, f);
    PreparedIs(order, |Candidates(w.log)|, pass.env.disk);
    var prepared := PrepareCandidate(order, |Candidates(w.log)|, pass.env.disk);
    if prepared.NotPrepared? { RefusalIff(order, |Candidates(w.log)|, pass.env.disk, prepared.failure); }
    OneRecordLeft(cap, w, pass, PlanOf(cap, w.log, pass)[0].payload);
  }

  lemma WorksIsUndisturbed(cap: nat, w: World, pass: Pass)
    requires Works(cap, w, pass)
    ensures Undisturbed(cap, w, pass)
  {
  }

  // --- its quality check -------------------------------------------------------------------------

  /** The latest candidate is this one, for the request of the pass. */
  ghost predicate Current(w: World, pass: Pass, c: Payload) {
    Latest(Candidates(w.log)) == Some(c) && c.CandidatePayload? && c.requestKey == RequestIn(pass)
  }

  /** An unchecked candidate is checked, in either mode that works: it passes exactly when it has no issue as the
      files are now, and the record repeats the issues and what was measured. */
  lemma CheckDue(cap: nat, w: World, pass: Pass, c: Payload)
    requires Works(cap, w, pass) && Current(w, pass, c) && Unchecked(w.log, c)
    ensures if pass.mode == DryRun then Notes(cap, w, pass, MissingQc, DryRunSkipQc)
            else
              var issues := Assess(c, AsOrder(pass), pass.env.disk);
              var there := c.filePath.Some? && c.filePath.value in pass.env.disk;
              Leaves(cap, w, pass,
                     QcPayload(Digest(c), if issues == [] then Passed else FailedQc,
                               Checks(there, c.filePath.Some? && IsPng(c.filePath.value),
                                      if there then pass.env.disk[c.filePath.value].size else 0,
                                      issues == [], issues)))
  {
    hide Inv, DeriveFacts, EvaluatePolicies, ViewOf, WellTyped, Leaves, Verdict, Grounds, Candidates, Assess, IsPng,
         Unchecked, Delivered, SaysDelivered, HasIntake, Permitted, BriefOf;
    OrderIs(pass);
    var f := DeriveFacts(AsOrder(pass), ViewOf(w.log));
    FactsAre(cap, w, pass, f);
    WorksMeans(cap, w, pass);
    NoQcIsSeen(w.log, AsOrder(pass), c);
    QcRecordIs(c, AsOrder(pass), pass.env.disk);
    OneRecordLeft(cap, w, pass, PlanOf(cap, w.log, pass)[0].payload);
  }

  lemma QcRecordIs(c: Payload, order: Order, disk: Disk)
    requires c.CandidatePayload?
    ensures var issues := Assess(c, order, disk);
            var there := c.filePath.Some? && c.filePath.value in disk;
            RunQc(c, order, disk)
            == QcPayload(Digest(c), if issues == [] then Passed else FailedQc,
                         Checks(there, c.filePath.Some? && IsPng(c.filePath.value),
                                if there then disk[c.filePath.value].size else 0, issues == [], issues))
  {
    hide Assess, IsPng;
  }

  // --- its upload --------------------------------------------------------------------------------

  /** The upload was announced and has no result. */
  ghost predicate UploadHangs(log: seq<Payload>, c: Payload) {
    && (exists p :: p in log && p.PendingUpload? && p.candidateKey == Digest(c))
    && forall u :: u in log && u.UploadPayload? ==> u.candidateKey != Digest(c)
  }

  lemma HangingUploadIsSeen(log: seq<Payload>, order: Order, c: Payload)
    requires Latest(Candidates(log)) == Some(c) && UploadHangs(log, c)
    ensures DeriveFacts(order, ViewOf(log)).hasUnresolvedUpload
  {
    hide LatestFor;
    var p :| p in log && p.PendingUpload? && p.candidateKey == Digest(c);
    assert p in Group(log, PendingKind);
  }

  /** An announced upload without result is never repeated; it is noted. */
  lemma AmbiguousUploads(cap: nat, w: World, pass: Pass, c: Payload)
    requires Works(cap, w, pass) && Current(w, pass, c) && PassedQc(w.log, Digest(c)) && UploadHangs(w.log, c)
    ensures Notes(cap, w, pass, AmbiguousUpload, PolicyGate)
  {
    hide Inv, DeriveFacts, EvaluatePolicies, ViewOf, WellTyped, Leaves, Verdict, Grounds, Candidates, PassedQc,
         UploadHangs, Delivered, SaysDelivered, HasIntake, Permitted, BriefOf;
    OrderIs(pass);
    var f := DeriveFacts(AsOrder(pass), ViewOf(w.log));
    FactsAre(cap, w, pass, f);
    WorksMeans(cap, w, pass);
    QcPassIsSeen(cap, w, AsOrder(pass), c);
    HangingUploadIsSeen(w.log, AsOrder(pass), c);
    OneRecordLeft(cap, w, pass, PlanOf(cap, w.log, pass)[0].payload);
  }

  lemma UploadDecided(cap: nat, w: World, pass: Pass, c: Payload, f: Facts)
    requires Works(cap, w, pass) && Current(w, pass, c) && PassedQc(w.log, Digest(c)) && Unreferenced(w.log, c)
    requires f == DeriveFacts(AsOrder(pass), ViewOf(w.log))
    ensures WellTyped(f) && f.latestCandidate == Some(c) && f.currentRequestKey == c.requestKey
    ensures DecideNextAction(f, EvaluatePolicies(AsOrder(pass), f, cap)) == Action(UploadAsset, MissingUpload)
  {
    hide Inv, DeriveFacts, EvaluatePolicies, ViewOf, WellTyped, Verdict, Grounds, Candidates, PassedQc, Unreferenced,
         Delivered, SaysDelivered, HasIntake, Permitted, BriefOf;
    FactsAre(cap, w, pass, f);
    WorksMeans(cap, w, pass);
    QcPassIsSeen(cap, w, AsOrder(pass), c);
    NoUploadIsSeen(w.log, AsOrder(pass), c);
  }

  /** What keeps a passed candidate from being uploaded, if anything: the mode, a missing path, or issues. */
  ghost function UploadBar(pass: Pass, c: Payload): Option<Event>
    requires c.CandidatePayload?
  {
    var issues := Assess(c, AsOrder(pass), pass.env.disk);
    if pass.mode != ManualDelivery then Some(UploadBlockedByMode)
    else if c.filePath.None? then Some(UploadMissingCandidatePath)
    else if issues != [] then Some(UploadBlockedInvalid(issues))
    else None
  }

  /** A passed candidate that was never announced is uploaded, unless something keeps it, which is noted. The upload
      record repeats the reply. */
  lemma UploadDue(cap: nat, w: World, pass: Pass, c: Payload)
    requires Works(cap, w, pass) && Current(w, pass, c) && PassedQc(w.log, Digest(c)) && Unreferenced(w.log, c)
    ensures if UploadBar(pass, c).Some? then Notes(cap, w, pass, MissingUpload, UploadBar(pass, c).value)
            else
              var reply := pass.env.uploadReply;
              && c.filePath.Some?
              && Calls(cap, w, pass, PendingUpload(Digest(c), c.requestKey), UploadCall(Digest(c), c.filePath.value),
                       if reply.None? then None
                       else Some(UploadPayload(Digest(c), reply.value.url, reply.value.mediaType)))
  {
    hide Inv, DeriveFacts, EvaluatePolicies, ViewOf, WellTyped, Leaves, Verdict, Grounds, Candidates, PassedQc,
         Unreferenced, Works, BriefOf, DecideNextAction, Assess, Calls, Exchange;
    OrderIs(pass);
    var f := DeriveFacts(AsOrder(pass), ViewOf(w.log));
    UploadDecided(cap, w, pass, c, f);
    WorksIsUndisturbed(cap, w, pass);
    FactsAre(cap, w, pass, f);
    if UploadBar(pass, c).Some? {
      OneRecordLeft(cap, w, pass, PlanOf(cap, w.log, pass)[0].payload);
    } else {
      var intent, call := PendingUpload(Digest(c), c.requestKey), UploadCall(Digest(c), c.filePath.value);
      var completion := UploadCompletion(Digest(c), pass.env.uploadReply);
      assert PlanOf(cap, w.log, pass) == Exchange(intent, call, completion);
      assert intent !in w.log by { UnannouncedUpload(w.log, c); }
      if completion.Some? { UnreferencedIsClear(cap, w, c, completion.value); }
      ExchangeDone(cap, w, pass, intent, call, completion);
    }
  }

  lemma UnannouncedUpload(log: seq<Payload>, c: Payload)
    requires Unreferenced(log, c) && c.CandidatePayload?
    ensures PendingUpload(Digest(c), c.requestKey) !in log
  {
  }

  lemma ExchangeDone(cap: nat, w: World, pass: Pass, intent: Payload, call: Call, completion: Option<Payload>)
    requires Undisturbed(cap, w, pass) && PlanOf(cap, w.log, pass) == Exchange(intent, call, completion)
    requires intent !in w.log
    requires completion.Some? ==> completion.value !in w.log && completion.value !in w.torn
                                  && completion.value != intent
    ensures Calls(cap, w, pass, intent, call, completion)
  {
    hide Inv, PlanOf, Perform, EndingOf, Exchange, AfterIntent, CutCall;
    ExchangeSteps(w, intent, call, completion, NoFault);
    ExchangeEnding(w, intent, call, completion, NoFault);
    CallSteps(Logged(w, intent), call, completion, NoFault);
    CallEnding(Logged(w, intent), call, completion, NoFault);
    if completion.Some? {
      PerformOne(Called(Logged(w, intent), call), completion.value, NoFault);
      OneEnding(Called(Logged(w, intent), call), completion.value, NoFault);
    }
    if intent !in w.torn { ExchangeCut(cap, w, pass, intent, call, completion); }
  }

  lemma ExchangeCut(cap: nat, w: World, pass: Pass, intent: Payload, call: Call, completion: Option<Payload>)
    requires OrEmpty(pass.raw.id) != "" && PlanOf(cap, w.log, pass) == Exchange(intent, call, completion)
    requires intent !in w.log && intent !in w.torn
    requires completion.Some? ==> completion.value !in w.log && completion.value !in w.torn
                                  && completion.value != intent
    ensures CutCall(cap, w, pass, intent, call, completion)
  {
    hide PlanOf, Perform, Exchange, AfterIntent;
    var announced := Logged(w, intent);
    forall fault | fault in {CrashBefore(0), TearAt(0), CrashBefore(1), CrashBefore(2), TearAt(2)}
      ensures Step(cap, w, pass.(fault := fault)) == Perform(w, Exchange(intent, call, completion), fault)
    {
      SamePlan(cap, w.log, pass, fault);
    }
    ExchangeSteps(w, intent, call, completion, CrashBefore(0));
    ExchangeSteps(w, intent, call, completion, TearAt(0));
    ExchangeSteps(w, intent, call, completion, CrashBefore(1));
    ExchangeSteps(w, intent, call, completion, CrashBefore(2));
    ExchangeSteps(w, intent, call, completion, TearAt(2));
    CallSteps(announced, call, completion, CrashBefore(0));
    CallSteps(announced, call, completion, CrashBefore(1));
    CallSteps(announced, call, completion, TearAt(1));
    if completion.Some? {
      PerformOne(Called(announced, call), completion.value, CrashBefore(0));
      PerformOne(Called(announced, call), completion.value, TearAt(0));
    }
  }

  // --- its delivery ------------------------------------------------------------------------------

  /** The upload of the current candidate. */
  ghost predicate Uploaded(log: seq<Payload>, c: Payload, u: Payload) {
    u in log && u.UploadPayload? && u.candidateKey == Digest(c)
  }

  ghost predicate DeliveryHangs(log: seq<Payload>, u: Payload) {
    exists p :: p in log && p.PendingDeliver? && p.uploadKey == Digest(u)
  }

  lemma UploadFacts(log: seq<Payload>, order: Order, c: Payload, u: Payload)
    requires UploadsOk(log) && Latest(Candidates(log)) == Some(c) && Uploaded(log, c, u) && !Delivered(log)
    ensures var f := DeriveFacts(order, ViewOf(log));
            && f.latestUpload == Some(u) && !f.hasUnresolvedUpload
            && (f.hasUnresolvedDelivery <==> DeliveryHangs(log, u))
  {
    hide UploadsOk, LatestFor, Latest;
    UploadOfLatestIsSeen(log, order, u);
    assert u in Group(log, UploadKind);
    var pending := Group(log, PendingKind);
    if DeliveryHangs(log, u) {
      var p :| p in log && p.PendingDeliver? && p.uploadKey == Digest(u);
      assert p in pending;
    }
  }

  lemma DeliverDecided(cap: nat, w: World, pass: Pass, c: Payload, u: Payload, f: Facts)
    requires Works(cap, w, pass) && Current(w, pass, c) && PassedQc(w.log, Digest(c)) && Uploaded(w.log, c, u)
    requires f == DeriveFacts(AsOrder(pass), ViewOf(w.log))
    ensures WellTyped(f) && f.latestCandidate == Some(c) && f.currentRequestKey == c.requestKey
    ensures f.latestUpload == Some(u)
    ensures DecideNextAction(f, EvaluatePolicies(AsOrder(pass), f, cap))
            == if DeliveryHangs(w.log, u) then Action(WriteDiagnostic, AmbiguousDelivery)
               else Action(DeliverAsset, MissingDelivery)
  {
    hide DeriveFacts, EvaluatePolicies, ViewOf, WellTyped, Verdict, Grounds, Candidates, PassedQc,
         Delivered, SaysDelivered, HasIntake, Permitted, BriefOf, DeliveryHangs, CandidatesOk, QcOk, CausalOk,
         ReplacementOk, PendingUploadsOk, UploadsOk, PendingDeliversOk, DeliveriesOk, CallsOk, FilesOk, TornOk;
    FactsAre(cap, w, pass, f);
    WorksMeans(cap, w, pass);
    QcPassIsSeen(cap, w, AsOrder(pass), c);
    UploadFacts(w.log, AsOrder(pass), c, u);
  }

  /** An announced delivery without result is never repeated; it is noted. */
  lemma AmbiguousDeliveries(cap: nat, w: World, pass: Pass, c: Payload, u: Payload)
    requires Works(cap, w, pass) && Current(w, pass, c) && PassedQc(w.log, Digest(c)) && Uploaded(w.log, c, u)
    requires DeliveryHangs(w.log, u)
    ensures Notes(cap, w, pass, AmbiguousDelivery, PolicyGate)
  {
    hide Inv, DeriveFacts, EvaluatePolicies, ViewOf, WellTyped, Leaves, Verdict, Grounds, Candidates, PassedQc,
         DeliveryHangs, Works, BriefOf, DecideNextAction;
    OrderIs(pass);
    var f := DeriveFacts(AsOrder(pass), ViewOf(w.log));
    DeliverDecided(cap, w, pass, c, u, f);
    WorksIsUndisturbed(cap, w, pass);
    FactsAre(cap, w, pass, f);
    OneRecordLeft(cap, w, pass, PlanOf(cap, w.log, pass)[0].payload);
  }

  /** The id is on the allowlist: it is not blank, and some entry is this id with whitespace around it. */
  ghost predicate OnList(pass: Pass, id: string) {
    id != "" && exists e :: e in pass.allowlist && Trim(e, JS_SPACE) == id
  }

  lemma OnListIff(pass: Pass, id: string)
    ensures id in AllowedIds(pass) <==> OnList(pass, id)
  {
    hide Trim;
  }

  /** What keeps an uploaded candidate from being delivered, if anything: the mode, the allowlist, an upload without
      URL or media type, or issues. */
  ghost function DeliveryBar(pass: Pass, c: Payload, u: Payload): Option<Event>
    requires c.CandidatePayload? && u.UploadPayload?
  {
    var issues := Assess(c, AsOrder(pass), pass.env.disk);
    if pass.mode != ManualDelivery then Some(DeliverBlockedByMode)
    else if !OnList(pass, OrEmpty(pass.raw.id)) then Some(DeliverNotAllowlisted)
    else if u.url == "" || u.mediaType == "" then Some(DeliverMissingUpload)
    else if issues != [] then Some(DeliverBlockedInvalid(issues))
    else None
  }

  /** An upload whose delivery was never announced is delivered, unless something keeps it, which is noted. The call
      names the order as polled and the URL and media type of the upload; the record repeats them and the status. */
  lemma DeliveryDue(cap: nat, w: World, pass: Pass, c: Payload, u: Payload)
    requires Works(cap, w, pass) && Current(w, pass, c) && PassedQc(w.log, Digest(c)) && Uploaded(w.log, c, u)
    requires !DeliveryHangs(w.log, u)
    ensures if DeliveryBar(pass, c, u).Some? then Notes(cap, w, pass, MissingDelivery, DeliveryBar(pass, c, u).value)
            else
              var reply := pass.env.deliverReply;
              Calls(cap, w, pass, PendingDeliver(Digest(u), c.requestKey),
                    DeliverCall(Digest(u), OrEmpty(pass.raw.id), u.url, u.mediaType),
                    if reply.None? then None else Some(DeliveryPayload(Digest(u), u.url, u.mediaType, reply.value)))
  {
    hide Inv, DeriveFacts, EvaluatePolicies, ViewOf, WellTyped, Leaves, Verdict, Grounds, Candidates, PassedQc,
         DeliveryHangs, Works, BriefOf, DecideNextAction, Assess, Calls, Exchange, AllowedIds, OnList;
    OrderIs(pass);
    OnListIff(pass, OrEmpty(pass.raw.id));
    var f := DeriveFacts(AsOrder(pass), ViewOf(w.log));
    DeliverDecided(cap, w, pass, c, u, f);
    WorksIsUndisturbed(cap, w, pass);
    FactsAre(cap, w, pass, f);
    if DeliveryBar(pass, c, u).Some? {
      OneRecordLeft(cap, w, pass, PlanOf(cap, w.log, pass)[0].payload);
    } else {
      var intent := PendingDeliver(Digest(u), c.requestKey);
      var call := DeliverCall(Digest(u), OrEmpty(pass.raw.id), u.url, u.mediaType);
      var completion := DeliverCompletion(u, pass.env.deliverReply);
      assert PlanOf(cap, w.log, pass) == Exchange(intent, call, completion);
      NothingHangs(w.log, c, u);
      UnannouncedIsClear(cap, w, u);
      assert completion.Some? ==> completion.value !in w.log by { WorksIsUndelivered(cap, w, pass); }
      ExchangeDone(cap, w, pass, intent, call, completion);
    }
  }

  lemma WorksIsUndelivered(cap: nat, w: World, pass: Pass)
    requires Works(cap, w, pass)
    ensures NoDelivery(w.log)
  {
  }

  lemma NothingHangs(log: seq<Payload>, c: Payload, u: Payload)
    requires !DeliveryHangs(log, u) && c.CandidatePayload?
    ensures Unannounced(log, u) && PendingDeliver(Digest(u), c.requestKey) !in log
  {
  }

  // --- one of the situations always holds --------------------------------------------------------

  lemma UploadSituations(log: seq<Payload>, c: Payload)
    ensures UploadHangs(log, c) || Unreferenced(log, c) || exists u :: Uploaded(log, c, u)
  {
    if !Unreferenced(log, c) {
      var p :| p in log && (p.PendingUpload? || p.UploadPayload?) && p.candidateKey == Digest(c);
      if p.UploadPayload? { assert Uploaded(log, c, p); }
      if u :| u in log && u.UploadPayload? && u.candidateKey == Digest(c) { assert Uploaded(log, c, u); }
    }
  }

  /** The situations above are all there are: an order whose work the policy allows needs a new candidate, or its
      current one is unchecked, or passed and without upload, hanging, or uploaded. */
  lemma SituationsCoverAll(cap: nat, w: World, pass: Pass)
    requires Works(cap, w, pass) && WhyNew(w, RequestIn(pass)).None?
    ensures var latest := Latest(Candidates(w.log));
            && latest.Some? && Current(w, pass, latest.value)
            && (|| Unchecked(w.log, latest.value)
                || (&& PassedQc(w.log, Digest(latest.value))
                    && (|| UploadHangs(w.log, latest.value) || Unreferenced(w.log, latest.value)
                        || exists u :: Uploaded(w.log, latest.value, u))))
  {
    hide Inv, Unchecked, PassedQc, Candidates, BriefOf, Permitted, UploadHangs, Unreferenced, Uploaded;
    CurrentIsCandidate(cap, w);
    UploadSituations(w.log, Latest(Candidates(w.log)).value);
  }

  // --- up to the checked candidate ---------------------------------------------------------------

  /** A crash-free pass, in either mode that works, over an order that has an id, is not marked delivered, and has a
      permitted brief and a fit asset whose image is not empty. */
  ghost predicate Prepares(pass: Pass) {
    var order := AsOrder(pass);
    && pass.mode != DryRun && pass.fault == NoFault && order.orderId != "" && !SaysDelivered(pass)
    && Permitted(BriefOf(pass)) && AssetReady(order, pass.env.disk)
    && pass.env.disk[Path(SanitizeOrderId(Trim(order.orderId, JS_SPACE)), "candidate.png")].size > 0
  }

  lemma PreparesIsPreparing(pass: Pass)
    requires Prepares(pass)
    ensures Preparing(pass)
  {
    hide Trim, AssetReady, IsRestricted, MentionsRestricted, PrepareCandidate, LowerAll, SanitizeOrderId;
    OrderIs(pass);
    PreparedIs(AsOrder(pass), 0, pass.env.disk);
    RestrictedIff(BriefOf(pass));
  }

  /** The store after the intake, the first candidate and its passed check. */
  ghost predicate Checked(w: World, pass: Pass, c: Payload, q: Payload) {
    var order := AsOrder(pass);
    var dir := SanitizeOrderId(Trim(order.orderId, JS_SPACE));
    && w == World([IntakePayload(order), c, q], {}, [])
    && AssetReady(order, pass.env.disk)
    && Describes(c, order, 1, pass.env.disk[Path(dir, "candidate.png")],
                 pass.env.disk[Path(dir, "candidate.json")].metadata.value)
    && q.QcPayload? && q.candidateKey == Digest(c) && q.status == Passed
  }

  lemma FirstRecords(cap: nat, pass: Pass) returns (c: Payload, q: Payload)
    requires Preparing(pass) && cap >= 2
    ensures Prepared(c) == PrepareCandidate(NormalizeOrder(pass.raw), 0, pass.env.disk)
    ensures Reach(cap, Repeat(pass, 1) + Repeat(pass, 2))
            == World([IntakePayload(NormalizeOrder(pass.raw)), c, q], {}, [])
    ensures q.QcPayload? && q.candidateKey == Digest(c) && q.status == Passed
  {
    hide Preparing, On, Step, Run, Repeat, Candidates, PrepareCandidate, NormalizeOrder;
    FirstPass(cap, pass);
    FirstIntake(cap, pass);
    var w := Reach(cap, Repeat(pass, 1));
    c := GenerateStage(cap, w, pass);
    q := CheckStage(cap, Logged(w, c), pass, c);
    TwoMore(cap, w, pass);
    RunConcat(cap, EMPTY, Repeat(pass, 1), Repeat(pass, 2));
  }

  lemma NothingYet()
    ensures !HasIntake(EMPTY.log) && !Delivered(EMPTY.log)
  {
  }

  lemma FirstIntake(cap: nat, pass: Pass)
    requires Preparing(pass)
    ensures Reach(cap, Repeat(pass, 1)) == Logged(EMPTY, IntakePayload(NormalizeOrder(pass.raw)))
  {
    hide Preparing, Step, Repeat, Run, Inv, Candidates, HasIntake, NormalizeOrder;
    EmptyInv(cap);
    assert !HasIntake(EMPTY.log) && !Delivered(EMPTY.log) by { NothingYet(); }
    hide Delivered;
    IntakeStage(cap, EMPTY, pass);
    RunFront(cap, EMPTY, pass, 0);
    NoPasses(cap, Step(cap, EMPTY, pass), pass);
  }

  lemma CheckStage(cap: nat, w: World, pass: Pass, c: Payload) returns (q: Payload)
    requires On(cap, w, pass, NeedsQc(c)) && Preparing(pass)
    ensures Step(cap, w, pass) == Logged(w, q) && q.QcPayload? && q.candidateKey == Digest(c) && q.status == Passed
  {
    hide Step, Preparing, Assess, NormalizeOrder, Inv, Candidates, HasIntake, Delivered;
    q := RunQc(c, NormalizeOrder(pass.raw), pass.env.disk);
    StepAtQc(cap, w, pass, c, q);
  }

  lemma TwoMore(cap: nat, w: World, pass: Pass)
    ensures Run(cap, w, Repeat(pass, 2)) == Step(cap, Step(cap, w, pass), pass)
  {
    hide Step, Repeat;
    RunFront(cap, w, pass, 1);
    RunFront(cap, Step(cap, w, pass), pass, 0);
    NoPasses(cap, Step(cap, Step(cap, w, pass), pass), pass);
  }

  /** Three such passes over a new order, manual or not, leave exactly its intake, one candidate with the files' paths,
      hash, size and model, and its passed check; and no call. */
  lemma ThreePassesCheck(cap: nat, pass: Pass)
    requires Prepares(pass) && cap >= 2
    ensures exists c, q :: Checked(Reach(cap, Repeat(pass, 1) + Repeat(pass, 2)), pass, c, q)
  {
    hide Preparing, Reach, Run, Repeat, PrepareCandidate, AssetReady, Describes, Trim, SanitizeOrderId;
    PreparesIsPreparing(pass);
    var c, q := FirstRecords(cap, pass);
    OrderIs(pass);
    PreparedIs(AsOrder(pass), 0, pass.env.disk);
    assert Checked(Reach(cap, Repeat(pass, 1) + Repeat(pass, 2)), pass, c, q);
  }
}
