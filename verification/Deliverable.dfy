/**
 In which stores an order can still be delivered, exactly: there is room for another candidate to be checked, or the
 current one is for this order and neither failed nor frozen. The directory may have been used for other orders too.
 */
module Deliverable {
  import opened Options
  import opened Artifacts
  import opened Fulfillment
  import opened Text
  import opened Reconciler
  import opened Invariant
  import opened Preservation
  import opened Safety
  import opened Liveness
  import opened Origins
  import opened Samples
  import opened Quiescence
  import opened Recovery

  // --- stores that can no longer be delivered ----------------------------------------------------

  /** The current candidate leads nowhere: there is none, it failed QC, or it is frozen. */
  ghost predicate Stuck(w: World) {
    var latest := Latest(Candidates(w.log));
    latest.Some? ==> FailedQcOnly(w.log, latest.value) || Frozen(w, latest.value)
  }

  /** Not delivered, and no candidate can ever pass QC and be delivered any more. */
  ghost predicate Dead(cap: nat, w: World) {
    && NoDelivery(w.log)
    && var n := |Candidates(w.log)|; n >= cap || (n + 1 == cap && Stuck(w))
  }

  /** A note or a candidate was written, whole or half, or nothing. */
  ghost predicate SimpleOutcome(w: World, w': World) {
    || w' == w
    || exists p :: (IsNote(p) || p.CandidatePayload?) && (w' == Logged(w, p) || w' == Tear(w, p))
  }

  /** What a pass decides when the current candidate is missing, failed or for another request. */
  lemma NothingToContinue(cap: nat, w: World, order: Order, f: Facts, policy: Policy)
    requires Inv(cap, w) && f == DeriveFacts(order, ViewOf(w.log))
    requires var latest := Latest(Candidates(w.log));
             latest.Some? ==> FailedQcOnly(w.log, latest.value)
                              || (latest.value.CandidatePayload?
                                  && latest.value.requestKey != ExpectedRequestKey(order))
    ensures DecideNextAction(f, policy).kind !in {CheckQuality, UploadAsset, DeliverAsset}
  {
    hide CandidatesOk, CausalOk, ReplacementOk, PendingUploadsOk, UploadsOk, PendingDeliversOk, DeliveriesOk,
         FilesOk, TornOk, CallsOk, PassedQc, QcOk, Group, ExpectedRequestKey;
    var latest := Latest(Candidates(w.log));
    if latest.Some? && FailedQcOnly(w.log, latest.value) {
      FailedQcIsSeen(cap, w.log, order, latest.value);
    }
  }

  lemma SimplePlan(order: Order, config: Config, env: Environment, f: Facts, policy: Policy)
    requires WellTyped(f) && DecideNextAction(f, policy).kind !in {CheckQuality, UploadAsset, DeliverAsset}
    ensures var plan := Plan(order, config, env, f, policy);
            |plan| == 1 && plan[0].Write? && plan == [Write(plan[0].payload)]
            && (IsNote(plan[0].payload) || plan[0].payload.CandidatePayload?)
  {
    hide Plan, PrepareCandidate, DecideNextAction;
    PlanShapes(order, config, env, f, policy);
  }

  /** A pass over a candidate that leads nowhere for its request writes at most a note or a candidate. */
  lemma NothingToContinueStep(cap: nat, w: World, pass: Pass)
    requires Inv(cap, w)
    requires var latest := Latest(Candidates(w.log));
             latest.Some? ==> FailedQcOnly(w.log, latest.value)
                              || (latest.value.CandidatePayload? && latest.value.requestKey != RequestOfPass(pass))
    ensures SimpleOutcome(w, Step(cap, w, pass))
  {
    hide Inv, FailedQcOnly, Plan, Perform, EvaluatePolicies, NormalizeOrder, ViewOf, ExpectedRequestKey,
         DecideNextAction;
    var order := NormalizeOrder(pass.raw);
    if order.orderId != "" {
      FactsAreWellTyped(order, w.log);
      var f := DeriveFacts(order, ViewOf(w.log));
      var policy := EvaluatePolicies(order, f, cap);
      NothingToContinue(cap, w, order, f, policy);
      SimplePlan(order, ConfigOf(cap, pass), pass.env, f, policy);
      var plan := PlanOf(cap, w.log, pass);
      PerformOne(w, plan[0].payload, pass.fault);
    }
  }

  lemma SimpleStep(cap: nat, w: World, pass: Pass)
    requires Inv(cap, w) && NoDelivery(w.log) && Stuck(w)
    ensures SimpleOutcome(w, Step(cap, w, pass))
  {
    hide Inv, Frozen, FailedQcOnly, Step, RequestOfPass, NoDelivery;
    var latest := Latest(Candidates(w.log));
    FrozenIsCandidate(w);
    if latest.Some? && Frozen(w, latest.value) && RequestOfPass(pass) == latest.value.requestKey {
      FrozenStep(cap, w, pass, latest.value);
    } else {
      NothingToContinueStep(cap, w, pass);
    }
  }

  lemma FrozenIsCandidate(w: World)
    ensures var latest := Latest(Candidates(w.log));
            latest.Some? && Frozen(w, latest.value) ==> latest.value.CandidatePayload?
  {
  }

  lemma StuckStays(w: World, w': World, p: Payload)
    requires Stuck(w) && (w' == Logged(w, p) || w' == Tear(w, p)) && (w' == Logged(w, p) ==> IsNote(p))
    ensures Stuck(w')
  {
    hide Frozen, PassedQc;
    CandidatesOfAppend(w.log, p);
    var latest := Latest(Candidates(w.log));
    if latest.Some? {
      if Frozen(w, latest.value) {
        FrozenStays(w, w', latest.value);
      } else if w' == Logged(w, p) {
        FailedStays(w.log, p, latest.value);
      }
    }
  }

  lemma FailedStays(log: seq<Payload>, p: Payload, c: Payload)
    requires FailedQcOnly(log, c) && IsNote(p)
    ensures FailedQcOnly(log + [p], c)
  {
    var q :| q in log && q.QcPayload? && q.candidateKey == Digest(c);
    assert q in log + [p];
  }

  lemma NoDeliveryIsEmptyGroup(log: seq<Payload>)
    ensures NoDelivery(log) <==> Group(log, DeliveryKind) == []
  {
    var g := Group(log, DeliveryKind);
    if g != [] { assert g[0] in g; }
  }

  lemma ClosedStepStaysDead(cap: nat, w: World, pass: Pass)
    requires Inv(cap, w) && NoDelivery(w.log) && |Candidates(w.log)| == cap
    ensures Dead(cap, Step(cap, w, pass))
  {
    hide Inv, Step, Stuck, NoDelivery;
    ClosedStep(cap, w, pass);
    NoDeliveryIsEmptyGroup(w.log);
    NoDeliveryIsEmptyGroup(Step(cap, w, pass).log);
  }

  lemma DeadStep(cap: nat, w: World, pass: Pass)
    requires Inv(cap, w) && Dead(cap, w)
    ensures Dead(cap, Step(cap, w, pass))
  {
    hide Inv, Step, Stuck;
    if |Candidates(w.log)| >= cap {
      assert |Candidates(w.log)| == cap by { CandidatesAtMost(cap, w); }
      ClosedStepStaysDead(cap, w, pass);
    } else {
      SimpleStep(cap, w, pass);
      SimpleStaysDead(cap, w, Step(cap, w, pass));
    }
  }

  lemma CandidatesAtMost(cap: nat, w: World)
    requires Inv(cap, w)
    ensures |Candidates(w.log)| <= cap
  {
  }

  lemma SimpleStaysDead(cap: nat, w: World, w': World)
    requires NoDelivery(w.log) && |Candidates(w.log)| + 1 == cap && Stuck(w) && SimpleOutcome(w, w')
    ensures Dead(cap, w')
  {
    hide Stuck, Candidates;
    if w' != w {
      var p :| (IsNote(p) || p.CandidatePayload?) && (w' == Logged(w, p) || w' == Tear(w, p));
      CandidatesOfAppend(w.log, p);
      if !(w' == Logged(w, p) && p.CandidatePayload?) { StuckStays(w, w', p); }
    }
  }

  lemma {:induction false} DeadForever(cap: nat, w: World, more: seq<Pass>)
    requires Inv(cap, w) && Dead(cap, w)
    ensures Dead(cap, Run(cap, w, more))
  {
    hide Inv, Dead, Step;
    if more != [] {
      DeadForever(cap, w, more[..|more| - 1]);
      RunKeepsInv(cap, w, more[..|more| - 1]);
      DeadStep(cap, Run(cap, w, more[..|more| - 1]), more[|more| - 1]);
    }
  }

  // --- candidates of another order ---------------------------------------------------------------

  ghost predicate About(pass: Pass, id: string) {
    NormalizeOrder(pass.raw).orderId == id
  }

  ghost predicate AllAbout(passes: seq<Pass>, id: string) {
    forall i :: 0 <= i < |passes| ==> About(passes[i], id)
  }

  /** The latest candidate was prepared for another order of the directory. */
  ghost predicate OfAnotherOrder(w: World, id: string) {
    var latest := Latest(Candidates(w.log));
    latest.Some? && latest.value.CandidatePayload? && latest.value.orderId != id
  }

  /** At most one record was written, whole or half, and not a delivery. */
  ghost predicate OneRecord(w: World, w': World) {
    w' == w || exists p: Payload :: !p.DeliveryPayload? && (w' == Logged(w, p) || w' == Tear(w, p))
  }

  lemma IdleIsOneRecord(w: World, w': World)
    requires IdleOutcome(w, w')
    ensures OneRecord(w, w')
  {
    if w' != w {
      var p :| IsNote(p) && (w' == Logged(w, p) || w' == Tear(w, p));
      assert !p.DeliveryPayload?;
    }
  }

  lemma SimpleIsOneRecord(w: World, w': World)
    requires SimpleOutcome(w, w')
    ensures OneRecord(w, w')
  {
    if w' != w {
      var p :| (IsNote(p) || p.CandidatePayload?) && (w' == Logged(w, p) || w' == Tear(w, p));
      assert !p.DeliveryPayload?;
    }
  }

  lemma WriteIsOneRecord(w: World, p: Payload, fault: Fault)
    requires !p.DeliveryPayload?
    ensures OneRecord(w, Perform(w, [Write(p)], fault))
  {
    PerformOne(w, p, fault);
  }

  lemma OthersCandidateHasIssue(c: Payload, order: Order, disk: Disk)
    requires c.CandidatePayload? && c.orderId != FulfilledId(order)
    ensures Assess(c, order, disk) != []
  {
    hide Assess;
  }

  /** A checked candidate with an issue is neither uploaded nor delivered. */
  lemma IssuesBlockExchanges(order: Order, config: Config, env: Environment, f: Facts, policy: Policy, c: Payload)
    requires WellTyped(f) && f.latestCandidate == Some(c) && Assess(c, order, env.disk) != []
    requires DecideNextAction(f, policy).kind in {UploadAsset, DeliverAsset}
    ensures var plan := Plan(order, config, env, f, policy);
            |plan| == 1 && plan[0].Write? && plan == [Write(plan[0].payload)] && IsNote(plan[0].payload)
  {
    hide DecideNextAction, Assess;
  }

  /** The action is not to generate, since the candidate is for this request and has not failed QC. */
  lemma NothingToGenerate(cap: nat, w: World, order: Order, f: Facts, policy: Policy, c: Payload)
    requires Inv(cap, w) && f == DeriveFacts(order, ViewOf(w.log)) && Latest(Candidates(w.log)) == Some(c)
    requires c.CandidatePayload? && c.requestKey == ExpectedRequestKey(order) && !FailedQcOnly(w.log, c)
    ensures DecideNextAction(f, policy).kind != Generate && f.latestCandidate == Some(c)
    ensures PassedQc(w.log, Digest(c)) ==> DecideNextAction(f, policy).kind != CheckQuality
  {
    hide Inv, DeriveFacts, Group, PassedQc, Unchecked, ExpectedRequestKey, WellTyped;
    LatestIsSeen(w.log, order);
    if PassedQc(w.log, Digest(c)) { QcPassIsSeen(cap, w, order, c); } else { NoQcIsSeen(w.log, order, c); }
  }

  lemma LatestIsSeen(log: seq<Payload>, order: Order)
    ensures var f := DeriveFacts(order, ViewOf(log));
            && f.latestCandidate == Latest(Candidates(log))
            && (f.latestCandidateMatchesRequest <==>
                  && f.latestCandidate.Some? && f.latestCandidate.value.CandidatePayload?
                  && f.latestCandidate.value.requestKey == ExpectedRequestKey(order))
  {
  }

  /** Over a candidate of another order that is for this request, a pass writes a note, or the QC record that
      rejects it. */
  lemma OthersCandidateStep(cap: nat, w: World, pass: Pass, c: Payload)
    requires Inv(cap, w) && Latest(Candidates(w.log)) == Some(c) && c.CandidatePayload?
    requires c.requestKey == RequestOfPass(pass) && c.orderId != FulfilledId(NormalizeOrder(pass.raw))
    requires !FailedQcOnly(w.log, c)
    ensures OneRecord(w, Step(cap, w, pass))
    ensures PassedQc(w.log, Digest(c)) ==> IdleOutcome(w, Step(cap, w, pass))
  {
    hide Inv, Plan, Perform, EvaluatePolicies, NormalizeOrder, ViewOf, ExpectedRequestKey, IdleOutcome, OneRecord,
         PassedQc, FailedQcOnly, FulfilledId, Assess, DecideNextAction, DeriveFacts, Candidates;
    var order := NormalizeOrder(pass.raw);
    if order.orderId == "" {
      UnchangedIsIdle(w);
      IdleIsOneRecord(w, w);
    } else {
      FactsAreWellTyped(order, w.log);
      var f := DeriveFacts(order, ViewOf(w.log));
      var policy := EvaluatePolicies(order, f, cap);
      var action, plan := DecideNextAction(f, policy), PlanOf(cap, w.log, pass);
      NothingToGenerate(cap, w, order, f, policy, c);
      OthersCandidateHasIssue(c, order, pass.env.disk);
      PlanShapes(order, ConfigOf(cap, pass), pass.env, f, policy);
      if action.kind in {UploadAsset, DeliverAsset} {
        IssuesBlockExchanges(order, ConfigOf(cap, pass), pass.env, f, policy, c);
      }
      assert plan == [Write(plan[0].payload)] && !plan[0].payload.DeliveryPayload?;
      WriteIsOneRecord(w, plan[0].payload, pass.fault);
      if PassedQc(w.log, Digest(c)) { NoteIsIdle(w, plan[0].payload, pass.fault); }
    }
  }

  /** Not delivered, and for this order no candidate can ever be delivered any more. */
  ghost predicate DeadFor(cap: nat, w: World, id: string) {
    && NoDelivery(w.log)
    && var n := |Candidates(w.log)|; n >= cap || (n + 1 == cap && (Stuck(w) || OfAnotherOrder(w, id)))
  }

  lemma OneRecordStaysDead(cap: nat, w: World, w': World, id: string)
    requires NoDelivery(w.log) && |Candidates(w.log)| + 1 == cap && OfAnotherOrder(w, id) && OneRecord(w, w')
    ensures DeadFor(cap, w', id)
  {
    hide Stuck, Candidates;
    if w' != w {
      var p: Payload :| !p.DeliveryPayload? && (w' == Logged(w, p) || w' == Tear(w, p));
      CandidatesOfAppend(w.log, p);
    }
  }

  lemma OthersCandidateStaysDead(cap: nat, w: World, pass: Pass, id: string)
    requires Inv(cap, w) && NoDelivery(w.log) && |Candidates(w.log)| + 1 == cap
    requires OfAnotherOrder(w, id) && !Stuck(w) && About(pass, id) && Trim(id, JS_SPACE) == id
    ensures DeadFor(cap, Step(cap, w, pass), id)
  {
    hide Inv, Step, NoDelivery, Candidates, Frozen, FailedQcOnly, NormalizeOrder, ExpectedRequestKey, DeadFor, Trim,
         OneRecord, SimpleOutcome;
    var c := Latest(Candidates(w.log)).value;
    if c.requestKey == RequestOfPass(pass) {
      OthersCandidateStep(cap, w, pass, c);
    } else {
      NothingToContinueStep(cap, w, pass);
      SimpleIsOneRecord(w, Step(cap, w, pass));
    }
    OneRecordStaysDead(cap, w, Step(cap, w, pass), id);
  }

  lemma DeadMeans(cap: nat, w: World, id: string)
    ensures DeadFor(cap, w, id) && !Dead(cap, w) ==>
              NoDelivery(w.log) && |Candidates(w.log)| + 1 == cap && OfAnotherOrder(w, id) && !Stuck(w)
    ensures Dead(cap, w) ==> DeadFor(cap, w, id)
    ensures DeadFor(cap, w, id) ==> NoDelivery(w.log)
  {
    hide NoDelivery, Stuck, OfAnotherOrder;
  }

  lemma DeadForStep(cap: nat, w: World, pass: Pass, id: string)
    requires Inv(cap, w) && DeadFor(cap, w, id) && About(pass, id) && Trim(id, JS_SPACE) == id
    ensures DeadFor(cap, Step(cap, w, pass), id)
  {
    hide Inv, Step, Dead, DeadFor, About, Trim, Stuck, OfAnotherOrder, NoDelivery;
    DeadMeans(cap, w, id);
    if Dead(cap, w) {
      DeadStep(cap, w, pass);
      DeadMeans(cap, Step(cap, w, pass), id);
    } else {
      OthersCandidateStaysDead(cap, w, pass, id);
    }
  }

  lemma {:induction false} DeadForForever(cap: nat, w: World, more: seq<Pass>, id: string)
    requires Inv(cap, w) && DeadFor(cap, w, id) && AllAbout(more, id) && Trim(id, JS_SPACE) == id
    ensures DeadFor(cap, Run(cap, w, more), id)
  {
    hide Inv, DeadFor, Step, About, Trim;
    if more != [] {
      var n := |more| - 1;
      DeadForForever(cap, w, more[..n], id);
      RunKeepsInv(cap, w, more[..n]);
      DeadForStep(cap, Run(cap, w, more[..n]), more[n], id);
    }
  }

  // --- stores that still can ---------------------------------------------------------------------

  /** Some further passes over the order deliver it. */
  ghost predicate CanBeDelivered(cap: nat, w: World, id: string) {
    exists more :: AllAbout(more, id) && DeliveredFor(Run(cap, w, more).log, id)
  }

  lemma RepeatIsAbout(pass: Pass, id: string, n: nat)
    requires About(pass, id)
    ensures AllAbout(Repeat(pass, n), id)
  {
    hide About;
  }

  /** Some further passes over the order, all asking for one request, deliver it. */
  ghost predicate CanBeDeliveredFor(cap: nat, w: World, id: string, request: RequestKey) {
    exists more :: AllAbout(more, id) && AllAskFor(more, request) && DeliveredFor(Run(cap, w, more).log, id)
  }

  lemma ForOneRequest(cap: nat, w: World, id: string, request: RequestKey)
    requires CanBeDeliveredFor(cap, w, id, request)
    ensures CanBeDelivered(cap, w, id)
  {
    hide AllAbout, AllAskFor, DeliveredFor, Run;
  }

  /** What passes over an order deliver first is this order, under an id that the allowlist can hold. */
  lemma NewDeliveryIsOwn(cap: nat, w: World, more: seq<Pass>, id: string)
    requires AllAbout(more, id) && !Delivered(w.log) && Delivered(Run(cap, w, more).log)
    ensures DeliveredFor(Run(cap, w, more).log, id) && Trim(id, JS_SPACE) == id != ""
  {
    hide Run, NormalizeOrder, AllowedIds, Trim, Assess;
    var d :| d in Run(cap, w, more).log && d.DeliveryPayload?;
    NewRecordHasItsPass(cap, w, more, d);
    var i :| 0 <= i < |more| && Origin(more[i], d);
    assert About(more[i], id);
    AllowedIdsAreTrimmed(more[i], id);
  }

  /** From a rung, the willing pass of that order delivers. */
  lemma RungDelivers(cap: nat, w: World, id: string, pass: Pass, rung: Rung)
    requires On(cap, w, pass, rung) && Willing(pass) && About(pass, id) && pass.env.deliverReply.Some?
    ensures CanBeDeliveredFor(cap, w, id, RequestOfPass(pass))
  {
    hide Willing, Run, About, Delivered, DeliveredFor, Inv, RequestOfPass;
    assert !Delivered(w.log);
    hide On;
    WillingPassesFinish(cap, w, pass, rung);
    RepeatIsAbout(pass, id, PassesLeft(rung));
    NewDeliveryIsOwn(cap, w, Repeat(pass, PassesLeft(rung)), id);
  }

  lemma FirstThen(cap: nat, w: World, id: string, pass: Pass)
    requires About(pass, id) && CanBeDeliveredFor(cap, Step(cap, w, pass), id, RequestOfPass(pass))
    ensures CanBeDeliveredFor(cap, w, id, RequestOfPass(pass))
  {
    hide About, Step, DeliveredFor, RequestOfPass;
    var request := RequestOfPass(pass);
    var more :| AllAbout(more, id) && AllAskFor(more, request)
                && DeliveredFor(Run(cap, Step(cap, w, pass), more).log, id);
    RunConcat(cap, w, [pass], more);
    assert [pass][..0] == [];
    assert AllAbout([pass] + more, id) && AllAskFor([pass] + more, request);
  }

  /** A pass for the request, with an intake and an asset that no crash has left half-written. */
  lemma FreshPass(w: World, id: string, request: RequestKey) returns (pass: Pass)
    requires Trim(id, JS_SPACE) == id != "" && Admissible(request)
    ensures Willing(pass) && About(pass, id) && pass.env.deliverReply.Some? && RequestOfPass(pass) == request
    ensures IntakePayload(NormalizeOrder(pass.raw)) !in w.torn
    ensures forall n: nat :: PrepareCandidate(NormalizeOrder(pass.raw), n, pass.env.disk).Prepared?
                             && PrepareCandidate(NormalizeOrder(pass.raw), n, pass.env.disk).payload !in w.torn
  {
    hide Trim, Willing, NormalizeOrder, PrepareCandidate, Candidates, ExpectedRequestKey, Admissible;
    var h := Beyond(w.torn, HashLength);
    var t := Beyond(w.torn, StampLength);
    pass := SamplePass(id, request, Xs(t), Xs(h), Some(200));
    SamplePassIsWilling(id, request, Xs(t), Xs(h), Some(200));
    SampleOrder(id, request, Xs(t), Xs(h), Some(200));
    assert StampLength(IntakePayload(NormalizeOrder(pass.raw))) == t;
    forall n: nat
      ensures PrepareCandidate(NormalizeOrder(pass.raw), n, pass.env.disk).Prepared?
              && PrepareCandidate(NormalizeOrder(pass.raw), n, pass.env.disk).payload !in w.torn
    {
      SampleCandidate(id, request, Xs(t), Xs(h), Some(200), n);
      assert HashLength(PrepareCandidate(NormalizeOrder(pass.raw), n, pass.env.disk).payload) == h;
    }
  }

  lemma LatestIsCandidate(cap: nat, w: World)
    requires Inv(cap, w)
    ensures var latest := Latest(Candidates(w.log));
            latest.Some? ==> latest.value.CandidatePayload? && latest.value in w.log && HasIntake(w.log)
  {
    var c := Candidates(w.log);
    if c != [] {
      LatestCandidateIsLast(cap, w.log);
      IntakeBeforeCandidate(w.log, c[|c| - 1]);
    }
  }

  lemma IntakeBeforeCandidate(log: seq<Payload>, c: Payload)
    requires CausalOk(log) && c in log && c.CandidatePayload?
    ensures HasIntake(log)
  {
    var j :| 0 <= j < |log| && log[j] == c;
    assert Caused(log[..j], log[j]);
    var p :| p in log[..j] && p.IntakePayload?;
    assert p in log;
  }

  /** With room for another checked candidate, a request that needs one can be carried through. */
  lemma RoomForRequest(cap: nat, w: World, id: string, request: RequestKey)
    requires Inv(cap, w) && !Delivered(w.log) && |Candidates(w.log)| + 1 < cap && Trim(id, JS_SPACE) == id != ""
    requires Admissible(request) && (WantsCandidate(w.log, request) || RetriesFailed(w.log))
    ensures CanBeDeliveredFor(cap, w, id, request)
  {
    hide Inv, Delivered, Willing, NormalizeOrder, Trim, PrepareCandidate, Candidates, CanBeDeliveredFor, Step,
         Admissible, PassedQc, Unchecked, RequestOfPass;
    var pass := FreshPass(w, id, request);
    LatestIsCandidate(cap, w);
    if HasIntake(w.log) {
      RungDelivers(cap, w, id, pass, NeedsCandidate);
    } else {
      assert Ready(pass) by { WillingIsReady(pass); }
      IntakeStage(cap, w, pass);
      RungDelivers(cap, Step(cap, w, pass), id, pass, NeedsCandidate);
      FirstThen(cap, w, id, pass);
    }
  }

  /** One of two sample requests is not the one of the latest candidate. */
  lemma AnotherRequest(cap: nat, w: World) returns (request: RequestKey)
    requires Inv(cap, w)
    ensures Admissible(request) && WantsCandidate(w.log, request)
  {
    hide Inv, Admissible;
    LatestIsCandidate(cap, w);
    SampleRequests();
    request := if WantsCandidate(w.log, REQUEST_A) then REQUEST_A else REQUEST_B;
  }

  lemma WillingIsReady(pass: Pass)
    requires Willing(pass)
    ensures Ready(pass)
  {
  }

  // --- resuming the current candidate ------------------------------------------------------------

  /** The pass that prepared the candidate, made willing, with an image of another size. */
  ghost function Resumed(p: Pass, id: string, size: nat): Pass
    requires var image := CandidatePath(FulfilledId(NormalizeOrder(p.raw))); image in p.env.disk
  {
    var image := CandidatePath(FulfilledId(NormalizeOrder(p.raw)));
    Pass(p.raw.(id := Some(id), status := None), ManualDelivery, {id},
         Environment(p.env.disk[image := p.env.disk[image].(size := size)], Some(UploadReply("u", "t")), Some(200)),
         NoFault)
  }

  lemma ResumedOrder(p: Pass, id: string, size: nat)
    requires CandidatePath(FulfilledId(NormalizeOrder(p.raw))) in p.env.disk
    ensures NormalizeOrder(Resumed(p, id, size).raw) == NormalizeOrder(p.raw).(orderId := id, status := None)
    ensures RequestOfPass(Resumed(p, id, size)) == RequestOfPass(p)
  {
  }

  lemma OriginMeansPrepared(p: Pass, c: Payload)
    requires c.CandidatePayload? && Origin(p, c)
    ensures var order := NormalizeOrder(p.raw);
            && order.brief != "" && !IsRestricted(order.brief)
            && c.orderId == FulfilledId(order) && c.requestKey == ExpectedRequestKey(order) && !c.placeholder
            && CandidatePath(c.orderId) in p.env.disk && MetadataPath(c.orderId) in p.env.disk
            && p.env.disk[MetadataPath(c.orderId)].metadata.Some?
            && RealModel(p.env.disk[MetadataPath(c.orderId)].metadata.value.model)
            && !p.env.disk[MetadataPath(c.orderId)].metadata.value.placeholder
            && c.filePath == Some(CandidatePath(c.orderId)) && c.metadataPath == Some(MetadataPath(c.orderId))
            && c.model == NormalModel(p.env.disk[MetadataPath(c.orderId)].metadata.value.model)
            && c.orderId != ""
  {
    hide NormalizeOrder, PrepareCandidate, NormalModel, CandidatePath, MetadataPath, IsRestricted;
    var order := NormalizeOrder(p.raw);
    PreparedIff(order, c.attempt - 1, p.env.disk);
    PreparedKeepsRequest(order, c.attempt - 1, p.env.disk);
  }

  lemma PreparedKeepsRequest(order: Order, n: nat, disk: Disk)
    ensures var r := PrepareCandidate(order, n, disk);
            r.Prepared? ==> r.payload.CandidatePayload? && r.payload.orderId == FulfilledId(order)
                            && r.payload.requestKey == ExpectedRequestKey(order)
  {
    hide PrepareCandidate;
  }

  lemma ResumedIsWilling(p: Pass, id: string, size: nat, c: Payload)
    requires c.CandidatePayload? && Origin(p, c) && c.orderId == id && Trim(id, JS_SPACE) == id != "" && size > 0
    ensures CandidatePath(FulfilledId(NormalizeOrder(p.raw))) in p.env.disk
    ensures Willing(Resumed(p, id, size)) && About(Resumed(p, id, size), id)
    ensures RequestOfPass(Resumed(p, id, size)) == c.requestKey
  {
    hide Trim, NormalizeOrder, Origin, IsRestricted, RealModel, NormalModel, PrepareCandidate, CandidatePath,
         MetadataPath, LowerAll, ExpectedRequestKey;
    OriginMeansPrepared(p, c);
    var pass := Resumed(p, id, size);
    var order := NormalizeOrder(pass.raw);
    ResumedOrder(p, id, size);
    ImageIsNotMetadata(c.orderId, c.orderId);
    PreparedIff(order, 0, pass.env.disk);
    NotYetDelivered(order);
    assert id in pass.allowlist;
  }

  lemma ResumedMeetsCandidate(p: Pass, id: string, size: nat, c: Payload)
    requires c.CandidatePayload? && Origin(p, c) && c.orderId == id == Trim(id, JS_SPACE) && size > 0
    ensures CandidatePath(FulfilledId(NormalizeOrder(p.raw))) in p.env.disk
    ensures var pass := Resumed(p, id, size);
            Assess(c, NormalizeOrder(pass.raw), pass.env.disk) == []
            && RunQc(c, NormalizeOrder(pass.raw), pass.env.disk).checks.fileSize == size
  {
    hide Trim, NormalizeOrder, Origin, IsRestricted, NormalModel, PrepareCandidate, CandidatePath, MetadataPath,
         LowerAll, Assess, IsPng;
    OriginMeansPrepared(p, c);
    var pass := Resumed(p, id, size);
    var order := NormalizeOrder(pass.raw);
    ResumedOrder(p, id, size);
    ImageIsNotMetadata(c.orderId, c.orderId);
    NormalModelIdempotent(p.env.disk[MetadataPath(c.orderId)].metadata.value.model);
    CandidateFileIsPng(c.orderId);
    PathsAreInside(c.orderId);
    DeliverableIff(c, order, pass.env.disk);
  }

  lemma PathsAreInside(id: string)
    ensures InsideDirectory(CandidatePath(id), id) && InsideDirectory(MetadataPath(id), id)
  {
    assert |CANDIDATE_FILE| > 0 && |METADATA_FILE| > 0;
  }

  /** A current candidate that is neither failed nor frozen is on a rung of the resumed pass. */
  lemma CurrentCandidateDelivers(cap: nat, w: World, id: string, p: Pass, c: Payload)
    requires Inv(cap, w) && !Delivered(w.log) && |Candidates(w.log)| < cap && Trim(id, JS_SPACE) == id != ""
    requires Latest(Candidates(w.log)) == Some(c) && Origin(p, c) && !Stuck(w)
    requires c.CandidatePayload? && c.orderId == id
    ensures CanBeDeliveredFor(cap, w, id, c.requestKey)
  {
    hide Inv, Delivered, Willing, NormalizeOrder, Trim, PrepareCandidate, Candidates, CanBeDeliveredFor, Origin, Assess,
         RequestOfPass, PassedQc, Unchecked, UploadOpen, DeliveryOpen, HasIntake, RunQc;
    LatestIsCandidate(cap, w);
    var size := Beyond(w.torn, CheckedSize);
    ResumedIsWilling(p, id, size, c);
    ResumedMeetsCandidate(p, id, size, c);
    var pass := Resumed(p, id, size);
    var q := RunQc(c, NormalizeOrder(pass.raw), pass.env.disk);
    NotStuckChoices(w, c);
    if Unchecked(w.log, c) {
      assert q !in w.torn by { QcOfSize(c, NormalizeOrder(pass.raw), pass.env.disk, size, w.torn); }
      RungDelivers(cap, w, id, pass, NeedsQc(c));
    } else if UploadOpen(w, c) {
      RungDelivers(cap, w, id, pass, NeedsUpload(c));
    } else {
      var u :| DeliveryOpen(w, c, u);
      RungDelivers(cap, w, id, pass, NeedsDelivery(c, u));
    }
  }

  lemma NotStuckChoices(w: World, c: Payload)
    requires !Stuck(w) && Latest(Candidates(w.log)) == Some(c) && c.CandidatePayload? && !Delivered(w.log)
    ensures || Unchecked(w.log, c)
            || (PassedQc(w.log, Digest(c)) && (UploadOpen(w, c) || exists u :: DeliveryOpen(w, c, u)))
  {
    hide Unchecked, PassedQc, UploadOpen, DeliveryOpen, Candidates, NoDelivery;
  }

  lemma QcOfSize(c: Payload, order: Order, disk: Disk, size: nat, torn: set<Payload>)
    requires c.CandidatePayload? && RunQc(c, order, disk).checks.fileSize == size
    requires forall p :: p in torn ==> CheckedSize(p) < size
    ensures RunQc(c, order, disk) !in torn
  {
    hide RunQc;
    assert CheckedSize(RunQc(c, order, disk)) == size;
  }

  // --- exactly which ------------------------------------------------------------------------------

  /** Only ids without surrounding whitespace are ever delivered, because the allowlist holds trimmed ids. */
  lemma DeliveredIdsAreTrimmed(cap: nat, passes: seq<Pass>, id: string)
    requires DeliveredFor(Reach(cap, passes).log, id)
    ensures Trim(id, JS_SPACE) == id != ""
  {
    hide Reach, Run, NormalizeOrder, AllowedIds, Trim;
    var d :| d in Reach(cap, passes).log && d.DeliveryPayload? && d.uploadKey.payload.UploadPayload?
             && d.uploadKey.payload.candidateKey.payload.CandidatePayload?
             && d.uploadKey.payload.candidateKey.payload.orderId == id;
    DeliveriesWereOrdered(cap, passes, d);
    var i :| 0 <= i < |passes| && NormalizeOrder(passes[i].raw).orderId in AllowedIds(passes[i])
             && id == Trim(NormalizeOrder(passes[i].raw).orderId, JS_SPACE);
    AllowedIdsAreTrimmed(passes[i], NormalizeOrder(passes[i].raw).orderId);
  }

  /** There is room for another candidate that could be checked, or the current one is for this order and neither
      failed nor frozen. */
  ghost predicate HasFuture(cap: nat, w: World, id: string) {
    var n := |Candidates(w.log)|; n + 1 < cap || (n + 1 == cap && !Stuck(w) && !OfAnotherOrder(w, id))
  }

  /** Once any order was delivered, nothing else is. */
  lemma DeliveredBefore(cap: nat, w: World, more: seq<Pass>, id: string)
    requires Inv(cap, w) && Delivered(w.log) && DeliveredFor(Run(cap, w, more).log, id)
    ensures DeliveredFor(w.log, id)
  {
    hide Inv, Run, Group;
    ClosedForever(cap, w, more);
    var d :| d in Run(cap, w, more).log && d.DeliveryPayload? && d.uploadKey.payload.UploadPayload?
             && d.uploadKey.payload.candidateKey.payload.CandidatePayload?
             && d.uploadKey.payload.candidateKey.payload.orderId == id;
    assert d in Group(Run(cap, w, more).log, DeliveryKind);
  }

  lemma NoFutureIsFinal(cap: nat, w: World, more: seq<Pass>, id: string)
    requires Inv(cap, w) && AllAbout(more, id) && Trim(id, JS_SPACE) == id
    requires !Delivered(w.log) && !HasFuture(cap, w, id)
    ensures !Delivered(Run(cap, w, more).log)
  {
    hide Run, Stuck, Inv, OfAnotherOrder, Trim, AllAbout;
    DeadForForever(cap, w, more, id);
  }

  lemma NotStuckMeansSome(w: World)
    requires !Stuck(w)
    ensures Latest(Candidates(w.log)).Some?
  {
  }

  lemma FutureDelivers(cap: nat, passes: seq<Pass>, id: string)
    requires Trim(id, JS_SPACE) == id != ""
    requires !Delivered(Reach(cap, passes).log) && HasFuture(cap, Reach(cap, passes), id)
    ensures CanBeDelivered(cap, Reach(cap, passes), id)
  {
    hide Reach, Stuck, Inv, CanBeDelivered, CanBeDeliveredFor, Trim, Origin, Delivered, Candidates, Admissible,
         WantsCandidate;
    var w := Reach(cap, passes);
    ReachInv(cap, passes);
    if |Candidates(w.log)| + 1 < cap {
      var request := AnotherRequest(cap, w);
      RoomForRequest(cap, w, id, request);
      ForOneRequest(cap, w, id, request);
    } else {
      LatestIsCandidate(cap, w);
      NotStuckMeansSome(w);
      var c := Latest(Candidates(w.log)).value;
      EveryRecordHasItsPass(cap, passes, c);
      var i :| 0 <= i < |passes| && Origin(passes[i], c);
      CurrentCandidateDelivers(cap, w, id, passes[i], c);
      ForOneRequest(cap, w, id, c.requestKey);
    }
  }

  /** Exactly in which stores an order can still be delivered, whatever passes over this and other orders, crashes and
      failed calls led to them: it was delivered already; or nothing was delivered from this directory, the id is one
      the allowlist can hold, and there is room for another candidate to be checked or the current one is for this
      order and neither failed nor frozen. */
  lemma StoresThatCanStillDeliver(cap: nat, passes: seq<Pass>, id: string)
    ensures var w := Reach(cap, passes);
            CanBeDelivered(cap, w, id) <==>
              || DeliveredFor(w.log, id)
              || (!Delivered(w.log) && Trim(id, JS_SPACE) == id != "" && HasFuture(cap, w, id))
  {
    hide Reach, Run, HasFuture, Trim, About, Delivered, DeliveredFor, Inv;
    var w := Reach(cap, passes);
    ReachInv(cap, passes);
    if DeliveredFor(w.log, id) { NothingMore(cap, w, id); }
    forall more | AllAbout(more, id) && DeliveredFor(Run(cap, w, more).log, id)
      ensures || DeliveredFor(w.log, id)
              || (!Delivered(w.log) && Trim(id, JS_SPACE) == id != "" && HasFuture(cap, w, id))
    {
      if Delivered(w.log) {
        DeliveredBefore(cap, w, more, id);
      } else {
        DeliveredForIsDelivered(Run(cap, w, more).log, id);
        NewDeliveryIsOwn(cap, w, more, id);
        if !HasFuture(cap, w, id) { NoFutureIsFinal(cap, w, more, id); }
      }
    }
    if !Delivered(w.log) && Trim(id, JS_SPACE) == id != "" && HasFuture(cap, w, id) { FutureDelivers(cap, passes, id); }
  }

  lemma DeliveredForIsDelivered(log: seq<Payload>, id: string)
    requires DeliveredFor(log, id)
    ensures Delivered(log)
  {
  }

  lemma NothingMore(cap: nat, w: World, id: string)
    requires DeliveredFor(w.log, id)
    ensures CanBeDelivered(cap, w, id)
  {
    assert Run(cap, w, []) == w && AllAbout([], id);
  }

  /** In particular a new order can be delivered exactly when the iteration cap is at least two. */
  lemma DeliverableIffCapAtLeastTwo(cap: nat, id: string)
    requires Trim(id, JS_SPACE) == id != ""
    ensures CanBeDelivered(cap, EMPTY, id) <==> cap >= 2
  {
    hide CanBeDelivered, Trim;
    assert Reach(cap, []) == EMPTY;
    StoresThatCanStillDeliver(cap, [], id);
  }
}
