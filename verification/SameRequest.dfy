/**
 In which stores an order can still be delivered while the customer keeps to one request: for every order, every
 request and every store that passes over this and other orders can leave behind, exactly.
 */
module SameRequest {
  import opened Options
  import opened Artifacts
  import opened Fulfillment
  import opened Text
  import opened Reconciler
  import opened Invariant
  import opened Preservation
  import opened Safety
  import opened Liveness
  import opened Origins
  import opened Samples
  import opened Quiescence
  import opened Recovery
  import opened Deliverable

  /** The latest candidate is for the request and did not fail QC. */
  ghost predicate Continues(w: World, request: RequestKey) {
    var latest := Latest(Candidates(w.log));
    && latest.Some? && latest.value.CandidatePayload? && latest.value.requestKey == request
    && !FailedQcOnly(w.log, latest.value)
  }

  /** A candidate of this order that is to be continued must not be frozen, nor the last one the cap permits. One of
      another order must not have passed QC, which it can fail for this order, and then as when there is nothing to
      continue there must be room for a new candidate that could be checked. */
  ghost predicate HasFutureFor(cap: nat, w: World, id: string, request: RequestKey) {
    var n := |Candidates(w.log)|;
    if Continues(w, request) then
      var c := Latest(Candidates(w.log)).value;
      if c.orderId == id then n < cap && !Frozen(w, c) else n + 1 < cap && !PassedQc(w.log, Digest(c))
    else n + 1 < cap
  }

  // --- requests that are never let through -------------------------------------------------------

  lemma InadmissibleIsBlocked(order: Order, f: Facts, cap: nat)
    requires Trim(order.brief, JS_SPACE) == order.brief && !Admissible(ExpectedRequestKey(order))
    ensures EvaluatePolicies(order, f, cap).decision != Allow
  {
    hide Trim, IsRestricted, EvaluatePolicies;
    if EvaluatePolicies(order, f, cap).decision == Allow { AllowedMeansNoReason(order, f, cap); }
  }

  lemma BriefsAreTrimmed(pass: Pass)
    ensures var order := NormalizeOrder(pass.raw); Trim(order.brief, JS_SPACE) == order.brief
  {
    hide Trim;
    TrimIdempotent(OrEmpty(pass.raw.brief), JS_SPACE);
  }

  lemma BlockedStep(cap: nat, w: World, pass: Pass)
    requires !Admissible(RequestOfPass(pass))
    ensures IdleOutcome(w, Step(cap, w, pass))
  {
    hide Plan, Perform, EvaluatePolicies, NormalizeOrder, ViewOf, ExpectedRequestKey, IdleOutcome, Admissible;
    var order := NormalizeOrder(pass.raw);
    if order.orderId == "" {
      UnchangedIsIdle(w);
    } else {
      FactsAreWellTyped(order, w.log);
      var f := DeriveFacts(order, ViewOf(w.log));
      var policy := EvaluatePolicies(order, f, cap);
      BriefsAreTrimmed(pass);
      InadmissibleIsBlocked(order, f, cap);
      PlanShapes(order, ConfigOf(cap, pass), pass.env, f, policy);
      var plan := PlanOf(cap, w.log, pass);
      assert plan == [Write(plan[0].payload)];
      NoteIsIdle(w, plan[0].payload, pass.fault);
    }
  }

  lemma {:induction false} InadmissibleIsNeverDelivered(cap: nat, w: World, more: seq<Pass>, request: RequestKey)
    requires !Admissible(request) && AllAskFor(more, request) && NoDelivery(w.log)
    ensures NoDelivery(Run(cap, w, more).log)
  {
    hide Step, RequestOfPass, Admissible, NoDelivery;
    if more != [] {
      var n := |more| - 1;
      InadmissibleIsNeverDelivered(cap, w, more[..n], request);
      var before := Run(cap, w, more[..n]);
      BlockedStep(cap, before, more[n]);
      IdleIsSameWork(before, Step(cap, before, more[n]));
    }
  }

  // --- stores without a future for the request ---------------------------------------------------

  lemma NothingNewContinues(w: World, w': World, request: RequestKey, p: Payload)
    requires IsNote(p) && (w'.log == w.log || w'.log == w.log + [p]) && !Continues(w, request)
    ensures !Continues(w', request)
  {
    hide Unchecked, PassedQc;
    CandidatesOfAppend(w.log, p);
    var latest := Latest(Candidates(w.log));
    if latest.Some? && FailedQcOnly(w.log, latest.value) && w'.log != w.log { FailedStays(w.log, p, latest.value); }
  }

  /** One below the cap, with nothing to continue: what a pass writes leaves the order as it was or uses up the cap. */
  lemma LastCandidateStaysDead(cap: nat, w: World, w': World, id: string, request: RequestKey)
    requires NoDelivery(w.log) && |Candidates(w.log)| + 1 == cap && !Continues(w, request) && SimpleOutcome(w, w')
    ensures NoDelivery(w'.log) && !HasFutureFor(cap, w', id, request)
  {
    hide Continues, Candidates, Frozen, PassedQc;
    if w' != w {
      var p :| (IsNote(p) || p.CandidatePayload?) && (w' == Logged(w, p) || w' == Tear(w, p));
      CandidatesOfAppend(w.log, p);
      if w' == Tear(w, p) { SameLogContinues(w, w', request); }
      else if IsNote(p) { NothingNewContinues(w, w', request, p); }
    }
  }

  lemma SameLogContinues(w: World, w': World, request: RequestKey)
    requires w'.log == w.log
    ensures Continues(w', request) <==> Continues(w, request)
  {
  }

  lemma FrozenHasNoFuture(cap: nat, w: World, id: string, c: Payload)
    requires Frozen(w, c)
    ensures NoDelivery(w.log) && !HasFutureFor(cap, w, id, c.requestKey)
  {
  }

  lemma FullHasNoFuture(cap: nat, w: World, id: string, request: RequestKey)
    requires |Candidates(w.log)| == cap
    ensures !HasFutureFor(cap, w, id, request)
  {
  }

  /** At the last but one candidate, one of another order has no future, whatever it is. */
  lemma OthersLastHasNoFuture(cap: nat, w: World, id: string, request: RequestKey)
    requires |Candidates(w.log)| + 1 >= cap && OfAnotherOrder(w, id)
    ensures !HasFutureFor(cap, w, id, request)
  {
  }

  /** The passed candidate of another order for the same request stays in the way. */
  lemma PassedOfAnotherStays(cap: nat, w: World, w': World, id: string, c: Payload)
    requires IdleOutcome(w, w') && Latest(Candidates(w.log)) == Some(c) && c.CandidatePayload? && c.orderId != id
    requires PassedQc(w.log, Digest(c))
    ensures !HasFutureFor(cap, w', id, c.requestKey)
  {
    hide Unchecked, Frozen, PassedQc;
    if w' != w {
      var p :| IsNote(p) && (w' == Logged(w, p) || w' == Tear(w, p));
      CandidatesOfAppend(w.log, p);
      if w' == Logged(w, p) { PassedQcGrows(w.log, p, Digest(c)); }
    }
  }

  lemma NothingContinues(cap: nat, w: World, request: RequestKey)
    requires Inv(cap, w) && !Continues(w, request)
    ensures var latest := Latest(Candidates(w.log));
            latest.Some? ==> FailedQcOnly(w.log, latest.value)
                             || (latest.value.CandidatePayload? && latest.value.requestKey != request)
  {
    hide Inv, FailedQcOnly;
    LatestIsCandidate(cap, w);
  }

  lemma OthersCandidateKeepsNoFuture(cap: nat, w: World, pass: Pass, id: string, c: Payload)
    requires Inv(cap, w) && NoDelivery(w.log) && |Candidates(w.log)| < cap
    requires Latest(Candidates(w.log)) == Some(c) && c.orderId != id && Continues(w, c.requestKey)
    requires !HasFutureFor(cap, w, id, c.requestKey) && RequestOfPass(pass) == c.requestKey
    requires About(pass, id) && Trim(id, JS_SPACE) == id
    ensures NoDelivery(Step(cap, w, pass).log) && !HasFutureFor(cap, Step(cap, w, pass), id, c.requestKey)
  {
    hide Inv, Step, NoDelivery, RequestOfPass, Frozen, FailedQcOnly, PassedQc, Trim, NormalizeOrder, OneRecord,
         IdleOutcome, Candidates;
    var w' := Step(cap, w, pass);
    OthersCandidateStep(cap, w, pass, c);
    if PassedQc(w.log, Digest(c)) {
      IdleIsSameWork(w, w');
      PassedOfAnotherStays(cap, w, w', id, c);
    } else {
      OneRecordHasNoFuture(cap, w, w', id, c.requestKey);
    }
  }

  lemma OneRecordHasNoFuture(cap: nat, w: World, w': World, id: string, request: RequestKey)
    requires NoDelivery(w.log) && |Candidates(w.log)| + 1 == cap && OfAnotherOrder(w, id) && OneRecord(w, w')
    ensures NoDelivery(w'.log) && !HasFutureFor(cap, w', id, request)
  {
    hide Candidates, HasFutureFor;
    if w' == w {
      OthersLastHasNoFuture(cap, w, id, request);
    } else {
      var p: Payload :| !p.DeliveryPayload? && (w' == Logged(w, p) || w' == Tear(w, p));
      CandidatesOfAppend(w.log, p);
      if |Candidates(w'.log)| == cap { FullHasNoFuture(cap, w', id, request); }
      else { OthersLastHasNoFuture(cap, w', id, request); }
    }
  }

  lemma NoFutureStep(cap: nat, w: World, pass: Pass, id: string)
    requires Inv(cap, w) && NoDelivery(w.log) && !HasFutureFor(cap, w, id, RequestOfPass(pass))
    requires About(pass, id) && Trim(id, JS_SPACE) == id
    ensures NoDelivery(Step(cap, w, pass).log) && !HasFutureFor(cap, Step(cap, w, pass), id, RequestOfPass(pass))
  {
    hide Inv, Step, NoDelivery, RequestOfPass, Frozen, FailedQcOnly, PassedQc, Trim, About;
    var request, w' := RequestOfPass(pass), Step(cap, w, pass);
    CandidatesAtMost(cap, w);
    if |Candidates(w.log)| == cap {
      ClosedStep(cap, w, pass);
      NoDeliveryIsEmptyGroup(w.log);
      NoDeliveryIsEmptyGroup(w'.log);
      FullHasNoFuture(cap, w', id, request);
    } else if Continues(w, request) {
      var c := Latest(Candidates(w.log)).value;
      if c.orderId == id {
        FrozenStep(cap, w, pass, c);
        IdleKeepsFrozen(w, w', c);
        FrozenHasNoFuture(cap, w', id, c);
      } else {
        OthersCandidateKeepsNoFuture(cap, w, pass, id, c);
      }
    } else {
      NothingContinues(cap, w, request);
      NothingToContinueStep(cap, w, pass);
      LastCandidateStaysDead(cap, w, w', id, request);
    }
  }

  /** Without a future for the order and the request, no passes over the order that keep to it ever deliver. */
  lemma {:induction false} NoFutureForever(cap: nat, w: World, more: seq<Pass>, id: string, request: RequestKey)
    requires Inv(cap, w) && NoDelivery(w.log) && !HasFutureFor(cap, w, id, request)
    requires AllAbout(more, id) && AllAskFor(more, request) && Trim(id, JS_SPACE) == id
    ensures NoDelivery(Run(cap, w, more).log) && !HasFutureFor(cap, Run(cap, w, more), id, request)
  {
    hide Inv, Step, RequestOfPass, HasFutureFor, NoDelivery, About, Trim;
    if more != [] {
      var n := |more| - 1;
      NoFutureForever(cap, w, more[..n], id, request);
      RunKeepsInv(cap, w, more[..n]);
      NoFutureStep(cap, Run(cap, w, more[..n]), more[n], id);
    }
  }

  // --- stores with one ---------------------------------------------------------------------------

  lemma RetriesOrWants(cap: nat, w: World, request: RequestKey)
    requires Inv(cap, w) && !Continues(w, request)
    ensures WantsCandidate(w.log, request) || RetriesFailed(w.log)
  {
    hide Inv, FailedQcOnly;
    NothingContinues(cap, w, request);
  }

  /** A sample pass that also finds the file of the candidate, with the given size. */
  ghost function Checking(id: string, request: RequestKey, c: Payload, size: nat): Pass
    requires c.CandidatePayload?
  {
    var sample := SamplePass(id, request, "", "", Some(200));
    sample.(env := sample.env.(disk := sample.env.disk[CandidatePath(c.orderId) := DiskFile("", size, None)]))
  }

  lemma CheckingIsReady(id: string, request: RequestKey, c: Payload, size: nat)
    requires Trim(id, JS_SPACE) == id != "" && Admissible(request) && c.CandidatePayload? && size > 0
    ensures var pass := Checking(id, request, c, size);
            Ready(pass) && About(pass, id) && RequestOfPass(pass) == request
  {
    hide Trim, IsRestricted, RealModel, NormalModel, CandidatePath, MetadataPath, PrepareCandidate, NormalizeOrder,
         LowerAll;
    var pass := Checking(id, request, c, size);
    var order := NormalizeOrder(pass.raw);
    SampleOrder(id, request, "", "", Some(200));
    SampleModelIsReal();
    ImageIsNotMetadata(id, id);
    ImageIsNotMetadata(c.orderId, id);
    PreparedIff(order, 0, pass.env.disk);
    NotYetDelivered(order);
  }

  lemma CheckedSizeOfChecking(id: string, request: RequestKey, c: Payload, size: nat)
    requires c.CandidatePayload? && c.filePath == Some(CandidatePath(c.orderId))
    ensures var pass := Checking(id, request, c, size);
            RunQc(c, NormalizeOrder(pass.raw), pass.env.disk).checks.fileSize == size
  {
    hide NormalizeOrder, Assess, IsPng, CandidatePath, MetadataPath;
  }

  lemma RejectedByQc(log: seq<Payload>, c: Payload, q: Payload)
    requires Unchecked(log, c) && q.QcPayload? && q.candidateKey == Digest(c) && q.status == FailedQc
    ensures FailedQcOnly(log + [q], c)
  {
    assert q in log + [q];
  }

  /** QC rejects the unchecked candidate of another order, and then there is room for one of this order. */
  lemma OthersCandidateIsReplaced(cap: nat, w: World, id: string, c: Payload)
    requires Inv(cap, w) && !Delivered(w.log) && |Candidates(w.log)| + 1 < cap && Trim(id, JS_SPACE) == id != ""
    requires Latest(Candidates(w.log)) == Some(c) && c.CandidatePayload? && c.orderId != id && Unchecked(w.log, c)
    requires Admissible(c.requestKey) && c.filePath == Some(CandidatePath(c.orderId))
    ensures CanBeDeliveredFor(cap, w, id, c.requestKey)
  {
    hide Inv, Delivered, NormalizeOrder, Trim, PrepareCandidate, Candidates, CanBeDeliveredFor, Step, Admissible,
         PassedQc, Unchecked, RequestOfPass, RunQc, HasIntake, Assess, CandidatePath, Checking, Ready;
    var size := Beyond(w.torn, CheckedSize);
    var pass := Checking(id, c.requestKey, c, size);
    var order := NormalizeOrder(pass.raw);
    var q := RunQc(c, order, pass.env.disk);
    LatestIsCandidate(cap, w);
    CheckingIsReady(id, c.requestKey, c, size);
    CheckedSizeOfChecking(id, c.requestKey, c, size);
    QcOfSize(c, order, pass.env.disk, size, w.torn);
    OthersCandidateHasIssue(c, order, pass.env.disk);
    assert q !in w.log by { UncheckedHasNoQc(w.log, c, q); }
    ReadyIsPreparing(pass);
    StepAtQc(cap, w, pass, c, q);
    StepKeepsInv(cap, w, pass);
    StaysOpen(cap, w, q);
    CandidatesOfAppend(w.log, q);
    RejectedByQc(w.log, c, q);
    RoomForRequest(cap, Logged(w, q), id, c.requestKey);
    FirstThen(cap, w, id, pass);
  }

  lemma UncheckedHasNoQc(log: seq<Payload>, c: Payload, q: Payload)
    requires Unchecked(log, c) && q.QcPayload? && q.candidateKey == Digest(c)
    ensures q !in log
  {
  }

  lemma ContinuedChoices(w: World, request: RequestKey)
    requires Continues(w, request)
    ensures var c := Latest(Candidates(w.log)).value;
            PassedQc(w.log, Digest(c)) || Unchecked(w.log, c)
  {
  }

  lemma FutureForDelivers(cap: nat, passes: seq<Pass>, id: string, request: RequestKey)
    requires Trim(id, JS_SPACE) == id != "" && Admissible(request)
    requires !Delivered(Reach(cap, passes).log) && HasFutureFor(cap, Reach(cap, passes), id, request)
    ensures CanBeDeliveredFor(cap, Reach(cap, passes), id, request)
  {
    hide Reach, Inv, CanBeDeliveredFor, Trim, Origin, Delivered, Candidates, Admissible, WantsCandidate,
         RetriesFailed, Frozen, FailedQcOnly, PassedQc, Unchecked, CandidatePath;
    var w := Reach(cap, passes);
    ReachInv(cap, passes);
    if Continues(w, request) {
      LatestIsCandidate(cap, w);
      var c := Latest(Candidates(w.log)).value;
      EveryRecordHasItsPass(cap, passes, c);
      var i :| 0 <= i < |passes| && Origin(passes[i], c);
      if c.orderId == id {
        CurrentCandidateDelivers(cap, w, id, passes[i], c);
      } else {
        OriginMeansPrepared(passes[i], c);
        ContinuedChoices(w, request);
        OthersCandidateIsReplaced(cap, w, id, c);
      }
    } else {
      RetriesOrWants(cap, w, request);
      RoomForRequest(cap, w, id, request);
    }
  }

  // --- exactly which -----------------------------------------------------------------------------

  lemma DeliveredForNeeds(cap: nat, w: World, more: seq<Pass>, id: string, request: RequestKey)
    requires Inv(cap, w) && AllAbout(more, id) && AllAskFor(more, request)
    requires !Delivered(w.log) && Delivered(Run(cap, w, more).log)
    ensures Trim(id, JS_SPACE) == id != "" && Admissible(request) && HasFutureFor(cap, w, id, request)
  {
    hide Run, HasFutureFor, Trim, About, RequestOfPass, Admissible, Inv, NoDelivery, DeliveredFor;
    NewDeliveryIsOwn(cap, w, more, id);
    if !Admissible(request) { InadmissibleIsNeverDelivered(cap, w, more, request); }
    if !HasFutureFor(cap, w, id, request) { NoFutureForever(cap, w, more, id, request); }
  }

  lemma NothingMoreFor(cap: nat, w: World, id: string, request: RequestKey)
    requires DeliveredFor(w.log, id)
    ensures CanBeDeliveredFor(cap, w, id, request)
  {
    assert Run(cap, w, []) == w && AllAbout([], id) && AllAskFor([], request);
  }

  /** Exactly in which stores an order can still be delivered by passes that keep to one request, whatever passes over
      this and other orders, crashes, failed calls and other requests led to them. */
  lemma StoresThatCanStillDeliverFor(cap: nat, passes: seq<Pass>, id: string, request: RequestKey)
    ensures var w := Reach(cap, passes);
            CanBeDeliveredFor(cap, w, id, request) <==>
              || DeliveredFor(w.log, id)
              || (!Delivered(w.log) && Trim(id, JS_SPACE) == id != "" && Admissible(request)
                  && HasFutureFor(cap, w, id, request))
  {
    hide Reach, Run, HasFutureFor, Trim, About, RequestOfPass, Admissible, Delivered, DeliveredFor, Inv;
    var w := Reach(cap, passes);
    ReachInv(cap, passes);
    if DeliveredFor(w.log, id) { NothingMoreFor(cap, w, id, request); }
    forall more | AllAbout(more, id) && AllAskFor(more, request) && DeliveredFor(Run(cap, w, more).log, id)
      ensures || DeliveredFor(w.log, id)
              || (!Delivered(w.log) && Trim(id, JS_SPACE) == id != "" && Admissible(request)
                  && HasFutureFor(cap, w, id, request))
    {
      if Delivered(w.log) {
        DeliveredBefore(cap, w, more, id);
      } else {
        DeliveredForIsDelivered(Run(cap, w, more).log, id);
        DeliveredForNeeds(cap, w, more, id, request);
      }
    }
    if !Delivered(w.log) && Trim(id, JS_SPACE) == id != "" && Admissible(request)
       && HasFutureFor(cap, w, id, request) {
      FutureForDelivers(cap, passes, id, request);
    }
  }

  /** So a frozen candidate is never delivered for its request, and its order for some other request exactly while
      there is room for another candidate that could be checked. */
  lemma FrozenNeedsAnotherRequest(cap: nat, passes: seq<Pass>, id: string, c: Payload)
    requires Trim(id, JS_SPACE) == id != "" && Frozen(Reach(cap, passes), c)
    ensures var w := Reach(cap, passes);
            && !CanBeDeliveredFor(cap, w, id, c.requestKey)
            && (CanBeDelivered(cap, w, id) <==> |Candidates(w.log)| + 1 < cap)
  {
    hide Reach, Trim, CanBeDelivered, CanBeDeliveredFor, HasFutureFor, Candidates, Admissible, OfAnotherOrder,
         DeliveredFor;
    var w := Reach(cap, passes);
    FrozenHasNoFuture(cap, w, id, c);
    StoresThatCanStillDeliverFor(cap, passes, id, c.requestKey);
    StoresThatCanStillDeliver(cap, passes, id);
    if DeliveredFor(w.log, id) { DeliveredForIsDelivered(w.log, id); }
    assert Stuck(w);
  }
}
