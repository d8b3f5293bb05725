/**
 Where the content of every record comes from: each record of a run was written by one of its passes, from
 what that pass was given (dizzy_poll_deliver.mjs:265-407).
 */
module Origins {
  import opened Options
  import opened Artifacts
  import opened Fulfillment
  import opened Reconciler
  import opened Preservation
  import opened Safety

  /** The candidate has no issue as this pass assesses it. */
  ghost predicate Assessed(pass: Pass, k: Key) {
    k.payload.CandidatePayload? && Assess(k.payload, NormalizeOrder(pass.raw), pass.env.disk) == []
  }

  ghost predicate AssessedUpload(pass: Pass, k: Key) {
    k.payload.UploadPayload? && Assessed(pass, k.payload.candidateKey)
  }

  /** The pass could write this record: its content is the polled order, the prepared files, the checks or the
      reply of that pass. */
  ghost predicate Origin(pass: Pass, p: Payload) {
    var order := NormalizeOrder(pass.raw);
    match p
    case IntakePayload(o) => o == order
    case CandidatePayload(_, _, attempt, _, _, _, _, _, _, _, _) =>
      && pass.mode != DryRun && order.brief != "" && !IsRestricted(order.brief)
      && attempt > 0 && PrepareCandidate(order, attempt - 1, pass.env.disk) == Prepared(p)
    case QcPayload(k, _, _) =>
      pass.mode != DryRun && k.payload.CandidatePayload? && p == RunQc(k.payload, order, pass.env.disk)
    case PendingUpload(k, request) =>
      pass.mode == ManualDelivery && Assessed(pass, k) && request == ExpectedRequestKey(order)
    case UploadPayload(k, url, mediaType) =>
      pass.mode == ManualDelivery && Assessed(pass, k) && pass.env.uploadReply == Some(UploadReply(url, mediaType))
    case PendingDeliver(k, request) =>
      && pass.mode == ManualDelivery && order.orderId in AllowedIds(pass) && AssessedUpload(pass, k)
      && request == ExpectedRequestKey(order)
    case DeliveryPayload(k, _, _, status) =>
      && pass.mode == ManualDelivery && order.orderId in AllowedIds(pass) && AssessedUpload(pass, k)
      && pass.env.deliverReply == Some(status)
    case DiagnosticPayload(mode, _, _, _, _) => mode == pass.mode
  }

  ghost predicate WritesFrom(pass: Pass, effects: seq<Effect>) {
    forall i :: 0 <= i < |effects| && effects[i].Write? ==> Origin(pass, effects[i].payload)
  }

  lemma PlanWritesFromPass(pass: Pass, cap: nat, f: Facts, policy: Policy)
    requires WellTyped(f) && f.currentRequestKey == ExpectedRequestKey(NormalizeOrder(pass.raw))
    requires policy == EvaluatePolicies(NormalizeOrder(pass.raw), f, cap)
    requires f.latestUpload.Some? ==>
               f.latestCandidate.Some? && f.latestUpload.value.candidateKey == Digest(f.latestCandidate.value)
    ensures WritesFrom(pass, Plan(NormalizeOrder(pass.raw), ConfigOf(cap, pass), pass.env, f, policy))
  {
    hide NormalizeOrder, Assess, ExpectedRequestKey, EvaluatePolicies, IsRestricted;
    if policy.decision == Allow { AllowedMeansNoReason(NormalizeOrder(pass.raw), f, cap); }
  }

  lemma {:induction false} PerformAdds(w: World, effects: seq<Effect>, fault: Fault, p: Payload)
    requires p in Perform(w, effects, fault).log
    ensures p in w.log || Write(p) in effects
    decreases |effects|
  {
    if effects != [] && fault != CrashBefore(0) {
      var rest := effects[1..];
      match effects[0]
      case Invoke(c) => if fault != TearAt(0) { PerformAdds(Called(w, c), rest, Later(fault), p); }
      case Write(q) =>
        if q !in w.torn {
          if q in w.log { PerformAdds(w, rest, Later(fault), p); }
          else if fault != TearAt(0) { PerformAdds(Logged(w, q), rest, Later(fault), p); }
        }
    }
  }

  lemma UploadIsOfCandidate(order: Order, log: seq<Payload>)
    ensures var f := DeriveFacts(order, ViewOf(log));
            f.latestUpload.Some? ==> && f.latestUpload.value.UploadPayload? && f.latestCandidate.Some?
                                     && f.latestUpload.value.candidateKey == Digest(f.latestCandidate.value)
  {
  }

  lemma StepWritesFromPass(cap: nat, w: World, pass: Pass, p: Payload)
    requires p in Step(cap, w, pass).log && p !in w.log
    ensures Origin(pass, p)
  {
    hide Plan, Perform, EvaluatePolicies, NormalizeOrder, Origin, ViewOf;
    var order := NormalizeOrder(pass.raw);
    FactsAreWellTyped(order, w.log);
    var f := DeriveFacts(order, ViewOf(w.log));
    var plan := PlanOf(cap, w.log, pass);
    UploadIsOfCandidate(order, w.log);
    PlanWritesFromPass(pass, cap, f, EvaluatePolicies(order, f, cap));
    PerformAdds(w, plan, pass.fault, p);
    var i :| 0 <= i < |plan| && plan[i] == Write(p);
  }

  /** A record that was not there before comes from one of the passes since. */
  lemma {:induction false} NewRecordHasItsPass(cap: nat, w: World, passes: seq<Pass>, p: Payload)
    requires p in Run(cap, w, passes).log && p !in w.log
    ensures exists i :: 0 <= i < |passes| && Origin(passes[i], p)
  {
    hide Step, Origin;
    var n := |passes| - 1;
    assert passes != [];
    var before := Run(cap, w, passes[..n]);
    if p in before.log {
      NewRecordHasItsPass(cap, w, passes[..n], p);
      var i :| 0 <= i < n && Origin(passes[..n][i], p);
      assert Origin(passes[i], p);
    } else {
      StepWritesFromPass(cap, before, passes[n], p);
    }
  }

  /** Every record has its pass: an upload repeats the reply of the upload service, a delivery the status of the
      delivery service, both for a candidate that this pass assessed, a candidate the prepared files, and a QC record
      the checks, of one manual or generating pass of the run. */
  lemma EveryRecordHasItsPass(cap: nat, passes: seq<Pass>, p: Payload)
    requires p in Reach(cap, passes).log
    ensures exists i :: 0 <= i < |passes| && Origin(passes[i], p)
  {
    hide Run, Origin;
    NewRecordHasItsPass(cap, EMPTY, passes, p);
  }
}
