/**
 What holds over every run of the reconciler: any number of passes, each with its own order, mode,
 allowlist, environment and crash.
 */
module Safety {
  import opened Options
  import opened Artifacts
  import opened Fulfillment
  import opened Text
  import opened Reconciler
  import opened Invariant
  import opened Preservation

  ghost function Reach(cap: nat, passes: seq<Pass>): World {
    Run(cap, EMPTY, passes)
  }

  lemma ReachInv(cap: nat, passes: seq<Pass>)
    ensures Inv(cap, Reach(cap, passes))
  {
    EmptyInv(cap);
    RunKeepsInv(cap, EMPTY, passes);
  }

  lemma {:induction false} RunConcat(cap: nat, w: World, first: seq<Pass>, second: seq<Pass>)
    ensures Run(cap, w, first + second) == Run(cap, Run(cap, w, first), second)
  {
    if second == [] {
      assert first + second == first;
    } else {
      var n := |second| - 1;
      assert (first + second)[..|first + second| - 1] == first + second[..n];
      RunConcat(cap, w, first, second[..n]);
    }
  }

  // --- the store only grows ----------------------------------------------------------------------

  ghost predicate Grows(w: World, w': World) {
    w.log <= w'.log && w.calls <= w'.calls && w.torn <= w'.torn
  }

  lemma {:induction false} PerformGrows(w: World, effects: seq<Effect>, fault: Fault)
    ensures Grows(w, Perform(w, effects, fault))
    decreases |effects|
  {
    if effects != [] {
      match effects[0]
      case Invoke(c) => PerformGrows(Called(w, c), effects[1..], Later(fault));
      case Write(p) =>
        PerformGrows(w, effects[1..], Later(fault));
        PerformGrows(Logged(w, p), effects[1..], Later(fault));
    }
  }

  /** No run ever removes, changes or reorders a record or forgets a call. */
  lemma {:induction false} RunGrows(cap: nat, w: World, passes: seq<Pass>)
    ensures Grows(w, Run(cap, w, passes))
  {
    if passes != [] {
      var before := Run(cap, w, passes[..|passes| - 1]);
      var last := passes[|passes| - 1];
      RunGrows(cap, w, passes[..|passes| - 1]);
      if NormalizeOrder(last.raw).orderId != "" {
        PerformGrows(before, PlanOf(cap, before.log, last), last.fault);
      }
    }
  }

  /** The intent that announces a call. */
  ghost function IntentOf(c: Call): Option<Payload> {
    match c
    case UploadCall(k, _) => if k.payload.CandidatePayload? then Some(PendingUpload(k, k.payload.requestKey)) else None
    case DeliverCall(k, _, _, _) =>
      if k.payload.UploadPayload? && k.payload.candidateKey.payload.CandidatePayload?
        then Some(PendingDeliver(k, RequestOf(k)))
      else None
  }

  /** A record left half-written by a crash is never completed, and if it is an intent its call is never made. */
  lemma TornRecordsStayTorn(cap: nat, passes: seq<Pass>, more: seq<Pass>, p: Payload)
    requires p in Reach(cap, passes).torn
    ensures var w := Reach(cap, passes + more);
            p in w.torn && p !in w.log && forall c :: c in w.calls ==> IntentOf(c) != Some(p)
  {
    hide Run, CandidatesOk, QcOk, CausalOk, ReplacementOk, PendingUploadsOk, UploadsOk, PendingDeliversOk,
         DeliveriesOk;
    var w := Reach(cap, passes + more);
    RunConcat(cap, EMPTY, passes, more);
    RunGrows(cap, Reach(cap, passes), more);
    ReachInv(cap, passes + more);
    forall c | c in w.calls ensures IntentOf(c) != Some(p) {
      assert CallOk(w.log, c);
    }
  }

  // --- at most one call per key ------------------------------------------------------------------

  /** Over every run, an upload is attempted at most once per candidate and a delivery at most once
      per upload, and the intent of every call is durable. */
  lemma AtMostOneCallPerKey(cap: nat, passes: seq<Pass>)
    ensures var w := Reach(cap, passes);
            && (forall i, j :: 0 <= i < j < |w.calls| ==> TargetOf(w.calls[i]) != TargetOf(w.calls[j]))
            && (forall c :: c in w.calls ==> CallOk(w.log, c))
  {
    ReachInv(cap, passes);
  }

  // --- absorbing situations ----------------------------------------------------------------------

  /** Nothing but notes was added. */
  ghost predicate SameWork(w: World, w': World) {
    && w'.calls == w.calls
    && Group(w'.log, CandidateKind) == Group(w.log, CandidateKind)
    && Group(w'.log, QcKind) == Group(w.log, QcKind)
    && Group(w'.log, UploadKind) == Group(w.log, UploadKind)
    && Group(w'.log, DeliveryKind) == Group(w.log, DeliveryKind)
    && Group(w'.log, PendingKind) == Group(w.log, PendingKind)
  }

  lemma NoteLeavesGroups(log: seq<Payload>, p: Payload, kind: Kind)
    requires IsNote(p) && kind != IntakeKind && kind != DiagnosticKind
    ensures Group(log + [p], kind) == Group(log, kind)
  {
    GroupAppend(log, p, kind);
  }

  lemma NoteIsNotWork(w: World, p: Payload, fault: Fault)
    requires IsNote(p)
    ensures SameWork(w, Perform(w, [Write(p)], fault))
  {
    PerformOne(w, p, fault);
    var w' := Perform(w, [Write(p)], fault);
    assert w' == w || w' == Tear(w, p) || w' == Logged(w, p);
    NoteLeavesGroups(w.log, p, CandidateKind);
    NoteLeavesGroups(w.log, p, QcKind);
    NoteLeavesGroups(w.log, p, UploadKind);
    NoteLeavesGroups(w.log, p, DeliveryKind);
    NoteLeavesGroups(w.log, p, PendingKind);
  }

  /** The cap is used up, or the order was delivered. */
  ghost predicate Closed(cap: nat, w: World) {
    |Candidates(w.log)| == cap || exists d :: d in w.log && d.DeliveryPayload?
  }

  lemma ClosedPolicyBlocks(cap: nat, w: World, order: Order, f: Facts)
    requires Inv(cap, w) && |Candidates(w.log)| == cap && f == DeriveFacts(order, ViewOf(w.log))
    ensures EvaluatePolicies(order, f, cap).decision != Allow
  {
    if EvaluatePolicies(order, f, cap).decision == Allow {
      AllowedMeansBelowCap(cap, w, order);
    }
  }

  lemma ClosedStep(cap: nat, w: World, pass: Pass)
    requires Inv(cap, w) && Closed(cap, w)
    ensures SameWork(w, Step(cap, w, pass)) && Closed(cap, Step(cap, w, pass))
  {
    hide FilesOk, CandidatesOk, QcOk, CausalOk, ReplacementOk, PendingUploadsOk, UploadsOk, PendingDeliversOk,
         DeliveriesOk, CallsOk, Perform, DeriveFacts, EvaluatePolicies, ViewOf, NormalizeOrder, Group;
    var order := NormalizeOrder(pass.raw);
    if order.orderId != "" {
      FactsAreWellTyped(order, w.log);
      var f := DeriveFacts(order, ViewOf(w.log));
      var policy := EvaluatePolicies(order, f, cap);
      var action := DecideNextAction(f, policy);
      if |Candidates(w.log)| == cap {
        ClosedPolicyBlocks(cap, w, order, f);
      } else {
        var d :| d in w.log && d.DeliveryPayload?;
        DeliveryIsSeen(w.log, order, d);
      }
      assert action.kind in {Noop, WriteIntake, WriteDiagnostic};
      var event := if action.kind == Noop then NoopEvent else PolicyGate;
      var p := if action.kind == WriteIntake then IntakePayload(order)
               else DiagnosticPayload(pass.mode, action.reason, policy.decision, policy.reasons, event);
      assert PlanOf(cap, w.log, pass) == [Write(p)];
      NoteIsNotWork(w, p, pass.fault);
      PerformGrows(w, [Write(p)], pass.fault);
      if d :| d in w.log && d.DeliveryPayload? {
        assert d in Step(cap, w, pass).log;
      }
    }
  }

  /** Once closed, no further pass does anything but write notes. */
  lemma {:induction false} ClosedForever(cap: nat, w: World, passes: seq<Pass>)
    requires Inv(cap, w) && Closed(cap, w)
    ensures SameWork(w, Run(cap, w, passes)) && Closed(cap, Run(cap, w, passes))
  {
    if passes != [] {
      var before := passes[..|passes| - 1];
      ClosedForever(cap, w, before);
      RunKeepsInv(cap, w, before);
      ClosedStep(cap, Run(cap, w, before), passes[|passes| - 1]);
    }
  }

  /** The number of candidates never exceeds the cap, and from the moment it reaches the cap no
      quality check, upload or delivery ever happens again. */
  lemma CapIsNeverExceededAndIsTerminal(cap: nat, passes: seq<Pass>, more: seq<Pass>)
    ensures |Candidates(Reach(cap, passes).log)| <= cap
    ensures |Candidates(Reach(cap, passes).log)| == cap ==>
              SameWork(Reach(cap, passes), Reach(cap, passes + more))
  {
    ReachInv(cap, passes);
    RunConcat(cap, EMPTY, passes, more);
    if |Candidates(Reach(cap, passes).log)| == cap {
      ClosedForever(cap, Reach(cap, passes), more);
    }
  }

  /** There is at most one delivery record, and writing it is absorbing: no later pass adds a
      candidate, a QC record, a pending record, an upload or a delivery, or makes a call. */
  lemma DeliveryIsFinal(cap: nat, passes: seq<Pass>, more: seq<Pass>)
    ensures |Group(Reach(cap, passes).log, DeliveryKind)| <= 1
    ensures Group(Reach(cap, passes).log, DeliveryKind) != [] ==>
              SameWork(Reach(cap, passes), Reach(cap, passes + more))
  {
    hide CandidatesOk, QcOk, CausalOk, ReplacementOk, PendingUploadsOk, UploadsOk, PendingDeliversOk, CallsOk, Run;
    var w := Reach(cap, passes);
    ReachInv(cap, passes);
    RunConcat(cap, EMPTY, passes, more);
    GroupIsDistinct(w.log, DeliveryKind);
    var d := Group(w.log, DeliveryKind);
    if |d| >= 2 { TwoAreDifferent(d); }
    if d != [] {
      assert d[0] in d;
      ClosedForever(cap, w, more);
    }
  }

  lemma TwoAreDifferent(s: seq<Payload>)
    requires Distinct(s) && |s| >= 2
    ensures exists p, q :: p in s && q in s && p != q
  {
    assert s[0] in s && s[1] in s && s[0] != s[1];
  }

  lemma {:induction false} NoneOfKind(log: seq<Payload>, kind: Kind)
    requires forall p :: p in log ==> KindOf(p) != kind
    ensures Group(log, kind) == []
  {
    if log != [] { NoneOfKind(log[..|log| - 1], kind); }
  }

  lemma {:induction false} GroupIsDistinct(log: seq<Payload>, kind: Kind)
    requires Distinct(log)
    ensures Distinct(Group(log, kind))
  {
    if log != [] {
      var n := |log| - 1;
      GroupIsDistinct(log[..n], kind);
      var g := Group(log[..n], kind);
      forall i | 0 <= i < |g| ensures g[i] != log[n] {
        assert g[i] in g;
      }
    }
  }

  // --- who may act -------------------------------------------------------------------------------

  /** A pass that may make this call: in manual mode, for an admissible brief, with the candidate
      prepared for this very order and request; deliveries also need the order on the allowlist. */
  ghost predicate Justifies(pass: Pass, c: Call) {
    var order := NormalizeOrder(pass.raw);
    && pass.mode == ManualDelivery
    && order.brief != "" && !IsRestricted(order.brief)
    && match c
       case UploadCall(k, path) =>
         k.payload.CandidatePayload? && Assess(k.payload, order, pass.env.disk) == []
       case DeliverCall(k, orderId, url, mediaType) =>
         && orderId == order.orderId && order.orderId in AllowedIds(pass) && url != "" && mediaType != ""
         && k.payload.UploadPayload? && k.payload.candidateKey.payload.CandidatePayload?
         && Assess(k.payload.candidateKey.payload, order, pass.env.disk) == []
  }

  /** No call, or one call the pass is entitled to. */
  ghost predicate FairCalls(pass: Pass, calls: seq<Call>, calls': seq<Call>) {
    calls' == calls || (calls' != [] && calls'[..|calls'| - 1] == calls && Justifies(pass, calls'[|calls'| - 1]))
  }

  lemma ExchangeCalls(w: World, intent: Payload, call: Call, completion: Option<Payload>, pass: Pass)
    requires intent !in w.log && Justifies(pass, call)
    ensures FairCalls(pass, w.calls, Perform(w, Exchange(intent, call, completion), pass.fault).calls)
  {
    hide Justifies, Perform, Exchange;
    PerformExchange(w, intent, call, completion, pass.fault);
    assert (w.calls + [call])[..|w.calls|] == w.calls;
  }

  lemma WriteMakesNoCall(w: World, p: Payload, fault: Fault)
    ensures Perform(w, [Write(p)], fault).calls == w.calls
  {
  }

  lemma UploadPlanCalls(cap: nat, w: World, pass: Pass, order: Order, f: Facts, policy: Policy, action: Action)
    requires Inv(cap, w) && Situation(cap, w, pass, order, f, policy, action) && action.kind == UploadAsset
    requires WellTyped(f)
    ensures var plan := PlanUpload(order, ConfigOf(cap, pass), pass.env, f, policy, action);
            FairCalls(pass, w.calls, Perform(w, plan, pass.fault).calls)
  {
    hide FilesOk, CandidatesOk, QcOk, CausalOk, ReplacementOk, PendingUploadsOk, UploadsOk, PendingDeliversOk,
         DeliveriesOk, CallsOk, Perform, ViewOf, NormalizeOrder, Assess, Group;
    var c := f.latestCandidate.value;
    var plan := PlanUpload(order, ConfigOf(cap, pass), pass.env, f, policy, action);
    AllowedMeansBelowCap(cap, w, order);
    if pass.mode == ManualDelivery && c.filePath.Some? && Assess(c, order, pass.env.disk) == [] {
      UploadNotYetAnnounced(w, order, f);
      var k := Digest(c);
      ExchangeCalls(w, PendingUpload(k, f.currentRequestKey), UploadCall(k, c.filePath.value),
                    UploadCompletion(k, pass.env.uploadReply), pass);
    } else {
      assert plan == [plan[0]] && plan[0].Write?;
      WriteMakesNoCall(w, plan[0].payload, pass.fault);
    }
  }

  lemma DeliverCallIsJustified(pass: Pass, order: Order, u: Payload, c: Payload)
    requires order == NormalizeOrder(pass.raw) && order.brief != "" && !IsRestricted(order.brief)
    requires pass.mode == ManualDelivery && order.orderId in AllowedIds(pass)
    requires u.UploadPayload? && u.url != "" && u.mediaType != "" && u.candidateKey == Digest(c)
    requires c.CandidatePayload? && Assess(c, order, pass.env.disk) == []
    ensures Justifies(pass, DeliverCall(Digest(u), order.orderId, u.url, u.mediaType))
  {
  }

  lemma DeliverPlanCalls(cap: nat, w: World, pass: Pass, order: Order, f: Facts, policy: Policy, action: Action)
    requires Inv(cap, w) && Situation(cap, w, pass, order, f, policy, action) && action.kind == DeliverAsset
    requires WellTyped(f)
    ensures var plan := PlanDeliver(order, ConfigOf(cap, pass), pass.env, f, policy, action);
            FairCalls(pass, w.calls, Perform(w, plan, pass.fault).calls)
  {
    hide FilesOk, CandidatesOk, QcOk, CausalOk, ReplacementOk, PendingUploadsOk, UploadsOk, PendingDeliversOk,
         DeliveriesOk, CallsOk, Perform, ViewOf, NormalizeOrder, Assess, Group;
    var u, c := f.latestUpload.value, f.latestCandidate.value;
    var plan := PlanDeliver(order, ConfigOf(cap, pass), pass.env, f, policy, action);
    if pass.mode == ManualDelivery && order.orderId in AllowedIds(pass) && u.url != "" && u.mediaType != ""
       && Assess(c, order, pass.env.disk) == []
    {
      assert order.brief != "" && !IsRestricted(order.brief) by { AllowedMeansBelowCap(cap, w, order); }
      assert u.candidateKey == Digest(c)
             && forall p :: p in w.log && p.PendingDeliver? ==> p.uploadKey != Digest(u) by {
        DeliveryNotYetAnnounced(cap, w, order, f);
      }
      DeliverCallIsJustified(pass, order, u, c);
      ExchangeCalls(w, PendingDeliver(Digest(u), f.currentRequestKey),
                    DeliverCall(Digest(u), order.orderId, u.url, u.mediaType),
                    DeliverCompletion(u, pass.env.deliverReply), pass);
    } else {
      assert plan == [plan[0]] && plan[0].Write?;
      WriteMakesNoCall(w, plan[0].payload, pass.fault);
    }
  }

  /** One pass makes at most one external call, and only a call it is entitled to. */
  lemma StepCalls(cap: nat, w: World, pass: Pass)
    requires Inv(cap, w)
    ensures FairCalls(pass, w.calls, Step(cap, w, pass).calls)
  {
    hide FilesOk, CandidatesOk, QcOk, CausalOk, ReplacementOk, PendingUploadsOk, UploadsOk, PendingDeliversOk,
         DeliveriesOk, CallsOk, PlanUpload, PlanDeliver, Perform, DeriveFacts, EvaluatePolicies, ViewOf,
         NormalizeOrder;
    var order := NormalizeOrder(pass.raw);
    if order.orderId != "" {
      FactsAreWellTyped(order, w.log);
      var f := DeriveFacts(order, ViewOf(w.log));
      var policy := EvaluatePolicies(order, f, cap);
      var action := DecideNextAction(f, policy);
      var plan := PlanOf(cap, w.log, pass);
      if action.kind == UploadAsset {
        UploadPlanCalls(cap, w, pass, order, f, policy, action);
      } else if action.kind == DeliverAsset {
        DeliverPlanCalls(cap, w, pass, order, f, policy, action);
      } else {
        OtherPlansOnlyWrite(order, ConfigOf(cap, pass), pass.env, f, policy);
        WriteMakesNoCall(w, plan[0].payload, pass.fault);
      }
    }
  }

  lemma OtherPlansOnlyWrite(order: Order, config: Config, env: Environment, f: Facts, policy: Policy)
    requires WellTyped(f) && DecideNextAction(f, policy).kind !in {UploadAsset, DeliverAsset}
    ensures var plan := Plan(order, config, env, f, policy);
            |plan| == 1 && plan[0].Write? && plan == [Write(plan[0].payload)]
  {
  }

  lemma FairCallsOrigin(pass: Pass, calls: seq<Call>, calls': seq<Call>, c: Call)
    requires FairCalls(pass, calls, calls') && c in calls'
    ensures c in calls || Justifies(pass, c)
  {
  }

  lemma LastPassCalls(cap: nat, passes: seq<Pass>)
    requires passes != []
    ensures var n := |passes| - 1;
            FairCalls(passes[n], Reach(cap, passes[..n]).calls, Reach(cap, passes).calls)
  {
    ReachInv(cap, passes[..|passes| - 1]);
    StepCalls(cap, Reach(cap, passes[..|passes| - 1]), passes[|passes| - 1]);
  }

  /** Every call ever made was made by a pass entitled to it. */
  lemma {:induction false} EveryCallHasItsPass(cap: nat, passes: seq<Pass>, c: Call)
    requires c in Reach(cap, passes).calls
    ensures exists i :: 0 <= i < |passes| && Justifies(passes[i], c)
  {
    hide FairCalls, Justifies, Step;
    var n := |passes| - 1;
    assert passes != [];
    var before := Reach(cap, passes[..n]);
    LastPassCalls(cap, passes);
    FairCallsOrigin(passes[n], before.calls, Reach(cap, passes).calls, c);
    if c in before.calls {
      EveryCallHasItsPass(cap, passes[..n], c);
      var i :| 0 <= i < n && Justifies(passes[..n][i], c);
      assert Justifies(passes[i], c);
    }
  }

  /** Without a manual pass nothing leaves the machine. */
  lemma UnattendedRunsMakeNoCall(cap: nat, passes: seq<Pass>)
    requires forall i :: 0 <= i < |passes| ==> passes[i].mode != ManualDelivery
    ensures Reach(cap, passes).calls == []
  {
    var calls := Reach(cap, passes).calls;
    if calls != [] {
      EveryCallHasItsPass(cap, passes, calls[0]);
    }
  }

  lemma DryStepOnlyTakesNotes(cap: nat, w: World, pass: Pass)
    requires pass.mode == DryRun && Candidates(w.log) == []
    ensures NormalizeOrder(pass.raw).orderId != "" ==>
              exists p :: IsNote(p) && PlanOf(cap, w.log, pass) == [Write(p)]
  {
    var order := NormalizeOrder(pass.raw);
    FactsAreWellTyped(order, w.log);
    var f := DeriveFacts(order, ViewOf(w.log));
    var plan := PlanOf(cap, w.log, pass);
    assert f.latestCandidate.None?;
    assert plan == [plan[0]] && plan[0].Write? && IsNote(plan[0].payload);
  }

  /** A run wholly in dry-run mode leaves only intake and diagnostic artifacts. */
  lemma {:induction false} DryRunsOnlyTakeNotes(cap: nat, passes: seq<Pass>)
    requires forall i :: 0 <= i < |passes| ==> passes[i].mode == DryRun
    ensures forall p :: p in Reach(cap, passes).log ==> IsNote(p)
  {
    hide PlanOf, Group, NormalizeOrder;
    if passes != [] {
      var n := |passes| - 1;
      var w := Reach(cap, passes[..n]);
      DryRunsOnlyTakeNotes(cap, passes[..n]);
      NoneOfKind(w.log, CandidateKind);
      DryStepOnlyTakesNotes(cap, w, passes[n]);
      if NormalizeOrder(passes[n].raw).orderId != "" {
        var p :| IsNote(p) && PlanOf(cap, w.log, passes[n]) == [Write(p)];
        PerformOne(w, p, passes[n].fault);
      }
    }
  }

  // --- provenance --------------------------------------------------------------------------------

  /** Where every record comes from, in any reachable store: the records it depends on were written
      before it, a candidate has at most one QC record and at most one upload, and a delivery repeats
      the URL of its upload. */
  lemma Provenance(cap: nat, passes: seq<Pass>)
    ensures var log := Reach(cap, passes).log;
            && Distinct(log)
            && (forall j :: 0 <= j < |log| ==> Caused(log[..j], log[j]))
            && OneQcPerCandidate(log)
            && OneUploadPerCandidate(log)
            && (forall u :: u in log && u.UploadPayload? ==> PassedQc(log, u.candidateKey))
            && (forall d :: d in log && d.DeliveryPayload? ==>
                  NamesUpload(log, d.uploadKey) && d.url == d.uploadKey.payload.url
                  && d.mediaType == d.uploadKey.payload.mediaType)
  {
    ReachInv(cap, passes);
  }

  lemma AllowedIdsAreTrimmed(pass: Pass, id: string)
    requires id in AllowedIds(pass)
    ensures Trim(id, JS_SPACE) == id != ""
  {
    hide Trim;
    var e :| e in pass.allowlist && Trim(e, JS_SPACE) != "" && id == Trim(e, JS_SPACE);
    TrimIdempotent(e, JS_SPACE);
  }

  /** A completed delivery was asked for by a manual pass for an allowlisted order whose request is the
      one the delivered candidate was prepared for. */
  lemma DeliveriesWereOrdered(cap: nat, passes: seq<Pass>, d: Payload)
    requires d in Reach(cap, passes).log && d.DeliveryPayload?
    ensures exists i :: 0 <= i < |passes| && passes[i].mode == ManualDelivery
                        && NormalizeOrder(passes[i].raw).orderId in AllowedIds(passes[i])
                        && d.uploadKey.payload.UploadPayload?
                        && d.uploadKey.payload.candidateKey.payload.CandidatePayload?
                        && RequestOf(d.uploadKey) == ExpectedRequestKey(NormalizeOrder(passes[i].raw))
                        && d.uploadKey.payload.candidateKey.payload.orderId
                           == FulfilledId(NormalizeOrder(passes[i].raw))
  {
    hide FilesOk, CandidatesOk, QcOk, CausalOk, ReplacementOk, PendingUploadsOk, UploadsOk, PendingDeliversOk, Run;
    var w := Reach(cap, passes);
    ReachInv(cap, passes);
    var c :| c in w.calls && TargetOf(c) == d.uploadKey;
    assert CallOk(w.log, c);
    EveryCallHasItsPass(cap, passes, c);
    var i :| 0 <= i < |passes| && Justifies(passes[i], c);
    assert c.DeliverCall?;
  }
}
