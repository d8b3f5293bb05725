/**
 Every pass keeps the invariant: what the gates of `decideNextAction` establish is what each write
 and each external call needs.
 */
module Preservation {
  import opened Options
  import opened Artifacts
  import opened Fulfillment
  import opened Reconciler
  import opened Invariant

  // --- performing a plan -------------------------------------------------------------------------

  lemma PerformWrite(cap: nat, w: World, p: Payload, fault: Fault)
    requires Inv(cap, w)
    requires p !in w.log ==> MayAppend(cap, w.log, w.calls, p)
    ensures Inv(cap, Perform(w, [Write(p)], fault))
  {
    PerformOne(w, p, fault);
    if p !in w.log && p !in w.torn {
      AddTorn(cap, w, p);
      AddRecord(cap, w, p);
    }
  }

  /** All that an exchange can leave behind, crashes included. */
  ghost predicate ExchangeOutcome(w: World, intent: Payload, call: Call, completion: Option<Payload>, w': World) {
    var announced := Logged(w, intent);
    var called := Called(announced, call);
    || w' == w
    || (intent !in w.torn && (w' == Tear(w, intent) || w' == announced || w' == called
        || (completion.Some? && completion.value !in called.torn && completion.value !in called.log
            && (w' == Tear(called, completion.value) || w' == Logged(called, completion.value)))))
  }

  lemma PerformExchange(w: World, intent: Payload, call: Call, completion: Option<Payload>, fault: Fault)
    requires intent !in w.log
    ensures ExchangeOutcome(w, intent, call, completion, Perform(w, Exchange(intent, call, completion), fault))
  {
    var announced := Logged(w, intent);
    ExchangeSteps(w, intent, call, completion, fault);
    CallSteps(announced, call, completion, Later(fault));
    if completion.Some? { PerformOne(Called(announced, call), completion.value, Later(Later(fault))); }
  }

  lemma ExchangeKeepsInv(cap: nat, w: World, intent: Payload, call: Call, completion: Option<Payload>, fault: Fault)
    requires Inv(cap, w) && intent !in w.log && MayAppend(cap, w.log, w.calls, intent)
    requires CallOk(w.log + [intent], call) && !WasCalled(w.calls, TargetOf(call))
    requires completion.Some? ==> MayAppend(cap, w.log + [intent], w.calls + [call], completion.value)
    ensures Inv(cap, Perform(w, Exchange(intent, call, completion), fault))
  {
    PerformExchange(w, intent, call, completion, fault);
    if intent !in w.torn {
      AddTorn(cap, w, intent);
      AddRecord(cap, w, intent);
      var announced := Logged(w, intent);
      AddCall(cap, announced, call);
      var called := Called(announced, call);
      if completion.Some? && completion.value !in called.torn && completion.value !in called.log {
        AddTorn(cap, called, completion.value);
        AddRecord(cap, called, completion.value);
      }
    }
  }

  // --- what the gates establish ------------------------------------------------------------------

  lemma IntakeIsSeen(order: Order, log: seq<Payload>)
    ensures DeriveFacts(order, ViewOf(log)).hasIntake <==> HasIntake(log)
  {
    var g := Group(log, IntakeKind);
    if |g| > 0 { assert g[0] in g; }
    if p :| p in log && p.IntakePayload? { assert p in g; }
  }

  /** The latest candidate is the one numbered by the count. */
  lemma LatestCandidateIsLast(cap: nat, log: seq<Payload>)
    requires CandidatesOk(cap, log) && Candidates(log) != []
    ensures var c := Candidates(log)[|Candidates(log)| - 1];
            c.CandidatePayload? && c in log && c.attempt == |Candidates(log)|
  {
    var c := Candidates(log);
    assert c[|c| - 1] in c;
  }

  lemma AllowedMeansNoReason(order: Order, f: Facts, cap: nat)
    requires EvaluatePolicies(order, f, cap).decision == Allow
    ensures order.brief != "" && !IsRestricted(order.brief)
    ensures f.candidateCount < cap || f.HasQcPass()
  {
    hide IsRestricted;
    var reasons := PolicyReasons(order, f, cap);
    assert f.candidateCount >= cap && !f.HasQcPass() ==> IterationCapReached(cap) in reasons;
    assert IsRestricted(order.brief) ==> RestrictedContent in reasons;
    assert order.brief == "" ==> MissingBrief in reasons;
    assert Blocks(IterationCapReached(cap)) && Blocks(RestrictedContent);
  }

  /** A candidate that passed QC is below the cap. */
  lemma QcPassMeansBelowCap(cap: nat, log: seq<Payload>, order: Order)
    requires CandidatesOk(cap, log) && QcOk(cap, log) && DeriveFacts(order, ViewOf(log)).HasQcPass()
    ensures |Candidates(log)| < cap
  {
    var q := DeriveFacts(order, ViewOf(log)).latestQc.value;
    assert q in log;
    LatestCandidateIsLast(cap, log);
  }

  /** An allowing policy means there is room for another candidate, even when the cap was waived
      because the latest candidate passed QC. */
  lemma AllowedMeansBelowCap(cap: nat, w: World, order: Order)
    requires Inv(cap, w)
    requires var f := DeriveFacts(order, ViewOf(w.log)); EvaluatePolicies(order, f, cap).decision == Allow
    ensures |Candidates(w.log)| < cap
    ensures order.brief != "" && !IsRestricted(order.brief)
  {
    hide CandidatesOk, QcOk, EvaluatePolicies, IsRestricted, FilesOk, CausalOk, ReplacementOk, PendingUploadsOk,
         UploadsOk, PendingDeliversOk, DeliveriesOk, CallsOk, Group;
    var f := DeriveFacts(order, ViewOf(w.log));
    AllowedMeansNoReason(order, f, cap);
    if f.HasQcPass() { QcPassMeansBelowCap(cap, w.log, order); }
  }

  /** The upload of the latest candidate is seen. */
  lemma UploadOfLatestIsSeen(log: seq<Payload>, order: Order, u: Payload)
    requires UploadsOk(log) && u in log && u.UploadPayload?
    requires Latest(Candidates(log)) == Some(u.candidateKey.payload)
    ensures DeriveFacts(order, ViewOf(log)).latestUpload == Some(u)
  {
    hide Group, LatestFor, Latest, HasUnresolvedUpload, HasUnresolvedDelivery;
    OnlyMatchIsLatest(Group(log, UploadKind), CandidateRef, u.candidateKey.payload, u);
  }

  /** A delivery anywhere in the store is seen as the delivery of the latest upload. */
  lemma DeliveryIsSeen(log: seq<Payload>, order: Order, d: Payload)
    requires DeliveriesOk(log) && UploadsOk(log) && d in log && d.DeliveryPayload?
    ensures DeriveFacts(order, ViewOf(log)).latestDelivery.Some?
  {
    hide Group, LatestFor, Latest, UploadsOk, HasUnresolvedUpload, HasUnresolvedDelivery;
    UploadOfLatestIsSeen(log, order, d.uploadKey.payload);
    assert d in Group(log, DeliveryKind) && UploadRef(d) == Some(d.uploadKey);
  }

  lemma NoneSeenMeansNoDelivery(cap: nat, w: World, order: Order)
    requires Inv(cap, w)
    requires DeriveFacts(order, ViewOf(w.log)).latestDelivery.None?
    ensures NoDelivery(w.log)
  {
    if d :| d in w.log && d.DeliveryPayload? {
      DeliveryIsSeen(w.log, order, d);
    }
  }

  /** Every call was announced. */
  lemma CallsWereAnnounced(log: seq<Payload>, calls: seq<Call>, k: Key)
    requires CallsOk(log, calls) && WasCalled(calls, k)
    ensures k.payload.CandidatePayload? ==> PendingUpload(k, k.payload.requestKey) in log
    ensures !k.payload.CandidatePayload? ==> NamesUpload(log, k) && PendingDeliver(k, RequestOf(k)) in log
  {
    var c :| c in calls && TargetOf(c) == k;
    assert CallOk(log, c);
  }

  /** No unresolved upload and no completed one: none was ever announced. */
  lemma NoUploadTrace(log: seq<Payload>, k: Key)
    requires !HasUnresolvedUpload(Group(log, PendingKind), Group(log, UploadKind), Some(k))
    requires forall u :: u in Group(log, UploadKind) ==> CandidateRef(u) != Some(k)
    ensures forall p :: p in log && p.PendingUpload? ==> p.candidateKey != k
    ensures forall u :: u in log && u.UploadPayload? ==> u.candidateKey != k
  {
    forall u | u in log && u.UploadPayload? ensures u.candidateKey != k {
      assert u in Group(log, UploadKind) && CandidateRef(u) == Some(u.candidateKey);
    }
    forall p | p in log && p.PendingUpload? ensures p.candidateKey != k {
      assert p in Group(log, PendingKind) && CandidateRef(p) == Some(p.candidateKey);
    }
  }

  lemma UploadNotYetAnnounced(w: World, order: Order, f: Facts)
    requires CallsOk(w.log, w.calls) && f == DeriveFacts(order, ViewOf(w.log))
    requires f.latestCandidate.Some? && f.latestCandidate.value.CandidatePayload?
    requires !f.hasUnresolvedUpload && f.latestUpload.None?
    ensures var k := Digest(f.latestCandidate.value);
            && (forall p :: p in w.log && p.PendingUpload? ==> p.candidateKey != k)
            && (forall u :: u in w.log && u.UploadPayload? ==> u.candidateKey != k)
            && !WasCalled(w.calls, k)
  {
    var k := Digest(f.latestCandidate.value);
    NoUploadTrace(w.log, k);
    if WasCalled(w.calls, k) {
      CallsWereAnnounced(w.log, w.calls, k);
    }
  }

  lemma DeliveryNotYetAnnounced(cap: nat, w: World, order: Order, f: Facts)
    requires Inv(cap, w) && f == DeriveFacts(order, ViewOf(w.log))
    requires f.latestUpload.Some? && !f.hasUnresolvedDelivery && f.latestDelivery.None?
    ensures var k := Digest(f.latestUpload.value);
            && NamesUpload(w.log, k) && k.payload.candidateKey == Digest(f.latestCandidate.value)
            && (forall p :: p in w.log && p.PendingDeliver? ==> p.uploadKey != k)
            && !WasCalled(w.calls, k)
  {
    hide FilesOk, CausalOk, PendingUploadsOk, PendingDeliversOk, DeliveriesOk, CallsOk, CandidatesOk, QcOk,
         ReplacementOk;
    var v := ViewOf(w.log);
    var u := f.latestUpload.value;
    var k := Digest(u);
    assert u in v.upload && u in w.log && u.UploadPayload?;
    NoneSeenMeansNoDelivery(cap, w, order);
    forall p | p in w.log && p.PendingDeliver? ensures p.uploadKey != k {
      assert p in v.pending && UploadRef(p) == Some(p.uploadKey);
    }
    if WasCalled(w.calls, k) {
      CallsWereAnnounced(w.log, w.calls, k);
    }
  }

  lemma UploadExchangeKeepsInv(cap: nat, w: World, k: Key, path: Path, reply: Option<UploadReply>, fault: Fault)
    requires Inv(cap, w) && NamesCandidate(w.log, k) && PassedQc(w.log, k) && k.payload.filePath == Some(path)
    requires forall p :: p in w.log && p.PendingUpload? ==> p.candidateKey != k
    requires forall u :: u in w.log && u.UploadPayload? ==> u.candidateKey != k
    requires !WasCalled(w.calls, k)
    ensures Inv(cap, Perform(w, Exchange(PendingUpload(k, k.payload.requestKey), UploadCall(k, path),
                                         UploadCompletion(k, reply)), fault))
  {
    var call := UploadCall(k, path);
    assert call in w.calls + [call] && TargetOf(call) == k;
    ExchangeKeepsInv(cap, w, PendingUpload(k, k.payload.requestKey), call, UploadCompletion(k, reply), fault);
  }

  lemma DeliverExchangeKeepsInv(cap: nat, w: World, u: Payload, orderId: string, reply: Option<int>, fault: Fault)
    requires Inv(cap, w) && u.UploadPayload? && NamesUpload(w.log, Digest(u))
    requires Latest(Candidates(w.log)) == Some(u.candidateKey.payload)
    requires forall p :: p in w.log && p.PendingDeliver? ==> p.uploadKey != Digest(u)
    requires NoDelivery(w.log) && !WasCalled(w.calls, Digest(u))
    ensures Inv(cap, Perform(w, Exchange(PendingDeliver(Digest(u), RequestOf(Digest(u))),
                                         DeliverCall(Digest(u), orderId, u.url, u.mediaType),
                                         DeliverCompletion(u, reply)), fault))
  {
    var k := Digest(u);
    var intent := PendingDeliver(k, RequestOf(k));
    var call := DeliverCall(k, orderId, u.url, u.mediaType);
    assert call in w.calls + [call] && TargetOf(call) == k;
    CandidatesOfAppend(w.log, intent);
    ExchangeKeepsInv(cap, w, intent, call, DeliverCompletion(u, reply), fault);
  }

  // --- one action at a time ----------------------------------------------------------------------

  /** The facts and the action of a pass on a store. */
  ghost predicate Situation(cap: nat, w: World, pass: Pass, order: Order, f: Facts, policy: Policy, action: Action) {
    && order == NormalizeOrder(pass.raw)
    && f == DeriveFacts(order, ViewOf(w.log))
    && policy == EvaluatePolicies(order, f, cap)
    && action == DecideNextAction(f, policy)
  }

  lemma NoteKeepsInv(cap: nat, w: World, mode: Mode, action: Action, policy: Policy, event: Event, fault: Fault)
    requires Inv(cap, w)
    ensures Inv(cap, Perform(w, Note(mode, action, policy, event), fault))
  {
    PerformWrite(cap, w, DiagnosticPayload(mode, action.reason, policy.decision, policy.reasons, event), fault);
  }

  /** A new candidate is generated only for the first time, for another request, or after a failed QC. */
  lemma GenerateMayReplace(cap: nat, w: World, order: Order, f: Facts, policy: Policy, payload: Payload)
    requires Inv(cap, w) && f == DeriveFacts(order, ViewOf(w.log))
    requires DecideNextAction(f, policy).kind == Generate
    requires payload.CandidatePayload? && payload.requestKey == f.currentRequestKey
    ensures MayReplace(w.log, payload)
  {
    hide FilesOk, CausalOk, PendingUploadsOk, UploadsOk, PendingDeliversOk, DeliveriesOk, CallsOk, CandidatesOk,
         Group;
    var latest := Latest(Candidates(w.log));
    if latest.Some? && PassedQc(w.log, Digest(latest.value)) {
      var q :| q in w.log && q.QcPayload? && q.candidateKey == Digest(latest.value) && q.status == Passed;
      assert q in ViewOf(w.log).qc && CandidateRef(q) == Some(Digest(latest.value));
      assert f.latestQc.Some? && f.latestQc.value in w.log;
      assert f.latestQc.value == q;
    }
  }

  lemma GenerateKeepsInv(cap: nat, w: World, pass: Pass, order: Order, f: Facts, policy: Policy, action: Action)
    requires Inv(cap, w) && Situation(cap, w, pass, order, f, policy, action) && action.kind == Generate
    ensures Inv(cap, Perform(w, PlanGenerate(order, ConfigOf(cap, pass), pass.env, f, policy, action), pass.fault))
  {
    hide Perform, NormalizeOrder, FilesOk, CandidatesOk, QcOk, CausalOk, ReplacementOk, PendingUploadsOk, UploadsOk,
         PendingDeliversOk, DeliveriesOk, CallsOk;
    if pass.mode == DryRun {
      NoteKeepsInv(cap, w, pass.mode, action, policy, DryRunSkipGenerate, pass.fault);
    } else {
      match PrepareCandidate(order, f.candidateCount, pass.env.disk)
      case NotPrepared(failure) =>
        NoteKeepsInv(cap, w, pass.mode, action, policy, RequiresPreparedCandidate(failure), pass.fault);
      case Prepared(payload) =>
        AllowedMeansBelowCap(cap, w, order);
        NoneSeenMeansNoDelivery(cap, w, order);
        IntakeIsSeen(order, w.log);
        GenerateMayReplace(cap, w, order, f, policy, payload);
        PerformWrite(cap, w, payload, pass.fault);
    }
  }

  lemma QcKeepsInv(cap: nat, w: World, pass: Pass, order: Order, f: Facts, policy: Policy, action: Action)
    requires Inv(cap, w) && Situation(cap, w, pass, order, f, policy, action) && action.kind == CheckQuality
    requires WellTyped(f)
    ensures Inv(cap, Perform(w, [Write(RunQc(f.latestCandidate.value, order, pass.env.disk))], pass.fault))
  {
    hide Perform, EvaluatePolicies, NormalizeOrder, Assess, FilesOk, QcOk, CausalOk, ReplacementOk, PendingUploadsOk,
         UploadsOk, PendingDeliversOk, DeliveriesOk, CallsOk;
    AllowedMeansBelowCap(cap, w, order);
    LatestCandidateIsLast(cap, w.log);
    var q := RunQc(f.latestCandidate.value, order, pass.env.disk);
    forall r | r in w.log && r.QcPayload? ensures r.candidateKey != q.candidateKey {
      assert r in ViewOf(w.log).qc && CandidateRef(r) == Some(r.candidateKey);
    }
    PerformWrite(cap, w, q, pass.fault);
  }

  lemma QcPassIsOnRecord(cap: nat, log: seq<Payload>, order: Order, f: Facts)
    requires CandidatesOk(cap, log) && f == DeriveFacts(order, ViewOf(log))
    requires f.HasQcPass()
    ensures f.latestCandidate.Some? && NamesCandidate(log, Digest(f.latestCandidate.value))
    ensures PassedQc(log, Digest(f.latestCandidate.value))
  {
    LatestCandidateIsLast(cap, log);
    assert f.latestQc.value in log;
  }

  lemma UploadKeepsInv(cap: nat, w: World, pass: Pass, order: Order, f: Facts, policy: Policy, action: Action)
    requires Inv(cap, w) && Situation(cap, w, pass, order, f, policy, action) && action.kind == UploadAsset
    requires WellTyped(f)
    ensures Inv(cap, Perform(w, PlanUpload(order, ConfigOf(cap, pass), pass.env, f, policy, action), pass.fault))
  {
    hide FilesOk, CandidatesOk, QcOk, CausalOk, ReplacementOk, PendingUploadsOk, UploadsOk, PendingDeliversOk,
         DeliveriesOk, CallsOk, Perform, ViewOf, Assess, EvaluatePolicies, NormalizeOrder, Group;
    var c := f.latestCandidate.value;
    var k := Digest(c);
    var issues := Assess(c, order, pass.env.disk);
    if pass.mode != ManualDelivery {
      NoteKeepsInv(cap, w, pass.mode, action, policy, UploadBlockedByMode, pass.fault);
    } else if c.filePath.None? {
      NoteKeepsInv(cap, w, pass.mode, action, policy, UploadMissingCandidatePath, pass.fault);
    } else if issues != [] {
      NoteKeepsInv(cap, w, pass.mode, action, policy, UploadBlockedInvalid(issues), pass.fault);
    } else {
      UploadNotYetAnnounced(w, order, f);
      QcPassIsOnRecord(cap, w.log, order, f);
      UploadExchangeKeepsInv(cap, w, k, c.filePath.value, pass.env.uploadReply, pass.fault);
    }
  }

  lemma DeliverKeepsInv(cap: nat, w: World, pass: Pass, order: Order, f: Facts, policy: Policy, action: Action)
    requires Inv(cap, w) && Situation(cap, w, pass, order, f, policy, action) && action.kind == DeliverAsset
    requires WellTyped(f)
    ensures Inv(cap, Perform(w, PlanDeliver(order, ConfigOf(cap, pass), pass.env, f, policy, action), pass.fault))
  {
    hide FilesOk, CandidatesOk, QcOk, CausalOk, ReplacementOk, PendingUploadsOk, UploadsOk, PendingDeliversOk,
         DeliveriesOk, CallsOk, Perform, Assess, EvaluatePolicies, NormalizeOrder, NoDelivery, Group;
    var u := f.latestUpload.value;
    var k := Digest(u);
    var issues := Assess(f.latestCandidate.value, order, pass.env.disk);
    if pass.mode != ManualDelivery {
      NoteKeepsInv(cap, w, pass.mode, action, policy, DeliverBlockedByMode, pass.fault);
    } else if order.orderId !in AllowedIds(pass) {
      NoteKeepsInv(cap, w, pass.mode, action, policy, DeliverNotAllowlisted, pass.fault);
    } else if u.url == "" || u.mediaType == "" {
      NoteKeepsInv(cap, w, pass.mode, action, policy, DeliverMissingUpload, pass.fault);
    } else if issues != [] {
      NoteKeepsInv(cap, w, pass.mode, action, policy, DeliverBlockedInvalid(issues), pass.fault);
    } else {
      DeliveryNotYetAnnounced(cap, w, order, f);
      NoneSeenMeansNoDelivery(cap, w, order);
      DeliverExchangeKeepsInv(cap, w, u, order.orderId, pass.env.deliverReply, pass.fault);
    }
  }

  /** Every pass keeps the invariant. */
  lemma StepKeepsInv(cap: nat, w: World, pass: Pass)
    requires Inv(cap, w)
    ensures Inv(cap, Step(cap, w, pass))
  {
    hide FilesOk, CandidatesOk, QcOk, CausalOk, ReplacementOk, PendingUploadsOk, UploadsOk, PendingDeliversOk,
         DeliveriesOk, CallsOk, Perform, ViewOf, DeriveFacts, EvaluatePolicies, NormalizeOrder, PlanGenerate,
         PlanUpload, PlanDeliver;
    var order := NormalizeOrder(pass.raw);
    if order.orderId != "" {
      FactsAreWellTyped(order, w.log);
      var f := DeriveFacts(order, ViewOf(w.log));
      var policy := EvaluatePolicies(order, f, cap);
      var action := DecideNextAction(f, policy);
      match action.kind
      case Noop => NoteKeepsInv(cap, w, pass.mode, action, policy, NoopEvent, pass.fault);
      case WriteIntake => PerformWrite(cap, w, IntakePayload(order), pass.fault);
      case WriteDiagnostic => NoteKeepsInv(cap, w, pass.mode, action, policy, PolicyGate, pass.fault);
      case Generate => GenerateKeepsInv(cap, w, pass, order, f, policy, action);
      case CheckQuality =>
        if pass.mode == DryRun {
          NoteKeepsInv(cap, w, pass.mode, action, policy, DryRunSkipQc, pass.fault);
        } else {
          QcKeepsInv(cap, w, pass, order, f, policy, action);
        }
      case UploadAsset => UploadKeepsInv(cap, w, pass, order, f, policy, action);
      case DeliverAsset => DeliverKeepsInv(cap, w, pass, order, f, policy, action);
    }
  }

  /** Every store reachable by any run satisfies the invariant. */
  lemma {:induction false} RunKeepsInv(cap: nat, w: World, passes: seq<Pass>)
    requires Inv(cap, w)
    ensures Inv(cap, Run(cap, w, passes))
  {
    if passes != [] {
      RunKeepsInv(cap, w, passes[..|passes| - 1]);
      StepKeepsInv(cap, Run(cap, w, passes[..|passes| - 1]), passes[|passes| - 1]);
    }
  }
}
