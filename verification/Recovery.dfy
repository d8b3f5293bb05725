/**
 What a crash or a failed call leaves possible. A half-done exchange of the current candidate freezes the order for
 its request (DESIGN.md:148, no replay without review).
 */
module Recovery {
  import opened Options
  import opened Artifacts
  import opened Fulfillment
  import opened Reconciler
  import opened Invariant
  import opened Preservation
  import opened Safety
  import opened Liveness
  import opened Quiescence

  // --- frozen orders -----------------------------------------------------------------------------

  /** The latest candidate passed QC and is not delivered, but neither its upload nor its delivery may be started. */
  ghost predicate Frozen(w: World, c: Payload) {
    && Latest(Candidates(w.log)) == Some(c) && c.CandidatePayload? && PassedQc(w.log, Digest(c)) && NoDelivery(w.log)
    && !UploadOpen(w, c) && forall u :: !DeliveryOpen(w, c, u)
  }

  ghost predicate UploadOf(log: seq<Payload>, c: Payload, u: Payload) {
    u in log && u.UploadPayload? && u.candidateKey == Digest(c)
  }

  /** The announcement is on record or half-written. */
  ghost predicate Announced(w: World, intent: Payload) {
    intent in w.log || intent in w.torn
  }

  /** The upload was announced and has no result, or it has a result that cannot be delivered, or the delivery was
      announced (and has no result). */
  ghost predicate HalfDone(w: World, c: Payload)
    requires c.CandidatePayload?
  {
    || (Announced(w, PendingUpload(Digest(c), c.requestKey)) && forall u :: !UploadOf(w.log, c, u))
    || (exists u :: UploadOf(w.log, c, u)
                    && (u.url == "" || u.mediaType == "" || Announced(w, PendingDeliver(Digest(u), c.requestKey))))
  }

  lemma IntentOfUpload(log: seq<Payload>, c: Payload)
    requires PendingUploadsOk(log) && UploadsOk(log) && c.CandidatePayload?
    ensures Unreferenced(log, c) <==> PendingUpload(Digest(c), c.requestKey) !in log
  {
  }

  lemma IntentOfDelivery(log: seq<Payload>, c: Payload, u: Payload)
    requires PendingDeliversOk(log) && c.CandidatePayload? && UploadOf(log, c, u)
    ensures Unannounced(log, u) <==> PendingDeliver(Digest(u), c.requestKey) !in log
  {
  }

  /** An order is frozen exactly when one of its two exchanges is half done. */
  lemma FrozenIff(cap: nat, w: World, c: Payload)
    requires Inv(cap, w) && c.CandidatePayload?
    ensures Frozen(w, c) <==>
              && Latest(Candidates(w.log)) == Some(c) && PassedQc(w.log, Digest(c)) && NoDelivery(w.log)
              && HalfDone(w, c)
  {
    hide CandidatesOk, QcOk, CausalOk, ReplacementOk, DeliveriesOk, CallsOk, FilesOk, TornOk, PassedQc, NoDelivery,
         Unreferenced, Unannounced;
    IntentOfUpload(w.log, c);
    forall u | UploadOf(w.log, c, u)
      ensures Unannounced(w.log, u) <==> PendingDeliver(Digest(u), c.requestKey) !in w.log
      ensures PendingUpload(Digest(c), c.requestKey) in w.log
      ensures forall v :: UploadOf(w.log, c, v) ==> v == u
    {
      IntentOfDelivery(w.log, c, u);
    }
    forall u ensures DeliveryOpen(w, c, u) <==>
                       && UploadOf(w.log, c, u) && u.url != "" && u.mediaType != ""
                       && !Announced(w, PendingDeliver(Digest(u), c.requestKey))
    {
    }
  }

  // --- a pass over a frozen order ----------------------------------------------------------------

  /** Nothing happened but a note, whole or half. */
  ghost predicate IdleOutcome(w: World, w': World) {
    w' == w || exists p :: IsNote(p) && (w' == Logged(w, p) || w' == Tear(w, p))
  }

  lemma NoteIsIdle(w: World, p: Payload, fault: Fault)
    requires IsNote(p)
    ensures IdleOutcome(w, Perform(w, [Write(p)], fault))
  {
    PerformOne(w, p, fault);
  }

  lemma TornIntentIsIdle(w: World, intent: Payload, call: Call, completion: Option<Payload>, fault: Fault)
    requires intent in w.torn
    ensures Perform(w, Exchange(intent, call, completion), fault) == w
  {
    ExchangeSteps(w, intent, call, completion, fault);
  }

  lemma IdleIsSameWork(w: World, w': World)
    requires IdleOutcome(w, w')
    ensures SameWork(w, w') && (NoDelivery(w.log) ==> NoDelivery(w'.log))
  {
    if w' != w {
      var p :| IsNote(p) && (w' == Logged(w, p) || w' == Tear(w, p));
      NoteLeavesGroups(w.log, p, CandidateKind);
      NoteLeavesGroups(w.log, p, QcKind);
      NoteLeavesGroups(w.log, p, UploadKind);
      NoteLeavesGroups(w.log, p, DeliveryKind);
      NoteLeavesGroups(w.log, p, PendingKind);
    }
  }

  /** Notes and half-written records thaw nothing. */
  lemma FrozenStays(w: World, w': World, c: Payload)
    requires Frozen(w, c) && w.torn <= w'.torn
    requires w'.log == w.log || exists p :: IsNote(p) && w'.log == w.log + [p]
    ensures Frozen(w', c)
  {
    if w'.log != w.log {
      var p :| IsNote(p) && w'.log == w.log + [p];
      CandidatesOfAppend(w.log, p);
      PassedQcGrows(w.log, p, Digest(c));
      assert Unreferenced(w'.log, c) ==> Unreferenced(w.log, c);
      forall u ensures !DeliveryOpen(w', c, u) {
        assert Unannounced(w'.log, u) ==> Unannounced(w.log, u);
        assert !DeliveryOpen(w, c, u);
      }
    } else {
      forall u ensures !DeliveryOpen(w', c, u) { assert !DeliveryOpen(w, c, u); }
    }
  }

  lemma FrozenUpload(cap: nat, w: World, order: Order, f: Facts, policy: Policy, c: Payload)
    requires Inv(cap, w) && Frozen(w, c) && f == DeriveFacts(order, ViewOf(w.log))
    requires DecideNextAction(f, policy).kind == UploadAsset
    ensures PendingUpload(Digest(c), c.requestKey) in w.torn
  {
    hide CandidatesOk, QcOk, CausalOk, ReplacementOk, PendingUploadsOk, UploadsOk, PendingDeliversOk, DeliveriesOk,
         FilesOk, TornOk, CallsOk, PassedQc, NoDelivery, Group;
    UploadNotYetAnnounced(w, order, f);
  }

  lemma FrozenDelivery(cap: nat, w: World, order: Order, f: Facts, policy: Policy, c: Payload)
    requires f.latestUpload.Some? && f.latestUpload.value.UploadPayload?
    requires Inv(cap, w) && Frozen(w, c) && f == DeriveFacts(order, ViewOf(w.log))
    requires DecideNextAction(f, policy).kind == DeliverAsset
    requires f.latestUpload.value.url != "" && f.latestUpload.value.mediaType != ""
    ensures PendingDeliver(Digest(f.latestUpload.value), c.requestKey) in w.torn
  {
    hide CandidatesOk, QcOk, CausalOk, ReplacementOk, PendingUploadsOk, UploadsOk, PendingDeliversOk, DeliveriesOk,
         FilesOk, TornOk, CallsOk, PassedQc, NoDelivery, Group;
    DeliveryNotYetAnnounced(cap, w, order, f);
    assert !DeliveryOpen(w, c, f.latestUpload.value);
  }

  lemma FrozenFacts(cap: nat, w: World, order: Order, f: Facts, c: Payload)
    requires Inv(cap, w) && Frozen(w, c) && f == DeriveFacts(order, ViewOf(w.log))
    requires ExpectedRequestKey(order) == c.requestKey
    ensures f.latestCandidate == Some(c) && f.latestCandidateMatchesRequest && f.HasQcPass()
  {
    hide CandidatesOk, QcOk, CausalOk, ReplacementOk, PendingUploadsOk, UploadsOk, PendingDeliversOk, DeliveriesOk,
         FilesOk, TornOk, CallsOk, PassedQc, NoDelivery, Group, ExpectedRequestKey;
    QcPassIsSeen(cap, w, order, c);
  }

  lemma FrozenStep(cap: nat, w: World, pass: Pass, c: Payload)
    requires Inv(cap, w) && Frozen(w, c) && RequestOfPass(pass) == c.requestKey
    ensures IdleOutcome(w, Step(cap, w, pass))
  {
    hide Inv, Frozen, Plan, Perform, EvaluatePolicies, NormalizeOrder, ViewOf, ExpectedRequestKey, IdleOutcome;
    var order := NormalizeOrder(pass.raw);
    if order.orderId == "" {
      UnchangedIsIdle(w);
    } else {
      FactsAreWellTyped(order, w.log);
      var f := DeriveFacts(order, ViewOf(w.log));
      var policy := EvaluatePolicies(order, f, cap);
      var action := DecideNextAction(f, policy);
      var plan := PlanOf(cap, w.log, pass);
      FrozenFacts(cap, w, order, f, c);
      PlanShapes(order, ConfigOf(cap, pass), pass.env, f, policy);
      if |plan| == 1 && plan[0].Write? && IsNote(plan[0].payload) {
        assert plan == [Write(plan[0].payload)];
        NoteIsIdle(w, plan[0].payload, pass.fault);
      } else if action.kind == UploadAsset {
        FrozenUpload(cap, w, order, f, policy, c);
        TornIntentIsIdle(w, plan[0].payload, plan[1].call, UploadCompletion(Digest(c), pass.env.uploadReply),
                         pass.fault);
        UnchangedIsIdle(w);
      } else {
        FrozenDelivery(cap, w, order, f, policy, c);
        TornIntentIsIdle(w, plan[0].payload, plan[1].call,
                         DeliverCompletion(f.latestUpload.value, pass.env.deliverReply), pass.fault);
        UnchangedIsIdle(w);
      }
    }
  }

  lemma UnchangedIsIdle(w: World)
    ensures IdleOutcome(w, w)
  {
  }

  lemma IdleKeepsFrozen(w: World, w': World, c: Payload)
    requires IdleOutcome(w, w') && Frozen(w, c)
    ensures Frozen(w', c)
  {
    hide Frozen;
    FrozenStays(w, w', c);
  }

  ghost predicate AllAskFor(passes: seq<Pass>, request: RequestKey) {
    forall i :: 0 <= i < |passes| ==> RequestOfPass(passes[i]) == request
  }

  /** While the passes ask for the same request, a frozen order stays frozen: whatever the mode, the replies, the
      crashes and the assets, only notes are written and no call is made. */
  lemma {:induction false} FrozenForever(cap: nat, w: World, more: seq<Pass>, c: Payload)
    requires Inv(cap, w) && Frozen(w, c) && AllAskFor(more, c.requestKey)
    ensures SameWork(w, Run(cap, w, more)) && Frozen(Run(cap, w, more), c)
  {
    hide Inv, Frozen, Step, RequestOfPass;
    if more != [] {
      var n := |more| - 1;
      var before := Run(cap, w, more[..n]);
      FrozenForever(cap, w, more[..n], c);
      RunKeepsInv(cap, w, more[..n]);
      FrozenStep(cap, before, more[n], c);
      IdleIsSameWork(before, Step(cap, before, more[n]));
      IdleKeepsFrozen(before, Step(cap, before, more[n]), c);
    }
  }
}
