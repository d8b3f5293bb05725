/**
 Repeating the same crash-free pass settles: after at most `2 * cap + 2` passes the store no longer
 changes, from any reachable store, whatever the environment answers.
 */
module Quiescence {
  import opened Options
  import opened Artifacts
  import opened Fulfillment
  import opened Reconciler
  import opened Invariant
  import opened Preservation
  import opened Safety
  import opened Liveness
  import Iteration

  ghost predicate Settled(cap: nat, w: World, pass: Pass) {
    Step(cap, w, pass) == w
  }

  // --- diagnostics do not matter -----------------------------------------------------------------

  lemma DiagnosticLeavesGroup(log: seq<Payload>, p: Payload, kind: Kind)
    requires p.DiagnosticPayload? && kind != DiagnosticKind
    ensures Group(log + [p], kind) == Group(log, kind)
  {
    GroupAppend(log, p, kind);
  }

  lemma DiagnosticLeavesView(log: seq<Payload>, p: Payload)
    requires p.DiagnosticPayload?
    ensures ViewOf(log + [p]).(diagnostic := []) == ViewOf(log).(diagnostic := [])
  {
    DiagnosticLeavesGroup(log, p, IntakeKind);
    DiagnosticLeavesGroup(log, p, CandidateKind);
    DiagnosticLeavesGroup(log, p, QcKind);
    DiagnosticLeavesGroup(log, p, UploadKind);
    DiagnosticLeavesGroup(log, p, DeliveryKind);
    DiagnosticLeavesGroup(log, p, PendingKind);
  }

  lemma FactsIgnoreDiagnostics(order: Order, a: View, b: View)
    requires a.(diagnostic := []) == b.(diagnostic := [])
    ensures DeriveFacts(order, a) == DeriveFacts(order, b)
  {
  }

  /** A diagnostic artifact changes no later decision. */
  lemma PlanIgnoresDiagnostics(cap: nat, log: seq<Payload>, p: Payload, pass: Pass)
    requires p.DiagnosticPayload?
    ensures PlanOf(cap, log + [p], pass) == PlanOf(cap, log, pass)
  {
    DiagnosticLeavesView(log, p);
    FactsIgnoreDiagnostics(NormalizeOrder(pass.raw), ViewOf(log + [p]), ViewOf(log));
  }

  /** Having written its diagnostic, the pass finds it again. */
  lemma NoteSettles(cap: nat, w: World, pass: Pass, p: Payload)
    requires pass.fault == NoFault && p.DiagnosticPayload? && PlanOf(cap, w.log, pass) == [Write(p)]
    ensures Settled(cap, Step(cap, w, pass), pass)
  {
    PlanIgnoresDiagnostics(cap, w.log, p, pass);
    if NormalizeOrder(pass.raw).orderId != "" {
      PerformOne(w, p, NoFault);
      PerformOne(Logged(w, p), p, NoFault);
    }
  }

  // --- the measure -------------------------------------------------------------------------------

  ghost predicate Checked(log: seq<Payload>, c: Payload) {
    exists q :: q in log && q.QcPayload? && q.candidateKey == Digest(c)
  }

  ghost predicate UploadAnnounced(log: seq<Payload>, c: Payload) {
    exists p :: p in log && p.PendingUpload? && p.candidateKey == Digest(c)
  }

  ghost predicate DeliveryAnnounced(log: seq<Payload>, c: Payload) {
    exists p :: p in log && p.PendingDeliver? && p.uploadKey.payload.UploadPayload?
                && p.uploadKey.payload.candidateKey == Digest(c)
  }

  ghost function StepsLeft(log: seq<Payload>, c: Payload): nat {
    If(!Checked(log, c)) + If(!UploadAnnounced(log, c)) + If(!DeliveryAnnounced(log, c))
  }

  /** How many records of lasting effect the pass may still add. */
  ghost function Potential(cap: nat, log: seq<Payload>, pass: Pass): nat {
    var n := |Candidates(log)|;
    If(!HasIntake(log)) +
    if n >= cap then 0
    else 2 * (cap - 1 - n) + if WantsCandidate(log, ExpectedRequestKey(NormalizeOrder(pass.raw))) then 2
                             else StepsLeft(log, Latest(Candidates(log)).value)
  }

  lemma PotentialBound(cap: nat, log: seq<Payload>, pass: Pass)
    ensures Potential(cap, log, pass) <= 2 * cap + 1
  {
  }

  // --- each lasting record lowers it -------------------------------------------------------------

  lemma SameCandidates(log: seq<Payload>, p: Payload)
    requires !p.CandidatePayload?
    ensures Candidates(log + [p]) == Candidates(log)
  {
    CandidatesOfAppend(log, p);
  }

  lemma StepsLeftShrinks(log: seq<Payload>, p: Payload, c: Payload)
    ensures StepsLeft(log + [p], c) <= StepsLeft(log, c)
    ensures HasIntake(log) ==> HasIntake(log + [p])
    ensures p.QcPayload? && p.candidateKey == Digest(c) && !Checked(log, c) ==>
            StepsLeft(log + [p], c) < StepsLeft(log, c)
    ensures p.PendingUpload? && p.candidateKey == Digest(c) && !UploadAnnounced(log, c) ==>
              StepsLeft(log + [p], c) < StepsLeft(log, c)
    ensures (p.PendingDeliver? && p.uploadKey.payload.UploadPayload? && p.uploadKey.payload.candidateKey == Digest(c)
             && !DeliveryAnnounced(log, c)) ==> StepsLeft(log + [p], c) < StepsLeft(log, c)
  {
    assert p in log + [p];
    if HasIntake(log) { IntakeStays(log, p); }
    if q :| q in log && q.QcPayload? && q.candidateKey == Digest(c) { assert q in log + [p]; }
    if q :| q in log && q.PendingUpload? && q.candidateKey == Digest(c) { assert q in log + [p]; }
    if q :| q in log && q.PendingDeliver? && q.uploadKey.payload.UploadPayload?
            && q.uploadKey.payload.candidateKey == Digest(c)
    {
      assert q in log + [p];
    }
  }

  lemma PotentialMonotone(cap: nat, log: seq<Payload>, p: Payload, pass: Pass)
    requires !p.CandidatePayload?
    ensures Potential(cap, log + [p], pass) <= Potential(cap, log, pass)
  {
    SameCandidates(log, p);
    var latest := Latest(Candidates(log));
    if latest.Some? { StepsLeftShrinks(log, p, latest.value); }
    if HasIntake(log) { IntakeStays(log, p); }
  }

  lemma IntakeLowers(cap: nat, log: seq<Payload>, p: Payload, pass: Pass)
    requires p.IntakePayload? && !HasIntake(log)
    ensures Potential(cap, log + [p], pass) < Potential(cap, log, pass)
  {
    PotentialMonotone(cap, log, p, pass);
    SameCandidates(log, p);
    var latest := Latest(Candidates(log));
    if latest.Some? { StepsLeftShrinks(log, p, latest.value); }
    assert p in log + [p];
  }

  /** A record about the current candidate. */
  lemma StageLowers(cap: nat, log: seq<Payload>, p: Payload, c: Payload, pass: Pass)
    requires !p.CandidatePayload? && |Candidates(log)| < cap && Latest(Candidates(log)) == Some(c)
    requires !WantsCandidate(log, ExpectedRequestKey(NormalizeOrder(pass.raw)))
    requires StepsLeft(log + [p], c) < StepsLeft(log, c)
    ensures Potential(cap, log + [p], pass) < Potential(cap, log, pass)
  {
    SameCandidates(log, p);
    if HasIntake(log) { IntakeStays(log, p); }
  }

  lemma CandidateLowers(cap: nat, log: seq<Payload>, p: Payload, pass: Pass)
    requires p.CandidatePayload? && |Candidates(log)| < cap && HasIntake(log)
    requires p.requestKey == ExpectedRequestKey(NormalizeOrder(pass.raw))
    requires WantsCandidate(log, p.requestKey) || StepsLeft(log, Latest(Candidates(log)).value) >= 2
    ensures Potential(cap, log + [p], pass) < Potential(cap, log, pass)
  {
    CandidatesOfAppend(log, p);
    IntakeStays(log, p);
  }

  // --- one pass ----------------------------------------------------------------------------------

  /** The pass changed nothing, or settled the store, or used up some of the potential. */
  ghost predicate Progress(cap: nat, w: World, pass: Pass) {
    var w' := Step(cap, w, pass);
    || Settled(cap, w, pass)
    || Settled(cap, w', pass)
    || Potential(cap, w'.log, pass) < Potential(cap, w.log, pass)
  }

  lemma WriteProgress(cap: nat, w: World, pass: Pass, p: Payload)
    requires pass.fault == NoFault && PlanOf(cap, w.log, pass) == [Write(p)]
    requires p !in w.log ==> Potential(cap, w.log + [p], pass) < Potential(cap, w.log, pass)
    ensures Progress(cap, w, pass)
  {
    PerformOne(w, p, NoFault);
  }

  lemma ExchangeProgress(cap: nat, w: World, pass: Pass, intent: Payload, call: Call, completion: Option<Payload>)
    requires pass.fault == NoFault && PlanOf(cap, w.log, pass) == Exchange(intent, call, completion)
    requires intent !in w.log && !intent.CandidatePayload?
    requires completion.Some? ==> !completion.value.CandidatePayload?
    requires Potential(cap, w.log + [intent], pass) < Potential(cap, w.log, pass)
    ensures Progress(cap, w, pass)
  {
    if NormalizeOrder(pass.raw).orderId != "" {
      PerformUninterrupted(w, intent, call, completion);
      if completion.Some? { PotentialMonotone(cap, w.log + [intent], completion.value, pass); }
    }
  }

  /** A crash-free exchange stops at once on a torn intent; otherwise the intent is written. */
  lemma PerformUninterrupted(w: World, intent: Payload, call: Call, completion: Option<Payload>)
    requires intent !in w.log
    ensures var w' := Perform(w, Exchange(intent, call, completion), NoFault);
            || w' == w
            || w'.log == w.log + [intent]
            || (completion.Some? && w'.log == w.log + [intent] + [completion.value])
  {
    var announced := Logged(w, intent);
    ExchangeSteps(w, intent, call, completion, NoFault);
    CallSteps(announced, call, completion, NoFault);
    if completion.Some? { PerformOne(Called(announced, call), completion.value, NoFault); }
  }

  lemma LatestIsUnwanted(order: Order, log: seq<Payload>, f: Facts)
    requires f == DeriveFacts(order, ViewOf(log)) && f.latestCandidateMatchesRequest
    ensures !WantsCandidate(log, ExpectedRequestKey(order))
    ensures Latest(Candidates(log)) == f.latestCandidate && f.latestCandidate.Some?
  {
  }

  lemma GenerateProgress(cap: nat, w: World, pass: Pass, order: Order, f: Facts, policy: Policy, action: Action,
                         c: Payload)
    requires Inv(cap, w) && Situation(cap, w, pass, order, f, policy, action) && action.kind == Generate
    requires PrepareCandidate(order, f.candidateCount, pass.env.disk) == Prepared(c)
    ensures Potential(cap, w.log + [c], pass) < Potential(cap, w.log, pass)
  {
    AllowedMeansBelowCap(cap, w, order);
    IntakeIsSeen(order, w.log);
    if !WantsCandidate(w.log, c.requestKey) {
      var k := f.latestCandidate.value;
      FailedCandidateIsIdle(cap, w, order, f);
    }
    CandidateLowers(cap, w.log, c, pass);
  }

  lemma AnnouncedMeansPassed(log: seq<Payload>, c: Payload)
    requires PendingUploadsOk(log) && UploadsOk(log) && PendingDeliversOk(log)
    ensures UploadAnnounced(log, c) || DeliveryAnnounced(log, c) ==> PassedQc(log, Digest(c))
  {
    if p :| p in log && p.PendingDeliver? && p.uploadKey.payload.UploadPayload?
            && p.uploadKey.payload.candidateKey == Digest(c)
    {
      assert PendingUpload(Digest(c), c.requestKey) in log;
    }
  }

  /** A candidate that did not pass QC was never announced for upload or delivery. */
  lemma FailedCandidateIsIdle(cap: nat, w: World, order: Order, f: Facts)
    requires Inv(cap, w) && f == DeriveFacts(order, ViewOf(w.log))
    requires f.latestCandidate.Some? && !f.HasQcPass()
    ensures StepsLeft(w.log, f.latestCandidate.value) >= 2
  {
    var c := f.latestCandidate.value;
    if PassedQc(w.log, Digest(c)) { LoggedQcPassIsSeen(cap, w.log, order, c); }
    AnnouncedMeansPassed(w.log, c);
  }

  lemma NoQcMeansUnchecked(order: Order, log: seq<Payload>, f: Facts, c: Payload)
    requires f == DeriveFacts(order, ViewOf(log)) && f.latestCandidate == Some(c) && f.latestQc.None?
    ensures !Checked(log, c)
  {
    forall r | r in log && r.QcPayload? ensures r.candidateKey != Digest(c) {
      assert r in Group(log, QcKind) && CandidateRef(r) == Some(r.candidateKey);
    }
  }

  lemma QcProgress(cap: nat, w: World, pass: Pass, order: Order, f: Facts, policy: Policy, action: Action, q: Payload)
    requires Inv(cap, w) && Situation(cap, w, pass, order, f, policy, action) && action.kind == CheckQuality
    requires q.QcPayload? && f.latestCandidate.Some? && q.candidateKey == Digest(f.latestCandidate.value)
    ensures Potential(cap, w.log + [q], pass) < Potential(cap, w.log, pass)
  {
    var c := f.latestCandidate.value;
    AllowedMeansBelowCap(cap, w, order);
    LatestIsUnwanted(order, w.log, f);
    NoQcMeansUnchecked(order, w.log, f, c);
    StepsLeftShrinks(w.log, q, c);
    StageLowers(cap, w.log, q, c, pass);
  }

  lemma UploadProgress(cap: nat, w: World, pass: Pass, order: Order, f: Facts, policy: Policy, action: Action)
    requires Inv(cap, w) && Situation(cap, w, pass, order, f, policy, action) && action.kind == UploadAsset
    requires WellTyped(f)
    ensures var intent := PendingUpload(Digest(f.latestCandidate.value), f.currentRequestKey);
            intent !in w.log && Potential(cap, w.log + [intent], pass) < Potential(cap, w.log, pass)
  {
    hide FilesOk, CandidatesOk, QcOk, CausalOk, ReplacementOk, PendingUploadsOk, UploadsOk, PendingDeliversOk,
         DeliveriesOk, CallsOk, NormalizeOrder, Potential;
    var c := f.latestCandidate.value;
    var intent := PendingUpload(Digest(c), f.currentRequestKey);
    AllowedMeansBelowCap(cap, w, order);
    LatestIsUnwanted(order, w.log, f);
    UploadNotYetAnnounced(w, order, f);
    StepsLeftShrinks(w.log, intent, c);
    StageLowers(cap, w.log, intent, c, pass);
  }

  lemma DeliverProgress(cap: nat, w: World, pass: Pass, order: Order, f: Facts, policy: Policy, action: Action)
    requires Inv(cap, w) && Situation(cap, w, pass, order, f, policy, action) && action.kind == DeliverAsset
    requires WellTyped(f)
    ensures var intent := PendingDeliver(Digest(f.latestUpload.value), f.currentRequestKey);
            intent !in w.log && Potential(cap, w.log + [intent], pass) < Potential(cap, w.log, pass)
  {
    hide FilesOk, CandidatesOk, QcOk, CausalOk, ReplacementOk, PendingUploadsOk, UploadsOk, PendingDeliversOk,
         DeliveriesOk, CallsOk, NormalizeOrder, Potential;
    var c, u := f.latestCandidate.value, f.latestUpload.value;
    var intent := PendingDeliver(Digest(u), f.currentRequestKey);
    AllowedMeansBelowCap(cap, w, order);
    LatestIsUnwanted(order, w.log, f);
    DeliveryNotYetAnnounced(cap, w, order, f);
    OnlyUploadOfCandidate(w.log, c, u);
    StepsLeftShrinks(w.log, intent, c);
    StageLowers(cap, w.log, intent, c, pass);
  }

  lemma OnlyUploadOfCandidate(log: seq<Payload>, c: Payload, u: Payload)
    requires UploadsOk(log) && PendingDeliversOk(log)
    requires NamesUpload(log, Digest(u)) && u.candidateKey == Digest(c)
    requires forall p :: p in log && p.PendingDeliver? ==> p.uploadKey != Digest(u)
    ensures !DeliveryAnnounced(log, c)
  {
    forall p | p in log && p.PendingDeliver? && p.uploadKey.payload.UploadPayload?
      ensures p.uploadKey.payload.candidateKey != Digest(c)
    {
      assert p.uploadKey != Digest(u) && p.uploadKey.payload in log && u in log;
    }
  }

  lemma NoteProgress(cap: nat, w: World, pass: Pass, p: Payload)
    requires pass.fault == NoFault && p.DiagnosticPayload? && PlanOf(cap, w.log, pass) == [Write(p)]
    ensures Progress(cap, w, pass)
  {
    NoteSettles(cap, w, pass, p);
  }

  /** Whatever a plan is not an exchange or a lasting record is a diagnostic. */
  lemma PlanShapes(order: Order, config: Config, env: Environment, f: Facts, policy: Policy)
    requires WellTyped(f)
    ensures var plan := Plan(order, config, env, f, policy);
            var action := DecideNextAction(f, policy);
            || (|plan| == 1 && plan[0].Write? && plan[0].payload.DiagnosticPayload? && plan == [Write(plan[0].payload)])
            || (action.kind == WriteIntake && plan == [Write(IntakePayload(order))])
            || (action.kind == Generate && PrepareCandidate(order, f.candidateCount, env.disk).Prepared?
                && plan == [Write(PrepareCandidate(order, f.candidateCount, env.disk).payload)])
            || (action.kind == CheckQuality && plan == [Write(RunQc(f.latestCandidate.value, order, env.disk))])
            || (action.kind == UploadAsset && f.latestCandidate.value.filePath.Some?
                && plan == Exchange(PendingUpload(Digest(f.latestCandidate.value), f.currentRequestKey),
                                    UploadCall(Digest(f.latestCandidate.value), f.latestCandidate.value.filePath.value),
                                    UploadCompletion(Digest(f.latestCandidate.value), env.uploadReply)))
            || (action.kind == DeliverAsset && f.latestUpload.value.url != "" && f.latestUpload.value.mediaType != ""
                && plan == Exchange(PendingDeliver(Digest(f.latestUpload.value), f.currentRequestKey),
                                    DeliverCall(Digest(f.latestUpload.value), order.orderId,
                                                f.latestUpload.value.url, f.latestUpload.value.mediaType),
                                    DeliverCompletion(f.latestUpload.value, env.deliverReply)))
  {
  }

  lemma UploadPassProgresses(cap: nat, w: World, pass: Pass, order: Order, f: Facts, policy: Policy, action: Action,
                             path: Path)
    requires Inv(cap, w) && Situation(cap, w, pass, order, f, policy, action) && action.kind == UploadAsset
    requires WellTyped(f) && pass.fault == NoFault
    requires var k := Digest(f.latestCandidate.value);
             PlanOf(cap, w.log, pass) == Exchange(PendingUpload(k, f.currentRequestKey), UploadCall(k, path),
                                                  UploadCompletion(k, pass.env.uploadReply))
    ensures Progress(cap, w, pass)
  {
    hide FilesOk, CandidatesOk, QcOk, CausalOk, ReplacementOk, PendingUploadsOk, UploadsOk, PendingDeliversOk,
         DeliveriesOk, CallsOk, NormalizeOrder, Potential, Plan, Progress, Exchange, DeriveFacts;
    var k := Digest(f.latestCandidate.value);
    UploadProgress(cap, w, pass, order, f, policy, action);
    ExchangeProgress(cap, w, pass, PendingUpload(k, f.currentRequestKey), UploadCall(k, path),
                     UploadCompletion(k, pass.env.uploadReply));
  }

  lemma DeliverPassProgresses(cap: nat, w: World, pass: Pass, order: Order, f: Facts, policy: Policy, action: Action)
    requires Inv(cap, w) && Situation(cap, w, pass, order, f, policy, action) && action.kind == DeliverAsset
    requires WellTyped(f) && pass.fault == NoFault
    requires var u := f.latestUpload.value;
             PlanOf(cap, w.log, pass) == Exchange(PendingDeliver(Digest(u), f.currentRequestKey),
                                                  DeliverCall(Digest(u), order.orderId, u.url, u.mediaType),
                                                  DeliverCompletion(u, pass.env.deliverReply))
    ensures Progress(cap, w, pass)
  {
    hide FilesOk, CandidatesOk, QcOk, CausalOk, ReplacementOk, PendingUploadsOk, UploadsOk, PendingDeliversOk,
         DeliveriesOk, CallsOk, NormalizeOrder, Potential, Plan, Progress, Exchange, DeriveFacts;
    var u := f.latestUpload.value;
    DeliverProgress(cap, w, pass, order, f, policy, action);
    ExchangeProgress(cap, w, pass, PendingDeliver(Digest(u), f.currentRequestKey),
                     DeliverCall(Digest(u), order.orderId, u.url, u.mediaType),
                     DeliverCompletion(u, pass.env.deliverReply));
  }

  lemma IntakePassProgresses(cap: nat, w: World, pass: Pass, order: Order, f: Facts, policy: Policy, action: Action)
    requires Situation(cap, w, pass, order, f, policy, action) && action.kind == WriteIntake
    requires pass.fault == NoFault && PlanOf(cap, w.log, pass) == [Write(IntakePayload(order))]
    ensures Progress(cap, w, pass)
  {
    hide Potential, Progress;
    IntakeIsSeen(order, w.log);
    IntakeLowers(cap, w.log, IntakePayload(order), pass);
    WriteProgress(cap, w, pass, IntakePayload(order));
  }

  /** Every crash-free pass over a reachable store makes progress. */
  lemma StepProgress(cap: nat, w: World, pass: Pass)
    requires Inv(cap, w) && pass.fault == NoFault
    ensures Progress(cap, w, pass)
  {
    hide FilesOk, CandidatesOk, QcOk, CausalOk, ReplacementOk, PendingUploadsOk, UploadsOk, PendingDeliversOk,
         DeliveriesOk, CallsOk, NormalizeOrder, Potential, Progress, DeriveFacts, EvaluatePolicies;
    var order := NormalizeOrder(pass.raw);
    FactsAreWellTyped(order, w.log);
    var f := DeriveFacts(order, ViewOf(w.log));
    var policy := EvaluatePolicies(order, f, cap);
    var action := DecideNextAction(f, policy);
    var plan := PlanOf(cap, w.log, pass);
    PlanShapes(order, ConfigOf(cap, pass), pass.env, f, policy);
    if |plan| == 1 && plan[0].Write? && plan[0].payload.DiagnosticPayload? {
      NoteProgress(cap, w, pass, plan[0].payload);
    } else if action.kind == WriteIntake {
      IntakePassProgresses(cap, w, pass, order, f, policy, action);
    } else if action.kind == Generate {
      var c := PrepareCandidate(order, f.candidateCount, pass.env.disk).payload;
      GenerateProgress(cap, w, pass, order, f, policy, action, c);
      WriteProgress(cap, w, pass, c);
    } else if action.kind == CheckQuality {
      var q := RunQc(f.latestCandidate.value, order, pass.env.disk);
      QcProgress(cap, w, pass, order, f, policy, action, q);
      WriteProgress(cap, w, pass, q);
    } else if action.kind == UploadAsset {
      UploadPassProgresses(cap, w, pass, order, f, policy, action, f.latestCandidate.value.filePath.value);
    } else {
      DeliverPassProgresses(cap, w, pass, order, f, policy, action);
    }
  }

  // --- many passes -------------------------------------------------------------------------------

  /** The same pass as a change of the world. */
  ghost function Again(cap: nat, pass: Pass): World -> World {
    w => Step(cap, w, pass)
  }

  lemma PassesProgress(cap: nat, pass: Pass) returns (f: World -> World, inv: World -> bool, measure: World -> nat)
    requires pass.fault == NoFault
    ensures f == Again(cap, pass) && Iteration.Progresses(f, inv, measure)
    ensures forall w :: Inv(cap, w) ==> inv(w) && measure(w) <= 2 * cap + 1
  {
    f := Again(cap, pass);
    inv := w => Inv(cap, w);
    measure := (w: World) => Potential(cap, w.log, pass);
    forall w, v | inv(w) && v == f(w)
      ensures inv(v) && (v == w || f(v) == v || measure(v) < measure(w))
    {
      StepProgress(cap, w, pass);
      StepKeepsInv(cap, w, pass);
    }
    forall w | Inv(cap, w) ensures measure(w) <= 2 * cap + 1 {
      PotentialBound(cap, w.log, pass);
    }
  }

  /** From any reachable store, after `2 * cap + 2` repetitions of one crash-free pass no further
      repetition changes the store or makes a call. */
  lemma RepeatedPassesSettle(cap: nat, passes: seq<Pass>, pass: Pass)
    requires pass.fault == NoFault
    ensures Iteration.StableFrom(Again(cap, pass), Reach(cap, passes), 2 * cap + 2)
  {
    var f, inv, measure := PassesProgress(cap, pass);
    var w := Reach(cap, passes);
    assert inv(w) && measure(w) <= 2 * cap + 1 by { ReachInv(cap, passes); }
    Iteration.SettlesForGood(f, inv, measure, w, 2 * cap + 2);
  }

  /** In a settled store the pass finds its artifact already there, unless a crash left that very file
      torn. */
  lemma SettledMeansReused(cap: nat, w: World, pass: Pass)
    requires Settled(cap, w, pass) && pass.fault == NoFault && NormalizeOrder(pass.raw).orderId != ""
    ensures var plan := PlanOf(cap, w.log, pass);
            plan != [] && plan[0].Write? && (plan[0].payload in w.log || plan[0].payload in w.torn)
  {
    var order := NormalizeOrder(pass.raw);
    FactsAreWellTyped(order, w.log);
    var f := DeriveFacts(order, ViewOf(w.log));
    PlanShapes(order, ConfigOf(cap, pass), pass.env, f, EvaluatePolicies(order, f, cap));
    var plan := PlanOf(cap, w.log, pass);
    if plan[0].payload !in w.log && plan[0].payload !in w.torn {
      PerformGrows(Logged(w, plan[0].payload), plan[1..], NoFault);
    }
  }
}
