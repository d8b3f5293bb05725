/**
 One pass of the order reconciler (dizzy_poll_deliver.mjs:137-440) as a function of the artifacts,
 the polled order and the environment: which effects it has, in which order, and what a crash at any
 point leaves behind.
 */
module Reconciler {
  import opened Options
  import opened Artifacts
  import opened Fulfillment
  import opened Text
  import Matchers

  /** An order as polled; every field may be missing. */
  datatype RawOrder = RawOrder(
    id: Option<string>, serviceId: Option<string>, status: Option<string>, brief: Option<string>,
    createdAt: Option<string>, updatedAt: Option<string>)

  function OrEmpty(s: Option<string>): string {
    if s.Some? then s.value else ""
  }

  function NormalizeOrder(raw: RawOrder): Order {
    Order(OrEmpty(raw.id), raw.serviceId, raw.status, Trim(OrEmpty(raw.brief), JS_SPACE), raw.createdAt, raw.updatedAt)
  }

  datatype Facts = Facts(
    currentRequestKey: RequestKey,
    hasIntake: bool,
    candidateCount: nat,
    latestCandidate: Option<Payload>,
    latestCandidateMatchesRequest: bool,
    latestQc: Option<Payload>,
    latestUpload: Option<Payload>,
    latestDelivery: Option<Payload>,
    hasUnresolvedUpload: bool,
    hasUnresolvedDelivery: bool,
    remoteAlreadyDelivered: bool)
  {
    predicate HasQcPass() { latestQc.Some? && latestQc.value.QcPayload? && latestQc.value.status == Passed }
  }

  function Latest(records: seq<Payload>): (r: Option<Payload>)
    ensures r.Some? ==> r.value in records
    ensures r.None? <==> records == []
  {
    if records == [] then None else Some(records[|records| - 1])
  }

  /** The records that satisfy a test, in order. */
  function Where(records: seq<Payload>, test: Payload -> bool): (r: seq<Payload>)
    ensures forall p :: p in r <==> p in records && test(p)
  {
    if records == [] then [] else
      var last := records[|records| - 1];
      Where(records[..|records| - 1], test) + if test(last) then [last] else []
  }

  function KeyOf(p: Option<Payload>): Option<Key> {
    if p.Some? then Some(Digest(p.value)) else None
  }

  /** The most recent record that refers to the target. */
  function LatestFor(records: seq<Payload>, reference: Payload -> Option<Key>, target: Option<Payload>):
    (r: Option<Payload>)
    ensures r.Some? ==> target.Some? && r.value in records && reference(r.value) == Some(Digest(target.value))
    ensures target.Some? && r.None? ==> forall p :: p in records ==> reference(p) != Some(Digest(target.value))
  {
    if target.None? then None else Latest(Where(records, r => reference(r) == Some(Digest(target.value))))
  }

  lemma {:induction false} LastOfWhere(records: seq<Payload>, test: Payload -> bool, i: nat)
    requires i < |records| && test(records[i]) && forall j :: i < j < |records| ==> !test(records[j])
    ensures Latest(Where(records, test)) == Some(records[i])
  {
    var n := |records| - 1;
    if i < n { LastOfWhere(records[..n], test, i); }
  }

  /** The latest record that refers to the target is the last such record of its group. */
  lemma LatestForIsLast(records: seq<Payload>, reference: Payload -> Option<Key>, target: Payload, i: nat)
    requires i < |records| && reference(records[i]) == Some(Digest(target))
    requires forall j :: i < j < |records| ==> reference(records[j]) != Some(Digest(target))
    ensures LatestFor(records, reference, Some(target)) == Some(records[i])
  {
    LastOfWhere(records, r => reference(r) == Some(Digest(target)), i);
  }

  /** The one record that refers to the target is the latest. */
  lemma OnlyMatchIsLatest(records: seq<Payload>, reference: Payload -> Option<Key>, target: Payload, p: Payload)
    requires p in records && reference(p) == Some(Digest(target))
    requires forall r :: r in records && reference(r) == Some(Digest(target)) ==> r == p
    ensures LatestFor(records, reference, Some(target)) == Some(p)
  {
    hide Where, Latest;
  }

  function DeriveFacts(order: Order, a: View): Facts {
    var candidate := Latest(a.candidate);
    var upload := LatestFor(a.upload, CandidateRef, candidate);
    Facts(
      ExpectedRequestKey(order),
      |a.intake| > 0,
      |a.candidate|,
      candidate,
      candidate.Some? && candidate.value.CandidatePayload? && candidate.value.requestKey == ExpectedRequestKey(order),
      LatestFor(a.qc, CandidateRef, candidate),
      upload,
      LatestFor(a.delivery, UploadRef, upload),
      HasUnresolvedUpload(a.pending, a.upload, KeyOf(candidate)),
      HasUnresolvedDelivery(a.pending, a.delivery, KeyOf(upload)),
      LowerAll(OrEmpty(order.status)) == "delivered")
  }

  /** The words and phrases of the restricted-content patterns, each searched as `\bphrase\b`
      ignoring case; an optional part of a pattern is written out as separate phrases. */
  const RESTRICTED_PHRASES: seq<string> := [
    "minor", "underage", "nonconsensual", "non-consensual", "non consensual", "sexual violence",
    "exploit", "exploitation", "illegal"]

  predicate IsRestricted(brief: string) {
    exists i :: 0 <= i < |RESTRICTED_PHRASES| && Matchers.RegexMatch(brief, RESTRICTED_PHRASES[i])
  }

  datatype Policy = Policy(decision: Decision, reasons: seq<PolicyReason>)

  function PolicyReasons(order: Order, facts: Facts, cap: nat): seq<PolicyReason> {
    (if order.brief == "" then [MissingBrief] else [])
    + (if IsRestricted(order.brief) then [RestrictedContent] else [])
    + (if facts.candidateCount >= cap && !facts.HasQcPass() then [IterationCapReached(cap)] else [])
  }

  predicate Blocks(r: PolicyReason) {
    r.RestrictedContent? || r.IterationCapReached?
  }

  function Decide(reasons: seq<PolicyReason>): Decision {
    if exists r :: r in reasons && Blocks(r) then Block
    else if exists r :: r in reasons && r.MissingBrief? then Revise
    else Allow
  }

  function EvaluatePolicies(order: Order, facts: Facts, cap: nat): Policy {
    var reasons := PolicyReasons(order, facts, cap);
    Policy(Decide(reasons), reasons)
  }

  datatype ActionType = Noop | WriteIntake | WriteDiagnostic | Generate | CheckQuality | UploadAsset | DeliverAsset

  datatype Action = Action(kind: ActionType, reason: Reason)

  function DecideNextAction(facts: Facts, policy: Policy): Action {
    if facts.remoteAlreadyDelivered || facts.latestDelivery.Some? then Action(Noop, AlreadyDelivered)
    else if !facts.hasIntake then Action(WriteIntake, MissingIntake)
    else if policy.decision != Allow then Action(WriteDiagnostic, PolicyGateClosed(policy.decision))
    else if facts.latestCandidate.None? then Action(Generate, MissingCandidate)
    else if !facts.latestCandidateMatchesRequest then Action(Generate, CandidateStale)
    else if facts.latestQc.None? then Action(CheckQuality, MissingQc)
    else if !facts.HasQcPass() then Action(Generate, QcFailed)
    else if facts.hasUnresolvedUpload then Action(WriteDiagnostic, AmbiguousUpload)
    else if facts.latestUpload.None? then Action(UploadAsset, MissingUpload)
    else if facts.hasUnresolvedDelivery then Action(WriteDiagnostic, AmbiguousDelivery)
    else if facts.latestDelivery.None? then Action(DeliverAsset, MissingDelivery)
    else Action(Noop, NothingMissing)
  }

  /** The reply of the upload service; an empty field stands for a missing one. */
  datatype UploadReply = UploadReply(url: string, mediaType: string)

  /** What the world shows to one pass: the prepared files and the replies of the two services, a
      missing reply being a failed call. */
  datatype Environment = Environment(disk: Disk, uploadReply: Option<UploadReply>, deliverReply: Option<int>)

  datatype Call =
    | UploadCall(candidateKey: Key, path: Path)
    | DeliverCall(uploadKey: Key, orderId: string, url: string, mediaType: string)

  /** The effects of a pass, in program order. */
  datatype Effect = Write(payload: Payload) | Invoke(call: Call)

  datatype Config = Config(mode: Mode, cap: nat, allowlist: set<string>)

  function Note(mode: Mode, action: Action, policy: Policy, event: Event): seq<Effect> {
    [Write(DiagnosticPayload(mode, action.reason, policy.decision, policy.reasons, event))]
  }

  /** A payload seen as a candidate; anything else is not one. */
  predicate IsCandidate(p: Option<Payload>) {
    p.Some? && p.value.CandidatePayload?
  }

  /** Intent, call and completion: the shape of both external exchanges. A failed call has no completion. */
  function Exchange(intent: Payload, call: Call, completion: Option<Payload>): seq<Effect> {
    [Write(intent), Invoke(call)] + if completion.Some? then [Write(completion.value)] else []
  }

  function UploadCompletion(key: Key, reply: Option<UploadReply>): Option<Payload> {
    if reply.None? then None else Some(UploadPayload(key, reply.value.url, reply.value.mediaType))
  }

  function DeliverCompletion(upload: Payload, reply: Option<int>): Option<Payload>
    requires upload.UploadPayload?
  {
    if reply.None? then None else Some(DeliveryPayload(Digest(upload), upload.url, upload.mediaType, reply.value))
  }

  function PlanGenerate(order: Order, config: Config, env: Environment, facts: Facts, policy: Policy, action: Action):
    seq<Effect> {
    if config.mode == DryRun then Note(config.mode, action, policy, DryRunSkipGenerate)
    else match PrepareCandidate(order, facts.candidateCount, env.disk)
      case NotPrepared(failure) => Note(config.mode, action, policy, RequiresPreparedCandidate(failure))
      case Prepared(payload) => [Write(payload)]
  }

  function PlanUpload(order: Order, config: Config, env: Environment, facts: Facts, policy: Policy, action: Action):
    seq<Effect>
    requires IsCandidate(facts.latestCandidate)
  {
    var candidate := facts.latestCandidate.value;
    if config.mode != ManualDelivery then Note(config.mode, action, policy, UploadBlockedByMode)
    else if candidate.filePath.None? then Note(config.mode, action, policy, UploadMissingCandidatePath)
    else
      var issues := Assess(candidate, order, env.disk);
      if issues != [] then Note(config.mode, action, policy, UploadBlockedInvalid(issues))
      else
        var key := Digest(candidate);
        Exchange(
          PendingUpload(key, facts.currentRequestKey),
          UploadCall(key, candidate.filePath.value),
          UploadCompletion(key, env.uploadReply))
  }

  function PlanDeliver(order: Order, config: Config, env: Environment, facts: Facts, policy: Policy, action: Action):
    seq<Effect>
    requires IsCandidate(facts.latestCandidate)
    requires facts.latestUpload.Some? && facts.latestUpload.value.UploadPayload?
  {
    var upload := facts.latestUpload.value;
    if config.mode != ManualDelivery then Note(config.mode, action, policy, DeliverBlockedByMode)
    else if order.orderId !in config.allowlist then Note(config.mode, action, policy, DeliverNotAllowlisted)
    else if upload.url == "" || upload.mediaType == "" then Note(config.mode, action, policy, DeliverMissingUpload)
    else
      var issues := Assess(facts.latestCandidate.value, order, env.disk);
      if issues != [] then Note(config.mode, action, policy, DeliverBlockedInvalid(issues))
      else
        var key := Digest(upload);
        Exchange(
          PendingDeliver(key, facts.currentRequestKey),
          DeliverCall(key, order.orderId, upload.url, upload.mediaType),
          DeliverCompletion(upload, env.deliverReply))
  }

  /** Facts as `DeriveFacts` produces them: each record is of the type of its group. */
  predicate WellTyped(f: Facts) {
    && (f.latestCandidate.Some? ==> f.latestCandidate.value.CandidatePayload?)
    && (f.latestQc.Some? ==> f.latestQc.value.QcPayload?)
    && (f.latestUpload.Some? ==> f.latestUpload.value.UploadPayload?)
  }

  function Plan(order: Order, config: Config, env: Environment, facts: Facts, policy: Policy): seq<Effect>
    requires WellTyped(facts)
  {
    var action := DecideNextAction(facts, policy);
    match action.kind
    case Noop => Note(config.mode, action, policy, NoopEvent)
    case WriteIntake => [Write(IntakePayload(order))]
    case WriteDiagnostic => Note(config.mode, action, policy, PolicyGate)
    case Generate => PlanGenerate(order, config, env, facts, policy, action)
    case CheckQuality =>
      if config.mode == DryRun then Note(config.mode, action, policy, DryRunSkipQc)
      else [Write(RunQc(facts.latestCandidate.value, order, env.disk))]
    case UploadAsset => PlanUpload(order, config, env, facts, policy, action)
    case DeliverAsset => PlanDeliver(order, config, env, facts, policy, action)
  }

  // ---------------------------------------------------------------------------------------------

  /** The durable state of one order directory: the intact artifacts in the order they were first
      written, the artifact files a crash left half-written, and the external calls ever made. */
  datatype World = World(log: seq<Payload>, torn: set<Payload>, calls: seq<Call>)

  const EMPTY := World([], {}, [])

  /** An interruption of a pass: the process dies before its n-th effect, or in the middle of it. */
  datatype Fault = NoFault | CrashBefore(at: nat) | TearAt(at: nat)

  function Later(f: Fault): Fault {
    match f
    case NoFault => NoFault
    case CrashBefore(at) => if at == 0 then NoFault else CrashBefore(at - 1)
    case TearAt(at) => if at == 0 then NoFault else TearAt(at - 1)
  }

  function Logged(w: World, p: Payload): World {
    w.(log := w.log + [p])
  }

  function Tear(w: World, p: Payload): World {
    w.(torn := w.torn + {p})
  }

  function Called(w: World, c: Call): World {
    w.(calls := w.calls + [c])
  }

  /** Runs the effects. Writing an artifact whose file exists reuses it when it is intact and fails
      the pass when it is torn. */
  function Perform(w: World, effects: seq<Effect>, fault: Fault): World
    decreases |effects|
  {
    if effects == [] || fault == CrashBefore(0) then w
    else match effects[0]
      case Invoke(c) => if fault == TearAt(0) then w else Perform(Called(w, c), effects[1..], Later(fault))
      case Write(p) =>
        if p in w.torn then w
        else if p in w.log then Perform(w, effects[1..], Later(fault))
        else if fault == TearAt(0) then Tear(w, p)
        else Perform(Logged(w, p), effects[1..], Later(fault))
  }

  /** What a single write does. */
  lemma PerformOne(w: World, p: Payload, fault: Fault)
    ensures Perform(w, [Write(p)], fault)
            == if fault == CrashBefore(0) || p in w.torn || p in w.log then w
               else if fault == TearAt(0) then Tear(w, p) else Logged(w, p)
  {
    assert [Write(p)][1..] == [];
    assert Perform(Logged(w, p), [], Later(fault)) == Logged(w, p);
    assert Perform(w, [], Later(fault)) == w;
  }

  /** The tail of an exchange: the call, then the completion. */
  function AfterIntent(call: Call, completion: Option<Payload>): seq<Effect> {
    [Invoke(call)] + if completion.Some? then [Write(completion.value)] else []
  }

  lemma ExchangeSteps(w: World, intent: Payload, call: Call, completion: Option<Payload>, fault: Fault)
    ensures Perform(w, Exchange(intent, call, completion), fault)
            == if fault == CrashBefore(0) || intent in w.torn then w
               else if intent in w.log then Perform(w, AfterIntent(call, completion), Later(fault))
               else if fault == TearAt(0) then Tear(w, intent)
               else Perform(Logged(w, intent), AfterIntent(call, completion), Later(fault))
  {
    assert Exchange(intent, call, completion)[1..] == AfterIntent(call, completion);
  }

  lemma CallSteps(w: World, call: Call, completion: Option<Payload>, fault: Fault)
    ensures Perform(w, AfterIntent(call, completion), fault)
            == if fault == CrashBefore(0) || fault == TearAt(0) then w
               else if completion.None? then Called(w, call)
               else Perform(Called(w, call), [Write(completion.value)], Later(fault))
  {
    var last := if completion.Some? then [Write(completion.value)] else [];
    assert AfterIntent(call, completion)[1..] == last;
    assert completion.None? ==> Perform(Called(w, call), last, Later(fault)) == Called(w, call);
  }

  /** How a pass ends: normally, by an exception that the batch catches, or with the process. */
  datatype Ending = Completed | Threw | Died

  /** The ending of the effects. A torn file and a failed call throw; a call without a completion failed. */
  function EndingOf(w: World, effects: seq<Effect>, fault: Fault): Ending
    decreases |effects|
  {
    if effects == [] then Completed
    else if fault == CrashBefore(0) then Died
    else match effects[0]
      case Invoke(c) =>
        if fault == TearAt(0) then Died
        else if |effects| == 1 then Threw
        else EndingOf(Called(w, c), effects[1..], Later(fault))
      case Write(p) =>
        if p in w.torn then Threw
        else if p in w.log then EndingOf(w, effects[1..], Later(fault))
        else if fault == TearAt(0) then Died
        else EndingOf(Logged(w, p), effects[1..], Later(fault))
  }

  lemma OneEnding(w: World, p: Payload, fault: Fault)
    ensures EndingOf(w, [Write(p)], fault)
            == if fault == CrashBefore(0) then Died
               else if p in w.torn then Threw
               else if p !in w.log && fault == TearAt(0) then Died
               else Completed
  {
    assert [Write(p)][1..] == [];
  }

  lemma ExchangeEnding(w: World, intent: Payload, call: Call, completion: Option<Payload>, fault: Fault)
    ensures EndingOf(w, Exchange(intent, call, completion), fault)
            == if fault == CrashBefore(0) then Died
               else if intent in w.torn then Threw
               else if intent in w.log then EndingOf(w, AfterIntent(call, completion), Later(fault))
               else if fault == TearAt(0) then Died
               else EndingOf(Logged(w, intent), AfterIntent(call, completion), Later(fault))
  {
    assert Exchange(intent, call, completion)[1..] == AfterIntent(call, completion);
  }

  lemma CallEnding(w: World, call: Call, completion: Option<Payload>, fault: Fault)
    ensures EndingOf(w, AfterIntent(call, completion), fault)
            == if fault == CrashBefore(0) || fault == TearAt(0) then Died
               else if completion.None? then Threw
               else EndingOf(Called(w, call), [Write(completion.value)], Later(fault))
  {
    if completion.Some? { assert AfterIntent(call, completion)[1..] == [Write(completion.value)]; }
  }

  /** Everything outside the process that one pass meets. The allowlist is given by the entries of the
      configured list. */
  datatype Pass = Pass(raw: RawOrder, mode: Mode, allowlist: set<string>, env: Environment, fault: Fault)

  /** The allowlisted ids: the entries, trimmed, without the blank ones (dizzy_poll_deliver.mjs:16-21). */
  function AllowedIds(pass: Pass): set<string> {
    set e | e in pass.allowlist && Trim(e, JS_SPACE) != "" :: Trim(e, JS_SPACE)
  }

  function ConfigOf(cap: nat, pass: Pass): Config {
    Config(pass.mode, cap, AllowedIds(pass))
  }

  lemma FactsAreWellTyped(order: Order, log: seq<Payload>)
    ensures WellTyped(DeriveFacts(order, ViewOf(log)))
  {
  }

  ghost function PlanOf(cap: nat, log: seq<Payload>, pass: Pass): seq<Effect> {
    var order := NormalizeOrder(pass.raw);
    var facts := DeriveFacts(order, ViewOf(log));
    FactsAreWellTyped(order, log);
    Plan(order, ConfigOf(cap, pass), pass.env, facts, EvaluatePolicies(order, facts, cap))
  }

  ghost function Step(cap: nat, w: World, pass: Pass): World {
    if NormalizeOrder(pass.raw).orderId == "" then w else Perform(w, PlanOf(cap, w.log, pass), pass.fault)
  }

  ghost function Run(cap: nat, w: World, passes: seq<Pass>): World {
    if passes == [] then w else Step(cap, Run(cap, w, passes[..|passes| - 1]), passes[|passes| - 1])
  }
}
