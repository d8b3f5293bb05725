/**
 The reconciler as the program runs it (dizzy_poll_deliver.mjs:290-460): artifacts are loaded from the
 directory, one action is chosen and executed step by step, and any step may be the last. Each method is
 proved to do to the durable state what the pass semantics of `Reconciler` says.
 */
module OrderReconciler {
  import opened Options
  import opened Artifacts
  import opened ArtifactStore
  import opened Fulfillment
  import opened Reconciler

  function FateOf(fault: Fault): Fate {
    match fault
    case NoFault => Proceed
    case CrashBefore(at) => if at == 0 then CrashNow else Proceed
    case TearAt(at) => if at == 0 then TearNow else Proceed
  }

  function EndingFrom(out: Outcome): Ending {
    match out
    case Appended(_) => Completed
    case Failed => Threw
    case Crashed => Died
  }

  /** How one pass ends; after its effects it rewrites the state file, which may be its last deed. */
  ghost function PassEnding(cap: nat, w: World, pass: Pass, stateFate: Fate): Ending {
    if NormalizeOrder(pass.raw).orderId == "" then Completed
    else
      var ending := EndingOf(w, PlanOf(cap, w.log, pass), pass.fault);
      if ending == Completed && stateFate != Proceed then Died else ending
  }

  class OrderReconciler {
    const store: Directory
    const cap: nat
    /** The external calls made so far: the trace of the outside world, not process memory. */
    var calls: seq<Call>

    constructor (store: Directory, cap: nat)
      requires store.Valid() && store.log == [] && store.TornArtifacts() == {}
      ensures this.store == store && this.cap == cap && State() == EMPTY
    {
      this.store, this.cap, this.calls := store, cap, [];
    }

    ghost predicate Valid()
      reads this, store
    {
      store.Valid()
    }

    ghost function State(): World
      reads this, store
    {
      World(store.log, store.TornArtifacts(), calls)
    }

    /** Writes one artifact. */
    method Append(payload: Payload, fault: Fault) returns (out: Outcome)
      requires Valid()
      modifies store
      ensures Valid() && calls == old(calls)
      ensures State() == Perform(old(State()), [Write(payload)], fault)
      ensures EndingFrom(out) == EndingOf(old(State()), [Write(payload)], fault)
      ensures out.Appended? <==> fault != CrashBefore(0) && payload !in old(store.TornArtifacts())
                                 && (fault == TearAt(0) ==> payload in old(store.log))
    {
      out := store.AppendArtifact(payload, FateOf(fault));
      PerformOne(old(State()), payload, fault);
      OneEnding(old(State()), payload, fault);
    }

    method WriteNote(config: Config, action: Action, policy: Policy, event: Event, fault: Fault) returns (out: Outcome)
      requires Valid()
      modifies store
      ensures Valid() && calls == old(calls)
      ensures State() == Perform(old(State()), Note(config.mode, action, policy, event), fault)
      ensures EndingFrom(out) == EndingOf(old(State()), Note(config.mode, action, policy, event), fault)
    {
      out := Append(DiagnosticPayload(config.mode, action.reason, policy.decision, policy.reasons, event), fault);
    }

    /** Announces, calls and records; stops where the process crashes or the call fails. */
    method RunExchange(intent: Payload, call: Call, completion: Option<Payload>, fault: Fault) returns (out: Outcome)
      requires Valid()
      modifies store, this`calls
      ensures Valid()
      ensures State() == Perform(old(State()), Exchange(intent, call, completion), fault)
      ensures EndingFrom(out) == EndingOf(old(State()), Exchange(intent, call, completion), fault)
    {
      ghost var before := State();
      ExchangeSteps(before, intent, call, completion, fault);
      ExchangeEnding(before, intent, call, completion, fault);
      PerformOne(before, intent, fault);
      OneEnding(before, intent, fault);
      out := Append(intent, fault);
      if !out.Appended? {
        return;
      }
      ghost var announced := State();
      var f1 := Later(fault);
      CallSteps(announced, call, completion, f1);
      CallEnding(announced, call, completion, f1);
      if f1 == CrashBefore(0) || f1 == TearAt(0) {
        return Crashed;
      }
      calls := calls + [call];
      if completion.None? {
        return Failed;
      }
      out := Append(completion.value, Later(f1));
    }

    method ExecuteGenerate(order: Order, config: Config, env: Environment, facts: Facts, policy: Policy,
                           action: Action, fault: Fault)
      returns (out: Outcome)
      requires Valid()
      modifies store
      ensures Valid() && calls == old(calls)
      ensures State() == Perform(old(State()), PlanGenerate(order, config, env, facts, policy, action), fault)
      ensures EndingFrom(out) == EndingOf(old(State()), PlanGenerate(order, config, env, facts, policy, action), fault)
    {
      if config.mode == DryRun {
        out := WriteNote(config, action, policy, DryRunSkipGenerate, fault);
      } else {
        var prepared := PrepareCandidate(order, facts.candidateCount, env.disk);
        match prepared {
          case NotPrepared(failure) => out := WriteNote(config, action, policy, RequiresPreparedCandidate(failure),
                                                        fault);
          case Prepared(payload) => out := Append(payload, fault);
        }
      }
    }

    method ExecuteUpload(order: Order, config: Config, env: Environment, facts: Facts, policy: Policy, action: Action,
                         fault: Fault)
      returns (out: Outcome)
      requires Valid() && IsCandidate(facts.latestCandidate)
      modifies store, this`calls
      ensures Valid()
      ensures State() == Perform(old(State()), PlanUpload(order, config, env, facts, policy, action), fault)
      ensures EndingFrom(out) == EndingOf(old(State()), PlanUpload(order, config, env, facts, policy, action), fault)
    {
      var candidate := facts.latestCandidate.value;
      if config.mode != ManualDelivery {
        out := WriteNote(config, action, policy, UploadBlockedByMode, fault);
        return;
      }
      if candidate.filePath.None? {
        out := WriteNote(config, action, policy, UploadMissingCandidatePath, fault);
        return;
      }
      var issues := Assess(candidate, order, env.disk);
      if issues != [] {
        out := WriteNote(config, action, policy, UploadBlockedInvalid(issues), fault);
        return;
      }
      var key := Digest(candidate);
      out := RunExchange(PendingUpload(key, facts.currentRequestKey), UploadCall(key, candidate.filePath.value),
                         UploadCompletion(key, env.uploadReply), fault);
    }

    method ExecuteDeliver(order: Order, config: Config, env: Environment, facts: Facts, policy: Policy,
                          action: Action, fault: Fault)
      returns (out: Outcome)
      requires Valid() && IsCandidate(facts.latestCandidate)
      requires facts.latestUpload.Some? && facts.latestUpload.value.UploadPayload?
      modifies store, this`calls
      ensures Valid()
      ensures State() == Perform(old(State()), PlanDeliver(order, config, env, facts, policy, action), fault)
      ensures EndingFrom(out) == EndingOf(old(State()), PlanDeliver(order, config, env, facts, policy, action), fault)
    {
      var upload := facts.latestUpload.value;
      if config.mode != ManualDelivery {
        out := WriteNote(config, action, policy, DeliverBlockedByMode, fault);
        return;
      }
      if order.orderId !in config.allowlist {
        out := WriteNote(config, action, policy, DeliverNotAllowlisted, fault);
        return;
      }
      if upload.url == "" || upload.mediaType == "" {
        out := WriteNote(config, action, policy, DeliverMissingUpload, fault);
        return;
      }
      var issues := Assess(facts.latestCandidate.value, order, env.disk);
      if issues != [] {
        out := WriteNote(config, action, policy, DeliverBlockedInvalid(issues), fault);
        return;
      }
      var key := Digest(upload);
      out := RunExchange(PendingDeliver(key, facts.currentRequestKey),
                         DeliverCall(key, order.orderId, upload.url, upload.mediaType),
                         DeliverCompletion(upload, env.deliverReply), fault);
    }

    method ExecuteAction(order: Order, config: Config, env: Environment, facts: Facts, policy: Policy, fault: Fault)
      returns (out: Outcome)
      requires Valid() && WellTyped(facts)
      modifies store, this`calls
      ensures Valid()
      ensures State() == Perform(old(State()), Plan(order, config, env, facts, policy), fault)
      ensures EndingFrom(out) == EndingOf(old(State()), Plan(order, config, env, facts, policy), fault)
    {
      var action := DecideNextAction(facts, policy);
      match action.kind {
        case Noop => out := WriteNote(config, action, policy, NoopEvent, fault);
        case WriteIntake => out := Append(IntakePayload(order), fault);
        case WriteDiagnostic => out := WriteNote(config, action, policy, PolicyGate, fault);
        case Generate => out := ExecuteGenerate(order, config, env, facts, policy, action, fault);
        case CheckQuality =>
          if config.mode == DryRun {
            out := WriteNote(config, action, policy, DryRunSkipQc, fault);
          } else {
            out := Append(RunQc(facts.latestCandidate.value, order, env.disk), fault);
          }
        case UploadAsset => out := ExecuteUpload(order, config, env, facts, policy, action, fault);
        case DeliverAsset => out := ExecuteDeliver(order, config, env, facts, policy, action, fault);
      }
    }

    /** One pass over one order: load, derive, decide, execute, and rewrite the derived state file. */
    method ReconcileOrder(pass: Pass, stateFate: Fate) returns (ending: Ending)
      requires Valid()
      modifies store, this`calls
      ensures Valid() && State() == Step(cap, old(State()), pass)
      ensures ending == PassEnding(cap, old(State()), pass, stateFate)
    {
      var order := NormalizeOrder(pass.raw);
      if order.orderId == "" {
        return Completed;
      }
      var listing := store.ListFiles();
      var artifacts, parseErrors := store.LoadArtifacts(listing);
      var facts := DeriveFacts(order, artifacts);
      FactsAreWellTyped(order, store.log);
      var policy := EvaluatePolicies(order, facts, cap);
      var out := ExecuteAction(order, ConfigOf(cap, pass), pass.env, facts, policy, pass.fault);
      if !out.Appended? {
        return EndingFrom(out);
      }
      store.WriteCanonicalState(stateFate);
      return if stateFate == Proceed then Completed else Died;
    }

    /** The polling loop as seen by one order: each pass is independent of how the previous one ended. */
    method ReconcileAll(passes: seq<Pass>, stateFates: seq<Fate>)
      requires Valid() && |stateFates| == |passes|
      modifies store, this`calls
      ensures Valid() && State() == Run(cap, old(State()), passes)
    {
      var i := 0;
      ghost var start := State();
      while i < |passes|
        invariant 0 <= i <= |passes|
        invariant Valid() && State() == Run(cap, start, passes[..i])
      {
        var ending := ReconcileOrder(passes[i], stateFates[i]);
        assert passes[..i + 1][..i] == passes[..i];
        i := i + 1;
      }
      assert passes[..i] == passes;
    }
  }
}
