/**
 How many external calls a whole run can make for one order: at most one per candidate that passed QC,
 hence fewer than the iteration cap, and at most one more than the number of times the request changed.
 */
module Bounds {
  import opened Options
  import opened Artifacts
  import opened Fulfillment
  import opened Reconciler
  import opened Invariant
  import opened Safety

  datatype Operation = Uploading | Delivering

  ghost function OperationOf(c: Call): Operation {
    if c.UploadCall? then Uploading else Delivering
  }

  /** The number of calls of one kind. */
  ghost function Count(calls: seq<Call>, op: Operation): nat {
    if calls == [] then 0
    else Count(calls[..|calls| - 1], op) + if OperationOf(calls[|calls| - 1]) == op then 1 else 0
  }

  /** The candidate a call is about. */
  ghost function CandidateOf(c: Call): Payload {
    match c
    case UploadCall(k, _) => k.payload
    case DeliverCall(k, _, _, _) => if k.payload.UploadPayload? then k.payload.candidateKey.payload else k.payload
  }

  ghost function NumberOf(c: Call): nat {
    var p := CandidateOf(c);
    if p.CandidatePayload? then p.attempt else 0
  }

  /** The numbers of the candidates the calls of one kind are about. */
  ghost function Numbers(calls: seq<Call>, op: Operation): (r: seq<nat>)
    ensures |r| == Count(calls, op)
    ensures forall x :: x in r ==> exists c :: c in calls && OperationOf(c) == op && NumberOf(c) == x
  {
    if calls == [] then [] else
      var last := calls[|calls| - 1];
      Numbers(calls[..|calls| - 1], op) + if OperationOf(last) == op then [NumberOf(last)] else []
  }

  // --- counting ----------------------------------------------------------------------------------

  ghost function Trues(s: seq<bool>): nat {
    if s == [] then 0 else Trues(s[..|s| - 1]) + if s[|s| - 1] then 1 else 0
  }

  lemma {:induction false} TruesBounded(s: seq<bool>)
    ensures Trues(s) <= |s|
  {
    if s != [] { TruesBounded(s[..|s| - 1]); }
  }

  /** Different numbers of good things are no more than there are good things. */
  lemma {:induction false} Pigeonhole(numbers: seq<nat>, good: seq<bool>)
    requires Distinct(numbers) && forall x :: x in numbers ==> 1 <= x <= |good| && good[x - 1]
    ensures |numbers| <= Trues(good)
  {
    var n := |good|;
    if numbers != [] {
      assert numbers[0] in numbers;
      var rest := numbers;
      if i :| 0 <= i < |numbers| && numbers[i] == n {
        rest := numbers[..i] + numbers[i + 1..];
        assert numbers[i] in numbers;
        forall x | x in rest ensures x != n {
          var k :| 0 <= k < |rest| && rest[k] == x;
          assert rest[k] == if k < i then numbers[k] else numbers[k + 1];
        }
      }
      forall x | x in rest ensures 1 <= x <= n - 1 && good[..n - 1][x - 1] {
        assert x in numbers;
      }
      Pigeonhole(rest, good[..n - 1]);
    }
  }

  /** How often consecutive elements differ. */
  ghost function Changes<T>(s: seq<T>): nat {
    if |s| <= 1 then 0
    else Changes(s[..|s| - 1]) + if s[|s| - 2] != s[|s| - 1] then 1 else 0
  }

  lemma ChangesAppend<T>(s: seq<T>, x: T)
    ensures Changes(s + [x]) == Changes(s) + if s != [] && s[|s| - 1] != x then 1 else 0
  {
    assert (s + [x])[..|s|] == s;
  }

  /** When each good element but the last is followed by a change, there is at most one good element
      more than there are changes. */
  lemma {:induction false} GoodOnesAreSeparated<T>(good: seq<bool>, keys: seq<T>)
    requires |good| == |keys| > 0
    requires forall i, j :: 0 <= i && j == i + 1 && j < |keys| && good[i] ==> keys[i] != keys[j]
    ensures Trues(good) <= 1 + Changes(keys)
    ensures Trues(good[..|good| - 1]) <= Changes(keys)
  {
    var n := |good|;
    if n > 1 {
      GoodOnesAreSeparated(good[..n - 1], keys[..n - 1]);
    }
  }

  // --- one call per candidate --------------------------------------------------------------------

  lemma CandidateByAttempt(cap: nat, log: seq<Payload>, p: Payload)
    requires CandidatesOk(cap, log) && p in log && p.CandidatePayload?
    ensures 1 <= p.attempt <= |Candidates(log)| && Candidates(log)[p.attempt - 1] == p
  {
    var c := Candidates(log);
    assert p in c;
    var i :| 0 <= i < |c| && c[i] == p;
  }

  /** The candidate behind a call is on record and passed QC. */
  lemma CallsAreAboutPassedCandidates(cap: nat, w: World, c: Call)
    requires Inv(cap, w) && c in w.calls
    ensures CandidateOf(c).CandidatePayload? && CandidateOf(c) in w.log && PassedQc(w.log, Digest(CandidateOf(c)))
    ensures CandidateOf(c).attempt < cap
  {
    assert CallOk(w.log, c);
    var k := Digest(CandidateOf(c));
    assert PendingUpload(k, CandidateOf(c).requestKey) in w.log;
    var q :| q in w.log && q.QcPayload? && q.candidateKey == k && q.status == Passed;
  }

  /** Two different calls of one kind are about differently numbered candidates. */
  lemma DifferentCallsDifferentNumbers(cap: nat, w: World, a: Call, b: Call)
    requires Inv(cap, w) && a in w.calls && b in w.calls
    requires OperationOf(a) == OperationOf(b) && TargetOf(a) != TargetOf(b)
    ensures NumberOf(a) != NumberOf(b)
  {
    assert CallOk(w.log, a) && CallOk(w.log, b);
    CallsAreAboutPassedCandidates(cap, w, a);
    CallsAreAboutPassedCandidates(cap, w, b);
    CandidateByAttempt(cap, w.log, CandidateOf(a));
    CandidateByAttempt(cap, w.log, CandidateOf(b));
  }

  lemma {:induction false} NumbersAreDistinct(calls: seq<Call>, op: Operation)
    requires forall i, j :: 0 <= i < j < |calls| ==>
               OperationOf(calls[i]) != OperationOf(calls[j]) || NumberOf(calls[i]) != NumberOf(calls[j])
    ensures Distinct(Numbers(calls, op))
  {
    if calls != [] {
      var n := |calls| - 1;
      var rest := Numbers(calls[..n], op);
      NumbersAreDistinct(calls[..n], op);
      if OperationOf(calls[n]) == op {
        forall k | 0 <= k < |rest| ensures rest[k] != NumberOf(calls[n]) {
          assert rest[k] in rest;
          var c :| c in calls[..n] && OperationOf(c) == op && NumberOf(c) == rest[k];
          var i :| 0 <= i < n && calls[i] == c;
        }
      }
    }
  }

  /** Which candidates passed QC, in order. */
  ghost function PassedFlags(log: seq<Payload>): seq<bool> {
    seq(|Candidates(log)|, i requires 0 <= i < |Candidates(log)| => PassedQc(log, Digest(Candidates(log)[i])))
  }

  lemma CountBoundedByPassed(cap: nat, w: World, op: Operation)
    requires Inv(cap, w)
    ensures Count(w.calls, op) <= Trues(PassedFlags(w.log))
  {
    hide CallOk, CausalOk, QcOk, PassedQc, ReplacementOk, PendingUploadsOk, UploadsOk, PendingDeliversOk,
         DeliveriesOk, FilesOk, CandidatesOk, Candidates, Trues, Count, Numbers, TargetOf, OperationOf, CandidateOf;
    forall i, j | 0 <= i < j < |w.calls|
      ensures OperationOf(w.calls[i]) != OperationOf(w.calls[j]) || NumberOf(w.calls[i]) != NumberOf(w.calls[j])
    {
      assert TargetOf(w.calls[i]) != TargetOf(w.calls[j]);
      if OperationOf(w.calls[i]) == OperationOf(w.calls[j]) {
        DifferentCallsDifferentNumbers(cap, w, w.calls[i], w.calls[j]);
      }
    }
    NumbersAreDistinct(w.calls, op);
    var numbers := Numbers(w.calls, op);
    forall x | x in numbers ensures 1 <= x <= |PassedFlags(w.log)| && PassedFlags(w.log)[x - 1] {
      var c :| c in w.calls && OperationOf(c) == op && NumberOf(c) == x;
      CallsAreAboutPassedCandidates(cap, w, c);
      CandidateByAttempt(cap, w.log, CandidateOf(c));
    }
    Pigeonhole(numbers, PassedFlags(w.log));
  }

  /** The last permitted candidate is never checked. */
  lemma LastCandidateNeverPasses(cap: nat, log: seq<Payload>, i: nat)
    requires CandidatesOk(cap, log) && QcOk(cap, log) && i < |Candidates(log)| && i + 1 >= cap
    ensures !PassedQc(log, Digest(Candidates(log)[i]))
  {
    var c := Candidates(log)[i];
    assert c.attempt == i + 1;
  }

  /** So fewer candidates pass than the cap permits. */
  lemma PassedBelowCap(cap: nat, w: World)
    requires Inv(cap, w)
    ensures Trues(PassedFlags(w.log)) <= if cap == 0 then 0 else cap - 1
  {
    var flags := PassedFlags(w.log);
    TruesBounded(flags);
    if flags != [] && |flags| == cap {
      LastCandidateNeverPasses(cap, w.log, |flags| - 1);
      TruesBounded(flags[..|flags| - 1]);
    }
  }

  // --- one call per change of the request --------------------------------------------------------

  ghost function RequestKeyOf(p: Payload): Option<RequestKey> {
    if p.CandidatePayload? then Some(p.requestKey) else None
  }

  lemma AddedKey(log: seq<Payload>, log': seq<Payload>, key: RequestKey)
    requires AddsCandidateFor(log, log', key)
    ensures RequestKeys(Candidates(log')) == RequestKeys(Candidates(log)) + [Some(key)]
  {
    var c, c' := Candidates(log), Candidates(log');
    assert forall i :: 0 <= i < |c| ==> c'[..|c|][i] == c[i];
  }

  ghost function RequestKeys(candidates: seq<Payload>): seq<Option<RequestKey>> {
    seq(|candidates|, i requires 0 <= i < |candidates| => RequestKeyOf(candidates[i]))
  }

  /** The request asked for by each effective pass. */
  ghost function Requests(passes: seq<Pass>): seq<Option<RequestKey>> {
    if passes == [] then [] else
      Requests(passes[..|passes| - 1]) + Asked(passes[|passes| - 1])
  }

  ghost function Asked(pass: Pass): seq<Option<RequestKey>> {
    var order := NormalizeOrder(pass.raw);
    if order.orderId == "" then [] else [Some(ExpectedRequestKey(order))]
  }

  ghost predicate AddsCandidateFor(log: seq<Payload>, log': seq<Payload>, key: RequestKey) {
    var c, c' := Candidates(log), Candidates(log');
    |c'| == |c| + 1 && c'[..|c|] == c && RequestKeyOf(c'[|c|]) == Some(key)
  }

  /** A pass leaves the candidates alone or adds one for the request it was given. */
  lemma StepCandidates(cap: nat, w: World, pass: Pass)
    ensures var order := NormalizeOrder(pass.raw);
            var w' := Step(cap, w, pass);
            || Candidates(w'.log) == Candidates(w.log)
            || (order.orderId != "" && AddsCandidateFor(w.log, w'.log, ExpectedRequestKey(order)))
  {
    hide Plan, DeriveFacts, EvaluatePolicies, ViewOf, Group, Perform, NormalizeOrder, ExpectedRequestKey,
         WritesNoCandidate;
    var order := NormalizeOrder(pass.raw);
    if order.orderId != "" {
      FactsAreWellTyped(order, w.log);
      var f := DeriveFacts(order, ViewOf(w.log));
      var policy := EvaluatePolicies(order, f, cap);
      var plan := PlanOf(cap, w.log, pass);
      PlanWritesCandidates(order, ConfigOf(cap, pass), pass.env, f, policy);
      if |plan| == 1 {
        assert plan == [Write(plan[0].payload)];
        PerformOne(w, plan[0].payload, pass.fault);
        CandidatesOfAppend(w.log, plan[0].payload);
      } else {
        PerformKeepsCandidates(w, plan, pass.fault);
      }
    }
  }

  lemma PlanWritesCandidates(order: Order, config: Config, env: Environment, f: Facts, policy: Policy)
    requires WellTyped(f)
    ensures var plan := Plan(order, config, env, f, policy);
            || (|plan| == 1 && plan[0].Write?
                && (plan[0].payload.CandidatePayload? ==> plan[0].payload.requestKey == ExpectedRequestKey(order)))
            || (|plan| != 1 && WritesNoCandidate(plan))
  {
  }

  ghost predicate WritesNoCandidate(effects: seq<Effect>) {
    forall i :: 0 <= i < |effects| && effects[i].Write? ==> !effects[i].payload.CandidatePayload?
  }

  lemma {:induction false} PerformKeepsCandidates(w: World, effects: seq<Effect>, fault: Fault)
    requires WritesNoCandidate(effects)
    ensures Candidates(Perform(w, effects, fault).log) == Candidates(w.log)
    decreases |effects|
  {
    if effects != [] {
      var rest, later := effects[1..], Later(fault);
      match effects[0]
      case Invoke(c) => PerformKeepsCandidates(Called(w, c), rest, later);
      case Write(p) =>
        if p in w.log {
          PerformKeepsCandidates(w, rest, later);
        } else {
          PerformKeepsCandidates(Logged(w, p), rest, later);
          CandidatesOfAppend(w.log, p);
        }
    }
  }

  /** `keys` changes no more often than `asked`, also when both continue with the last thing asked. */
  ghost predicate Follows<T>(keys: seq<T>, asked: seq<T>) {
    if asked == [] then keys == [] else Changes(keys + [asked[|asked| - 1]]) <= Changes(asked)
  }

  lemma FollowsOn<T>(keys: seq<T>, asked: seq<T>, k: T)
    requires Follows(keys, asked)
    ensures Follows(keys, asked + [k]) && Follows(keys + [k], asked + [k])
  {
    ChangesAppend(asked, k);
    ChangesAppend(keys, k);
    ChangesAppend(keys + [k], k);
    if asked != [] { ChangesAppend(keys, asked[|asked| - 1]); }
  }

  /** The request keys after a pass. */
  lemma StepKeys(cap: nat, w: World, pass: Pass)
    ensures var keys, keys' := RequestKeys(Candidates(w.log)), RequestKeys(Candidates(Step(cap, w, pass).log));
            keys' == keys || (Asked(pass) != [] && keys' == keys + Asked(pass))
  {
    StepCandidates(cap, w, pass);
    var w' := Step(cap, w, pass);
    var order := NormalizeOrder(pass.raw);
    if Candidates(w'.log) != Candidates(w.log) {
      AddedKey(w.log, w'.log, ExpectedRequestKey(order));
    }
  }

  lemma FollowsAfterStep(cap: nat, w: World, pass: Pass, asked: seq<Option<RequestKey>>)
    requires Follows(RequestKeys(Candidates(w.log)), asked)
    ensures Follows(RequestKeys(Candidates(Step(cap, w, pass).log)), asked + Asked(pass))
  {
    var more := Asked(pass);
    StepKeys(cap, w, pass);
    if more == [] {
      assert asked + more == asked;
    } else {
      assert more == [more[0]];
      FollowsOn(RequestKeys(Candidates(w.log)), asked, more[0]);
    }
  }

  /** The candidates change their request no more often than the orders did. */
  lemma {:induction false} CandidatesFollowRequests(cap: nat, passes: seq<Pass>)
    ensures Follows(RequestKeys(Candidates(Reach(cap, passes).log)), Requests(passes))
  {
    if passes != [] {
      var n := |passes| - 1;
      CandidatesFollowRequests(cap, passes[..n]);
      FollowsAfterStep(cap, Reach(cap, passes[..n]), passes[n], Requests(passes[..n]));
    }
  }

  lemma PassedBoundedByChanges(log: seq<Payload>)
    requires ReplacementOk(log)
    ensures Trues(PassedFlags(log)) <= 1 + Changes(RequestKeys(Candidates(log)))
  {
    var c := Candidates(log);
    var flags, keys := PassedFlags(log), RequestKeys(c);
    forall i, j | 0 <= i && j == i + 1 && j < |keys| && flags[i] ensures keys[i] != keys[j] {
      assert PassedQc(log, Digest(c[i]));
    }
    if c != [] {
      GoodOnesAreSeparated(flags, keys);
    }
  }

  /** Over every run the calls of either kind number fewer than the cap, and at most one more than the
      changes of the request. */
  lemma ExternalCallsAreBounded(cap: nat, passes: seq<Pass>, op: Operation)
    ensures Count(Reach(cap, passes).calls, op) <= if cap == 0 then 0 else cap - 1
    ensures Count(Reach(cap, passes).calls, op) <= 1 + Changes(Requests(passes))
  {
    hide FilesOk, CandidatesOk, QcOk, CausalOk, PendingUploadsOk, UploadsOk, PendingDeliversOk, DeliveriesOk,
         CallsOk, Run;
    var w := Reach(cap, passes);
    ReachInv(cap, passes);
    CountBoundedByPassed(cap, w, op);
    PassedBelowCap(cap, w);
    PassedBoundedByChanges(w.log);
    CandidatesFollowRequests(cap, passes);
    var asked := Requests(passes);
    if asked != [] {
      ChangesAppend(RequestKeys(Candidates(w.log)), asked[|asked| - 1]);
    }
  }

  ghost predicate AsksFor(pass: Pass, key: RequestKey) {
    ExpectedRequestKey(NormalizeOrder(pass.raw)) == key
  }

  /** While the request stays the same, at most one upload and one delivery are attempted in the whole
      run, crashes included. */
  lemma ConstantRequestCallsOnce(cap: nat, passes: seq<Pass>, key: RequestKey, op: Operation)
    requires forall i :: 0 <= i < |passes| ==> AsksFor(passes[i], key)
    ensures Count(Reach(cap, passes).calls, op) <= 1
  {
    ExternalCallsAreBounded(cap, passes, op);
    ConstantRequestsDoNotChange(passes, key);
  }

  lemma AskedForKey(pass: Pass, key: RequestKey)
    requires AsksFor(pass, key)
    ensures Asked(pass) == [] || Asked(pass) == [Some(key)]
  {
  }

  lemma {:induction false} ConstantRequestsDoNotChange(passes: seq<Pass>, key: RequestKey)
    requires forall i :: 0 <= i < |passes| ==> AsksFor(passes[i], key)
    ensures Changes(Requests(passes)) == 0
    ensures forall k :: k in Requests(passes) ==> k == Some(key)
  {
    hide AsksFor, Asked;
    if passes != [] {
      var n := |passes| - 1;
      var asked := Requests(passes[..n]);
      ConstantRequestsDoNotChange(passes[..n], key);
      AskedForKey(passes[n], key);
      ChangesAppend(asked, Some(key));
      assert asked != [] ==> asked[|asked| - 1] in asked;
      assert asked + [] == asked;
    }
  }
}
