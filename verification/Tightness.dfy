/**
 The bounds on the external calls are attained: alternating requests, each answered by the upload service and not by
 the delivery service, make one more call every round.
 */
module Tightness {
  import opened Options
  import opened Fulfillment
  import opened Text
  import opened Reconciler
  import opened Invariant
  import opened Safety
  import opened Bounds
  import opened Liveness
  import opened Samples

  /** A willing pass whose delivery call gets no answer. */
  ghost predicate Unanswered(pass: Pass) {
    Willing(pass) && pass.env.deliverReply.None?
  }

  ghost function Turn(a: Pass, b: Pass, k: nat): Pass {
    if k % 2 == 0 then a else b
  }

  ghost function Rounds(a: Pass, b: Pass, n: nat): seq<Pass> {
    if n == 0 then [] else Rounds(a, b, n - 1) + Repeat(Turn(a, b, n - 1), 4)
  }

  /** The intake, then `n` rounds of four passes. */
  ghost function Alternating(a: Pass, b: Pass, n: nat): seq<Pass> {
    Repeat(a, 1) + Rounds(a, b, n)
  }

  lemma FirstRound(a: Pass, b: Pass)
    ensures Alternating(a, b, 1) == Repeat(a, 1) + Repeat(a, 4) == ([] + Repeat(a, 1)) + Repeat(a, 4)
  {
    assert Rounds(a, b, 0) == [] && Rounds(a, b, 1) == [] + Repeat(Turn(a, b, 0), 4);
  }

  lemma AnotherRound(a: Pass, b: Pass, n: nat)
    ensures Alternating(a, b, n + 1) == Alternating(a, b, n) + Repeat(Turn(a, b, n), 4)
  {
  }

  /** After `n` unanswered rounds. */
  ghost predicate AfterRounds(cap: nat, w: World, last: Pass, n: nat) {
    && Open(cap, w) && IsCurrent(w, last) && w.torn == {} && |Candidates(w.log)| == n
    && Count(w.calls, Uploading) == n && Count(w.calls, Delivering) == n
  }

  lemma NextRound(cap: nat, w: World, last: Pass, pass: Pass, n: nat)
    requires AfterRounds(cap, w, last, n) && Unanswered(pass) && n + 1 < cap
    requires RequestOfPass(pass) != RequestOfPass(last)
    ensures AfterRounds(cap, Run(cap, w, Repeat(pass, 4)), pass, n + 1)
  {
    hide Open, Ready, Candidates, Count, Run, Repeat, RequestOfPass, AllowedIds, PrepareCandidate;
    assert On(cap, w, pass, NeedsCandidate) by { OtherRequestNeedsCandidate(cap, w, last, pass); }
    hide On;
    WillingPassesFinish(cap, w, pass, NeedsCandidate);
    ServedKeepsOpen(cap, pass, Run(cap, w, Repeat(pass, 4)));
  }

  lemma ServedKeepsOpen(cap: nat, pass: Pass, w: World)
    requires Served(cap, pass, w) && pass.env.deliverReply.None?
    ensures Open(cap, w) && IsCurrent(w, pass)
  {
  }

  lemma OtherRequestNeedsCandidate(cap: nat, w: World, last: Pass, pass: Pass)
    requires Open(cap, w) && IsCurrent(w, last) && w.torn == {} && Ready(pass)
    requires RequestOfPass(pass) != RequestOfPass(last) && |Candidates(w.log)| + 1 < cap
    ensures On(cap, w, pass, NeedsCandidate)
  {
    hide Open, Ready, Candidates, RequestOfPass, Assess;
    ReadyIsPreparing(pass);
    FreshCandidateIsSound(pass, |Candidates(w.log)|);
  }

  lemma OneRound(cap: nat, a: Pass, b: Pass)
    requires Unanswered(a) && cap >= 2
    ensures AfterRounds(cap, Reach(cap, Alternating(a, b, 1)), a, 1)
  {
    hide Ready, Candidates, Count, Run, Repeat, RequestOfPass, AllowedIds, Open, Alternating;
    FivePassesDeliver(cap, a);
    FirstRound(a, b);
    ServedKeepsOpen(cap, a, Reach(cap, Alternating(a, b, 1)));
  }

  lemma TurnsDiffer(a: Pass, b: Pass, k: nat)
    requires RequestOfPass(a) != RequestOfPass(b)
    ensures RequestOfPass(Turn(a, b, k + 1)) != RequestOfPass(Turn(a, b, k)) && Turn(a, b, 0) == a
  {
    hide RequestOfPass;
  }

  lemma {:induction false} RoundsCall(cap: nat, a: Pass, b: Pass, n: nat)
    requires Unanswered(a) && Unanswered(b) && RequestOfPass(a) != RequestOfPass(b) && 1 <= n < cap
    ensures AfterRounds(cap, Reach(cap, Alternating(a, b, n)), Turn(a, b, n - 1), n)
  {
    hide Unanswered, Run, Repeat, RequestOfPass, Alternating, AfterRounds;
    if n == 1 {
      OneRound(cap, a, b);
    } else {
      var before := Alternating(a, b, n - 1);
      var pass := Turn(a, b, n - 1);
      RoundsCall(cap, a, b, n - 1);
      TurnsDiffer(a, b, n - 2);
      NextRound(cap, Reach(cap, before), Turn(a, b, n - 2), pass, n - 1);
      AnotherRound(a, b, n - 1);
      RunConcat(cap, EMPTY, before, Repeat(pass, 4));
    }
  }

  // --- how often the request changed -------------------------------------------------------------

  ghost function Copies<T>(x: T, m: nat): seq<T> {
    seq(m, _ => x)
  }

  lemma {:induction false} ChangesWithCopies<T>(s: seq<T>, x: T, m: nat)
    ensures Changes(s + Copies(x, m)) <= Changes(s) + 1
    ensures m > 0 ==> (s + Copies(x, m))[|s| + m - 1] == x
    ensures s != [] && s[|s| - 1] == x ==> Changes(s + Copies(x, m)) == Changes(s)
    ensures s == [] ==> Changes(s + Copies(x, m)) == 0
  {
    if m == 0 {
      assert s + Copies(x, 0) == s;
    } else {
      ChangesWithCopies(s, x, m - 1);
      assert s + Copies(x, m) == (s + Copies(x, m - 1)) + [x];
      ChangesAppend(s + Copies(x, m - 1), x);
    }
  }

  lemma RepeatMore(passes: seq<Pass>, pass: Pass, m: nat)
    ensures passes + Repeat(pass, m + 1) == (passes + Repeat(pass, m)) + [pass]
    ensures passes + Repeat(pass, 0) == passes
  {
  }

  lemma CopiesMore<T>(s: seq<T>, x: T, m: nat)
    ensures s + Copies(x, m + 1) == (s + Copies(x, m)) + [x]
    ensures s + Copies(x, 0) == s
  {
  }

  lemma {:induction false} RequestsOfRepeat(passes: seq<Pass>, pass: Pass, m: nat)
    requires NormalizeOrder(pass.raw).orderId != ""
    ensures Requests(passes + Repeat(pass, m)) == Requests(passes) + Copies(Some(RequestOfPass(pass)), m)
  {
    hide NormalizeOrder, ExpectedRequestKey, Repeat, Copies, Requests;
    if m == 0 {
      RepeatMore(passes, pass, 0);
      CopiesMore(Requests(passes), Some(RequestOfPass(pass)), 0);
    } else {
      RequestsOfRepeat(passes, pass, m - 1);
      RepeatMore(passes, pass, m - 1);
      CopiesMore(Requests(passes), Some(RequestOfPass(pass)), m - 1);
      OneMoreRequest(passes + Repeat(pass, m - 1), pass);
    }
  }

  lemma OneMoreRequest(passes: seq<Pass>, pass: Pass)
    ensures Requests(passes + [pass]) == Requests(passes) + Asked(pass)
  {
    hide Asked;
    assert (passes + [pass])[..|passes|] == passes;
  }

  lemma {:induction false} RoundsChange(a: Pass, b: Pass, n: nat)
    requires NormalizeOrder(a.raw).orderId != "" && NormalizeOrder(b.raw).orderId != "" && n > 0
    ensures Changes(Requests(Alternating(a, b, n))) <= n - 1
  {
    hide NormalizeOrder, RequestOfPass, Repeat, Alternating, Requests, Changes, Copies;
    if n == 1 {
      var request := Some(RequestOfPass(a));
      FirstRound(a, b);
      NoRequests();
      RequestsOfRepeat([], a, 1);
      RequestsOfRepeat([] + Repeat(a, 1), a, 4);
      ChangesWithCopies([], request, 1);
      ChangesWithCopies([] + Copies(request, 1), request, 4);
      CopiesMore([], request, 0);
    } else {
      var pass := Turn(a, b, n - 1);
      var before := Alternating(a, b, n - 1);
      RoundsChange(a, b, n - 1);
      AnotherRound(a, b, n - 1);
      RequestsOfRepeat(before, pass, 4);
      ChangesWithCopies(Requests(before), Some(RequestOfPass(pass)), 4);
    }
  }

  lemma NoRequests()
    ensures Requests([]) == []
  {
  }

  // --- attained bounds ---------------------------------------------------------------------------

  lemma SampleRequestsDiffer()
    ensures RequestOfPass(SamplePass("1", REQUEST_A, "", "", None))
            != RequestOfPass(SamplePass("1", REQUEST_B, "", "", None))
  {
    SampleRequests();
    SampleOrder("1", REQUEST_A, "", "", None);
    SampleOrder("1", REQUEST_B, "", "", None);
  }

  lemma SamplesAreUnanswered()
    ensures Unanswered(SamplePass("1", REQUEST_A, "", "", None)) && Unanswered(SamplePass("1", REQUEST_B, "", "", None))
  {
    hide Willing, Trim;
    assert Trim("1", JS_SPACE) == "1" by { OneLetterIsTrimmed('1'); }
    SampleRequests();
    SamplePassIsWilling("1", REQUEST_A, "", "", None);
    SamplePassIsWilling("1", REQUEST_B, "", "", None);
  }

  /** For every number below the cap, some run makes exactly that many upload and delivery calls, with one change of
      the request fewer: both bounds of `ExternalCallsAreBounded` are attained at once. */
  lemma BoundsAreAttained(cap: nat, n: nat)
    requires 1 <= n < cap
    ensures exists passes :: && Count(Reach(cap, passes).calls, Uploading) == n
                             && Count(Reach(cap, passes).calls, Delivering) == n
                             && Changes(Requests(passes)) == n - 1
  {
    hide Reach, Ready, AllowedIds, SamplePass, Alternating, Count, Changes, Requests, Open, RequestOfPass,
         NormalizeOrder;
    var a, b := SamplePass("1", REQUEST_A, "", "", None), SamplePass("1", REQUEST_B, "", "", None);
    SampleRequestsDiffer();
    SamplesAreUnanswered();
    var passes := Alternating(a, b, n);
    RoundsCall(cap, a, b, n);
    WillingHasId(a);
    WillingHasId(b);
    RoundsChange(a, b, n);
    ExternalCallsAreBounded(cap, passes, Delivering);
  }

  lemma WillingHasId(pass: Pass)
    requires Willing(pass)
    ensures NormalizeOrder(pass.raw).orderId != ""
  {
  }

  /** The numbers of delivery calls that runs can make are exactly those below the cap, and none. */
  lemma DeliveryCallsIff(cap: nat, n: nat)
    ensures (exists passes :: Count(Reach(cap, passes).calls, Delivering) == n) <==> n == 0 || n < cap
  {
    hide Count, Reach, Changes, Requests;
    if passes :| Count(Reach(cap, passes).calls, Delivering) == n { ExternalCallsAreBounded(cap, passes, Delivering); }
    if n == 0 {
      NoCallsYet(cap);
    } else if n < cap {
      BoundsAreAttained(cap, n);
    }
  }

  lemma NoCallsYet(cap: nat)
    ensures Count(Reach(cap, []).calls, Delivering) == 0
  {
  }

  ghost predicate RunsOver(passes: seq<Pass>, a: Pass, b: Pass) {
    forall i :: 0 <= i < |passes| ==> passes[i] == a || passes[i] == b
  }

  /** For two willing passes that ask for different requests and get no delivery reply, some run over them makes two
      delivery calls exactly when the cap is at least three. */
  lemma SecondDeliveryCallIff(cap: nat, a: Pass, b: Pass)
    requires Unanswered(a) && Unanswered(b) && RequestOfPass(a) != RequestOfPass(b)
    ensures (exists passes :: RunsOver(passes, a, b) && Count(Reach(cap, passes).calls, Delivering) == 2) <==> cap >= 3
  {
    hide Count, Reach, Changes, Requests, Unanswered, RequestOfPass;
    if passes :| RunsOver(passes, a, b) && Count(Reach(cap, passes).calls, Delivering) == 2 {
      ExternalCallsAreBounded(cap, passes, Delivering);
    }
    if cap >= 3 {
      RoundsCall(cap, a, b, 2);
      RoundsRunOver(a, b, 2);
    }
  }

  lemma {:induction false} RoundsRunOver(a: Pass, b: Pass, n: nat)
    ensures RunsOver(Rounds(a, b, n), a, b) && RunsOver(Alternating(a, b, n), a, b)
  {
    if n > 0 { RoundsRunOver(a, b, n - 1); }
  }
}
