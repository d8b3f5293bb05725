/**
 Many orders (dizzy_poll_deliver.mjs:56-62, 442-460). Orders whose ids map to different directories do not disturb
 each other; ids that map to one directory share everything in it. Exactly which sets of polled ids keep the call keys
 apart across directories.
 */
module Fleet {
  import opened Options
  import opened Artifacts
  import opened Fulfillment
  import opened Text
  import opened Reconciler
  import opened Invariant
  import opened Safety
  import opened Bounds
  import opened Liveness
  import opened Samples

  /** The durable state of every order directory; a directory not yet created is empty. */
  type Fleet = map<string, World>

  ghost function IdOf(pass: Pass): string {
    NormalizeOrder(pass.raw).orderId
  }

  /** The directory is named after the order id as polled. */
  ghost function DirOf(pass: Pass): string {
    SanitizeOrderId(IdOf(pass))
  }

  ghost function At(fleet: Fleet, dir: string): World {
    if dir in fleet then fleet[dir] else EMPTY
  }

  /** One order of one batch. */
  ghost function FleetStep(cap: nat, fleet: Fleet, pass: Pass): Fleet {
    if IdOf(pass) == "" then fleet
    else fleet[DirOf(pass) := Step(cap, At(fleet, DirOf(pass)), pass)]
  }

  ghost function FleetFrom(cap: nat, fleet: Fleet, passes: seq<Pass>): Fleet {
    if passes == [] then fleet
    else FleetStep(cap, FleetFrom(cap, fleet, passes[..|passes| - 1]), passes[|passes| - 1])
  }

  ghost function FleetRun(cap: nat, passes: seq<Pass>): Fleet {
    FleetFrom(cap, map[], passes)
  }

  /** The passes over the orders of one directory. */
  ghost function PassesFor(passes: seq<Pass>, dir: string): (r: seq<Pass>)
    ensures forall p :: p in r ==> p in passes && DirOf(p) == dir
  {
    if passes == [] then [] else
      var last := passes[|passes| - 1];
      PassesFor(passes[..|passes| - 1], dir) + if DirOf(last) == dir then [last] else []
  }

  lemma RunOneMore(cap: nat, passes: seq<Pass>, pass: Pass)
    ensures Reach(cap, passes + [pass]) == Step(cap, Reach(cap, passes), pass)
  {
    assert (passes + [pass])[..|passes|] == passes;
  }

  /** Directories do not disturb each other: each ends up as if the passes over its own orders had been the only
      ones. */
  lemma {:induction false} DirectoriesAreIndependent(cap: nat, passes: seq<Pass>, dir: string)
    ensures At(FleetRun(cap, passes), dir) == Reach(cap, PassesFor(passes, dir))
  {
    if passes != [] {
      hide Step, NormalizeOrder, SanitizeOrderId;
      var before, last := passes[..|passes| - 1], passes[|passes| - 1];
      DirectoriesAreIndependent(cap, before, dir);
      RunOneMore(cap, PassesFor(before, dir), last);
      NamelessPassIsIdle(cap, Reach(cap, PassesFor(before, dir)), last);
      assert PassesFor(before, dir) + [] == PassesFor(before, dir);
    }
  }

  lemma NamelessPassIsIdle(cap: nat, w: World, pass: Pass)
    ensures IdOf(pass) == "" ==> Step(cap, w, pass) == w
  {
  }

  // --- at most one call across the fleet ---------------------------------------------------------

  /** The ids name the same prepared files but different directories. */
  ghost predicate Clash(x: string, y: string) {
    Trim(x, JS_SPACE) == Trim(y, JS_SPACE) != "" && SanitizeOrderId(x) != SanitizeOrderId(y)
  }

  ghost predicate NoClash(ids: set<string>) {
    forall x, y :: x in ids && y in ids ==> !Clash(x, y)
  }

  ghost predicate PollsOnly(passes: seq<Pass>, ids: set<string>) {
    forall p :: p in passes ==> IdOf(p) in ids
  }

  /** No candidate is uploaded twice and no upload delivered twice anywhere. */
  ghost predicate CallsOncePerKey(fleet: Fleet) {
    forall a, b, i, j :: && 0 <= i < |At(fleet, a).calls| && 0 <= j < |At(fleet, b).calls| && (a != b || i != j) ==>
      TargetOf(At(fleet, a).calls[i]) != TargetOf(At(fleet, b).calls[j])
  }

  /** Behind a call there is a pass over an order of its directory, whose prepared files the candidate names. */
  lemma CallBelongsToDirectory(cap: nat, passes: seq<Pass>, dir: string, c: Call) returns (p: Pass)
    requires c in At(FleetRun(cap, passes), dir).calls
    ensures p in passes && DirOf(p) == dir
    ensures CandidateOf(c).CandidatePayload? && CandidateOf(c).orderId == Trim(IdOf(p), JS_SPACE) != ""
  {
    hide Reach, FleetRun, NormalizeOrder, Trim, IsRestricted;
    DirectoriesAreIndependent(cap, passes, dir);
    var own := PassesFor(passes, dir);
    EveryCallHasItsPass(cap, own, c);
    var i :| 0 <= i < |own| && Justifies(own[i], c);
    p := own[i];
    assert p in own;
  }

  lemma DifferentCandidates(c: Call, d: Call)
    requires CandidateOf(c) != CandidateOf(d) && CandidateOf(c).CandidatePayload? && CandidateOf(d).CandidatePayload?
    ensures TargetOf(c) != TargetOf(d)
  {
  }

  lemma CallsOnce(cap: nat, passes: seq<Pass>, ids: set<string>, a: string, i: nat, b: string, j: nat)
    requires PollsOnly(passes, ids) && NoClash(ids)
    requires i < |At(FleetRun(cap, passes), a).calls| && j < |At(FleetRun(cap, passes), b).calls|
    requires a != b || i != j
    ensures TargetOf(At(FleetRun(cap, passes), a).calls[i]) != TargetOf(At(FleetRun(cap, passes), b).calls[j])
  {
    hide FleetRun, Reach, SanitizeOrderId, CallOk, Trim, NormalizeOrder;
    var x, y := At(FleetRun(cap, passes), a).calls, At(FleetRun(cap, passes), b).calls;
    if a == b {
      DirectoriesAreIndependent(cap, passes, a);
      AtMostOneCallPerKey(cap, PassesFor(passes, a));
    } else {
      var p := CallBelongsToDirectory(cap, passes, a, x[i]);
      var q := CallBelongsToDirectory(cap, passes, b, y[j]);
      assert !Clash(IdOf(p), IdOf(q));
      DifferentCandidates(x[i], y[j]);
    }
  }

  lemma WithoutClashCallsOnce(cap: nat, passes: seq<Pass>, ids: set<string>)
    requires PollsOnly(passes, ids) && NoClash(ids)
    ensures CallsOncePerKey(FleetRun(cap, passes))
  {
    hide FleetRun, TargetOf;
    var fleet := FleetRun(cap, passes);
    forall a, b, i, j | 0 <= i < |At(fleet, a).calls| && 0 <= j < |At(fleet, b).calls| && (a != b || i != j)
      ensures TargetOf(At(fleet, a).calls[i]) != TargetOf(At(fleet, b).calls[j])
    {
      CallsOnce(cap, passes, ids, a, i, b, j);
    }
  }

  lemma {:induction false} NoCountNoCalls(calls: seq<Call>)
    requires Count(calls, Uploading) == 0 && Count(calls, Delivering) == 0
    ensures calls == []
  {
  }

  /** Below a cap of two no call is made at all. */
  lemma LowCapMakesNoCall(cap: nat, passes: seq<Pass>)
    requires cap < 2
    ensures Reach(cap, passes).calls == []
  {
    hide Reach, Changes, Requests, Count;
    ExternalCallsAreBounded(cap, passes, Uploading);
    ExternalCallsAreBounded(cap, passes, Delivering);
    NoCountNoCalls(Reach(cap, passes).calls);
  }

  lemma LowCapCallsOnce(cap: nat, passes: seq<Pass>)
    requires cap < 2
    ensures CallsOncePerKey(FleetRun(cap, passes))
  {
    hide FleetRun, Reach;
    forall dir ensures At(FleetRun(cap, passes), dir).calls == [] {
      DirectoriesAreIndependent(cap, passes, dir);
      LowCapMakesNoCall(cap, PassesFor(passes, dir));
    }
  }

  // --- clashing ids ------------------------------------------------------------------------------

  lemma {:induction false} PassesForConcat(a: seq<Pass>, b: seq<Pass>, dir: string)
    ensures PassesFor(a + b, dir) == PassesFor(a, dir) + PassesFor(b, dir)
  {
    hide DirOf;
    if b == [] {
      assert a + b == a;
    } else {
      assert (a + b)[..|a + b| - 1] == a + b[..|b| - 1];
      PassesForConcat(a, b[..|b| - 1], dir);
    }
  }

  lemma {:induction false} PassesForRepeat(pass: Pass, n: nat, dir: string)
    ensures PassesFor(Repeat(pass, n), dir) == if DirOf(pass) == dir then Repeat(pass, n) else []
  {
    hide DirOf;
    if n > 0 {
      assert Repeat(pass, n)[..n - 1] == Repeat(pass, n - 1);
      PassesForRepeat(pass, n - 1, dir);
      assert Repeat(pass, n - 1) + [pass] == Repeat(pass, n);
    }
  }

  /** One pass and `n` more over the one order, then as many over the other. */
  ghost function Each(a: Pass, b: Pass, n: nat): seq<Pass> {
    (Repeat(a, 1) + Repeat(a, n)) + (Repeat(b, 1) + Repeat(b, n))
  }

  lemma EachSplits(a: Pass, b: Pass, n: nat)
    requires DirOf(a) != DirOf(b)
    ensures PassesFor(Each(a, b, n), DirOf(a)) == Repeat(a, 1) + Repeat(a, n)
    ensures PassesFor(Each(a, b, n), DirOf(b)) == Repeat(b, 1) + Repeat(b, n)
  {
    hide DirOf, Repeat, PassesFor;
    forall dir | dir == DirOf(a) || dir == DirOf(b)
      ensures PassesFor(Each(a, b, n), dir)
              == (PassesFor(Repeat(a, 1), dir) + PassesFor(Repeat(a, n), dir))
                 + (PassesFor(Repeat(b, 1), dir) + PassesFor(Repeat(b, n), dir))
    {
      PassesForConcat(Repeat(a, 1) + Repeat(a, n), Repeat(b, 1) + Repeat(b, n), dir);
      PassesForConcat(Repeat(a, 1), Repeat(a, n), dir);
      PassesForConcat(Repeat(b, 1), Repeat(b, n), dir);
    }
    forall p, m: nat, dir | (p == a || p == b) && (m == 1 || m == n)
      ensures PassesFor(Repeat(p, m), dir) == if DirOf(p) == dir then Repeat(p, m) else []
    {
      PassesForRepeat(p, m, dir);
    }
  }

  lemma EachPolls(a: Pass, b: Pass, n: nat, ids: set<string>)
    requires IdOf(a) in ids && IdOf(b) in ids
    ensures PollsOnly(Each(a, b, n), ids)
  {
    hide IdOf;
  }

  /** The sample passes over two ids with the same trimmed id prepare the same candidate. */
  lemma SamplesShareCandidate(x: string, y: string)
    requires Trim(x, JS_SPACE) == Trim(y, JS_SPACE)
    ensures var a, b := SamplePass(x, REQUEST_A, "", "", None), SamplePass(y, REQUEST_A, "", "", None);
            PrepareCandidate(NormalizeOrder(a.raw), 0, a.env.disk)
            == PrepareCandidate(NormalizeOrder(b.raw), 0, b.env.disk)
  {
    hide Trim, NormalModel, CandidatePath, MetadataPath, NormalizeOrder;
    SampleRequests();
    SampleOrder(x, REQUEST_A, "", "", None);
    SampleOrder(y, REQUEST_A, "", "", None);
  }

  /** Four passes over a new order upload the first candidate. */
  lemma FourPassesUpload(cap: nat, pass: Pass)
    requires Ready(pass) && cap >= 2
    ensures WasCalled(Reach(cap, Repeat(pass, 1) + Repeat(pass, 3)).calls,
                      Digest(PrepareCandidate(NormalizeOrder(pass.raw), 0, pass.env.disk).payload))
  {
    hide Ready, On, Run, Repeat, WasCalled, PrepareCandidate, NormalizeOrder, Candidates;
    ReadyIsPreparing(pass);
    FirstPass(cap, pass);
    ReadyPassesUpload(cap, Reach(cap, Repeat(pass, 1)), pass);
    RunConcat(cap, EMPTY, Repeat(pass, 1), Repeat(pass, 3));
  }

  lemma SampleDirectory(id: string, deliverReply: Option<int>)
    ensures var pass := SamplePass(id, REQUEST_A, "", "", deliverReply);
            IdOf(pass) == id && DirOf(pass) == SanitizeOrderId(id)
  {
    hide Trim, SanitizeOrderId;
  }

  /** Two clashing ids: some run over them uploads one candidate from both directories. */
  lemma ClashUploadsTwice(cap: nat, x: string, y: string) returns (passes: seq<Pass>, k: Key)
    requires cap >= 2 && Clash(x, y)
    ensures PollsOnly(passes, {x, y})
    ensures WasCalled(At(FleetRun(cap, passes), SanitizeOrderId(x)).calls, k)
    ensures WasCalled(At(FleetRun(cap, passes), SanitizeOrderId(y)).calls, k)
  {
    hide Reach, FleetRun, Ready, NormalizeOrder, SanitizeOrderId, Trim, WasCalled, PassesFor, Each, SamplePass,
         PrepareCandidate, IdOf, DirOf, PollsOnly;
    var a, b := SamplePass(x, REQUEST_A, "", "", None), SamplePass(y, REQUEST_A, "", "", None);
    SampleRequests();
    SamplePassIsReady(x, REQUEST_A, "", "", None);
    SamplePassIsReady(y, REQUEST_A, "", "", None);
    SampleDirectory(x, None);
    SampleDirectory(y, None);
    FourPassesUpload(cap, a);
    FourPassesUpload(cap, b);
    SamplesShareCandidate(x, y);
    SampleCandidate(x, REQUEST_A, "", "", None, 0);
    EachSplits(a, b, 3);
    EachPolls(a, b, 3, {x, y});
    passes := Each(a, b, 3);
    k := Digest(PrepareCandidate(NormalizeOrder(a.raw), 0, a.env.disk).payload);
    DirectoriesAreIndependent(cap, passes, SanitizeOrderId(x));
    DirectoriesAreIndependent(cap, passes, SanitizeOrderId(y));
  }

  lemma CalledTwice(fleet: Fleet, a: string, b: string, k: Key)
    requires a != b && WasCalled(At(fleet, a).calls, k) && WasCalled(At(fleet, b).calls, k)
    ensures !CallsOncePerKey(fleet)
  {
    hide At, TargetOf;
    var c :| c in At(fleet, a).calls && TargetOf(c) == k;
    var d :| d in At(fleet, b).calls && TargetOf(d) == k;
    var i :| 0 <= i < |At(fleet, a).calls| && At(fleet, a).calls[i] == c;
    var j :| 0 <= j < |At(fleet, b).calls| && At(fleet, b).calls[j] == d;
  }

  /** Exactly which sets of order ids are safe: over every run that polls only these ids no call key is used twice
      anywhere, if and only if no two of them are equal up to surrounding whitespace but name different directories
      (or the cap permits no call at all). */
  lemma CallsOncePerKeyIff(cap: nat, ids: set<string>)
    ensures (forall passes :: PollsOnly(passes, ids) ==> CallsOncePerKey(FleetRun(cap, passes)))
            <==> cap < 2 || NoClash(ids)
  {
    hide FleetRun, CallsOncePerKey, Clash;
    if cap < 2 {
      forall passes ensures CallsOncePerKey(FleetRun(cap, passes)) { LowCapCallsOnce(cap, passes); }
    } else if NoClash(ids) {
      forall passes | PollsOnly(passes, ids) ensures CallsOncePerKey(FleetRun(cap, passes)) {
        WithoutClashCallsOnce(cap, passes, ids);
      }
    } else {
      var x, y :| x in ids && y in ids && Clash(x, y);
      var passes, k := ClashUploadsTwice(cap, x, y);
      ClashesDiffer(x, y);
      CalledTwice(FleetRun(cap, passes), SanitizeOrderId(x), SanitizeOrderId(y), k);
      assert PollsOnly(passes, ids);
    }
  }

  lemma ClashesDiffer(x: string, y: string)
    requires Clash(x, y)
    ensures SanitizeOrderId(x) != SanitizeOrderId(y)
  {
  }

  /** Clashing ids exist, and an untrimmed id alone is harmless. */
  lemma ClashExamples()
    ensures Clash("1", " 1") && NoClash({" 1", " 2"})
  {
    hide SanitizeOrderId;
    SpacedDigit('1');
    SpacedDigit('2');
    OneLetterIsTrimmed('1');
    assert |SanitizeOrderId("1")| == 1 && |SanitizeOrderId(" 1")| == 2;
    assert ['1'][0] != ['2'][0];
  }

  lemma SpacedDigit(c: char)
    requires c !in JS_SPACE
    ensures Trim([' ', c], JS_SPACE) == [c]
  {
    assert [' ', c][1..] == [c];
    assert TrimStart([c], JS_SPACE) == [c];
  }

  // --- ids that share a directory ----------------------------------------------------------------

  lemma DeliveredMeansCalled(cap: nat, passes: seq<Pass>, d: Payload)
    requires d in Reach(cap, passes).log && d.DeliveryPayload?
    ensures Reach(cap, passes).calls != []
  {
    hide Reach, FilesOk, TornOk, CandidatesOk, QcOk, CausalOk, ReplacementOk, PendingUploadsOk, UploadsOk,
         PendingDeliversOk, DeliveriesOk;
    ReachInv(cap, passes);
    assert WasCalled(Reach(cap, passes).calls, d.uploadKey);
  }

  /** What is delivered lies in its own directory, under a trimmed id. */
  lemma DeliveredInOwnDirectory(cap: nat, passes: seq<Pass>, dir: string, id: string)
    requires DeliveredFor(At(FleetRun(cap, passes), dir).log, id)
    ensures dir == SanitizeOrderId(id) && Trim(id, JS_SPACE) == id != "" && cap >= 2
  {
    hide Reach, FleetRun, NormalizeOrder, Trim, SanitizeOrderId, AllowedIds;
    var own := PassesFor(passes, dir);
    DirectoriesAreIndependent(cap, passes, dir);
    var d :| d in Reach(cap, own).log && d.DeliveryPayload? && d.uploadKey.payload.UploadPayload?
             && d.uploadKey.payload.candidateKey.payload.CandidatePayload?
             && d.uploadKey.payload.candidateKey.payload.orderId == id;
    DeliveriesWereOrdered(cap, own, d);
    var i :| 0 <= i < |own| && IdOf(own[i]) in AllowedIds(own[i]) && id == Trim(IdOf(own[i]), JS_SPACE);
    assert own[i] in own;
    AllowedIdsAreTrimmed(own[i], IdOf(own[i]));
    if cap < 2 { DeliveredMeansCalled(cap, own, d); LowCapMakesNoCall(cap, own); }
  }

  /** Of two orders whose ids map to one directory at most one is ever delivered. */
  lemma SharedDirectoryDeliversOne(cap: nat, passes: seq<Pass>, x: string, y: string, a: string, b: string)
    requires x != y && SanitizeOrderId(x) == SanitizeOrderId(y)
    ensures !(DeliveredFor(At(FleetRun(cap, passes), a).log, x) && DeliveredFor(At(FleetRun(cap, passes), b).log, y))
  {
    hide Reach, FleetRun, SanitizeOrderId, CandidatesOk, QcOk, CausalOk, ReplacementOk, PendingUploadsOk, UploadsOk,
         PendingDeliversOk, CallsOk, FilesOk, TornOk;
    if DeliveredFor(At(FleetRun(cap, passes), a).log, x) && DeliveredFor(At(FleetRun(cap, passes), b).log, y) {
      DeliveredInOwnDirectory(cap, passes, a, x);
      DeliveredInOwnDirectory(cap, passes, b, y);
      DirectoriesAreIndependent(cap, passes, a);
      ReachInv(cap, PassesFor(passes, a));
    }
  }

  ghost predicate BothDelivered(fleet: Fleet, x: string, y: string) {
    exists a, b :: DeliveredFor(At(fleet, a).log, x) && DeliveredFor(At(fleet, b).log, y)
  }

  /** Five sample passes over a new order deliver it. */
  lemma SampleIsDelivered(cap: nat, id: string)
    requires cap >= 2 && Trim(id, JS_SPACE) == id != ""
    ensures var pass := SamplePass(id, REQUEST_A, "", "", Some(200));
            DeliveredFor(Reach(cap, Repeat(pass, 1) + Repeat(pass, 4)).log, id)
  {
    hide Run, Trim, Willing, SamplePass, NormalizeOrder, AllowedIds, Inv, Open, Count, Candidates;
    var pass := SamplePass(id, REQUEST_A, "", "", Some(200));
    var passes := Repeat(pass, 1) + Repeat(pass, 4);
    SampleRequests();
    SamplePassIsWilling(id, REQUEST_A, "", "", Some(200));
    SampleOrder(id, REQUEST_A, "", "", Some(200));
    SampleReplies(id);
    FivePassesDeliver(cap, pass);
    var d :| d in Reach(cap, passes).log && d.DeliveryPayload?;
    DeliveriesWereOrdered(cap, passes, d);
    assert forall i :: 0 <= i < |passes| ==> passes[i] == pass;
  }

  lemma SampleReplies(id: string)
    ensures SamplePass(id, REQUEST_A, "", "", Some(200)).env.deliverReply == Some(200)
  {
  }

  lemma SeparateDirectoriesDeliverBoth(cap: nat, x: string, y: string) returns (passes: seq<Pass>)
    requires cap >= 2 && Trim(x, JS_SPACE) == x != "" && Trim(y, JS_SPACE) == y != ""
    requires SanitizeOrderId(x) != SanitizeOrderId(y)
    ensures BothDelivered(FleetRun(cap, passes), x, y)
  {
    hide Reach, FleetRun, SanitizeOrderId, Trim, PassesFor, Each, SamplePass, DirOf, IdOf, DeliveredFor;
    var a, b := SamplePass(x, REQUEST_A, "", "", Some(200)), SamplePass(y, REQUEST_A, "", "", Some(200));
    SampleDirectory(x, Some(200));
    SampleDirectory(y, Some(200));
    SampleIsDelivered(cap, x);
    SampleIsDelivered(cap, y);
    EachSplits(a, b, 4);
    passes := Each(a, b, 4);
    DirectoriesAreIndependent(cap, passes, SanitizeOrderId(x));
    DirectoriesAreIndependent(cap, passes, SanitizeOrderId(y));
  }

  /** Exactly which two orders can both be delivered by one run: those with ids that the allowlist can hold and that
      name different directories, when the cap permits a delivery at all. */
  lemma BothDeliveredIff(cap: nat, x: string, y: string)
    requires x != y
    ensures (exists passes :: BothDelivered(FleetRun(cap, passes), x, y)) <==>
            && cap >= 2 && Trim(x, JS_SPACE) == x != "" && Trim(y, JS_SPACE) == y != ""
            && SanitizeOrderId(x) != SanitizeOrderId(y)
  {
    hide FleetRun, SanitizeOrderId, Trim, DeliveredFor, At;
    if passes :| BothDelivered(FleetRun(cap, passes), x, y) {
      var fleet := FleetRun(cap, passes);
      var a, b :| DeliveredFor(At(fleet, a).log, x) && DeliveredFor(At(fleet, b).log, y);
      DeliveredInOwnDirectory(cap, passes, a, x);
      DeliveredInOwnDirectory(cap, passes, b, y);
      if SanitizeOrderId(x) == SanitizeOrderId(y) { SharedDirectoryDeliversOne(cap, passes, x, y, a, b); }
    }
    if cap >= 2 && Trim(x, JS_SPACE) == x != "" && Trim(y, JS_SPACE) == y != ""
       && SanitizeOrderId(x) != SanitizeOrderId(y) {
      var passes := SeparateDirectoriesDeliverBoth(cap, x, y);
    }
  }

  /** Different ids that share a directory exist. */
  lemma SharedDirectoryExample()
    ensures "a.b" != "a_b" && SanitizeOrderId("a.b") == SanitizeOrderId("a_b")
  {
    assert "a.b"[1] != "a_b"[1];
    assert SanitizeOrderId("a.b") == "a_b";
    assert SanitizeOrderId("a_b") == "a_b";
  }
}
