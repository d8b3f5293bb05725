/**
 Passes that exist: for every order id with a non-blank part, a ready pass whose intake, candidate and reply can be
 chosen apart from any half-written records.
 */
module Samples {
  import opened Options
  import opened Artifacts
  import opened Fulfillment
  import opened Text
  import opened Reconciler
  import opened Liveness
  import Matchers

  /** A request that a customer can make and the policy lets through. */
  ghost predicate Admissible(request: RequestKey) {
    Trim(request.brief, JS_SPACE) == request.brief != "" && !IsRestricted(request.brief)
  }

  /** A pass over the order that asks for the request, with a prepared asset of the given content; the id itself is
      the only allowlist entry. */
  ghost function SamplePass(id: string, request: RequestKey, stamp: string, hash: string, deliverReply: Option<int>):
    Pass {
    var trimmed := Trim(id, JS_SPACE);
    Pass(
      RawOrder(Some(id), request.serviceId, None, Some(request.brief), None, Some(stamp)), ManualDelivery, {id},
      Environment(
        map[CandidatePath(trimmed) := DiskFile(hash, 1, None),
            MetadataPath(trimmed) := DiskFile("h", 1, Some(Metadata("m", false, None, None)))],
        Some(UploadReply("u", "t")), deliverReply),
      NoFault)
  }

  const REQUEST_A := RequestKey(None, ['a'])
  const REQUEST_B := RequestKey(None, ['b'])

  lemma ShortTextIsNotRestricted(brief: string)
    requires |brief| <= 1
    ensures !IsRestricted(brief)
  {
    forall i | 0 <= i < |RESTRICTED_PHRASES| ensures !Matchers.RegexMatch(brief, RESTRICTED_PHRASES[i]) {
      assert |RESTRICTED_PHRASES[i]| > 1;
    }
  }

  lemma OneLetterIsTrimmed(c: char)
    requires c !in JS_SPACE
    ensures Trim([c], JS_SPACE) == [c]
  {
  }

  lemma SampleRequests()
    ensures Admissible(REQUEST_A) && Admissible(REQUEST_B) && REQUEST_A != REQUEST_B
  {
    hide Trim, IsRestricted;
    OneLetterIsTrimmed('a');
    OneLetterIsTrimmed('b');
    ShortTextIsNotRestricted(['a']);
    ShortTextIsNotRestricted(['b']);
    assert ['a'][0] != ['b'][0];
  }

  lemma ImageIsNotMetadata(x: string, y: string)
    ensures CandidatePath(x) != MetadataPath(y)
  {
    assert CANDIDATE_FILE[10] != METADATA_FILE[10];
  }

  lemma SampleModelIsReal()
    ensures RealModel("m") && NormalModel("m") == "m"
  {
    OneLetterIsTrimmed('m');
    assert LowerAll("m") == "m";
    assert |"m"| == 1;
  }

  lemma SampleOrder(id: string, request: RequestKey, stamp: string, hash: string, deliverReply: Option<int>)
    requires Admissible(request)
    ensures var order := NormalizeOrder(SamplePass(id, request, stamp, hash, deliverReply).raw);
            && order == Order(id, request.serviceId, None, request.brief, None, Some(stamp))
            && ExpectedRequestKey(order) == request
  {
    hide Trim;
  }

  lemma NotYetDelivered(order: Order)
    requires order.status.None?
    ensures LowerAll(OrEmpty(order.status)) != "delivered"
  {
    assert LowerAll("") == "";
  }

  lemma SamplePassIsReady(id: string, request: RequestKey, stamp: string, hash: string, deliverReply: Option<int>)
    requires Trim(id, JS_SPACE) != "" && Admissible(request)
    ensures Ready(SamplePass(id, request, stamp, hash, deliverReply))
  {
    hide Trim, IsRestricted, RealModel, NormalModel, CandidatePath, MetadataPath, PrepareCandidate, NormalizeOrder,
         LowerAll;
    var pass := SamplePass(id, request, stamp, hash, deliverReply);
    var order := NormalizeOrder(pass.raw);
    SampleOrder(id, request, stamp, hash, deliverReply);
    SampleModelIsReal();
    ImageIsNotMetadata(FulfilledId(order), FulfilledId(order));
    PreparedIff(order, 0, pass.env.disk);
    NotYetDelivered(order);
    assert order.orderId != "" by { EmptyIsTrimmed(); }
  }

  lemma EmptyIsTrimmed()
    ensures Trim("", JS_SPACE) == ""
  {
  }

  lemma SamplePassIsWilling(id: string, request: RequestKey, stamp: string, hash: string, deliverReply: Option<int>)
    requires Trim(id, JS_SPACE) == id != "" && Admissible(request)
    ensures Willing(SamplePass(id, request, stamp, hash, deliverReply))
  {
    hide Trim, Ready, NormalizeOrder;
    SamplePassIsReady(id, request, stamp, hash, deliverReply);
    SampleOrder(id, request, stamp, hash, deliverReply);
    var pass := SamplePass(id, request, stamp, hash, deliverReply);
    assert id in pass.allowlist;
  }

  /** The candidate that a sample pass prepares has the content of its asset. */
  lemma SampleCandidate(id: string, request: RequestKey, stamp: string, hash: string, deliverReply: Option<int>, n: nat)
    requires Trim(id, JS_SPACE) != "" && Admissible(request)
    ensures var pass := SamplePass(id, request, stamp, hash, deliverReply);
            var prepared := PrepareCandidate(NormalizeOrder(pass.raw), n, pass.env.disk);
            prepared.Prepared? && prepared.payload.fileHash == hash
  {
    hide Trim, RealModel, NormalModel, CandidatePath, MetadataPath, PrepareCandidate, NormalizeOrder;
    var pass := SamplePass(id, request, stamp, hash, deliverReply);
    var order := NormalizeOrder(pass.raw);
    SampleOrder(id, request, stamp, hash, deliverReply);
    SampleModelIsReal();
    ImageIsNotMetadata(FulfilledId(order), FulfilledId(order));
    PreparedIff(order, n, pass.env.disk);
  }

  // --- values that no half-written record has ----------------------------------------------------

  /** A number beyond what any record of the set measures. */
  lemma {:induction false} Beyond(torn: set<Payload>, measure: Payload -> nat) returns (n: nat)
    ensures n > 0 && forall p :: p in torn ==> measure(p) < n
    decreases torn
  {
    if torn == {} {
      n := 1;
    } else {
      var p :| p in torn;
      var m := Beyond(torn - {p}, measure);
      n := if measure(p) < m then m else measure(p) + 1;
    }
  }

  ghost function Length(s: Option<string>): nat {
    if s.Some? then |s.value| else 0
  }

  ghost function Xs(n: nat): (s: string)
    ensures |s| == n
  {
    seq(n, _ => 'x')
  }

  ghost function HashLength(p: Payload): nat {
    if p.CandidatePayload? then |p.fileHash| else 0
  }

  ghost function StampLength(p: Payload): nat {
    if p.IntakePayload? then Length(p.order.updatedAt) else 0
  }

  ghost function CheckedSize(p: Payload): nat {
    if p.QcPayload? then p.checks.fileSize else 0
  }
}
