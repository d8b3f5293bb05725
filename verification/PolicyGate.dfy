/**
 The policy (dizzy_poll_deliver.mjs:35-42, 196-217), written out from the brief, the number of candidates and the cap;
 and what it keeps out of every run.
 */
module PolicyGate {
  import opened Artifacts
  import opened Fulfillment
  import opened Text
  import opened Matchers
  import opened Reconciler
  import opened Safety
  import opened Origins
  import opened Quiescence
  import opened Recovery

  /** The phrase occurs in the text, ignoring case, with no letter, digit or underscore on either side. */
  ghost predicate Says(text: string, phrase: string) {
    exists i :: StandsAlone(text, phrase, i)
  }

  ghost predicate MentionsRestricted(brief: string) {
    || Says(brief, "minor") || Says(brief, "underage")
    || Says(brief, "nonconsensual") || Says(brief, "non-consensual") || Says(brief, "non consensual")
    || Says(brief, "sexual violence")
    || Says(brief, "exploit") || Says(brief, "exploitation")
    || Says(brief, "illegal")
  }

  /** The brief as the policy reads it. */
  ghost function BriefOf(pass: Pass): string {
    Trim(OrEmpty(pass.raw.brief), JS_SPACE)
  }

  lemma PhraseIsFound(brief: string, i: nat)
    requires i < |RESTRICTED_PHRASES|
    ensures RegexMatch(brief, RESTRICTED_PHRASES[i]) <==> Says(brief, RESTRICTED_PHRASES[i])
  {
    RegexIsStandingAlone(brief, RESTRICTED_PHRASES[i]);
  }

  lemma RestrictedIff(brief: string)
    ensures IsRestricted(brief) <==> MentionsRestricted(brief)
  {
    hide RegexMatch, Says;
    assert |RESTRICTED_PHRASES| == 9;
    forall i | 0 <= i < 9 ensures RegexMatch(brief, RESTRICTED_PHRASES[i]) <==> Says(brief, RESTRICTED_PHRASES[i]) {
      PhraseIsFound(brief, i);
    }
    if MentionsRestricted(brief) { MentionedPhrase(brief); }
  }

  lemma MentionedPhrase(brief: string)
    requires MentionsRestricted(brief)
    ensures exists i :: 0 <= i < |RESTRICTED_PHRASES| && Says(brief, RESTRICTED_PHRASES[i])
  {
    hide Says;
    var p := RESTRICTED_PHRASES;
    assert p[0] == "minor" && p[1] == "underage" && p[2] == "nonconsensual" && p[3] == "non-consensual"
           && p[4] == "non consensual" && p[5] == "sexual violence" && p[6] == "exploit" && p[7] == "exploitation"
           && p[8] == "illegal";
  }

  /** The cap is used up and the latest candidate has not passed QC. */
  ghost predicate CapReached(f: Facts, cap: nat) {
    f.candidateCount >= cap && !(f.latestQc.Some? && f.latestQc.value.QcPayload? && f.latestQc.value.status == Passed)
  }

  /** A restricted phrase or a used-up cap blocks, a blank brief alone asks for a revision, and anything else is
      allowed; the reasons are listed in this order: the blank brief, the phrase, the cap. */
  lemma PolicyIs(order: Order, f: Facts, cap: nat)
    ensures var policy := EvaluatePolicies(order, f, cap);
            && policy.decision == (if MentionsRestricted(order.brief) || CapReached(f, cap) then Block
                                   else if order.brief == "" then Revise else Allow)
            && policy.reasons == (if order.brief == "" then [MissingBrief] else [])
                                 + (if MentionsRestricted(order.brief) then [RestrictedContent] else [])
                                 + (if CapReached(f, cap) then [IterationCapReached(cap)] else [])
  {
    hide IsRestricted, MentionsRestricted;
    RestrictedIff(order.brief);
    var blank := if order.brief == "" then [MissingBrief] else [];
    var phrase := if IsRestricted(order.brief) then [RestrictedContent] else [];
    var full := if CapReached(f, cap) then [IterationCapReached(cap)] else [];
    var reasons := PolicyReasons(order, f, cap);
    assert reasons == blank + phrase + full;
    if IsRestricted(order.brief) { assert RestrictedContent in reasons && Blocks(RestrictedContent); }
    if CapReached(f, cap) { assert IterationCapReached(cap) in reasons && Blocks(IterationCapReached(cap)); }
    if order.brief == "" { assert MissingBrief in reasons; }
  }

  // --- what the gate keeps out -------------------------------------------------------------------

  /** The policy lets the brief through, apart from the cap. */
  ghost predicate Permitted(brief: string) {
    brief != "" && !MentionsRestricted(brief)
  }

  lemma NotPermittedIsIdle(cap: nat, w: World, pass: Pass)
    requires !Permitted(BriefOf(pass))
    ensures IdleOutcome(w, Step(cap, w, pass))
  {
    hide Plan, Perform, EvaluatePolicies, ViewOf, MentionsRestricted, Trim, DeriveFacts, CapReached;
    var order := NormalizeOrder(pass.raw);
    if order.orderId != "" {
      FactsAreWellTyped(order, w.log);
      var f := DeriveFacts(order, ViewOf(w.log));
      var policy := EvaluatePolicies(order, f, cap);
      PolicyIs(order, f, cap);
      PlanShapes(order, ConfigOf(cap, pass), pass.env, f, policy);
      var plan := PlanOf(cap, w.log, pass);
      assert plan == [Write(plan[0].payload)];
      hide IdleOutcome;
      NoteIsIdle(w, plan[0].payload, pass.fault);
    }
  }

  /** While every pass brings a blank or restricted brief, whatever the store, the mode and the crashes, nothing but
      notes is written and no call is made. */
  lemma {:induction false} RestrictedBriefsOnlyTakeNotes(cap: nat, w: World, more: seq<Pass>)
    requires forall i :: 0 <= i < |more| ==> !Permitted(BriefOf(more[i]))
    ensures SameWork(w, Run(cap, w, more))
  {
    hide Step, Permitted, BriefOf;
    if more != [] {
      var n := |more| - 1;
      RestrictedBriefsOnlyTakeNotes(cap, w, more[..n]);
      NotPermittedIsIdle(cap, Run(cap, w, more[..n]), more[n]);
      IdleIsSameWork(Run(cap, w, more[..n]), Step(cap, Run(cap, w, more[..n]), more[n]));
    }
  }

  /** Every candidate of a run and every call comes from a pass whose brief is neither blank nor restricted. */
  lemma WorkComesFromPermittedBriefs(cap: nat, passes: seq<Pass>)
    ensures forall c :: c in Reach(cap, passes).log && c.CandidatePayload? ==>
              exists i :: 0 <= i < |passes| && Origin(passes[i], c) && Permitted(BriefOf(passes[i]))
    ensures forall c :: c in Reach(cap, passes).calls ==>
              exists i :: 0 <= i < |passes| && Justifies(passes[i], c) && Permitted(BriefOf(passes[i]))
  {
    hide Reach, Run, IsRestricted, MentionsRestricted, PrepareCandidate, Assess, Trim, AllowedIds;
    forall c | c in Reach(cap, passes).log && c.CandidatePayload?
      ensures exists i :: 0 <= i < |passes| && Origin(passes[i], c) && Permitted(BriefOf(passes[i]))
    {
      EveryRecordHasItsPass(cap, passes, c);
      var i :| 0 <= i < |passes| && Origin(passes[i], c);
      RestrictedIff(BriefOf(passes[i]));
    }
    forall c | c in Reach(cap, passes).calls
      ensures exists i :: 0 <= i < |passes| && Justifies(passes[i], c) && Permitted(BriefOf(passes[i]))
    {
      EveryCallHasItsPass(cap, passes, c);
      var i :| 0 <= i < |passes| && Justifies(passes[i], c);
      RestrictedIff(BriefOf(passes[i]));
    }
  }
}
