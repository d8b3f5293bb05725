/**
 What the sieve's results say, written out from the proposal: the blank fields, the lengths, and which keywords each
 port finds where (core/prototypes/cpp/dizzy_spec.cpp:228-324, 433-509; core/src/dizzy_core_spec.rs:272-337, 502-563;
 core/prototypes/go/dizzy_spec.go:258-359; core/prototypes/python/dizzy_spec.py:203-271, 425-480).
 */
module SieveMeaning {
  import opened Text
  import opened Matchers
  import opened Sieve

  // --- which keywords a port finds ---------------------------------------------------------------

  /** The keyword occurs at this index of the text as it is, ignoring case; the neighbours may be anything for Rust,
      must not be alphanumeric for C++, nor underscores for Go and Python. */
  ghost predicate FoundAt(port: Port, text: string, keyword: string, i: int) {
    && OccursAt(text, keyword, i)
    && (!port.Rust? ==>
          && (i == 0 || !IsAlnum(text[i - 1]))
          && (i + |keyword| == |text| || !IsAlnum(text[i + |keyword|])))
    && (port.Go? || port.Python? ==>
          && (i == 0 || text[i - 1] != '_')
          && (i + |keyword| == |text| || text[i + |keyword|] != '_'))
  }

  ghost predicate Found(port: Port, text: string, keyword: string) {
    exists i :: FoundAt(port, text, keyword, i)
  }

  lemma FoundInside(port: Port, text: string, from: nat, to: nat, keyword: string, i: int)
    requires from <= to <= |text| && AlnumEnds(keyword) && from <= i && i + |keyword| <= to
    requires forall j :: 0 <= j < from || to <= j < |text| ==> text[j] in CPP_SPACE
    ensures FoundAt(port, text[from..to], keyword, i - from) <==> FoundAt(port, text, keyword, i)
  {
    var t, k := text[from..to], i - from;
    assert forall j :: 0 <= j < |t| ==> t[j] == text[from + j];
    assert t[k..k + |keyword|] == text[i..i + |keyword|];
    assert OccursAt(t, keyword, k) <==> OccursAt(text, keyword, i);
    assert forall c :: c in CPP_SPACE ==> !IsAlnum(c) && c != '_';
  }

  /** A keyword with alphanumeric ends is found in a text wherever it is found in the trimmed text. */
  lemma TrimHidesNothing(port: Port, text: string, keyword: string)
    requires AlnumEnds(keyword)
    ensures Found(port, Trim(text, CPP_SPACE), keyword) <==> Found(port, text, keyword)
  {
    hide Trim;
    var from, to := TrimSplits(text, CPP_SPACE);
    var t := text[from..to];
    if Found(port, t, keyword) {
      var i :| FoundAt(port, t, keyword, i);
      FoundFits(port, t, keyword, i);
      var k := i + from;
      assert k - from == i;
      FoundInside(port, text, from, to, keyword, k);
      assert FoundAt(port, text, keyword, k);
    }
    if Found(port, text, keyword) {
      var i :| FoundAt(port, text, keyword, i);
      FoundFits(port, text, keyword, i);
      FoundClearOfSpace(port, text, from, to, keyword, i);
      FoundInside(port, text, from, to, keyword, i);
      assert FoundAt(port, t, keyword, i - from);
    }
  }

  lemma FoundFits(port: Port, text: string, keyword: string, i: int)
    requires FoundAt(port, text, keyword, i)
    ensures 0 <= i && i + |keyword| <= |text|
  {
  }

  lemma FoundClearOfSpace(port: Port, text: string, from: nat, to: nat, keyword: string, i: int)
    requires from <= to <= |text| && AlnumEnds(keyword) && FoundAt(port, text, keyword, i)
    requires forall j :: 0 <= j < from || to <= j < |text| ==> text[j] in CPP_SPACE
    ensures from <= i && i + |keyword| <= to
  {
    var last := |keyword| - 1;
    assert Lower(text[i + 0]) == Lower(keyword[0]) && Lower(text[i + last]) == Lower(keyword[last]);
    LowerKeepsClass(text[i + 0], keyword[0]);
    LowerKeepsClass(text[i + last], keyword[last]);
    assert forall c :: c in CPP_SPACE ==> !IsAlnum(c);
  }

  lemma CppFinds(text: string, keyword: string)
    ensures CppMatch(text, keyword) <==> Found(Cpp, text, keyword)
  {
    if CppMatch(text, keyword) {
      var i :| 0 <= i <= |text| && OccursAt(text, keyword, i) && CppBoundary(text, keyword, i);
      assert FoundAt(Cpp, text, keyword, i);
    }
    if i :| FoundAt(Cpp, text, keyword, i) { assert OccursAt(text, keyword, i) && CppBoundary(text, keyword, i); }
  }

  lemma RegexFinds(port: Port, text: string, keyword: string)
    requires AlnumEnds(keyword) && (port.Go? || port.Python?)
    ensures RegexMatch(text, keyword) <==> Found(port, text, keyword)
  {
    RegexIsStandingAlone(text, keyword);
    forall i ensures StandsAlone(text, keyword, i) <==> FoundAt(port, text, keyword, i) {}
  }

  lemma SubstringFinds(text: string, keyword: string)
    requires LowerAll(keyword) == keyword
    ensures Substring(LowerAll(text), keyword) <==> Found(Rust, text, keyword)
  {
    OccursIsLowerSubstring(text, keyword);
    forall i ensures OccursAt(text, keyword, i) <==> FoundAt(Rust, text, keyword, i) {}
  }

  /** What each port's keyword test means on the text as it was given, for every lower-case keyword with alphanumeric
      ends: no trimming or lower-casing shows. */
  lemma HitIff(port: Port, text: string, keyword: string)
    requires Plain(keyword)
    ensures Hit(port, text, keyword) <==> Found(port, text, keyword)
  {
    hide CppMatch, RegexMatch, Substring, Trim, LowerAll, Found;
    var t := Trim(text, CPP_SPACE);
    TrimLowerCommute(text);
    TrimHidesNothing(port, text, keyword);
    match port
    case Cpp => CppFinds(t, keyword);
    case Rust => SubstringFinds(t, keyword);
    case Go => RegexMatchLower(t, keyword); RegexFinds(Go, t, keyword);
    case Python => RegexMatchLower(t, keyword); RegexFinds(Python, t, keyword);
  }

  // --- which fields are missing ------------------------------------------------------------------

  ghost predicate OnlySpace(text: string) {
    forall i :: 0 <= i < |text| ==> text[i] in CPP_SPACE
  }

  lemma BlankIff(text: string)
    ensures Blank(text) <==> OnlySpace(text)
  {
    hide Trim;
    var from, to := TrimSplits(text, CPP_SPACE);
  }

  ghost function FindingIf(condition: bool, f: Finding): seq<Finding> {
    if condition then [f] else []
  }

  /** The blank fields, in the order of the form. */
  ghost function BlankFields(p: Proposal): seq<Finding> {
    FindingIf(OnlySpace(p.title), MissingTitle) + FindingIf(OnlySpace(p.capability), MissingCapability)
    + FindingIf(OnlySpace(p.ownership), MissingOwnership) + FindingIf(OnlySpace(p.funding), MissingFunding)
    + FindingIf(OnlySpace(p.governance), MissingGovernance) + FindingIf(OnlySpace(p.enforcement), MissingEnforcement)
    + FindingIf(OnlySpace(p.exitPlan), MissingExit) + FindingIf(OnlySpace(p.captureRisk), MissingCaptureRisk)
    + FindingIf(OnlySpace(p.simplification), MissingSimplification) + FindingIf(OnlySpace(p.metrics), MissingMetrics)
  }

  lemma AddIfAppends(errors: seq<Finding>, condition: bool, f: Finding)
    ensures AddIf(errors, condition, f) == errors + FindingIf(condition, f)
  {
  }

  lemma BlankAppends(errors: seq<Finding>, text: string, f: Finding)
    ensures AddIf(errors, Blank(text), f) == errors + FindingIf(OnlySpace(text), f)
  {
    hide Blank, OnlySpace;
    BlankIff(text);
    AddIfAppends(errors, Blank(text), f);
  }

  lemma MissingFieldsAre(p: Proposal)
    ensures MissingFields(p) == BlankFields(p)
  {
    hide Blank, OnlySpace, AddIf, FindingIf;
    var a := AddIf([], Blank(p.title), MissingTitle);
    var b := AddIf(a, Blank(p.capability), MissingCapability);
    var c := AddIf(b, Blank(p.ownership), MissingOwnership);
    var d := AddIf(c, Blank(p.funding), MissingFunding);
    var e := AddIf(d, Blank(p.governance), MissingGovernance);
    var f := AddIf(e, Blank(p.enforcement), MissingEnforcement);
    var g := AddIf(f, Blank(p.exitPlan), MissingExit);
    var h := AddIf(g, Blank(p.captureRisk), MissingCaptureRisk);
    var i := AddIf(h, Blank(p.simplification), MissingSimplification);
    BlankAppends([], p.title, MissingTitle);
    BlankAppends(a, p.capability, MissingCapability);
    BlankAppends(b, p.ownership, MissingOwnership);
    BlankAppends(c, p.funding, MissingFunding);
    BlankAppends(d, p.governance, MissingGovernance);
    BlankAppends(e, p.enforcement, MissingEnforcement);
    BlankAppends(f, p.exitPlan, MissingExit);
    BlankAppends(g, p.captureRisk, MissingCaptureRisk);
    BlankAppends(h, p.simplification, MissingSimplification);
    BlankAppends(i, p.metrics, MissingMetrics);
    assert [] + FindingIf(OnlySpace(p.title), MissingTitle) == FindingIf(OnlySpace(p.title), MissingTitle);
  }

  // --- the results -------------------------------------------------------------------------------

  /** The result for a proposal that fails these checks: missing fields are all that is reported when there are any;
      otherwise the failed checks in this order, and a caution that rejects nothing. */
  ghost predicate Reports(r: SieveResult, p: Proposal, exit: bool, capture: bool, metrics: bool, noAppeal: bool) {
    if BlankFields(p) != [] then r == SieveResult(false, BlankFields(p), [])
    else
      && r.errors == FindingIf(exit, ExitStrategy) + FindingIf(capture, CaptureRisk)
                     + FindingIf(metrics, MetricsCapture)
      && r.ok == (!exit && !capture && !metrics)
      && r.warnings == if noAppeal then [NoAppealPath] else []
  }

  lemma ReportReports(p: Proposal, exit: bool, capture: bool, metrics: bool, noAppeal: bool)
    ensures Reports(Report(p, exit, capture, metrics, noAppeal), p, exit, capture, metrics, noAppeal)
  {
    hide MissingFields, BlankFields;
    MissingFieldsAre(p);
  }

  ghost predicate AnyHit(port: Port, text: string, keywords: seq<string>) {
    exists i :: 0 <= i < |keywords| && Hit(port, text, keywords[i])
  }

  /** The table-driven result, for every port and every table. The exit plan fails when it is shorter than the table
      says, or has a forbidden keyword; capture when its text has one or the ownership text claims absolute ownership;
      the metrics when they are shorter than fifteen characters, or have a bad keyword and no good one; and the caution
      is that governance names neither appeal nor arbitration. */
  lemma DeclarativeIs(port: Port, rules: SieveRules, p: Proposal)
    ensures Reports(
              Declarative(port, rules, p), p,
              |Trim(p.exitPlan, CPP_SPACE)| < rules.exitMinLength || AnyHit(port, p.exitPlan, rules.exitForbidden),
              AnyHit(port, p.captureRisk, rules.captureForbidden)
              || Hit(port, p.ownership, "absolute operator ownership"),
              |Trim(p.metrics, CPP_SPACE)| < 15
              || (AnyHit(port, p.metrics, rules.badMetrics) && !AnyHit(port, p.metrics, rules.goodMetrics)),
              !Hit(port, p.governance, "appeal") && !Hit(port, p.governance, "arbitration"))
  {
    hide Hit, Reports, MissingFields, Trim, LowerAll;
    AnyIff(port, p.exitPlan, rules.exitForbidden);
    AnyIff(port, p.captureRisk, rules.captureForbidden);
    AnyIff(port, p.metrics, rules.badMetrics);
    AnyIff(port, p.metrics, rules.goodMetrics);
    LengthIs(port, p.exitPlan);
    LengthIs(port, p.metrics);
    ReportReports(p, ExitFails(port, p, rules.exitMinLength, rules.exitForbidden),
                  HitsAny(port, p.captureRisk, rules.captureForbidden) || OwnershipFails(port, p),
                  MetricsFail(port, p, rules.badMetrics, rules.goodMetrics), Unappealable(port, p));
  }

  lemma AnyIff(port: Port, text: string, keywords: seq<string>)
    ensures HitsAny(port, text, keywords) <==> AnyHit(port, text, keywords)
  {
    hide Hit;
  }

  lemma LengthIs(port: Port, text: string)
    ensures |Reading(port, text)| == |Trim(text, CPP_SPACE)|
  {
    TrimLowerCommute(text);
  }

  // --- the procedures, keyword by keyword --------------------------------------------------------

  ghost predicate ForbidsExit(port: Port, text: string) {
    || Found(port, text, "none") || Found(port, text, "no exit") || Found(port, text, "not allowed")
    || Found(port, text, "lock-in") || Found(port, text, "impossible to leave") || Found(port, text, "restricted")
  }

  ghost predicate Unmitigated(port: Port, text: string) {
    Found(port, text, "no mitigation") || Found(port, text, "operator absolute control")
  }

  ghost predicate Speculative(port: Port, text: string) {
    || Found(port, text, "tvl") || Found(port, text, "token price") || Found(port, text, "speculation")
    || Found(port, text, "market cap") || Found(port, text, "transaction volume") || Found(port, text, "growth rate")
  }

  ghost predicate Humane(port: Port, text: string) {
    || Found(port, text, "patients") || Found(port, text, "access") || Found(port, text, "stabilized")
    || Found(port, text, "waste") || Found(port, text, "carbon") || Found(port, text, "well-being")
    || Found(port, text, "portability")
  }

  lemma FoundAll(port: Port, text: string, keywords: seq<string>)
    requires AllPlain(keywords)
    ensures HitsAny(port, text, keywords) <==> exists i :: 0 <= i < |keywords| && Found(port, text, keywords[i])
  {
    hide Hit, Found, Plain;
    forall k | k in keywords ensures Hit(port, text, k) <==> Found(port, text, k) { HitIff(port, text, k); }
  }

  lemma ExitWords(port: Port, text: string)
    ensures HitsAny(port, text, NO_EXIT) <==> ForbidsExit(port, text)
  {
    hide Found, HitsAny;
    ExitAndCaptureTablesArePlain();
    FoundAll(port, text, NO_EXIT);
    var k := NO_EXIT;
    assert |k| == 6 && k[0] == "none" && k[1] == "no exit" && k[2] == "not allowed" && k[3] == "lock-in"
           && k[4] == "impossible to leave" && k[5] == "restricted";
  }

  lemma BadWords(port: Port, text: string)
    ensures HitsAny(port, text, BAD_METRICS) <==> Speculative(port, text)
  {
    hide Found, HitsAny;
    MetricsTablesArePlain();
    FoundAll(port, text, BAD_METRICS);
    var k := BAD_METRICS;
    assert |k| == 6 && k[0] == "tvl" && k[1] == "token price" && k[2] == "speculation" && k[3] == "market cap"
           && k[4] == "transaction volume" && k[5] == "growth rate";
  }

  lemma GoodWords(port: Port, text: string)
    ensures HitsAny(port, text, GOOD_METRICS) <==> Humane(port, text)
  {
    hide Found, HitsAny;
    MetricsTablesArePlain();
    FoundAll(port, text, GOOD_METRICS);
    var k := GOOD_METRICS;
    assert |k| == 7 && k[0] == "patients" && k[1] == "access" && k[2] == "stabilized" && k[3] == "waste"
           && k[4] == "carbon" && k[5] == "well-being" && k[6] == "portability";
  }

  lemma CaptureWords(port: Port, text: string)
    ensures Hit(port, text, "no mitigation") || Hit(port, text, "operator absolute control")
            <==> Unmitigated(port, text)
  {
    hide Found, Hit;
    ExitAndCaptureTablesArePlain();
    assert UNMITIGATED[0] == "no mitigation" && UNMITIGATED[1] == "operator absolute control";
    assert UNMITIGATED[0] in UNMITIGATED && UNMITIGATED[1] in UNMITIGATED;
    HitIff(port, text, UNMITIGATED[0]);
    HitIff(port, text, UNMITIGATED[1]);
  }

  lemma FixedWords(port: Port, governance: Port, p: Proposal)
    ensures OwnershipFails(port, p) <==> Found(port, p.ownership, "absolute operator ownership")
    ensures Unappealable(governance, p) <==>
              !Found(governance, p.governance, "appeal") && !Found(governance, p.governance, "arbitration")
  {
    hide Found, Hit, Plain;
    FixedKeywordsArePlain();
    HitIff(port, p.ownership, OWNERSHIP);
    HitIff(governance, p.governance, "appeal");
    HitIff(governance, p.governance, "arbitration");
  }

  /** The procedural result, for every port, with its keywords and lengths written out and every keyword looked for in
      the text as it was given. */
  lemma ProceduralIs(port: Port, governance: Port, p: Proposal)
    ensures Reports(
              Procedural(port, governance, p), p,
              |Trim(p.exitPlan, CPP_SPACE)| < 15 || ForbidsExit(port, p.exitPlan),
              Unmitigated(port, p.captureRisk) || Found(port, p.ownership, "absolute operator ownership"),
              |Trim(p.metrics, CPP_SPACE)| < 15 || (Speculative(port, p.metrics) && !Humane(port, p.metrics)),
              !Found(governance, p.governance, "appeal") && !Found(governance, p.governance, "arbitration"))
  {
    hide Hit, HitsAny, Reports, MissingFields, Trim, LowerAll, Found, ForbidsExit, Unmitigated, Speculative, Humane,
         OwnershipFails, Unappealable;
    ExitWords(port, p.exitPlan);
    CaptureWords(port, p.captureRisk);
    BadWords(port, p.metrics);
    GoodWords(port, p.metrics);
    FixedWords(port, governance, p);
    LengthIs(port, p.exitPlan);
    LengthIs(port, p.metrics);
    ReportReports(p, ExitFails(port, p, 15, NO_EXIT),
                  Hit(port, p.captureRisk, "no mitigation") || Hit(port, p.captureRisk, "operator absolute control")
                    || OwnershipFails(port, p),
                  MetricsFail(port, p, BAD_METRICS, GOOD_METRICS), Unappealable(governance, p));
  }

  /** The built-in tables say the same, keyword by keyword, and fifteen characters; the Rust table also looks for the
      ownership phrase in the capture text. */
  lemma DefaultsAre(port: Port, p: Proposal)
    ensures Reports(
              Declarative(port, DefaultRules(port), p), p,
              |Trim(p.exitPlan, CPP_SPACE)| < 15 || ForbidsExit(port, p.exitPlan),
              || Unmitigated(port, p.captureRisk) || Found(port, p.ownership, "absolute operator ownership")
              || (port.Rust? && Found(port, p.captureRisk, "absolute operator ownership")),
              |Trim(p.metrics, CPP_SPACE)| < 15 || (Speculative(port, p.metrics) && !Humane(port, p.metrics)),
              !Found(port, p.governance, "appeal") && !Found(port, p.governance, "arbitration"))
  {
    hide Hit, HitsAny, Reports, MissingFields, Trim, LowerAll, Found, ForbidsExit, Unmitigated, Speculative, Humane,
         OwnershipFails, Unappealable, Plain;
    var rules := DefaultRules(port);
    ExitWords(port, p.exitPlan);
    CaptureWords(port, p.captureRisk);
    TwoKeywords(port, p.captureRisk);
    FixedKeywordsArePlain();
    HitIff(port, p.captureRisk, OWNERSHIP);
    if port.Rust? { RustTableHits(p.captureRisk); }
    BadWords(port, p.metrics);
    GoodWords(port, p.metrics);
    FixedWords(port, port, p);
    LengthIs(port, p.exitPlan);
    LengthIs(port, p.metrics);
    ReportReports(p, ExitFails(port, p, rules.exitMinLength, rules.exitForbidden),
                  HitsAny(port, p.captureRisk, rules.captureForbidden) || OwnershipFails(port, p),
                  MetricsFail(port, p, rules.badMetrics, rules.goodMetrics), Unappealable(port, p));
  }
}
