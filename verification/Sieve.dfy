/**
 The mechanism sieve. The C++, Rust and Python ports have it twice, with keywords written into the code and with
 keywords from a table (core/prototypes/cpp/dizzy_spec.cpp:205-324, 362-390, 433-509;
 core/src/dizzy_core_spec.rs:272-337, 392-443, 502-563; core/prototypes/python/dizzy_spec.py:203-271, 425-480); the Go
 port has only the first form (core/prototypes/go/dizzy_spec.go:258-359).
 */
module Sieve {
  import opened Text
  import opened Matchers

  datatype Proposal = Proposal(
    title: string, capability: string, ownership: string, funding: string, governance: string,
    enforcement: string, exitPlan: string, captureRisk: string, simplification: string, metrics: string)

  datatype Finding =
    | MissingTitle | MissingCapability | MissingOwnership | MissingFunding | MissingGovernance
    | MissingEnforcement | MissingExit | MissingCaptureRisk | MissingSimplification | MissingMetrics
    | ExitStrategy | CaptureRisk | MetricsCapture

  datatype Caution = NoAppealPath

  datatype SieveResult = SieveResult(ok: bool, errors: seq<Finding>, warnings: seq<Caution>)

  datatype SieveRules = SieveRules(
    exitMinLength: nat,
    exitForbidden: seq<string>,
    captureForbidden: seq<string>,
    badMetrics: seq<string>,
    goodMetrics: seq<string>)

  datatype Port = Cpp | Rust | Go | Python

  const NO_EXIT := ["none", "no exit", "not allowed", "lock-in", "impossible to leave", "restricted"]
  const UNMITIGATED := ["no mitigation", "operator absolute control"]
  const BAD_METRICS := ["tvl", "token price", "speculation", "market cap", "transaction volume", "growth rate"]
  const GOOD_METRICS := ["patients", "access", "stabilized", "waste", "carbon", "well-being", "portability"]
  const OWNERSHIP := "absolute operator ownership"

  /** The built-in table; the Rust port's also lists the ownership phrase among the capture keywords. */
  function DefaultRules(port: Port): SieveRules {
    SieveRules(15, NO_EXIT, if port.Rust? then UNMITIGATED + [OWNERSHIP] else UNMITIGATED, BAD_METRICS, GOOD_METRICS)
  }

  /** The text a port searches. */
  function Reading(port: Port, text: string): string {
    if port.Cpp? then Trim(text, CPP_SPACE) else Trim(LowerAll(text), CPP_SPACE)
  }

  predicate Hit(port: Port, text: string, keyword: string) {
    match port
    case Cpp => CppMatch(Reading(port, text), keyword)
    case Rust => Substring(Reading(port, text), keyword)
    case Go => RegexMatch(Reading(port, text), keyword)
    case Python => RegexMatch(Reading(port, text), keyword)
  }

  predicate HitsAny(port: Port, text: string, keywords: seq<string>) {
    exists k :: k in keywords && Hit(port, text, k)
  }

  predicate Blank(text: string) {
    Trim(text, CPP_SPACE) == ""
  }

  /** Appends a finding when its condition holds. */
  function AddIf(errors: seq<Finding>, condition: bool, f: Finding): (r: seq<Finding>)
    ensures forall x :: x in r <==> x in errors || (condition && x == f)
    ensures r == [] <==> errors == [] && !condition
  {
    if condition then errors + [f] else errors
  }

  function MissingPurpose(p: Proposal): seq<Finding> {
    AddIf(AddIf(AddIf(AddIf([], Blank(p.title), MissingTitle), Blank(p.capability), MissingCapability),
                Blank(p.ownership), MissingOwnership), Blank(p.funding), MissingFunding)
  }

  function MissingFields(p: Proposal): seq<Finding> {
    var governed := AddIf(AddIf(AddIf(MissingPurpose(p), Blank(p.governance), MissingGovernance),
                                Blank(p.enforcement), MissingEnforcement), Blank(p.exitPlan), MissingExit);
    AddIf(AddIf(AddIf(governed, Blank(p.captureRisk), MissingCaptureRisk),
                Blank(p.simplification), MissingSimplification), Blank(p.metrics), MissingMetrics)
  }

  predicate ExitFails(port: Port, p: Proposal, minLength: nat, forbidden: seq<string>) {
    HitsAny(port, p.exitPlan, forbidden) || |Reading(port, p.exitPlan)| < minLength
  }

  predicate OwnershipFails(port: Port, p: Proposal) {
    Hit(port, p.ownership, OWNERSHIP)
  }

  predicate MetricsFail(port: Port, p: Proposal, bad: seq<string>, good: seq<string>) {
    (HitsAny(port, p.metrics, bad) && !HitsAny(port, p.metrics, good)) || |Reading(port, p.metrics)| < 15
  }

  predicate Unappealable(port: Port, p: Proposal) {
    !Hit(port, p.governance, "appeal") && !Hit(port, p.governance, "arbitration")
  }

  /** A missing field ends the validation; otherwise the three checks and the caution are reported. */
  function Report(p: Proposal, exitFails: bool, captureFails: bool, metricsFail: bool, unappealable: bool):
    (r: SieveResult)
    ensures r.ok <==> r.errors == []
  {
    if MissingFields(p) != [] then SieveResult(false, MissingFields(p), [])
    else
      var errors := AddIf(AddIf(AddIf([], exitFails, ExitStrategy), captureFails, CaptureRisk),
                          metricsFail, MetricsCapture);
      SieveResult(errors == [], errors, if unappealable then [NoAppealPath] else [])
  }

  /** The procedural form. `governance` is the matcher used for the appeal paths. */
  function Procedural(port: Port, governance: Port, p: Proposal): SieveResult {
    Report(p,
      ExitFails(port, p, 15, NO_EXIT),
      Hit(port, p.captureRisk, "no mitigation") || Hit(port, p.captureRisk, "operator absolute control")
        || OwnershipFails(port, p),
      MetricsFail(port, p, BAD_METRICS, GOOD_METRICS),
      Unappealable(governance, p))
  }

  /** The table-driven form. */
  function Declarative(port: Port, rules: SieveRules, p: Proposal): SieveResult {
    Report(p,
      ExitFails(port, p, rules.exitMinLength, rules.exitForbidden),
      HitsAny(port, p.captureRisk, rules.captureForbidden) || OwnershipFails(port, p),
      MetricsFail(port, p, rules.badMetrics, rules.goodMetrics),
      Unappealable(port, p))
  }

  // --- the validators as programs ----------------------------------------------------------------

  method CollectMissing(p: Proposal) returns (errors: seq<Finding>)
    ensures errors == MissingFields(p)
  {
    hide Blank;
    errors := [];
    if Blank(p.title) { errors := errors + [MissingTitle]; }
    if Blank(p.capability) { errors := errors + [MissingCapability]; }
    if Blank(p.ownership) { errors := errors + [MissingOwnership]; }
    if Blank(p.funding) { errors := errors + [MissingFunding]; }
    assert errors == MissingPurpose(p);
    if Blank(p.governance) { errors := errors + [MissingGovernance]; }
    if Blank(p.enforcement) { errors := errors + [MissingEnforcement]; }
    if Blank(p.exitPlan) { errors := errors + [MissingExit]; }
    assert errors == AddIf(AddIf(AddIf(MissingPurpose(p), Blank(p.governance), MissingGovernance),
                                 Blank(p.enforcement), MissingEnforcement), Blank(p.exitPlan), MissingExit);
    if Blank(p.captureRisk) { errors := errors + [MissingCaptureRisk]; }
    if Blank(p.simplification) { errors := errors + [MissingSimplification]; }
    if Blank(p.metrics) { errors := errors + [MissingMetrics]; }
  }

  /** The keyword loop of the C++ port: it stops at the first hit. */
  method ContainsAnyWord(text: string, keywords: seq<string>) returns (found: bool)
    ensures found <==> exists k :: k in keywords && CppMatch(text, k)
  {
    found := false;
    for i := 0 to |keywords|
      invariant !found
      invariant forall k :: k in keywords[..i] ==> !CppMatch(text, k)
    {
      var hit := ContainsKeywordAsWord(text, keywords[i]);
      if hit {
        found := true;
        break;
      }
      assert keywords[..i + 1] == keywords[..i] + [keywords[i]];
    }
    assert !found ==> keywords[..|keywords|] == keywords;
  }

  /** The end of every validator: the checks that failed, in order, and the caution. */
  method Conclude(p: Proposal, exitFails: bool, captureFails: bool, metricsFail: bool, unappealable: bool)
    returns (r: SieveResult)
    requires MissingFields(p) == []
    ensures r == Report(p, exitFails, captureFails, metricsFail, unappealable)
  {
    hide MissingFields;
    var errors, warnings := [], [];
    if exitFails { errors := errors + [ExitStrategy]; }
    if captureFails { errors := errors + [CaptureRisk]; }
    if metricsFail { errors := errors + [MetricsCapture]; }
    if unappealable { warnings := warnings + [NoAppealPath]; }
    return SieveResult(errors == [], errors, warnings);
  }

  /** The C++ validator over arbitrary tables. */
  method CppValidateSieve(rules: SieveRules, p: Proposal) returns (r: SieveResult)
    ensures r == Declarative(Cpp, rules, p)
  {
    hide MissingFields, CppMatch, Trim;
    var errors := CollectMissing(p);
    if errors != [] { return SieveResult(false, errors, []); }
    var exitTrimmed := Trim(p.exitPlan, CPP_SPACE);
    var metricsTrimmed := Trim(p.metrics, CPP_SPACE);
    var governance := Trim(p.governance, CPP_SPACE);
    var hasForbidden := ContainsAnyWord(exitTrimmed, rules.exitForbidden);
    var capture := ContainsAnyWord(Trim(p.captureRisk, CPP_SPACE), rules.captureForbidden);
    var owned := ContainsKeywordAsWord(Trim(p.ownership, CPP_SPACE), OWNERSHIP);
    var hasBad := ContainsAnyWord(metricsTrimmed, rules.badMetrics);
    var hasGood := ContainsAnyWord(metricsTrimmed, rules.goodMetrics);
    var appeal := ContainsKeywordAsWord(governance, "appeal");
    var arbitration := ContainsKeywordAsWord(governance, "arbitration");
    r := Conclude(p, hasForbidden || |exitTrimmed| < rules.exitMinLength, capture || owned,
                  (hasBad && !hasGood) || |metricsTrimmed| < 15, !appeal && !arbitration);
  }

  /** The C++ validator with its keywords written into the code. */
  method CppValidateMechanismSieve(p: Proposal) returns (r: SieveResult)
    ensures r == Procedural(Cpp, Cpp, p)
  {
    hide MissingFields, CppMatch, Trim;
    var errors := CollectMissing(p);
    if errors != [] { return SieveResult(false, errors, []); }
    var exitTrimmed := Trim(p.exitPlan, CPP_SPACE);
    var metricsTrimmed := Trim(p.metrics, CPP_SPACE);
    var governance := Trim(p.governance, CPP_SPACE);
    var hasForbidden := ContainsAnyWord(exitTrimmed, NO_EXIT);
    var capture := ContainsAnyWord(Trim(p.captureRisk, CPP_SPACE), UNMITIGATED);
    var owned := ContainsKeywordAsWord(Trim(p.ownership, CPP_SPACE), OWNERSHIP);
    assert capture <==> HitsAny(Cpp, p.captureRisk, UNMITIGATED);
    TwoKeywords(Cpp, p.captureRisk);
    var hasBad := ContainsAnyWord(metricsTrimmed, BAD_METRICS);
    var hasGood := ContainsAnyWord(metricsTrimmed, GOOD_METRICS);
    var appeal := ContainsKeywordAsWord(governance, "appeal");
    var arbitration := ContainsKeywordAsWord(governance, "arbitration");
    r := Conclude(p, hasForbidden || |exitTrimmed| < 15, capture || owned,
                  (hasBad && !hasGood) || |metricsTrimmed| < 15, !appeal && !arbitration);
  }

  /** Searching a text for a substring. */
  method Contains(text: string, keyword: string) returns (found: bool)
    ensures found <==> Substring(text, keyword)
  {
    var i := 0;
    while i + |keyword| <= |text|
      invariant 0 <= i <= |text| + 1
      invariant forall k :: 0 <= k < i ==> !SubstringAt(text, keyword, k)
    {
      var j := 0;
      while j < |keyword| && text[i + j] == keyword[j]
        invariant 0 <= j <= |keyword|
        invariant text[i..i + j] == keyword[..j]
      {
        assert text[i..i + j + 1] == text[i..i + j] + [text[i + j]];
        assert keyword[..j + 1] == keyword[..j] + [keyword[j]];
        j := j + 1;
      }
      if j == |keyword| {
        assert keyword[..j] == keyword && SubstringAt(text, keyword, i);
        return true;
      }
      Mismatch(text, keyword, i, j);
      i := i + 1;
    }
    return false;
  }

  lemma Mismatch(text: string, keyword: string, i: nat, j: nat)
    requires i + |keyword| <= |text| && j < |keyword| && text[i + j] != keyword[j]
    ensures !SubstringAt(text, keyword, i)
  {
    assert text[i..i + |keyword|][j] == text[i + j];
  }

  /** The `any` of the Rust port over a keyword list. */
  method ContainsAny(text: string, keywords: seq<string>) returns (found: bool)
    ensures found <==> exists k :: k in keywords && Substring(text, k)
  {
    hide Substring;
    for i := 0 to |keywords|
      invariant forall k :: k in keywords[..i] ==> !Substring(text, k)
    {
      var hit := Contains(text, keywords[i]);
      if hit { return true; }
      assert keywords[..i + 1] == keywords[..i] + [keywords[i]];
    }
    assert keywords[..|keywords|] == keywords;
    return false;
  }

  /** The Rust validator over arbitrary tables: it searches lower-cased text for substrings. */
  method RustValidateSieve(rules: SieveRules, p: Proposal) returns (r: SieveResult)
    ensures r == Declarative(Rust, rules, p)
  {
    hide MissingFields, Substring, Trim, LowerAll;
    var errors := CollectMissing(p);
    if errors != [] { return SieveResult(false, errors, []); }
    var exitTrimmed := Trim(LowerAll(p.exitPlan), CPP_SPACE);
    var forbidden := ContainsAny(exitTrimmed, rules.exitForbidden);
    var capture := ContainsAny(Trim(LowerAll(p.captureRisk), CPP_SPACE), rules.captureForbidden);
    var owned := Contains(Trim(LowerAll(p.ownership), CPP_SPACE), OWNERSHIP);
    var metrics := Trim(LowerAll(p.metrics), CPP_SPACE);
    var hasBad := ContainsAny(metrics, rules.badMetrics);
    var hasGood := ContainsAny(metrics, rules.goodMetrics);
    var governance := Trim(LowerAll(p.governance), CPP_SPACE);
    var appeal := Contains(governance, "appeal");
    var arbitration := Contains(governance, "arbitration");
    r := Conclude(p, forbidden || |exitTrimmed| < rules.exitMinLength, capture || owned,
                  (hasBad && !hasGood) || |metrics| < 15, !appeal && !arbitration);
  }

  /** The Rust validator with its keywords written into the code. */
  method RustValidateMechanismSieve(p: Proposal) returns (r: SieveResult)
    ensures r == Procedural(Rust, Rust, p)
  {
    hide MissingFields, Substring, Trim, LowerAll;
    var errors := CollectMissing(p);
    if errors != [] { return SieveResult(false, errors, []); }
    var exitTrimmed := Trim(LowerAll(p.exitPlan), CPP_SPACE);
    var forbidden := ContainsAny(exitTrimmed, NO_EXIT);
    var captureRisk := Trim(LowerAll(p.captureRisk), CPP_SPACE);
    var unmitigated := Contains(captureRisk, "no mitigation");
    var controlled := Contains(captureRisk, "operator absolute control");
    var owned := Contains(Trim(LowerAll(p.ownership), CPP_SPACE), OWNERSHIP);
    var metrics := Trim(LowerAll(p.metrics), CPP_SPACE);
    var hasBad := ContainsAny(metrics, BAD_METRICS);
    var hasGood := ContainsAny(metrics, GOOD_METRICS);
    var governance := Trim(LowerAll(p.governance), CPP_SPACE);
    var appeal := Contains(governance, "appeal");
    var arbitration := Contains(governance, "arbitration");
    r := Conclude(p, forbidden || |exitTrimmed| < 15, unmitigated || controlled || owned,
                  (hasBad && !hasGood) || |metrics| < 15, !appeal && !arbitration);
  }

  // --- what a result says ------------------------------------------------------------------------

  /** When a finding applies to a proposal. */
  predicate Applies(port: Port, rules: SieveRules, p: Proposal, f: Finding) {
    match f
    case MissingTitle => Blank(p.title)
    case MissingCapability => Blank(p.capability)
    case MissingOwnership => Blank(p.ownership)
    case MissingFunding => Blank(p.funding)
    case MissingGovernance => Blank(p.governance)
    case MissingEnforcement => Blank(p.enforcement)
    case MissingExit => Blank(p.exitPlan)
    case MissingCaptureRisk => Blank(p.captureRisk)
    case MissingSimplification => Blank(p.simplification)
    case MissingMetrics => Blank(p.metrics)
    case ExitStrategy => MissingFields(p) == [] && ExitFails(port, p, rules.exitMinLength, rules.exitForbidden)
    case CaptureRisk =>
      MissingFields(p) == [] && (HitsAny(port, p.captureRisk, rules.captureForbidden) || OwnershipFails(port, p))
    case MetricsCapture => MissingFields(p) == [] && MetricsFail(port, p, rules.badMetrics, rules.goodMetrics)
  }

  lemma FirstIsFinding(errors: seq<Finding>)
    ensures errors != [] <==> exists f :: f in errors
  {
    if errors != [] { assert errors[0] in errors; }
  }

  predicate IsCheck(f: Finding) {
    f == ExitStrategy || f == CaptureRisk || f == MetricsCapture
  }

  lemma MissingIsExact(port: Port, rules: SieveRules, p: Proposal)
    ensures forall f :: f in MissingFields(p) <==> !IsCheck(f) && Applies(port, rules, p, f)
  {
    hide ExitFails, HitsAny, OwnershipFails, MetricsFail, Blank, AddIf;
  }

  /** Each finding is reported exactly when it applies, the verdict is that none does, and the caution is given
      exactly when the fields are present and no appeal path is mentioned. */
  lemma ReportIsExact(port: Port, rules: SieveRules, p: Proposal)
    ensures var r := Declarative(port, rules, p);
            && (forall f :: f in r.errors <==> Applies(port, rules, p, f))
            && (r.ok <==> forall f :: !Applies(port, rules, p, f))
            && r.warnings == (if MissingFields(p) == [] && Unappealable(port, p) then [NoAppealPath] else [])
  {
    hide ExitFails, HitsAny, OwnershipFails, MetricsFail, Unappealable, Blank, AddIf;
    MissingIsExact(port, rules, p);
    FirstIsFinding(Declarative(port, rules, p).errors);
  }

  // --- procedural and table-driven form ----------------------------------------------------------

  lemma TwoKeywords(port: Port, text: string)
    ensures HitsAny(port, text, UNMITIGATED) <==>
              Hit(port, text, "no mitigation") || Hit(port, text, "operator absolute control")
  {
    hide Hit;
    assert UNMITIGATED[0] in UNMITIGATED && UNMITIGATED[1] in UNMITIGATED;
  }

  /** C++: on its default table the table-driven validator returns exactly what the procedural one does. */
  lemma CppFormsAgree(p: Proposal)
    ensures Declarative(Cpp, DefaultRules(Cpp), p) == Procedural(Cpp, Cpp, p)
  {
    TwoKeywords(Cpp, p.captureRisk);
  }

  /** The two Python forms agree on errors and verdict. Their warnings differ exactly when the governance
      text mentions an appeal or arbitration, but only inside longer words. */
  lemma PythonFormsCompared(p: Proposal)
    ensures var d, q := Declarative(Python, DefaultRules(Python), p), Procedural(Python, Rust, p);
            && d.ok == q.ok && d.errors == q.errors
            && (d.warnings != q.warnings <==>
                  MissingFields(p) == [] && Unappealable(Python, p) && !Unappealable(Rust, p))
  {
    hide ExitFails, HitsAny, OwnershipFails, MetricsFail, MissingFields;
    TwoKeywords(Python, p.captureRisk);
    RegexHitIsSubstring(p.governance, "appeal");
    RegexHitIsSubstring(p.governance, "arbitration");
  }

  /** The capture check of the procedural form fires. */
  predicate CaptureTriggered(port: Port, p: Proposal) {
    HitsAny(port, p.captureRisk, UNMITIGATED) || OwnershipFails(port, p)
  }

  /** The one input family on which the Rust forms differ. */
  predicate OnlyOwnershipInCaptureRisk(p: Proposal) {
    MissingFields(p) == [] && Hit(Rust, p.captureRisk, OWNERSHIP) && !CaptureTriggered(Rust, p)
  }

  lemma RustTableHits(text: string)
    ensures HitsAny(Rust, text, UNMITIGATED + [OWNERSHIP]) <==>
            HitsAny(Rust, text, UNMITIGATED) || Hit(Rust, text, OWNERSHIP)
  {
    hide Hit;
  }

  /** Rust: the table-driven form rejects whatever the procedural form rejects. The results differ exactly
      when the capture-risk text contains the ownership phrase and nothing else triggers the capture
      check; the verdicts differ when, besides, the procedural form accepts. */
  lemma RustFormsCompared(p: Proposal)
    ensures var d, q := Declarative(Rust, DefaultRules(Rust), p), Procedural(Rust, Rust, p);
            && (d.ok ==> q.ok)
            && (d != q <==> OnlyOwnershipInCaptureRisk(p))
            && (d.ok != q.ok <==> q.ok && OnlyOwnershipInCaptureRisk(p))
            && d.warnings == q.warnings
  {
    hide ExitFails, HitsAny, Hit, OwnershipFails, MetricsFail, MissingFields, Unappealable;
    TwoKeywords(Rust, p.captureRisk);
    RustTableHits(p.captureRisk);
  }

  // --- arbitrary tables --------------------------------------------------------------------------

  ghost predicate Subset(a: seq<string>, b: seq<string>) {
    forall k :: k in a ==> k in b
  }

  /** `b` forbids all that `a` forbids and redeems no more. */
  ghost predicate AtLeastAsStrict(b: SieveRules, a: SieveRules) {
    && a.exitMinLength <= b.exitMinLength
    && Subset(a.exitForbidden, b.exitForbidden)
    && Subset(a.captureForbidden, b.captureForbidden)
    && Subset(a.badMetrics, b.badMetrics)
    && Subset(b.goodMetrics, a.goodMetrics)
  }

  lemma MoreKeywordsMoreHits(port: Port, text: string, a: seq<string>, b: seq<string>)
    requires Subset(a, b)
    ensures HitsAny(port, text, a) ==> HitsAny(port, text, b)
  {
    hide Hit;
  }

  lemma StricterFindsMore(port: Port, a: SieveRules, b: SieveRules, p: Proposal, f: Finding)
    requires AtLeastAsStrict(b, a) && Applies(port, a, p, f)
    ensures Applies(port, b, p, f)
  {
    hide HitsAny, OwnershipFails, Blank, MissingFields;
    MoreKeywordsMoreHits(port, p.exitPlan, a.exitForbidden, b.exitForbidden);
    MoreKeywordsMoreHits(port, p.captureRisk, a.captureForbidden, b.captureForbidden);
    MoreKeywordsMoreHits(port, p.metrics, a.badMetrics, b.badMetrics);
    MoreKeywordsMoreHits(port, p.metrics, b.goodMetrics, a.goodMetrics);
  }

  /** Growing a forbidden or bad table or the minimum exit length, or shrinking the good table, only adds
      findings: it never turns a rejection into acceptance. */
  lemma StricterRulesRejectMore(port: Port, a: SieveRules, b: SieveRules, p: Proposal)
    requires AtLeastAsStrict(b, a)
    ensures forall f :: f in Declarative(port, a, p).errors ==> f in Declarative(port, b, p).errors
    ensures Declarative(port, b, p).ok ==> Declarative(port, a, p).ok
  {
    hide Applies, Declarative;
    ReportIsExact(port, a, p);
    ReportIsExact(port, b, p);
    forall f | Applies(port, a, p, f) ensures Applies(port, b, p, f) {
      StricterFindsMore(port, a, b, p, f);
    }
  }

  /** Only the set of keywords in each table matters: order and repetition are irrelevant. */
  lemma OnlyKeywordSetsMatter(port: Port, a: SieveRules, b: SieveRules, p: Proposal)
    requires AtLeastAsStrict(a, b) && AtLeastAsStrict(b, a)
    ensures Declarative(port, a, p) == Declarative(port, b, p)
  {
    hide HitsAny, OwnershipFails, Unappealable, MissingFields;
    MoreKeywordsMoreHits(port, p.exitPlan, a.exitForbidden, b.exitForbidden);
    MoreKeywordsMoreHits(port, p.exitPlan, b.exitForbidden, a.exitForbidden);
    MoreKeywordsMoreHits(port, p.captureRisk, a.captureForbidden, b.captureForbidden);
    MoreKeywordsMoreHits(port, p.captureRisk, b.captureForbidden, a.captureForbidden);
    MoreKeywordsMoreHits(port, p.metrics, a.badMetrics, b.badMetrics);
    MoreKeywordsMoreHits(port, p.metrics, b.badMetrics, a.badMetrics);
    MoreKeywordsMoreHits(port, p.metrics, a.goodMetrics, b.goodMetrics);
    MoreKeywordsMoreHits(port, p.metrics, b.goodMetrics, a.goodMetrics);
  }

  // --- across the ports --------------------------------------------------------------------------

  lemma SameLength(a: Port, b: Port, text: string)
    ensures |Reading(a, text)| == |Reading(b, text)|
  {
    TrimLowerCommute(text);
  }

  lemma RegexHitIsSubstring(text: string, keyword: string)
    requires AlnumEnds(keyword) && LowerAll(keyword) == keyword
    ensures Hit(Python, text, keyword) ==> Hit(Rust, text, keyword)
  {
    PortsOrdered(text, keyword);
  }

  /** A keyword as in the built-in tables: lower-case, starting and ending with a letter or digit. */
  predicate Plain(keyword: string) {
    AlnumEnds(keyword) && LowerAll(keyword) == keyword
  }

  /** What Go and Python find, C++ finds, and what C++ finds, Rust finds; without underscores the first
      two coincide. */
  lemma PortsOrdered(text: string, keyword: string)
    requires Plain(keyword)
    ensures Hit(Go, text, keyword) == Hit(Python, text, keyword)
    ensures Hit(Go, text, keyword) ==> Hit(Cpp, text, keyword)
    ensures Hit(Cpp, text, keyword) ==> Hit(Rust, text, keyword)
    ensures '_' !in text ==> Hit(Go, text, keyword) == Hit(Cpp, text, keyword)
  {
    hide CppMatch, RegexMatch, Substring, Trim, LowerAll;
    var t := Trim(text, CPP_SPACE);
    TrimLowerCommute(text);
    RegexMatchLower(t, keyword);
    RegexImpliesCpp(t, keyword);
    CppImpliesSubstring(t, keyword);
    if '_' !in text { TrimHasNoNewChars(text, '_'); }
  }

  lemma TrimHasNoNewChars(text: string, c: char)
    requires c !in text
    ensures c !in Trim(text, CPP_SPACE)
  {
    var from, to := TrimSplits(text, CPP_SPACE);
  }

  ghost predicate AllPlain(keywords: seq<string>) {
    forall k :: k in keywords ==> Plain(k)
  }

  ghost predicate PlainRules(rules: SieveRules) {
    && AllPlain(rules.exitForbidden) && AllPlain(rules.captureForbidden)
    && AllPlain(rules.badMetrics) && AllPlain(rules.goodMetrics)
  }

  lemma AnyOrdered(text: string, keywords: seq<string>)
    requires AllPlain(keywords)
    ensures HitsAny(Python, text, keywords) ==> HitsAny(Cpp, text, keywords)
    ensures HitsAny(Cpp, text, keywords) ==> HitsAny(Rust, text, keywords)
    ensures '_' !in text ==> HitsAny(Python, text, keywords) == HitsAny(Cpp, text, keywords)
  {
    hide Hit, Plain;
    forall k | k in keywords
      ensures (Hit(Python, text, k) ==> Hit(Cpp, text, k)) && (Hit(Cpp, text, k) ==> Hit(Rust, text, k))
      ensures '_' !in text ==> Hit(Python, text, k) == Hit(Cpp, text, k)
    {
      PortsOrdered(text, k);
    }
  }

  lemma FixedKeywordsArePlain()
    ensures Plain(OWNERSHIP) && Plain("appeal") && Plain("arbitration")
  {
    assert LowerAll(OWNERSHIP) == OWNERSHIP;
    assert LowerAll("appeal") == "appeal";
    assert LowerAll("arbitration") == "arbitration";
  }

  /** On the same table the exit and capture checks are ordered: a Python rejection is a C++ rejection, and a C++
      rejection is a Rust rejection. */
  lemma TableChecksOrdered(rules: SieveRules, p: Proposal, f: Finding)
    requires PlainRules(rules) && (f == ExitStrategy || f == CaptureRisk)
    ensures f in Declarative(Python, rules, p).errors ==> f in Declarative(Cpp, rules, p).errors
    ensures f in Declarative(Cpp, rules, p).errors ==> f in Declarative(Rust, rules, p).errors
  {
    hide HitsAny, Hit, MissingFields, Declarative, Reading, Plain;
    ReportIsExact(Python, rules, p);
    ReportIsExact(Cpp, rules, p);
    ReportIsExact(Rust, rules, p);
    AnyOrdered(p.exitPlan, rules.exitForbidden);
    AnyOrdered(p.captureRisk, rules.captureForbidden);
    FixedKeywordsArePlain();
    PortsOrdered(p.ownership, OWNERSHIP);
    SameLength(Python, Cpp, p.exitPlan);
    SameLength(Cpp, Rust, p.exitPlan);
  }

  ghost predicate NoUnderscores(p: Proposal) {
    '_' !in p.exitPlan && '_' !in p.captureRisk && '_' !in p.ownership && '_' !in p.metrics && '_' !in p.governance
  }

  /** Without underscores in the searched fields, Python and C++ return the same result on any plain table. */
  lemma PythonAndCppTablesAgree(rules: SieveRules, p: Proposal)
    requires PlainRules(rules) && NoUnderscores(p)
    ensures Declarative(Python, rules, p) == Declarative(Cpp, rules, p)
  {
    hide HitsAny, Hit, MissingFields, Reading, Plain;
    AnyOrdered(p.exitPlan, rules.exitForbidden);
    AnyOrdered(p.captureRisk, rules.captureForbidden);
    AnyOrdered(p.metrics, rules.badMetrics);
    AnyOrdered(p.metrics, rules.goodMetrics);
    FixedKeywordsArePlain();
    PortsOrdered(p.ownership, OWNERSHIP);
    PortsOrdered(p.governance, "appeal");
    PortsOrdered(p.governance, "arbitration");
    SameLength(Python, Cpp, p.exitPlan);
    SameLength(Python, Cpp, p.metrics);
  }

  /** The keywords written into the code are those of the C++ table. */
  lemma ProceduralAsTable(port: Port, p: Proposal)
    ensures Procedural(port, port, p) == Declarative(port, DefaultRules(Cpp), p)
  {
    hide ExitFails, HitsAny, Hit, MetricsFail, MissingFields, Unappealable;
    TwoKeywords(port, p.captureRisk);
  }

  /** The Go procedure decides as a Python procedure that matches the governance words the same way. */
  lemma GoMatchesLikePython(p: Proposal)
    ensures Procedural(Go, Go, p) == Procedural(Python, Python, p)
  {
    hide RegexMatch, MissingFields;
    forall text, keywords ensures HitsAny(Go, text, keywords) <==> HitsAny(Python, text, keywords) {
      forall k ensures Hit(Go, text, k) <==> Hit(Python, text, k) {}
    }
  }

  /** For every proposal, an exit or capture rejection by the Go procedure is one by the C++ procedure, and one by the
      C++ procedure is one by the Rust procedure. */
  lemma ProceduralChecksOrdered(p: Proposal, f: Finding)
    requires f == ExitStrategy || f == CaptureRisk
    ensures f in Procedural(Go, Go, p).errors ==> f in Procedural(Cpp, Cpp, p).errors
    ensures f in Procedural(Cpp, Cpp, p).errors ==> f in Procedural(Rust, Rust, p).errors
  {
    hide Procedural, Declarative, PlainRules;
    GoMatchesLikePython(p);
    ProceduralAsTable(Python, p);
    ProceduralAsTable(Cpp, p);
    ProceduralAsTable(Rust, p);
    DefaultRulesArePlain(Cpp);
    TableChecksOrdered(DefaultRules(Cpp), p, f);
  }

  /** Without underscores in the searched fields, the Go and C++ procedures return the same result. */
  lemma GoAndCppAgree(p: Proposal)
    requires NoUnderscores(p)
    ensures Procedural(Go, Go, p) == Procedural(Cpp, Cpp, p)
  {
    hide Procedural, Declarative, PlainRules, NoUnderscores;
    GoMatchesLikePython(p);
    ProceduralAsTable(Python, p);
    ProceduralAsTable(Cpp, p);
    DefaultRulesArePlain(Cpp);
    PythonAndCppTablesAgree(DefaultRules(Cpp), p);
  }

  /** When the metrics checks of C++ and Rust differ on a table, exactly: C++ rejects and Rust accepts when the only
      good words are inside longer words; Rust rejects and C++ accepts when the only bad words are. */
  lemma MetricsChecksCompared(p: Proposal, bad: seq<string>, good: seq<string>)
    requires AllPlain(bad) && AllPlain(good)
    ensures MetricsFail(Cpp, p, bad, good) && !MetricsFail(Rust, p, bad, good) <==>
              && |Reading(Cpp, p.metrics)| >= 15
              && HitsAny(Cpp, p.metrics, bad) && !HitsAny(Cpp, p.metrics, good) && HitsAny(Rust, p.metrics, good)
    ensures MetricsFail(Rust, p, bad, good) && !MetricsFail(Cpp, p, bad, good) <==>
              && |Reading(Cpp, p.metrics)| >= 15
              && !HitsAny(Cpp, p.metrics, bad) && HitsAny(Rust, p.metrics, bad) && !HitsAny(Rust, p.metrics, good)
  {
    hide HitsAny, Reading, AllPlain;
    AnyOrdered(p.metrics, bad);
    AnyOrdered(p.metrics, good);
    SameLength(Cpp, Rust, p.metrics);
  }

  // --- the built-in tables and witnesses ---------------------------------------------------------

  lemma LowerCaseIsPlain(keyword: string)
    requires AlnumEnds(keyword) && forall c :: c in keyword ==> !('A' <= c <= 'Z')
    ensures Plain(keyword)
  {
    assert forall i :: 0 <= i < |keyword| ==> keyword[i] in keyword;
    assert LowerAll(keyword) == keyword;
  }

  lemma AllLowerCaseIsPlain(keywords: seq<string>)
    requires forall i :: 0 <= i < |keywords| ==>
               AlnumEnds(keywords[i]) && forall c :: c in keywords[i] ==> !('A' <= c <= 'Z')
    ensures AllPlain(keywords)
  {
    forall k | k in keywords ensures Plain(k) { LowerCaseIsPlain(k); }
  }

  lemma ExitAndCaptureTablesArePlain()
    ensures AllPlain(NO_EXIT) && AllPlain(UNMITIGATED)
  {
    hide Plain;
    AllLowerCaseIsPlain(NO_EXIT);
    AllLowerCaseIsPlain(UNMITIGATED);
  }

  lemma MetricsTablesArePlain()
    ensures AllPlain(BAD_METRICS) && AllPlain(GOOD_METRICS)
  {
    hide Plain;
    AllLowerCaseIsPlain(BAD_METRICS);
    AllLowerCaseIsPlain(GOOD_METRICS);
  }

  /** The built-in tables meet the premise of the comparisons across ports. */
  lemma DefaultRulesArePlain(port: Port)
    ensures PlainRules(DefaultRules(port))
  {
    hide Plain;
    ExitAndCaptureTablesArePlain();
    MetricsTablesArePlain();
    FixedKeywordsArePlain();
  }

  /** A matched keyword's letters are in the text. */
  lemma MatchedLetters(text: string, keyword: string, j: nat)
    requires j < |keyword| && LowerAll(text) == text
    ensures CppMatch(text, keyword) ==> Lower(keyword[j]) in text
    ensures Substring(text, keyword) ==> keyword[j] in text
  {
    if CppMatch(text, keyword) {
      var i :| 0 <= i <= |text| && OccursAt(text, keyword, i) && CppBoundary(text, keyword, i);
      assert i + |keyword| <= |text| && Lower(text[i + j]) == Lower(keyword[j]);
      assert LowerAll(text)[i + j] == text[i + j];
    }
    if Substring(text, keyword) {
      var i :| 0 <= i <= |text| && SubstringAt(text, keyword, i);
      assert text[i..i + |keyword|][j] == text[i + j];
    }
  }

  lemma Untouched(text: string)
    requires text != "" && text[0] !in CPP_SPACE && text[|text| - 1] !in CPP_SPACE
    requires forall c :: c in text ==> !('A' <= c <= 'Z')
    ensures LowerAll(text) == text && Trim(text, CPP_SPACE) == text
    ensures forall port :: Reading(port, text) == text
  {
    assert forall i :: 0 <= i < |text| ==> text[i] in text;
    assert LowerAll(text) == text;
  }

  /** The metrics check is not ordered, because a looser matcher also finds more redeeming words: here C++
      rejects what Rust accepts, and Rust rejects what C++ accepts. */
  lemma MetricsChecksAreIncomparable(p: Proposal)
    ensures p.metrics == "tvl  accessible" ==>
              MetricsFail(Cpp, p, ["tvl"], ["access"]) && !MetricsFail(Rust, p, ["tvl"], ["access"])
    ensures p.metrics == "atvl aaaaaaaaaa" ==>
              !MetricsFail(Cpp, p, ["tvl"], ["access"]) && MetricsFail(Rust, p, ["tvl"], ["access"])
  {
    hide MetricsFail;
    if p.metrics == "tvl  accessible" { RedeemedInsideLongerWord(p); }
    if p.metrics == "atvl aaaaaaaaaa" { BadInsideLongerWord(p); }
  }

  lemma OneKeyword(port: Port, text: string, keyword: string)
    ensures HitsAny(port, text, [keyword]) <==> Hit(port, text, keyword)
  {
    hide Hit;
    assert keyword in [keyword];
  }

  lemma AccessInsideLongerWord()
    ensures var t := "tvl  accessible"; CppMatch(t, "tvl") && Substring(t, "access") && !CppMatch(t, "access")
  {
    var t := "tvl  accessible";
    assert OccursAt(t, "tvl", 0) && CppBoundary(t, "tvl", 0);
    assert t[5..11] == "access" && SubstringAt(t, "access", 5);
    forall i | OccursAt(t, "access", i) ensures !CppBoundary(t, "access", i) {
      assert Lower(t[i]) == Lower("access"[0]);
    }
  }

  lemma TvlInsideLongerWord()
    ensures var t := "atvl aaaaaaaaaa"; Substring(t, "tvl") && !CppMatch(t, "tvl")
  {
    var t := "atvl aaaaaaaaaa";
    assert t[1..4] == "tvl" && SubstringAt(t, "tvl", 1);
    forall i | OccursAt(t, "tvl", i) ensures !CppBoundary(t, "tvl", i) {
      assert Lower(t[i]) == Lower("tvl"[0]);
    }
  }

  lemma RedeemedInsideLongerWord(p: Proposal)
    requires p.metrics == "tvl  accessible"
    ensures MetricsFail(Cpp, p, ["tvl"], ["access"]) && !MetricsFail(Rust, p, ["tvl"], ["access"])
  {
    hide HitsAny, Trim, CppMatch, Substring;
    var t := p.metrics;
    Untouched(t);
    AccessInsideLongerWord();
    OneKeyword(Cpp, t, "tvl");
    OneKeyword(Cpp, t, "access");
    OneKeyword(Rust, t, "access");
  }

  lemma BadInsideLongerWord(p: Proposal)
    requires p.metrics == "atvl aaaaaaaaaa"
    ensures !MetricsFail(Cpp, p, ["tvl"], ["access"]) && MetricsFail(Rust, p, ["tvl"], ["access"])
  {
    hide HitsAny, Trim, CppMatch, Substring;
    var t := p.metrics;
    Untouched(t);
    TvlInsideLongerWord();
    MatchedLetters(t, "access", 1);
    OneKeyword(Rust, t, "tvl");
    OneKeyword(Rust, t, "access");
    OneKeyword(Cpp, t, "tvl");
  }

  lemma OnlyOwnershipIsMentioned()
    ensures Hit(Rust, OWNERSHIP, OWNERSHIP) && !HitsAny(Rust, OWNERSHIP, UNMITIGATED)
  {
    hide Trim, Substring;
    Untouched(OWNERSHIP);
    assert Substring(OWNERSHIP, OWNERSHIP) by { WholeIsSubstring(OWNERSHIP); }
    MatchedLetters(OWNERSHIP, "no mitigation", 3);
    MatchedLetters(OWNERSHIP, "operator absolute control", 18);
    TwoKeywords(Rust, OWNERSHIP);
  }

  lemma WholeIsSubstring(text: string)
    ensures Substring(text, text)
  {
    assert SubstringAt(text, text, 0);
  }

  /** The family on which the Rust forms differ is not empty. */
  lemma RustFormsDiffer()
    ensures OnlyOwnershipInCaptureRisk(Proposal("x", "x", "x", "x", "x", "x", "x", OWNERSHIP, "x", "x"))
  {
    hide Hit, HitsAny, Trim;
    Untouched("x");
    Untouched(OWNERSHIP);
    OnlyOwnershipIsMentioned();
    assert !Hit(Rust, "x", OWNERSHIP) by { NotInX(); }
  }

  lemma NotInX()
    ensures !Hit(Rust, "x", OWNERSHIP)
  {
    Untouched("x");
    MatchedLetters("x", OWNERSHIP, 0);
  }

  const FIFTEEN := "xxxxxxxxxxxxxxx"

  /** A keyword with another letter than 'x' is not in a row of them. */
  lemma NotAmongXs(port: Port, keywords: seq<string>)
    requires port == Rust && forall i :: 0 <= i < |keywords| ==> keywords[i] != "" && keywords[i][0] != 'x'
    ensures !HitsAny(port, FIFTEEN, keywords)
  {
    Untouched(FIFTEEN);
    forall k | k in keywords ensures !Hit(Rust, FIFTEEN, k) { MatchedLetters(FIFTEEN, k, 0); }
  }

  lemma XsPassTheChecks(p: Proposal)
    requires p.exitPlan == FIFTEEN && p.metrics == FIFTEEN
    ensures !ExitFails(Rust, p, 15, NO_EXIT) && !MetricsFail(Rust, p, BAD_METRICS, GOOD_METRICS)
  {
    hide HitsAny, Trim;
    Untouched(FIFTEEN);
    NotAmongXs(Rust, NO_EXIT);
    NotAmongXs(Rust, BAD_METRICS);
  }

  /** A proposal that the procedural Rust form accepts and the table-driven one rejects. */
  lemma RustVerdictsDiffer()
    ensures var p := Proposal("x", "x", "x", "x", "x", "x", FIFTEEN, OWNERSHIP, "x", FIFTEEN);
            Procedural(Rust, Rust, p).ok && !Declarative(Rust, DefaultRules(Rust), p).ok
  {
    hide Hit, HitsAny, Trim, ExitFails, MetricsFail, Procedural, Declarative;
    var p := Proposal("x", "x", "x", "x", "x", "x", FIFTEEN, OWNERSHIP, "x", FIFTEEN);
    assert OnlyOwnershipInCaptureRisk(p) by { OnlyCaptureRiskMentionsIt(p); }
    RustFormsCompared(p);
    XsPassTheChecks(p);
    OnlyCaptureRiskMentionsIt(p);
    ProceduralOk(p);
  }

  lemma OnlyCaptureRiskMentionsIt(p: Proposal)
    requires p == Proposal("x", "x", "x", "x", "x", "x", FIFTEEN, OWNERSHIP, "x", FIFTEEN)
    ensures OnlyOwnershipInCaptureRisk(p)
  {
    hide Hit, HitsAny, Trim;
    Untouched("x");
    Untouched(FIFTEEN);
    Untouched(OWNERSHIP);
    OnlyOwnershipIsMentioned();
    NotInX();
  }

  lemma ProceduralOk(p: Proposal)
    requires MissingFields(p) == [] && !ExitFails(Rust, p, 15, NO_EXIT)
    requires !MetricsFail(Rust, p, BAD_METRICS, GOOD_METRICS)
    requires !CaptureTriggered(Rust, p)
    ensures Procedural(Rust, Rust, p).ok
  {
    hide ExitFails, MetricsFail, HitsAny, Hit, MissingFields;
    TwoKeywords(Rust, p.captureRisk);
  }

  lemma AppealInsideLongerWord()
    ensures Substring("appeals", "appeal") && !RegexMatch("appeals", "appeal") && !RegexMatch("appeals", "arbitration")
  {
    assert "appeals"[0..6] == "appeal" && SubstringAt("appeals", "appeal", 0);
    forall i | OccursAt("appeals", "appeal", i) ensures !WordBoundary("appeals", i + 6) {
      assert Lower("appeals"[i]) == Lower("appeal"[0]);
    }
  }

  /** A proposal on which the Python forms warn differently. */
  lemma PythonFormsDiffer()
    ensures var p := Proposal("x", "x", "x", "x", "appeals", "x", "x", "x", "x", "x");
            Declarative(Python, DefaultRules(Python), p).warnings == [NoAppealPath]
            && Procedural(Python, Rust, p).warnings == []
  {
    hide Trim, Substring, RegexMatch, ExitFails, MetricsFail, HitsAny, OwnershipFails;
    Untouched("x");
    Untouched("appeals");
    AppealInsideLongerWord();
  }
}
