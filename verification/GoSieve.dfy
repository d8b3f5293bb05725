/**
 The Go validator (core/prototypes/go/dizzy_spec.go:258-359): every keyword test goes through the shared cache of
 compiled patterns.
 */
module GoSieve {
  import opened Text
  import opened PatternCache
  import opened Sieve
  import Matchers

  /** One keyword test. Quoted keywords always compile. */
  method HasWord(cache: Cache, text: string, keyword: string) returns (found: bool)
    requires cache.Valid() && cache.bad == {}
    modifies cache
    ensures cache.Valid() && found == Matchers.RegexMatch(text, keyword)
  {
    found := cache.ContainsKeywordAsWord(text, keyword);
  }

  /** The keyword loop: it stops at the first hit. */
  method ContainsAnyPattern(cache: Cache, text: string, keywords: seq<string>) returns (found: bool)
    requires cache.Valid() && cache.bad == {}
    modifies cache
    ensures cache.Valid()
    ensures found <==> exists k :: k in keywords && Matchers.RegexMatch(text, k)
  {
    hide Matchers.RegexMatch, CacheOk;
    found := false;
    for i := 0 to |keywords|
      invariant cache.Valid() && !found
      invariant forall k :: k in keywords[..i] ==> !Matchers.RegexMatch(text, k)
    {
      var hit := HasWord(cache, text, keywords[i]);
      if hit {
        found := true;
        break;
      }
      assert keywords[..i + 1] == keywords[..i] + [keywords[i]];
    }
    assert !found ==> keywords[..|keywords|] == keywords;
  }

  method CheckExit(cache: Cache, p: Proposal) returns (fails: bool)
    requires cache.Valid() && cache.bad == {}
    modifies cache
    ensures cache.Valid() && fails == ExitFails(Go, p, 15, NO_EXIT)
  {
    hide Matchers.RegexMatch, CacheOk, Trim, LowerAll;
    var exitText := Trim(LowerAll(p.exitPlan), CPP_SPACE);
    var hasForbiddenExit := ContainsAnyPattern(cache, exitText, NO_EXIT);
    return hasForbiddenExit || |exitText| < 15;
  }

  method CheckCapture(cache: Cache, p: Proposal) returns (fails: bool)
    requires cache.Valid() && cache.bad == {}
    modifies cache
    ensures cache.Valid()
    ensures fails <==> || Hit(Go, p.captureRisk, "no mitigation") || Hit(Go, p.captureRisk, "operator absolute control")
                       || OwnershipFails(Go, p)
  {
    hide Matchers.RegexMatch, CacheOk, Trim, LowerAll;
    var capRisk := Trim(LowerAll(p.captureRisk), CPP_SPACE);
    var ownershipText := Trim(LowerAll(p.ownership), CPP_SPACE);
    var unmitigated := HasWord(cache, capRisk, "no mitigation");
    var controlled := HasWord(cache, capRisk, "operator absolute control");
    var owned := HasWord(cache, ownershipText, OWNERSHIP);
    return unmitigated || controlled || owned;
  }

  method CheckMetrics(cache: Cache, p: Proposal) returns (fails: bool)
    requires cache.Valid() && cache.bad == {}
    modifies cache
    ensures cache.Valid() && fails == MetricsFail(Go, p, BAD_METRICS, GOOD_METRICS)
  {
    hide Matchers.RegexMatch, CacheOk, Trim, LowerAll;
    var metrics := Trim(LowerAll(p.metrics), CPP_SPACE);
    var hasBad := ContainsAnyPattern(cache, metrics, BAD_METRICS);
    var hasGood := ContainsAnyPattern(cache, metrics, GOOD_METRICS);
    return (hasBad && !hasGood) || |metrics| < 15;
  }

  method CheckGovernance(cache: Cache, p: Proposal) returns (unappealable: bool)
    requires cache.Valid() && cache.bad == {}
    modifies cache
    ensures cache.Valid() && unappealable == Unappealable(Go, p)
  {
    hide Matchers.RegexMatch, CacheOk, Trim, LowerAll;
    var gov := Trim(LowerAll(p.governance), CPP_SPACE);
    var appeal := HasWord(cache, gov, "appeal");
    var arbitration := HasWord(cache, gov, "arbitration");
    return !appeal && !arbitration;
  }

  /** The Go validator returns the specified result, whatever patterns are cached already. */
  method ValidateMechanismSieve(cache: Cache, p: Proposal) returns (r: SieveResult)
    requires cache.Valid() && cache.bad == {}
    modifies cache
    ensures cache.Valid() && r == Procedural(Go, Go, p)
  {
    hide CacheOk, MissingFields, ExitFails, OwnershipFails, Hit, MetricsFail, Unappealable;
    var errors := CollectMissing(p);
    if errors != [] { return SieveResult(false, errors, []); }
    var exitFails := CheckExit(cache, p);
    var captureFails := CheckCapture(cache, p);
    var metricsFail := CheckMetrics(cache, p);
    var unappealable := CheckGovernance(cache, p);
    r := Conclude(p, exitFails, captureFails, metricsFail, unappealable);
  }
}
