/**
 The keyword matchers of the ports: the C++ scanning loop with alphanumeric neighbours
 (core/prototypes/cpp/dizzy_spec.cpp:52-67), the regular expression `\bkeyword\b` of the Python and
 Go ports, and the Rust substring test.
 */
module Matchers {
  import opened Text

  /** `keyword` occurs in `text` at index `i`, ignoring ASCII case. */
  predicate OccursAt(text: string, keyword: string, i: int) {
    && 0 <= i
    && i + |keyword| <= |text|
    && forall j :: 0 <= j < |keyword| ==> Lower(text[i + j]) == Lower(keyword[j])
  }

  predicate CppBoundary(text: string, keyword: string, i: int)
    requires OccursAt(text, keyword, i)
  {
    && (i == 0 || !IsAlnum(text[i - 1]))
    && (i + |keyword| == |text| || !IsAlnum(text[i + |keyword|]))
  }

  /** An occurrence whose neighbours are not alphanumeric: what the C++ loop looks for. */
  predicate CppMatch(text: string, keyword: string) {
    exists i :: 0 <= i <= |text| && OccursAt(text, keyword, i) && CppBoundary(text, keyword, i)
  }

  /** A position between a word character and a non-word character (or the end of the text). */
  predicate WordBoundary(text: string, i: int) {
    && 0 <= i <= |text|
    && (i > 0 && IsWordChar(text[i - 1])) != (i < |text| && IsWordChar(text[i]))
  }

  /** A case-insensitive search for `\bkeyword\b` succeeds. */
  predicate RegexMatch(text: string, keyword: string) {
    exists i :: && 0 <= i <= |text| && OccursAt(text, keyword, i) && WordBoundary(text, i)
                && WordBoundary(text, i + |keyword|)
  }

  /** `keyword` occurs at index `i`, ignoring case, with no word character on either side. */
  predicate StandsAlone(text: string, keyword: string, i: int) {
    && OccursAt(text, keyword, i)
    && (i == 0 || !IsWordChar(text[i - 1]))
    && (i + |keyword| == |text| || !IsWordChar(text[i + |keyword|]))
  }

  predicate SubstringAt(text: string, keyword: string, i: int) {
    0 <= i && i + |keyword| <= |text| && text[i..i + |keyword|] == keyword
  }

  predicate Substring(text: string, keyword: string) {
    exists i :: 0 <= i <= |text| && SubstringAt(text, keyword, i)
  }

  /** The C++ scanning loop. Every index it reads is in range. */
  method ContainsKeywordAsWord(text: string, keyword: string) returns (found: bool)
    ensures found <==> CppMatch(text, keyword)
  {
    if |text| < |keyword| { return false; }
    var i := 0;
    while i <= |text| - |keyword|
      invariant 0 <= i <= |text| - |keyword| + 1
      invariant forall k :: 0 <= k < i && OccursAt(text, keyword, k) ==> !CppBoundary(text, keyword, k)
    {
      if OccursAt(text, keyword, i) {
        var beforeOk := i == 0 || !IsAlnum(text[i - 1]);
        var afterOk := i + |keyword| == |text| || !IsAlnum(text[i + |keyword|]);
        if beforeOk && afterOk {
          assert CppBoundary(text, keyword, i);
          return true;
        }
      }
      i := i + 1;
    }
    return false;
  }

  /** A keyword that starts and ends with a letter or digit, as every built-in keyword does. */
  predicate AlnumEnds(keyword: string) {
    keyword != "" && IsAlnum(keyword[0]) && IsAlnum(keyword[|keyword| - 1])
  }

  lemma LowerKeepsClass(c: char, d: char)
    requires Lower(c) == Lower(d)
    ensures IsAlnum(c) == IsAlnum(d) && IsWordChar(c) == IsWordChar(d)
  {
  }

  /** At an occurrence of an alphanumeric-ended keyword, the regex boundaries are the C++ boundaries
      with the underscore added to the forbidden neighbours. */
  lemma BoundariesCompared(text: string, keyword: string, i: int)
    requires AlnumEnds(keyword) && OccursAt(text, keyword, i)
    ensures WordBoundary(text, i) && WordBoundary(text, i + |keyword|) <==>
            && CppBoundary(text, keyword, i)
            && (i == 0 || text[i - 1] != '_')
            && (i + |keyword| == |text| || text[i + |keyword|] != '_')
  {
    LowerKeepsClass(text[i], keyword[0]);
    var last := |keyword| - 1;
    assert Lower(text[i + last]) == Lower(keyword[last]);
    LowerKeepsClass(text[i + last], keyword[last]);
    assert text[i + last] == text[i + |keyword| - 1];
  }

  /** The regular expression finds a keyword with alphanumeric ends exactly where it stands alone. */
  lemma RegexIsStandingAlone(text: string, keyword: string)
    requires AlnumEnds(keyword)
    ensures RegexMatch(text, keyword) <==> exists i :: StandsAlone(text, keyword, i)
  {
    if RegexMatch(text, keyword) {
      var i :| OccursAt(text, keyword, i) && WordBoundary(text, i) && WordBoundary(text, i + |keyword|);
      BoundariesCompared(text, keyword, i);
      assert StandsAlone(text, keyword, i);
    }
    if i :| StandsAlone(text, keyword, i) {
      BoundariesCompared(text, keyword, i);
    }
  }

  predicate ClearOfUnderscores(text: string, keyword: string, i: int)
    requires OccursAt(text, keyword, i)
  {
    && (i == 0 || text[i - 1] != '_')
    && (i + |keyword| == |text| || text[i + |keyword|] != '_')
  }

  /** The exact gap between the two word matchers: the regex matches when some C++ match does not
      touch an underscore. */
  lemma RegexIsCppAwayFromUnderscores(text: string, keyword: string)
    requires AlnumEnds(keyword)
    ensures RegexMatch(text, keyword) <==>
            exists i :: OccursAt(text, keyword, i) && CppBoundary(text, keyword, i)
                        && ClearOfUnderscores(text, keyword, i)
  {
    if RegexMatch(text, keyword) {
      var i :| OccursAt(text, keyword, i) && WordBoundary(text, i) && WordBoundary(text, i + |keyword|);
      BoundariesCompared(text, keyword, i);
      assert CppBoundary(text, keyword, i) && ClearOfUnderscores(text, keyword, i);
    }
    if i :| OccursAt(text, keyword, i) && CppBoundary(text, keyword, i) && ClearOfUnderscores(text, keyword, i) {
      BoundariesCompared(text, keyword, i);
    }
  }

  lemma RegexImpliesCpp(text: string, keyword: string)
    requires AlnumEnds(keyword)
    ensures RegexMatch(text, keyword) ==> CppMatch(text, keyword)
    ensures '_' !in text ==> (RegexMatch(text, keyword) <==> CppMatch(text, keyword))
  {
    RegexIsCppAwayFromUnderscores(text, keyword);
    if '_' !in text && CppMatch(text, keyword) {
      var i :| OccursAt(text, keyword, i) && CppBoundary(text, keyword, i);
      assert i > 0 ==> text[i - 1] in text;
      assert i + |keyword| < |text| ==> text[i + |keyword|] in text;
      assert ClearOfUnderscores(text, keyword, i);
    }
  }

  /** An occurrence ignoring case is a substring of the lower-cased text. */
  lemma OccursIsLowerSubstring(text: string, keyword: string)
    ensures (exists i :: OccursAt(text, keyword, i)) <==> Substring(LowerAll(text), LowerAll(keyword))
  {
    var t, k := LowerAll(text), LowerAll(keyword);
    if i :| OccursAt(text, keyword, i) {
      forall j | 0 <= j < |k| ensures t[i..i + |k|][j] == k[j] {
        assert t[i..i + |k|][j] == t[i + j] == Lower(text[i + j]);
      }
      assert SubstringAt(t, k, i);
    }
    if Substring(t, k) {
      var i :| 0 <= i <= |t| && SubstringAt(t, k, i);
      forall j | 0 <= j < |keyword| ensures Lower(text[i + j]) == Lower(keyword[j]) {
        assert t[i..i + |k|][j] == t[i + j];
      }
      assert OccursAt(text, keyword, i);
    }
  }

  lemma CppImpliesSubstring(text: string, keyword: string)
    ensures CppMatch(text, keyword) ==> Substring(LowerAll(text), LowerAll(keyword))
  {
    OccursIsLowerSubstring(text, keyword);
  }

  /** A character class on both sides that survives lower-casing: matching the raw text and matching
      the lower-cased text are the same for both word matchers. */
  lemma OccursAtLower(text: string, keyword: string, i: int)
    ensures OccursAt(LowerAll(text), keyword, i) <==> OccursAt(text, keyword, i)
  {
    var t := LowerAll(text);
    if 0 <= i && i + |keyword| <= |text| {
      forall j | 0 <= j < |keyword|
        ensures Lower(t[i + j]) == Lower(keyword[j]) <==> Lower(text[i + j]) == Lower(keyword[j])
      {
        var k := i + j;
        assert t[k] == Lower(text[k]);
      }
    }
  }

  lemma RegexMatchLower(text: string, keyword: string)
    ensures RegexMatch(LowerAll(text), keyword) <==> RegexMatch(text, keyword)
  {
    var t := LowerAll(text);
    forall i: int
      ensures OccursAt(t, keyword, i) <==> OccursAt(text, keyword, i)
      ensures WordBoundary(t, i) <==> WordBoundary(text, i)
    {
      OccursAtLower(text, keyword, i);
    }
  }

  /** The three matchers disagree on these inputs, so none of the implications reverses. */
  lemma MatchersDiffer()
    ensures CppMatch("a_tvl", "tvl") && !RegexMatch("a_tvl", "tvl")
    ensures Substring(LowerAll("nonexistent"), "none") && !CppMatch("nonexistent", "none")
    ensures RegexMatch("a-x", "-x") && !CppMatch("a-x", "-x")
  {
    assert OccursAt("a_tvl", "tvl", 2) && CppBoundary("a_tvl", "tvl", 2);
    forall i | OccursAt("a_tvl", "tvl", i) ensures i == 2 && !WordBoundary("a_tvl", i) {
      assert Lower("a_tvl"[i]) == Lower("tvl"[0]);
    }
    assert SubstringAt(LowerAll("nonexistent"), "none", 0);
    forall i | OccursAt("nonexistent", "none", i) ensures !CppBoundary("nonexistent", "none", i) {
      assert Lower("nonexistent"[i]) == Lower("none"[0]);
      assert Lower("nonexistent"[i + 1]) == Lower("none"[1]);
    }
    assert OccursAt("a-x", "-x", 1) && WordBoundary("a-x", 1) && WordBoundary("a-x", 3);
    forall i | OccursAt("a-x", "-x", i) ensures i == 1 && !CppBoundary("a-x", "-x", i) {
      assert Lower("a-x"[i]) == Lower("-x"[0]);
    }
  }
}
