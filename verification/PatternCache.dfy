/**
 The shared cache of compiled keyword patterns (core/prototypes/go/dizzy_spec.go:231-256;
 core/prototypes/python/dizzy_spec.py:11-24): look up under a read lock, compile without any lock,
 insert under the write lock. Any number of callers run it interleaved.
 */
module PatternCache {
  import opened Options
  import Matchers

  /** A compiled `\bkeyword\b`, ignoring case. */
  datatype Pattern = Pattern(source: string)

  predicate MatchString(re: Pattern, text: string) {
    Matchers.RegexMatch(text, re.source)
  }

  /** Compiling fails for the keywords in `bad`. */
  function Compile(bad: set<string>, keyword: string): Option<Pattern> {
    if keyword in bad then None else Some(Pattern(keyword))
  }

  /** The same search without a cache. */
  predicate Direct(bad: set<string>, text: string, keyword: string) {
    var re := Compile(bad, keyword);
    re.Some? && MatchString(re.value, text)
  }

  /** What a search answers: the keyword compiles and stands somewhere in the text, ignoring case, with no letter, digit
      or underscore on either side. */
  lemma DirectIs(bad: set<string>, text: string, keyword: string)
    requires Matchers.AlnumEnds(keyword)
    ensures Direct(bad, text, keyword) <==> keyword !in bad && exists i :: Matchers.StandsAlone(text, keyword, i)
  {
    Matchers.RegexIsStandingAlone(text, keyword);
  }

  ghost predicate CacheOk(bad: set<string>, cache: map<string, Pattern>) {
    forall k :: k in cache ==> Some(cache[k]) == Compile(bad, k)
  }

  // --- one caller at a time ----------------------------------------------------------------------

  class Cache {
    const bad: set<string>
    var patterns: map<string, Pattern>

    ghost predicate Valid()
      reads this
    {
      CacheOk(bad, patterns)
    }

    constructor (bad: set<string>)
      ensures Valid() && this.bad == bad && patterns == map[]
    {
      this.bad, patterns := bad, map[];
    }

    method ContainsKeywordAsWord(text: string, keyword: string) returns (found: bool)
      requires Valid()
      modifies this
      ensures Valid() && found == Direct(bad, text, keyword)
      ensures patterns.Keys == old(patterns).Keys + (if keyword in bad then {} else {keyword})
      ensures forall k :: k in old(patterns) ==> patterns[k] == old(patterns)[k]
    {
      if keyword in patterns {
        return MatchString(patterns[keyword], text);
      }
      var re := Compile(bad, keyword);
      if re.None? { return false; }
      patterns := patterns[keyword := re.value];
      return MatchString(re.value, text);
    }
  }

  // --- interleaved callers -----------------------------------------------------------------------

  /** Where a caller stands. */
  datatype Pc =
    | Start
    | ReadLocked
    | LookedUp(hit: Option<Pattern>)
    | Compiling
    | Storing(re: Pattern)
    | WaitingForWrite(re: Pattern)
    | WriteLocked(re: Pattern)
    | Inserted(re: Pattern)
    | Matching(re: Pattern)
    | Done(found: bool)

  datatype Caller = Caller(text: string, keyword: string, pc: Pc)

  /** The cache, the holders of its lock, and the callers. */
  datatype System = System(cache: map<string, Pattern>, readers: set<nat>, writer: Option<nat>, callers: seq<Caller>)

  predicate Reads(pc: Pc) {
    pc.ReadLocked? || pc.LookedUp?
  }

  predicate Writes(pc: Pc) {
    pc.WriteLocked? || pc.Inserted?
  }

  /** A caller blocks only on the lock: a reader on a writer, a writer on anyone. */
  predicate CanStep(s: System, i: nat) {
    && i < |s.callers|
    && match s.callers[i].pc
       case Start => s.writer.None?
       case WaitingForWrite(_) => s.writer.None? && s.readers == {}
       case Done(_) => false
       case _ => true
  }

  function Moved(s: System, i: nat, pc: Pc): System
    requires i < |s.callers|
  {
    s.(callers := s.callers[i := s.callers[i].(pc := pc)])
  }

  function StepOf(bad: set<string>, s: System, i: nat): System
    requires CanStep(s, i)
  {
    var c := s.callers[i];
    match c.pc
    case Start => Moved(s, i, ReadLocked).(readers := s.readers + {i})
    case ReadLocked => Moved(s, i, LookedUp(if c.keyword in s.cache then Some(s.cache[c.keyword]) else None))
    case LookedUp(hit) => Moved(s, i, if hit.Some? then Matching(hit.value) else Compiling).(readers := s.readers - {i})
    case Compiling =>
      var re := Compile(bad, c.keyword);
      Moved(s, i, if re.Some? then Storing(re.value) else Done(false))
    case Storing(re) => Moved(s, i, WaitingForWrite(re))
    case WaitingForWrite(re) => Moved(s, i, WriteLocked(re)).(writer := Some(i))
    case WriteLocked(re) => Moved(s, i, Inserted(re)).(cache := s.cache[c.keyword := re])
    case Inserted(re) => Moved(s, i, Matching(re)).(writer := None)
    case Matching(re) => Moved(s, i, Done(MatchString(re, c.text)))
  }

  /** A schedule: which caller moves next. */
  ghost predicate Runs(bad: set<string>, s: System, schedule: seq<nat>, t: System)
    decreases |schedule|
  {
    if schedule == [] then t == s
    else CanStep(s, schedule[0]) && Runs(bad, StepOf(bad, s, schedule[0]), schedule[1..], t)
  }

  // --- the invariant -----------------------------------------------------------------------------

  ghost predicate CallerOk(bad: set<string>, c: Caller) {
    match c.pc
    case LookedUp(hit) => hit.Some? ==> hit == Compile(bad, c.keyword)
    case Storing(re) => Some(re) == Compile(bad, c.keyword)
    case WaitingForWrite(re) => Some(re) == Compile(bad, c.keyword)
    case WriteLocked(re) => Some(re) == Compile(bad, c.keyword)
    case Inserted(re) => Some(re) == Compile(bad, c.keyword)
    case Matching(re) => Some(re) == Compile(bad, c.keyword)
    case Done(found) => found == Direct(bad, c.text, c.keyword)
    case _ => true
  }

  ghost predicate LocksOk(s: System) {
    && (forall i :: i in s.readers ==> i < |s.callers|)
    && (s.writer.Some? ==> s.writer.value < |s.callers| && s.readers == {})
    && (forall i :: 0 <= i < |s.callers| ==> (i in s.readers <==> Reads(s.callers[i].pc)))
    && (forall i :: 0 <= i < |s.callers| ==> (s.writer == Some(i) <==> Writes(s.callers[i].pc)))
  }

  ghost predicate CallersOk(bad: set<string>, s: System) {
    forall i :: 0 <= i < |s.callers| ==> CallerOk(bad, s.callers[i])
  }

  ghost predicate Inv(bad: set<string>, s: System) {
    CacheOk(bad, s.cache) && LocksOk(s) && CallersOk(bad, s)
  }

  lemma StepKeepsLocks(bad: set<string>, s: System, i: nat)
    requires LocksOk(s) && CanStep(s, i)
    ensures LocksOk(StepOf(bad, s, i))
  {
    hide MatchString, Compile;
  }

  lemma StepKeepsCallers(bad: set<string>, s: System, i: nat)
    requires CacheOk(bad, s.cache) && CallersOk(bad, s) && CanStep(s, i)
    ensures CallersOk(bad, StepOf(bad, s, i)) && CacheOk(bad, StepOf(bad, s, i).cache)
  {
    hide MatchString;
    assert CallerOk(bad, s.callers[i]);
  }

  // --- progress ----------------------------------------------------------------------------------

  function StepsLeft(pc: Pc): nat {
    match pc
    case Start => 9
    case ReadLocked => 8
    case LookedUp(_) => 7
    case Compiling => 6
    case Storing(_) => 5
    case WaitingForWrite(_) => 4
    case WriteLocked(_) => 3
    case Inserted(_) => 2
    case Matching(_) => 1
    case Done(_) => 0
  }

  function TotalLeft(callers: seq<Caller>): nat {
    if callers == [] then 0 else TotalLeft(callers[..|callers| - 1]) + StepsLeft(callers[|callers| - 1].pc)
  }

  lemma {:induction false} TotalAfterUpdate(callers: seq<Caller>, i: nat, c: Caller)
    requires i < |callers|
    ensures TotalLeft(callers[i := c]) + StepsLeft(callers[i].pc) == TotalLeft(callers) + StepsLeft(c.pc)
  {
    var n := |callers| - 1;
    var updated := callers[i := c];
    if i == n {
      assert updated[..n] == callers[..n];
    } else {
      assert updated[..n] == callers[..n][i := c];
      TotalAfterUpdate(callers[..n], i, c);
    }
  }

  lemma {:induction false} TotalBound(callers: seq<Caller>)
    ensures TotalLeft(callers) <= 9 * |callers|
    ensures TotalLeft(callers) == 0 ==> forall i :: 0 <= i < |callers| ==> callers[i].pc.Done?
  {
    if callers != [] { TotalBound(callers[..|callers| - 1]); }
  }

  lemma StepUsesUp(bad: set<string>, s: System, i: nat)
    requires CanStep(s, i)
    ensures TotalLeft(StepOf(bad, s, i).callers) < TotalLeft(s.callers)
  {
    hide TotalLeft, MatchString;
    TotalAfterUpdate(s.callers, i, StepOf(bad, s, i).callers[i]);
  }

  /** A caller that may go on even when new readers wait for waiting writers. */
  ghost predicate CanStepFairly(s: System, i: nat) {
    && CanStep(s, i)
    && (s.callers[i].pc.Start? ==> forall j :: 0 <= j < |s.callers| ==> !s.callers[j].pc.WaitingForWrite?)
  }

  /** No deadlock: while a caller is unfinished some caller can go on, also under a lock that lets no new
      reader in while a writer waits. */
  lemma SomeCallerCanStep(bad: set<string>, s: System, unfinished: nat) returns (i: nat)
    requires LocksOk(s) && unfinished < |s.callers| && !s.callers[unfinished].pc.Done?
    ensures CanStepFairly(s, i)
  {
    if s.writer.Some? {
      i := s.writer.value;
    } else if s.readers != {} {
      i :| i in s.readers;
    } else if j: nat :| j < |s.callers| && s.callers[j].pc.WaitingForWrite? {
      i := j;
    } else {
      i := unfinished;
    }
  }

  // --- whole runs --------------------------------------------------------------------------------

  ghost predicate Initial(s: System) {
    && s.cache == map[] && s.readers == {} && s.writer == None
    && forall i :: 0 <= i < |s.callers| ==> s.callers[i].pc == Start
  }

  /** The calls are the same ones and the cache only grows. */
  ghost predicate SameCalls(s: System, t: System) {
    && |t.callers| == |s.callers|
    && (forall i :: 0 <= i < |s.callers| ==>
          t.callers[i].text == s.callers[i].text && t.callers[i].keyword == s.callers[i].keyword)
    && s.cache.Keys <= t.cache.Keys
  }

  lemma StepKeepsCalls(bad: set<string>, s: System, i: nat)
    requires CanStep(s, i)
    ensures SameCalls(s, StepOf(bad, s, i))
  {
    hide MatchString;
  }

  lemma {:induction false} RunKeeps(bad: set<string>, s: System, schedule: seq<nat>, t: System)
    requires Inv(bad, s) && Runs(bad, s, schedule, t)
    ensures Inv(bad, t) && SameCalls(s, t) && |schedule| + TotalLeft(t.callers) <= TotalLeft(s.callers)
    decreases |schedule|
  {
    if schedule != [] {
      hide CacheOk, LocksOk, CallersOk, StepOf;
      var i := schedule[0];
      StepKeepsLocks(bad, s, i);
      StepKeepsCallers(bad, s, i);
      StepKeepsCalls(bad, s, i);
      StepUsesUp(bad, s, i);
      RunKeeps(bad, StepOf(bad, s, i), schedule[1..], t);
    }
  }

  lemma InitialInv(bad: set<string>, s: System)
    requires Initial(s)
    ensures Inv(bad, s)
  {
  }

  /** In every interleaving: each cached pattern is the one compiled from its key, a finished caller has the
      answer of the uncached search, and a caller inside the write section excludes every other caller from
      the read and the write section. */
  lemma CachedSearchIsDirect(bad: set<string>, s: System, schedule: seq<nat>, t: System)
    requires Initial(s) && Runs(bad, s, schedule, t)
    ensures CacheOk(bad, t.cache)
    ensures |t.callers| == |s.callers|
    ensures forall i :: 0 <= i < |s.callers| && t.callers[i].pc.Done? ==>
              t.callers[i].pc.found == Direct(bad, s.callers[i].text, s.callers[i].keyword)
    ensures forall i, j :: 0 <= i < |t.callers| && 0 <= j < |t.callers| && i != j && Writes(t.callers[i].pc) ==>
              !Reads(t.callers[j].pc) && !Writes(t.callers[j].pc)
  {
    hide Direct, TotalLeft, Runs;
    InitialInv(bad, s);
    RunKeeps(bad, s, schedule, t);
    forall i | 0 <= i < |s.callers| && t.callers[i].pc.Done?
      ensures t.callers[i].pc.found == Direct(bad, s.callers[i].text, s.callers[i].keyword)
    {
      assert CallerOk(bad, t.callers[i]);
    }
  }

  // --- what ends up in the cache -----------------------------------------------------------------

  /** The caller's pattern has been stored, unless it does not compile. */
  ghost predicate StoredFor(bad: set<string>, cache: map<string, Pattern>, c: Caller) {
    match c.pc
    case LookedUp(hit) => hit.Some? ==> c.keyword in cache
    case Inserted(_) => c.keyword in cache
    case Matching(_) => c.keyword in cache
    case Done(_) => c.keyword in bad || c.keyword in cache
    case _ => true
  }

  ghost predicate StoredOk(bad: set<string>, s: System) {
    && (forall i :: 0 <= i < |s.callers| ==> StoredFor(bad, s.cache, s.callers[i]))
    && forall k :: k in s.cache ==> exists i :: 0 <= i < |s.callers| && s.callers[i].keyword == k
  }

  lemma StepKeepsStored(bad: set<string>, s: System, i: nat)
    requires StoredOk(bad, s) && CanStep(s, i)
    ensures StoredOk(bad, StepOf(bad, s, i))
  {
    hide MatchString;
    var t := StepOf(bad, s, i);
    forall j | 0 <= j < |t.callers| ensures StoredFor(bad, t.cache, t.callers[j]) {
      assert StoredFor(bad, s.cache, s.callers[j]);
    }
    forall k | k in t.cache ensures exists j :: 0 <= j < |t.callers| && t.callers[j].keyword == k {
      if k in s.cache {
        var j :| 0 <= j < |s.callers| && s.callers[j].keyword == k;
        assert t.callers[j].keyword == k;
      } else {
        assert t.callers[i].keyword == k;
      }
    }
  }

  lemma {:induction false} RunKeepsStored(bad: set<string>, s: System, schedule: seq<nat>, t: System)
    requires StoredOk(bad, s) && Runs(bad, s, schedule, t)
    ensures StoredOk(bad, t)
    decreases |schedule|
  {
    if schedule != [] {
      hide StoredOk, StepOf, CanStep;
      StepKeepsStored(bad, s, schedule[0]);
      RunKeepsStored(bad, StepOf(bad, s, schedule[0]), schedule[1..], t);
    }
  }

  /** When every caller has its answer, the cache holds the patterns of exactly the searched keywords that compile. */
  lemma CacheHoldsSearched(bad: set<string>, s: System, schedule: seq<nat>, t: System, k: string)
    requires Initial(s) && Runs(bad, s, schedule, t) && forall i :: 0 <= i < |t.callers| ==> t.callers[i].pc.Done?
    ensures k in t.cache <==> k !in bad && exists i :: 0 <= i < |s.callers| && s.callers[i].keyword == k
  {
    hide Direct, TotalLeft, Runs, Compile;
    InitialInv(bad, s);
    RunKeeps(bad, s, schedule, t);
    RunKeepsStored(bad, s, schedule, t);
    if k in t.cache { BadIsNotCached(bad, t.cache, k); }
    if i :| 0 <= i < |s.callers| && s.callers[i].keyword == k { assert StoredFor(bad, t.cache, t.callers[i]); }
  }

  lemma BadIsNotCached(bad: set<string>, cache: map<string, Pattern>, k: string)
    requires CacheOk(bad, cache) && k in cache
    ensures k !in bad
  {
  }

  /** Every interleaving ends after at most nine steps a caller, and only when every caller has its answer. */
  lemma EveryRunEnds(bad: set<string>, s: System, schedule: seq<nat>, t: System)
    requires Initial(s) && Runs(bad, s, schedule, t)
    ensures |schedule| <= 9 * |s.callers|
    ensures (forall i: nat :: !CanStepFairly(t, i)) <==> forall i :: 0 <= i < |t.callers| ==> t.callers[i].pc.Done?
  {
    InitialInv(bad, s);
    RunKeeps(bad, s, schedule, t);
    TotalBound(s.callers);
    hide Runs, CacheOk, CallersOk, TotalLeft;
    if j: nat :| j < |t.callers| && !t.callers[j].pc.Done? {
      var i := SomeCallerCanStep(bad, t, j);
    }
  }
}
