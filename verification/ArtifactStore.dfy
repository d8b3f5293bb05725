/**
 The on-disk artifact directory of one order (dizzy_poll_deliver.mjs:60-135): writing is idempotent and
 content-addressed, and loading rebuilds the chronological log from whatever order the files are listed in.
 */
module ArtifactStore {
  import opened Artifacts
  import opened StableSort

  /** `<type>-<key>.json`, the key fixing the type, or another JSON file such as the state file. */
  datatype FileName = ArtifactFile(key: Key) | OtherFile(name: string)

  datatype Record = Record(payload: Payload, createdAt: nat)

  /** What reading and parsing a file gives: a record, a parse error, or JSON of no artifact type. */
  datatype Content = Intact(record: Record) | Torn | Foreign

  /** What the world does to one write. */
  datatype Fate = Proceed | CrashNow | TearNow

  datatype Outcome = Appended(wrote: bool) | Failed | Crashed

  // --- sorting by time ---------------------------------------------------------------------------

  const TIME := (r: Record) => r.createdAt as real

  /** Stable sort by creation time. */
  function SortByTime(s: seq<Record>): seq<Record> {
    SortBy(s, TIME)
  }

  ghost predicate Chronological(s: seq<Record>) {
    forall i, j :: 0 <= i < j < |s| ==> s[i].createdAt < s[j].createdAt
  }

  lemma FirstIsElement<T>(s: seq<T>)
    ensures s != [] ==> s[0] in s
  {
  }

  lemma {:induction false} ChronologicalUnique(a: seq<Record>, b: seq<Record>)
    requires Chronological(a) && Chronological(b)
    requires forall r :: r in a <==> r in b
    ensures a == b
  {
    FirstIsElement(a);
    FirstIsElement(b);
    if a != [] {
      assert a[0] in b;
      var m, n := |a| - 1, |b| - 1;
      assert a[m] in b && b[n] in a;
      var i :| 0 <= i < |b| && b[i] == a[m];
      var j :| 0 <= j < |a| && a[j] == b[n];
      assert a[m] == b[n];
      forall r | r in a[..m] ensures r in b[..n] {
        var k :| 0 <= k < m && a[k] == r;
        assert r in b;
      }
      forall r | r in b[..n] ensures r in a[..m] {
        var k :| 0 <= k < n && b[k] == r;
        assert r in a;
      }
      ChronologicalUnique(a[..m], b[..n]);
    }
  }

  /** Whatever order the records of one type are read in, sorting by time yields the one chronological
      sequence of them. */
  lemma SortRecoversChronology(read: seq<Record>, chronological: seq<Record>)
    requires Distinct(read) && Chronological(chronological)
    requires forall r :: r in read <==> r in chronological
    ensures SortByTime(read) == chronological
  {
    var t := SortByTime(read);
    SortIsStable(read, TIME, 0.0);
    forall r ensures r in read <==> r in t { SortKeepsElements(read, TIME, r); }
    forall i, j | 0 <= i < j < |t| ensures t[i].createdAt < t[j].createdAt {
      SortKeepsDistinct(read);
      assert t[i] in chronological && t[j] in chronological;
      var k :| 0 <= k < |chronological| && chronological[k] == t[i];
      var l :| 0 <= l < |chronological| && chronological[l] == t[j];
      assert k != l;
    }
    ChronologicalUnique(t, chronological);
  }

  lemma {:induction false} DistinctIsMultiplicityOne(s: seq<Record>)
    ensures Distinct(s) <==> forall r :: multiset(s)[r] <= 1
  {
    if s != [] {
      var n := |s| - 1;
      DistinctIsMultiplicityOne(s[..n]);
      assert s[..n] + [s[n]] == s;
      if Distinct(s) {
        assert s[n] !in s[..n];
        assert multiset(s[..n])[s[n]] == 0;
      } else if Distinct(s[..n]) {
        var i, j :| 0 <= i < j < |s| && s[i] == s[j];
        assert j == n && s[i] in s[..n];
        assert multiset(s)[s[n]] >= 2;
      } else {
        var r :| multiset(s[..n])[r] > 1;
        assert multiset(s)[r] > 1;
      }
    }
  }

  lemma SortKeepsDistinct(s: seq<Record>)
    requires Distinct(s)
    ensures Distinct(SortByTime(s))
  {
    DistinctIsMultiplicityOne(s);
    DistinctIsMultiplicityOne(SortByTime(s));
  }

  function Payloads(s: seq<Record>): (r: seq<Payload>)
    ensures |r| == |s| && forall i :: 0 <= i < |s| ==> r[i] == s[i].payload
  {
    seq(|s|, i requires 0 <= i < |s| => s[i].payload)
  }

  // --- the log behind the files ------------------------------------------------------------------

  ghost predicate OnFile(files: map<FileName, Content>, p: Payload) {
    var f := ArtifactFile(Digest(p));
    f in files && files[f].Intact? && files[f].record.payload == p
  }

  ghost function TimeOf(files: map<FileName, Content>, p: Payload): nat {
    if OnFile(files, p) then files[ArtifactFile(Digest(p))].record.createdAt else 0
  }

  ghost predicate LogOnFile(files: map<FileName, Content>, clock: nat, log: seq<Payload>) {
    && (forall p :: p in log ==> OnFile(files, p) && TimeOf(files, p) < clock)
    && (forall i, j :: 0 <= i < j < |log| ==> TimeOf(files, log[i]) < TimeOf(files, log[j]))
    && (forall f :: f in files && files[f].Intact? ==>
          f.ArtifactFile? && f.key.payload in log && files[f].record.payload == f.key.payload)
    && (forall f :: f in files && f.ArtifactFile? ==> !files[f].Foreign?)
  }

  ghost function RecordsOf(files: map<FileName, Content>, g: seq<Payload>): (r: seq<Record>)
    ensures |r| == |g|
    ensures forall i :: 0 <= i < |g| ==> r[i] == Record(g[i], TimeOf(files, g[i]))
  {
    seq(|g|, i requires 0 <= i < |g| => Record(g[i], TimeOf(files, g[i])))
  }

  lemma {:induction false} GroupIsChronological(files: map<FileName, Content>, log: seq<Payload>, kind: Kind)
    requires forall i, j :: 0 <= i < j < |log| ==> TimeOf(files, log[i]) < TimeOf(files, log[j])
    ensures Chronological(RecordsOf(files, Group(log, kind)))
  {
    if log != [] {
      var n := |log| - 1;
      GroupIsChronological(files, log[..n], kind);
      var g := Group(log[..n], kind);
      forall i | 0 <= i < |g| ensures TimeOf(files, g[i]) < TimeOf(files, log[n]) {
        assert g[i] in g;
        var k :| 0 <= k < n && log[k] == g[i];
      }
      var h := Group(log, kind);
      var r := RecordsOf(files, h);
      assert h == g || h == g + [log[n]];
      forall i, j | 0 <= i < j < |r| ensures r[i].createdAt < r[j].createdAt {
        assert RecordsOf(files, g)[i] == r[i];
        if j < |g| { assert RecordsOf(files, g)[j] == r[j]; }
      }
    }
  }

  /** The records of one type among the files. */
  ghost predicate ReadsKind(files: map<FileName, Content>, kind: Kind, read: seq<Record>) {
    Distinct(read) && forall r :: r in read <==> InFiles(files, r) && KindOf(r.payload) == kind
  }

  ghost predicate InFiles(files: map<FileName, Content>, r: Record) {
    ArtifactFile(Digest(r.payload)) in files && files[ArtifactFile(Digest(r.payload))] == Intact(r)
  }

  /** Sorting what was read gives exactly the log's records of that type, in the order of first writing. */
  lemma ReadingRecoversLog(files: map<FileName, Content>, clock: nat, log: seq<Payload>, kind: Kind, read: seq<Record>)
    requires LogOnFile(files, clock, log) && ReadsKind(files, kind, read)
    ensures Payloads(SortByTime(read)) == Group(log, kind)
  {
    var g := Group(log, kind);
    var chronological := RecordsOf(files, g);
    GroupIsChronological(files, log, kind);
    forall r | r in read ensures r in chronological {
      assert InFiles(files, r) && r.payload in log && r.payload in g;
      var i :| 0 <= i < |g| && g[i] == r.payload;
      assert chronological[i] == r;
    }
    forall r | r in chronological ensures r in read {
      var i :| 0 <= i < |g| && chronological[i] == r;
      assert g[i] in g && OnFile(files, g[i]);
    }
    SortRecoversChronology(read, chronological);
  }

  // --- sequences of writes -----------------------------------------------------------------------

  /** One call of the writing method, and what the world does to it. */
  datatype Attempt = Attempt(payload: Payload, fate: Fate)

  /** The intact records in the order of their first writing, and the half-written ones. */
  datatype Records = Records(log: seq<Payload>, torn: set<Payload>)

  const NONE := Records([], {})

  ghost function WriteOne(r: Records, a: Attempt): Records {
    if a.fate == CrashNow || a.payload in r.torn || a.payload in r.log then r
    else if a.fate == TearNow then r.(torn := r.torn + {a.payload})
    else r.(log := r.log + [a.payload])
  }

  ghost function WriteAll(r: Records, attempts: seq<Attempt>): Records {
    if attempts == [] then r
    else WriteOne(WriteAll(r, attempts[..|attempts| - 1]), attempts[|attempts| - 1])
  }

  /** The first attempt on its payload that was not cut off before the file was touched. */
  ghost predicate Decides(attempts: seq<Attempt>, i: nat)
    requires i < |attempts|
  {
    && attempts[i].fate != CrashNow
    && forall j :: 0 <= j < i && attempts[j].payload == attempts[i].payload ==> attempts[j].fate == CrashNow
  }

  /** The payloads whose file was decided with this fate, in the order of the deciding attempts. */
  ghost function Decided(attempts: seq<Attempt>, fate: Fate): seq<Payload> {
    if attempts == [] then [] else
      var n := |attempts| - 1;
      Decided(attempts[..n], fate)
      + if Decides(attempts, n) && attempts[n].fate == fate then [attempts[n].payload] else []
  }

  lemma DecidesAlready(attempts: seq<Attempt>, i: nat)
    requires i + 1 < |attempts|
    ensures var rest := attempts[..|attempts| - 1];
            rest[i] == attempts[i] && (Decides(rest, i) <==> Decides(attempts, i))
  {
    var rest := attempts[..|attempts| - 1];
    assert forall j :: 0 <= j <= i ==> rest[j] == attempts[j];
  }

  lemma {:induction false} DecidedHas(attempts: seq<Attempt>, i: nat)
    requires i < |attempts| && Decides(attempts, i)
    ensures attempts[i].payload in Decided(attempts, attempts[i].fate)
  {
    hide Decides;
    if i < |attempts| - 1 {
      DecidesAlready(attempts, i);
      DecidedHas(attempts[..|attempts| - 1], i);
    }
  }

  lemma {:induction false} DecidedFrom(attempts: seq<Attempt>, fate: Fate, p: Payload) returns (i: nat)
    requires p in Decided(attempts, fate)
    ensures i < |attempts| && attempts[i] == Attempt(p, fate) && Decides(attempts, i)
  {
    hide Decides;
    var n := |attempts| - 1;
    if Decides(attempts, n) && attempts[n] == Attempt(p, fate) {
      i := n;
    } else {
      i := DecidedFrom(attempts[..n], fate, p);
      DecidesAlready(attempts, i);
    }
  }

  /** An attempt decides exactly when no earlier one did for its payload. */
  lemma DecidesIffUndecided(attempts: seq<Attempt>)
    requires attempts != [] && attempts[|attempts| - 1].fate != CrashNow
    ensures var n := |attempts| - 1;
            var p := attempts[n].payload;
            Decides(attempts, n) <==> p !in Decided(attempts[..n], Proceed) && p !in Decided(attempts[..n], TearNow)
  {
    var n := |attempts| - 1;
    var rest, p := attempts[..n], attempts[n].payload;
    if Decides(attempts, n) {
      if p in Decided(rest, Proceed) { var i := DecidedFrom(rest, Proceed, p); }
      if p in Decided(rest, TearNow) { var i := DecidedFrom(rest, TearNow, p); }
    } else {
      var j := FirstTry(rest, p);
      DecidedHas(rest, j);
    }
  }

  lemma {:induction false} FirstTry(attempts: seq<Attempt>, p: Payload) returns (i: nat)
    requires exists j :: 0 <= j < |attempts| && attempts[j].payload == p && attempts[j].fate != CrashNow
    ensures i < |attempts| && attempts[i].payload == p && Decides(attempts, i)
  {
    var n := |attempts| - 1;
    var rest := attempts[..n];
    if exists j :: 0 <= j < n && rest[j].payload == p && rest[j].fate != CrashNow {
      i := FirstTry(rest, p);
    } else {
      i := n;
      forall j | 0 <= j < n && attempts[j].payload == p ensures attempts[j].fate == CrashNow {
        assert rest[j] == attempts[j];
      }
    }
  }

  /** After any sequence of attempts, whatever crashes hit them, the first one on a payload that was not cut off has
      decided its file for good: the log is the payloads first written whole, in that order and each once, and torn
      are those first written by half. */
  lemma {:induction false} LogIsFirstWrites(attempts: seq<Attempt>)
    ensures var r := WriteAll(NONE, attempts);
            && r.log == Decided(attempts, Proceed) && Distinct(r.log)
            && forall p :: p in r.torn <==> p in Decided(attempts, TearNow)
  {
    if attempts != [] {
      LogIsFirstWrites(attempts[..|attempts| - 1]);
      if attempts[|attempts| - 1].fate != CrashNow { DecidesIffUndecided(attempts); }
    }
  }

  /** The attempt wrote a record of this type that was not there before. */
  ghost predicate AddsRecord(attempts: seq<Attempt>, i: nat, kind: Kind)
    requires i < |attempts|
  {
    Decides(attempts, i) && attempts[i].fate == Proceed && KindOf(attempts[i].payload) == kind
  }

  ghost predicate AddsNothing(attempts: seq<Attempt>, from: nat, kind: Kind) {
    forall i :: from <= i < |attempts| ==> !AddsRecord(attempts, i, kind)
  }

  lemma AddsAlready(attempts: seq<Attempt>, i: nat, kind: Kind)
    requires i + 1 < |attempts|
    ensures AddsRecord(attempts[..|attempts| - 1], i, kind) <==> AddsRecord(attempts, i, kind)
    ensures attempts[..|attempts| - 1][i] == attempts[i]
  {
    hide Decides;
    DecidesAlready(attempts, i);
  }

  lemma AddsNothingMore(attempts: seq<Attempt>, from: nat, kind: Kind)
    requires attempts != [] && AddsNothing(attempts[..|attempts| - 1], from, kind)
    requires !AddsRecord(attempts, |attempts| - 1, kind)
    ensures AddsNothing(attempts, from, kind)
  {
    hide AddsRecord;
    forall i | from <= i < |attempts| ensures !AddsRecord(attempts, i, kind) {
      if i < |attempts| - 1 { AddsAlready(attempts, i, kind); }
    }
  }

  lemma DecidedGroup(attempts: seq<Attempt>, kind: Kind)
    requires attempts != []
    ensures var n := |attempts| - 1;
            Group(Decided(attempts, Proceed), kind)
            == Group(Decided(attempts[..n], Proceed), kind)
               + if AddsRecord(attempts, n, kind) then [attempts[n].payload] else []
  {
    hide Group, Decides;
    var n := |attempts| - 1;
    var before, last := Decided(attempts[..n], Proceed), attempts[n];
    GroupAppend(before, last.payload, kind);
    assert Decided(attempts, Proceed)
           == before + if Decides(attempts, n) && last.fate == Proceed then [last.payload] else [];
    assert before + [] == before && Group(before, kind) + [] == Group(before, kind);
  }

  lemma {:induction false} LastDecided(attempts: seq<Attempt>, kind: Kind) returns (i: nat)
    ensures var g := Group(Decided(attempts, Proceed), kind);
            if g == [] then AddsNothing(attempts, 0, kind)
            else i < |attempts| && AddsRecord(attempts, i, kind) && AddsNothing(attempts, i + 1, kind)
                 && attempts[i].payload == g[|g| - 1]
  {
    if attempts == [] {
      i := 0;
    } else {
      var n := |attempts| - 1;
      DecidedGroup(attempts, kind);
      hide Group, Decided, AddsRecord, AddsNothing;
      i := LastDecided(attempts[..n], kind);
      if AddsRecord(attempts, n, kind) {
        i := n;
        NothingPastTheEnd(attempts, kind);
      } else {
        if i < n { AddsAlready(attempts, i, kind); }
        if AddsNothing(attempts[..n], 0, kind) { AddsNothingMore(attempts, 0, kind); }
        if AddsNothing(attempts[..n], i + 1, kind) { AddsNothingMore(attempts, i + 1, kind); }
      }
    }
  }

  lemma NothingPastTheEnd(attempts: seq<Attempt>, kind: Kind)
    ensures AddsNothing(attempts, |attempts|, kind)
  {
  }

  /** The latest record of a type is the one most recently added: a later repetition of an older record does not make
      that one the latest. */
  lemma LatestIsNewest(attempts: seq<Attempt>, kind: Kind)
    ensures var g := Group(WriteAll(NONE, attempts).log, kind);
            if g == [] then AddsNothing(attempts, 0, kind)
            else exists i :: && 0 <= i < |attempts| && AddsRecord(attempts, i, kind)
                             && AddsNothing(attempts, i + 1, kind) && attempts[i].payload == g[|g| - 1]
  {
    hide Group, Decided, AddsNothing, AddsRecord, WriteAll;
    LogIsFirstWrites(attempts);
    var i := LastDecided(attempts, kind);
  }

  // --- the directory -----------------------------------------------------------------------------

  const STATE_FILE := OtherFile("state.json")

  class Directory {
    var files: map<FileName, Content>
    var clock: nat
    ghost var log: seq<Payload>

    ghost predicate Valid()
      reads this
    {
      LogOnFile(files, clock, log)
    }

    /** The artifacts whose file a crash left half-written. */
    ghost function TornArtifacts(): set<Payload>
      reads this
    {
      set f | f in files && f.ArtifactFile? && files[f].Torn? :: f.key.payload
    }

    constructor ()
      ensures Valid() && log == [] && TornArtifacts() == {}
    {
      files, clock, log := map[], 0, [];
    }

    /** Writes the artifact unless its file exists: an intact file is reused and never changed, a torn one
        makes the call fail. A new record is stamped later than every earlier one. */
    method AppendArtifact(payload: Payload, fate: Fate) returns (out: Outcome)
      requires Valid()
      modifies this
      ensures Valid()
      ensures forall f :: f in old(files) ==> f in files && files[f] == old(files[f])
      ensures fate == CrashNow ==> out == Crashed && log == old(log) && TornArtifacts() == old(TornArtifacts())
      ensures fate != CrashNow && payload in old(TornArtifacts()) ==>
                out == Failed && log == old(log) && TornArtifacts() == old(TornArtifacts())
      ensures fate != CrashNow && payload !in old(TornArtifacts()) && payload in old(log) ==>
                out == Appended(false) && log == old(log) && TornArtifacts() == old(TornArtifacts())
      ensures fate == TearNow && payload !in old(TornArtifacts()) && payload !in old(log) ==>
                out == Crashed && log == old(log) && TornArtifacts() == old(TornArtifacts()) + {payload}
      ensures fate == Proceed && payload !in old(TornArtifacts()) && payload !in old(log) ==>
                out == Appended(true) && log == old(log) + [payload] && TornArtifacts() == old(TornArtifacts())
    {
      var file := ArtifactFile(Digest(payload));
      if fate == CrashNow { return Crashed; }
      if file in files {
        if files[file].Torn? {
          return Failed;
        }
        assert files[file].Intact?;
        return Appended(false);
      }
      if fate == TearNow {
        files := files[file := Torn];
        return Crashed;
      }
      var record := Record(payload, clock);
      files := files[file := Intact(record)];
      clock := clock + 1;
      log := log + [payload];
      return Appended(true);
    }

    /** The durable records. */
    ghost function Durable(): Records
      reads this
    {
      Records(log, TornArtifacts())
    }

    /** Any number of such calls, by whatever passes made them. */
    method AppendEach(attempts: seq<Attempt>)
      requires Valid()
      modifies this
      ensures Valid() && Durable() == WriteAll(old(Durable()), attempts)
    {
      var i := 0;
      while i < |attempts|
        invariant 0 <= i <= |attempts|
        invariant Valid() && Durable() == WriteAll(old(Durable()), attempts[..i])
      {
        assert attempts[..i + 1][..i] == attempts[..i];
        var out := AppendArtifact(attempts[i].payload, attempts[i].fate);
        i := i + 1;
      }
      assert attempts[..i] == attempts;
    }

    /** Overwrites the derived state file, which no later pass reads as an artifact. */
    method WriteCanonicalState(fate: Fate)
      requires Valid()
      modifies this
      ensures Valid() && log == old(log) && TornArtifacts() == old(TornArtifacts())
    {
      if fate != CrashNow {
        files := files[STATE_FILE := if fate == TearNow then Torn else Foreign];
      }
    }

    /** The names of the files, each once, in no particular order. */
    method ListFiles() returns (listing: seq<FileName>)
      ensures Distinct(listing) && forall f :: f in listing <==> f in files
    {
      var rest := files.Keys;
      listing := [];
      while rest != {}
        invariant rest <= files.Keys && Distinct(listing)
        invariant forall f :: f in listing <==> f in files && f !in rest
        decreases rest
      {
        var f :| f in rest;
        listing := listing + [f];
        rest := rest - {f};
      }
    }

    /** Reads every listed file, groups the records by type and sorts each group by time: per type the
        result is exactly the chronological log. Unparseable files are reported apart. */
    method LoadArtifacts(listing: seq<FileName>) returns (view: View, parseErrors: seq<FileName>)
      requires Valid()
      requires Distinct(listing) && forall f :: f in listing <==> f in files
      ensures view == ViewOf(log)
      ensures forall f :: f in parseErrors <==> f in files && files[f].Torn?
    {
      var grouped: map<Kind, seq<Record>> := map[
        IntakeKind := [], CandidateKind := [], QcKind := [], UploadKind := [], DeliveryKind := [],
        PendingKind := [], DiagnosticKind := []];
      forall k: Kind ensures k in grouped {
        match k case IntakeKind => case CandidateKind => case QcKind => case UploadKind =>
        case DeliveryKind => case PendingKind => case DiagnosticKind =>
      }
      parseErrors := [];
      var i := 0;
      while i < |listing|
        invariant 0 <= i <= |listing|
        invariant forall k: Kind :: k in grouped
        invariant forall k: Kind :: Distinct(grouped[k])
        invariant forall k: Kind, r :: r in grouped[k] <==>
                    InFiles(files, r) && ArtifactFile(Digest(r.payload)) in listing[..i] && KindOf(r.payload) == k
        invariant forall f :: f in parseErrors <==> f in listing[..i] && files[f].Torn?
      {
        var f := listing[i];
        assert f in listing;
        assert listing[..i + 1] == listing[..i] + [f];
        match files[f] {
          case Intact(record) =>
            var k := KindOf(record.payload);
            assert f == ArtifactFile(Digest(record.payload));
            assert f !in listing[..i];
            grouped := grouped[k := grouped[k] + [record]];
          case Torn => parseErrors := parseErrors + [f];
          case Foreign =>
        }
        i := i + 1;
      }
      assert listing[..i] == listing;
      forall k: Kind ensures Payloads(SortByTime(grouped[k])) == Group(log, k) {
        ReadingRecoversLog(files, clock, log, k, grouped[k]);
      }
      view := View(
        Payloads(SortByTime(grouped[IntakeKind])), Payloads(SortByTime(grouped[CandidateKind])),
        Payloads(SortByTime(grouped[QcKind])), Payloads(SortByTime(grouped[UploadKind])),
        Payloads(SortByTime(grouped[DeliveryKind])), Payloads(SortByTime(grouped[PendingKind])),
        Payloads(SortByTime(grouped[DiagnosticKind])));
    }
  }
}
