/**
 Trust zones and capability resolution over override lists (core/prototypes/cpp/dizzy_spec.cpp:45-49,
 105-154, 330-431; core/src/dizzy_core_spec.rs:65-134, 392-499).
 */
module Capabilities {
  import opened Options
  import opened Text

  datatype TrustZone = PrivateSelf | TrustedCollaborator | OutsideContact | PaidPublic

  datatype ContinuityMode = Client | Ephemeral | NoMode

  datatype Resolved = Resolved(
    zone: TrustZone, mode: ContinuityMode, retentionScope: string, ephemeralHistory: bool,
    repoRetrievalAllowed: bool, durableMemoryAllowed: bool, expiryPolicy: string)

  datatype Baseline = Baseline(
    repoRetrievalAllowed: bool, durableMemoryAllowed: bool, retentionScope: string, ephemeralHistory: bool,
    expiryPolicy: string)

  datatype Update = Update(retentionScope: Option<string>, ephemeralHistory: Option<bool>, expiryPolicy: Option<string>)

  datatype OverrideRule = OverrideRule(trustZone: string, continuityModeNot: string, updates: Update)

  datatype Ruleset = Ruleset(capabilities: map<string, Baseline>, overrides: seq<OverrideRule>)

  const EXPIRY := "7_days_inactivity_operator_deletable"
  const LOCAL := "local_conversation"

  function ZoneName(zone: TrustZone): string {
    match zone
    case PrivateSelf => "private_self"
    case TrustedCollaborator => "trusted_collaborator"
    case OutsideContact => "outside_contact"
    case PaidPublic => "paid_public"
  }

  function ModeName(mode: ContinuityMode): string {
    match mode
    case Client => "client"
    case Ephemeral => "ephemeral"
    case NoMode => "default"
  }

  // --- resolving a zone --------------------------------------------------------------------------

  predicate IEquals(a: string, b: string) {
    |a| == |b| && forall i :: 0 <= i < |a| ==> Lower(a[i]) == Lower(b[i])
  }

  /** The text names `word`, up to case and surrounding whitespace, as the C++ port compares. */
  predicate Names(text: string, word: string) {
    IEquals(Trim(text, CPP_SPACE), word)
  }

  function CppTrustZone(explicitZone: Option<string>, trustedLocal: bool, channel: string): TrustZone {
    if explicitZone.Some? && Names(explicitZone.value, "private_self") then
      if trustedLocal then PrivateSelf else OutsideContact
    else if explicitZone.Some? && Names(explicitZone.value, "trusted_collaborator") then TrustedCollaborator
    else if explicitZone.Some? && Names(explicitZone.value, "outside_contact") then OutsideContact
    else if explicitZone.Some? && Names(explicitZone.value, "paid_public") then PaidPublic
    else if Names(channel, "execute") then PaidPublic
    else if Names(channel, "local") && trustedLocal then PrivateSelf
    else OutsideContact
  }

  function Cleaned(text: string): string {
    LowerAll(Trim(text, CPP_SPACE))
  }

  function RustTrustZone(explicitZone: Option<string>, trustedLocal: bool, channel: string): TrustZone {
    var explicitClean := Cleaned(if explicitZone.Some? then explicitZone.value else "");
    if explicitClean == "private_self" then if trustedLocal then PrivateSelf else OutsideContact
    else if explicitClean == "trusted_collaborator" then TrustedCollaborator
    else if explicitClean == "outside_contact" then OutsideContact
    else if explicitClean == "paid_public" then PaidPublic
    else if Cleaned(channel) == "execute" then PaidPublic
    else if Cleaned(channel) == "local" && trustedLocal then PrivateSelf
    else OutsideContact
  }

  lemma NamesIsCleanedEquality(text: string, word: string)
    requires forall c :: c in word ==> !('A' <= c <= 'Z')
    ensures Names(text, word) <==> Cleaned(text) == word
  {
    var t := Trim(text, CPP_SPACE);
    forall i | 0 <= i < |word| ensures Lower(word[i]) == word[i] { assert word[i] in word; }
    if Names(text, word) { assert LowerAll(t) == word; }
  }

  /** Comparing without case and lower-casing first resolve every input to the same zone. */
  lemma PortsResolveAlike(explicitZone: Option<string>, trustedLocal: bool, channel: string)
    ensures CppTrustZone(explicitZone, trustedLocal, channel) == RustTrustZone(explicitZone, trustedLocal, channel)
  {
    hide Names, Cleaned;
    var e := if explicitZone.Some? then explicitZone.value else "";
    NamesIsCleanedEquality(e, "private_self");
    NamesIsCleanedEquality(e, "trusted_collaborator");
    NamesIsCleanedEquality(e, "outside_contact");
    NamesIsCleanedEquality(e, "paid_public");
    NamesIsCleanedEquality(channel, "execute");
    NamesIsCleanedEquality(channel, "local");
    assert Cleaned("") == "" by { EmptyIsClean(); }
  }

  lemma EmptyIsClean()
    ensures Cleaned("") == ""
  {
  }

  /** The zone names the text explicitly, if any. */
  predicate NamesAZone(text: string) {
    exists zone :: Names(text, ZoneName(zone))
  }

  // --- resolving capabilities --------------------------------------------------------------------

  predicate Matches(rule: OverrideRule, zone: TrustZone, mode: ContinuityMode) {
    rule.trustZone == ZoneName(zone) && rule.continuityModeNot != ModeName(mode)
  }

  /** The value that the rule gives to a field for this zone and mode. */
  function Sets<T>(rule: OverrideRule, zone: TrustZone, mode: ContinuityMode, field: Update -> Option<T>): Option<T> {
    if Matches(rule, zone, mode) then field(rule.updates) else None
  }

  /** The value of one field: from the last rule that sets it, else the baseline's. */
  function LastSet<T>(rules: seq<OverrideRule>, zone: TrustZone, mode: ContinuityMode, field: Update -> Option<T>,
                      base: T): T {
    if rules == [] then base else
      var last := Sets(rules[|rules| - 1], zone, mode, field);
      if last.Some? then last.value else LastSet(rules[..|rules| - 1], zone, mode, field, base)
  }

  const SCOPE := (u: Update) => u.retentionScope
  const HISTORY := (u: Update) => u.ephemeralHistory
  const EXPIRY_FIELD := (u: Update) => u.expiryPolicy

  function BaselineOf(capabilities: map<string, Baseline>, zone: TrustZone): Baseline {
    if ZoneName(zone) in capabilities then capabilities[ZoneName(zone)]
    else Baseline(false, false, LOCAL, false, "none")
  }

  function Resolve(ruleset: Ruleset, zone: TrustZone, mode: ContinuityMode): Resolved {
    var raw := BaselineOf(ruleset.capabilities, zone);
    Resolved(
      zone, mode,
      LastSet(ruleset.overrides, zone, mode, SCOPE, raw.retentionScope),
      LastSet(ruleset.overrides, zone, mode, HISTORY, raw.ephemeralHistory),
      raw.repoRetrievalAllowed, raw.durableMemoryAllowed,
      LastSet(ruleset.overrides, zone, mode, EXPIRY_FIELD, raw.expiryPolicy))
  }

  lemma NoRules<T>(zone: TrustZone, mode: ContinuityMode, field: Update -> Option<T>, base: T)
    ensures LastSet([], zone, mode, field, base) == base
  {
  }

  lemma LastSetStep<T>(rules: seq<OverrideRule>, i: nat, zone: TrustZone, mode: ContinuityMode,
                       field: Update -> Option<T>, base: T)
    requires i < |rules|
    ensures LastSet(rules[..i + 1], zone, mode, field, base)
            == match Sets(rules[i], zone, mode, field)
               case Some(v) => v
               case None => LastSet(rules[..i], zone, mode, field, base)
  {
    assert rules[..i + 1][..i] == rules[..i];
  }

  /** The resolution loop: every matching rule overwrites the fields it sets. */
  method GetCapabilities(ruleset: Ruleset, zone: TrustZone, mode: ContinuityMode) returns (r: Resolved)
    ensures r == Resolve(ruleset, zone, mode)
  {
    hide LastSet;
    var raw := BaselineOf(ruleset.capabilities, zone);
    var finalScope, finalEphemeral, finalExpiry := raw.retentionScope, raw.ephemeralHistory, raw.expiryPolicy;
    var rules := ruleset.overrides;
    assert rules[..0] == [];
    NoRules(zone, mode, SCOPE, raw.retentionScope);
    NoRules(zone, mode, HISTORY, raw.ephemeralHistory);
    NoRules(zone, mode, EXPIRY_FIELD, raw.expiryPolicy);
    for i := 0 to |rules|
      invariant finalScope == LastSet(rules[..i], zone, mode, SCOPE, raw.retentionScope)
      invariant finalEphemeral == LastSet(rules[..i], zone, mode, HISTORY, raw.ephemeralHistory)
      invariant finalExpiry == LastSet(rules[..i], zone, mode, EXPIRY_FIELD, raw.expiryPolicy)
    {
      LastSetStep(rules, i, zone, mode, SCOPE, raw.retentionScope);
      LastSetStep(rules, i, zone, mode, HISTORY, raw.ephemeralHistory);
      LastSetStep(rules, i, zone, mode, EXPIRY_FIELD, raw.expiryPolicy);
      var rule := rules[i];
      if rule.trustZone == ZoneName(zone) && rule.continuityModeNot != ModeName(mode) {
        if rule.updates.retentionScope.Some? { finalScope := rule.updates.retentionScope.value; }
        if rule.updates.ephemeralHistory.Some? { finalEphemeral := rule.updates.ephemeralHistory.value; }
        if rule.updates.expiryPolicy.Some? { finalExpiry := rule.updates.expiryPolicy.value; }
      }
    }
    assert rules[..|rules|] == rules;
    return Resolved(zone, mode, finalScope, finalEphemeral, raw.repoRetrievalAllowed, raw.durableMemoryAllowed,
                    finalExpiry);
  }

  // --- laws of resolution ------------------------------------------------------------------------

  /** No rule from index `from` on sets the field. */
  ghost predicate SilentFrom<T>(rules: seq<OverrideRule>, from: nat, zone: TrustZone, mode: ContinuityMode,
                                field: Update -> Option<T>) {
    forall j :: from <= j < |rules| ==> Sets(rules[j], zone, mode, field).None?
  }

  /** The resolved value is that of the last rule setting the field, or the baseline when none does. */
  lemma {:induction false} LastSetIsLast<T>(rules: seq<OverrideRule>, zone: TrustZone, mode: ContinuityMode,
                                            field: Update -> Option<T>, base: T)
    ensures var r := LastSet(rules, zone, mode, field, base);
            || (SilentFrom(rules, 0, zone, mode, field) && r == base)
            || (exists i :: 0 <= i < |rules| && Sets(rules[i], zone, mode, field) == Some(r)
                            && SilentFrom(rules, i + 1, zone, mode, field))
  {
    if rules != [] {
      var n := |rules| - 1;
      var rest := rules[..n];
      if Sets(rules[n], zone, mode, field).None? {
        LastSetIsLast(rest, zone, mode, field, base);
        var r := LastSet(rest, zone, mode, field, base);
        if !(SilentFrom(rest, 0, zone, mode, field) && r == base) {
          var i :| 0 <= i < n && Sets(rest[i], zone, mode, field) == Some(r)
                   && SilentFrom(rest, i + 1, zone, mode, field);
          SilentExtends(rules, i + 1, zone, mode, field);
          assert Sets(rules[i], zone, mode, field) == Some(r);
        } else {
          SilentExtends(rules, 0, zone, mode, field);
        }
      } else {
        assert SilentFrom(rules, n + 1, zone, mode, field);
      }
    }
  }

  lemma SilentExtends<T>(rules: seq<OverrideRule>, from: nat, zone: TrustZone, mode: ContinuityMode,
                         field: Update -> Option<T>)
    requires rules != [] && Sets(rules[|rules| - 1], zone, mode, field).None?
    requires SilentFrom(rules[..|rules| - 1], from, zone, mode, field)
    ensures SilentFrom(rules, from, zone, mode, field)
  {
    var rest := rules[..|rules| - 1];
    forall j | from <= j < |rules| ensures Sets(rules[j], zone, mode, field).None? {
      assert j < |rest| ==> rest[j] == rules[j];
    }
  }

  /** Concatenated rule lists compose: the first list's outcome is the second's baseline. */
  lemma {:induction false} LastSetConcat<T>(a: seq<OverrideRule>, b: seq<OverrideRule>, zone: TrustZone,
                                            mode: ContinuityMode, field: Update -> Option<T>, base: T)
    ensures LastSet(a + b, zone, mode, field, base)
            == LastSet(b, zone, mode, field, LastSet(a, zone, mode, field, base))
  {
    if b == [] {
      assert a + b == a;
    } else {
      assert (a + b)[..|a + b| - 1] == a + b[..|b| - 1];
      LastSetConcat(a, b[..|b| - 1], zone, mode, field, base);
    }
  }

  ghost function AsBaseline(r: Resolved): Baseline {
    Baseline(r.repoRetrievalAllowed, r.durableMemoryAllowed, r.retentionScope, r.ephemeralHistory, r.expiryPolicy)
  }

  /** Resolving two lists at once is resolving the second on top of the outcome of the first. */
  lemma OverridesCompose(capabilities: map<string, Baseline>, a: seq<OverrideRule>, b: seq<OverrideRule>,
                         zone: TrustZone, mode: ContinuityMode)
    ensures var first := Resolve(Ruleset(capabilities, a), zone, mode);
            Resolve(Ruleset(capabilities, a + b), zone, mode)
            == Resolve(Ruleset(capabilities[ZoneName(zone) := AsBaseline(first)], b), zone, mode)
  {
    hide LastSet;
    var raw := BaselineOf(capabilities, zone);
    LastSetConcat(a, b, zone, mode, SCOPE, raw.retentionScope);
    LastSetConcat(a, b, zone, mode, HISTORY, raw.ephemeralHistory);
    LastSetConcat(a, b, zone, mode, EXPIRY_FIELD, raw.expiryPolicy);
  }

  /** A later rule sets the field as well. */
  ghost predicate Overridden<T>(rules: seq<OverrideRule>, i: nat, zone: TrustZone, mode: ContinuityMode,
                                field: Update -> Option<T>) {
    exists j :: i < j < |rules| && Sets(rules[j], zone, mode, field).Some?
  }

  ghost predicate Shadowed<T>(rules: seq<OverrideRule>, i: nat, zone: TrustZone, mode: ContinuityMode,
                              field: Update -> Option<T>)
    requires i < |rules|
  {
    Sets(rules[i], zone, mode, field).Some? ==> Overridden(rules, i, zone, mode, field)
  }

  lemma OverriddenIgnoresBase<T>(rules: seq<OverrideRule>, zone: TrustZone, mode: ContinuityMode,
                                 field: Update -> Option<T>, x: T, y: T)
    requires exists j :: 0 <= j < |rules| && Sets(rules[j], zone, mode, field).Some?
    ensures LastSet(rules, zone, mode, field, x) == LastSet(rules, zone, mode, field, y)
  {
    if Sets(rules[|rules| - 1], zone, mode, field).None? {
      var j :| 0 <= j < |rules| && Sets(rules[j], zone, mode, field).Some?;
      assert rules[..|rules| - 1][j] == rules[j];
      OverriddenIgnoresBase(rules[..|rules| - 1], zone, mode, field, x, y);
    }
  }

  lemma DropShadowed<T>(rules: seq<OverrideRule>, i: nat, zone: TrustZone, mode: ContinuityMode,
                        field: Update -> Option<T>, base: T)
    requires i < |rules| && Shadowed(rules, i, zone, mode, field)
    ensures LastSet(rules[..i] + rules[i + 1..], zone, mode, field, base) == LastSet(rules, zone, mode, field, base)
  {
    var before, after := rules[..i], rules[i + 1..];
    var x := LastSet(before, zone, mode, field, base);
    var y := LastSet(rules[..i + 1], zone, mode, field, base);
    assert rules[..i + 1][..i] == before;
    assert rules == rules[..i + 1] + after;
    LastSetConcat(before, after, zone, mode, field, base);
    LastSetConcat(rules[..i + 1], after, zone, mode, field, base);
    if Sets(rules[i], zone, mode, field).Some? {
      var j :| i < j < |rules| && Sets(rules[j], zone, mode, field).Some?;
      assert after[j - i - 1] == rules[j];
      OverriddenIgnoresBase(after, zone, mode, field, x, y);
    }
  }

  /** A rule may be dropped when each field it sets for this zone and mode is set again later; a rule that
      does not match sets none. */
  lemma RedundantRulesMayBeDropped(ruleset: Ruleset, i: nat, zone: TrustZone, mode: ContinuityMode)
    requires i < |ruleset.overrides|
    requires Shadowed(ruleset.overrides, i, zone, mode, SCOPE) && Shadowed(ruleset.overrides, i, zone, mode, HISTORY)
             && Shadowed(ruleset.overrides, i, zone, mode, EXPIRY_FIELD)
    ensures var rules := ruleset.overrides;
            Resolve(ruleset.(overrides := rules[..i] + rules[i + 1..]), zone, mode) == Resolve(ruleset, zone, mode)
  {
    hide LastSet, Shadowed;
    var raw := BaselineOf(ruleset.capabilities, zone);
    DropShadowed(ruleset.overrides, i, zone, mode, SCOPE, raw.retentionScope);
    DropShadowed(ruleset.overrides, i, zone, mode, HISTORY, raw.ephemeralHistory);
    DropShadowed(ruleset.overrides, i, zone, mode, EXPIRY_FIELD, raw.expiryPolicy);
  }

  lemma UnmatchedRuleIsShadowed<T>(rules: seq<OverrideRule>, i: nat, zone: TrustZone, mode: ContinuityMode,
                                   field: Update -> Option<T>)
    requires i < |rules| && !Matches(rules[i], zone, mode)
    ensures Shadowed(rules, i, zone, mode, field)
  {
  }

  // --- the default ruleset -----------------------------------------------------------------------

  const DEFAULT_CAPABILITIES: map<string, Baseline> := map[
    "private_self" := Baseline(true, true, LOCAL, false, "none"),
    "trusted_collaborator" := Baseline(true, true, LOCAL, false, "none"),
    "outside_contact" := Baseline(false, false, LOCAL, false, "none"),
    "paid_public" := Baseline(false, false, "conversation_only", false, EXPIRY)]

  const DEFAULT_OVERRIDES := [
    OverrideRule("paid_public", "client", Update(Some("ephemeral"), Some(true), Some("none")))]

  function Default(): Ruleset {
    Ruleset(DEFAULT_CAPABILITIES, DEFAULT_OVERRIDES)
  }

  /** The capabilities written as code. */
  function Procedural(zone: TrustZone, mode: ContinuityMode): Resolved {
    var paidPublic := zone == PaidPublic;
    var ephemeralHistory := paidPublic && mode != Client;
    var allowed := zone == PrivateSelf || zone == TrustedCollaborator;
    Resolved(
      zone, mode,
      if paidPublic then if ephemeralHistory then "ephemeral" else "conversation_only" else LOCAL,
      ephemeralHistory, allowed, allowed,
      if paidPublic && !ephemeralHistory then EXPIRY else "none")
  }

  lemma ZoneNamesDiffer()
    ensures forall a, b :: ZoneName(a) == ZoneName(b) ==> a == b
  {
    forall a, b | a != b ensures ZoneName(a) != ZoneName(b) {
      assert |ZoneName(a)| == |ZoneName(b)| ==> a == b;
    }
  }

  lemma ModeNamesDiffer(mode: ContinuityMode)
    ensures ModeName(mode) == "client" <==> mode == Client
  {
    assert "client"[0] == 'c';
  }

  lemma DefaultBaselines(zone: TrustZone)
    ensures BaselineOf(DEFAULT_CAPABILITIES, zone)
            == Baseline(zone == PrivateSelf || zone == TrustedCollaborator,
                        zone == PrivateSelf || zone == TrustedCollaborator,
                        if zone == PaidPublic then "conversation_only" else LOCAL, false,
                        if zone == PaidPublic then EXPIRY else "none")
  {
    ZoneNamesDiffer();
    assert ZoneName(PrivateSelf) == "private_self" && ZoneName(TrustedCollaborator) == "trusted_collaborator"
           && ZoneName(OutsideContact) == "outside_contact" && ZoneName(PaidPublic) == "paid_public";
  }

  /** On its default rules the table-driven resolution agrees with the procedural one everywhere. */
  lemma DefaultAgreesWithProcedural(zone: TrustZone, mode: ContinuityMode)
    ensures Resolve(Default(), zone, mode) == Procedural(zone, mode)
  {
    hide BaselineOf, ZoneName, ModeName;
    DefaultBaselines(zone);
    ModeNamesDiffer(mode);
    assert ZoneName(zone) == "paid_public" <==> zone == PaidPublic by { PaidPublicName(zone); }
    assert DEFAULT_OVERRIDES[..0] == [];
  }

  lemma PaidPublicName(zone: TrustZone)
    ensures ZoneName(zone) == "paid_public" <==> zone == PaidPublic
  {
    ZoneNamesDiffer();
    assert ZoneName(PaidPublic) == "paid_public";
  }

  /** Whatever overrides are configured, repository retrieval and durable memory stay what the baseline
      says: with the default baselines, allowed exactly for a caller who names the collaborator zone, or on
      the trusted machine names the private zone or, naming no zone, uses the local channel. */
  lemma RepoAccessNeedsTrust(overrides: seq<OverrideRule>, explicitZone: Option<string>, trustedLocal: bool,
                             channel: string, mode: ContinuityMode)
    ensures var r := Resolve(Ruleset(DEFAULT_CAPABILITIES, overrides),
                             CppTrustZone(explicitZone, trustedLocal, channel), mode);
            var named := explicitZone.Some? && NamesAZone(explicitZone.value);
            && r.repoRetrievalAllowed == r.durableMemoryAllowed
            && (r.repoRetrievalAllowed <==>
                  || (explicitZone.Some? && Names(explicitZone.value, "trusted_collaborator"))
                  || (trustedLocal && explicitZone.Some? && Names(explicitZone.value, "private_self"))
                  || (trustedLocal && !named && Names(channel, "local")))
  {
    hide Names, LastSet, BaselineOf;
    DefaultBaselines(CppTrustZone(explicitZone, trustedLocal, channel));
    if explicitZone.Some? { NamedZones(explicitZone.value); }
    NamesOneWord(channel, "execute", "local");
  }

  /** A text names at most one zone, and `NamesAZone` is the disjunction over the four. */
  lemma NamedZones(text: string)
    ensures NamesAZone(text) <==> Names(text, "private_self") || Names(text, "trusted_collaborator")
                                  || Names(text, "outside_contact") || Names(text, "paid_public")
    ensures Names(text, "private_self") ==> !Names(text, "trusted_collaborator")
  {
    hide Names;
    assert ZoneName(PrivateSelf) == "private_self" && ZoneName(TrustedCollaborator) == "trusted_collaborator"
           && ZoneName(OutsideContact) == "outside_contact" && ZoneName(PaidPublic) == "paid_public";
    NamesOneWord(text, "private_self", "trusted_collaborator");
  }

  lemma NamesOneWord(text: string, a: string, b: string)
    requires |a| != |b|
    ensures !(Names(text, a) && Names(text, b))
  {
  }

  // --- written out -------------------------------------------------------------------------------

  /** The text is the word up to case and surrounding whitespace. */
  ghost predicate Reads(text: string, word: string) {
    LowerAll(Trim(text, CPP_SPACE)) == word
  }

  lemma WordsDiffer(text: string, a: string, b: string)
    requires a != b
    ensures !(Reads(text, a) && Reads(text, b))
  {
  }

  lemma ZoneWordsDiffer()
    ensures "private_self" != "trusted_collaborator" && "private_self" != "outside_contact"
    ensures "private_self" != "paid_public" && "trusted_collaborator" != "outside_contact"
    ensures "trusted_collaborator" != "paid_public" && "outside_contact" != "paid_public" && "execute" != "local"
  {
    assert |"private_self"| == 12 && |"trusted_collaborator"| == 20 && |"outside_contact"| == 15;
    assert |"paid_public"| == 11 && |"execute"| == 7 && |"local"| == 5;
  }

  /** The zone of a caller, exactly. A named zone decides, but the private one only on the trusted machine; otherwise
      the execute channel is the paying public and the local channel of the trusted machine is private; everyone else
      is an outside contact. */
  lemma ZoneIs(explicitZone: Option<string>, trustedLocal: bool, channel: string)
    ensures var zone := CppTrustZone(explicitZone, trustedLocal, channel);
            var e := if explicitZone.Some? then explicitZone.value else "";
            var private, trusted := Reads(e, "private_self"), Reads(e, "trusted_collaborator");
            var outside, paid := Reads(e, "outside_contact"), Reads(e, "paid_public");
            var unnamed := !private && !trusted && !outside && !paid;
            && (zone == TrustedCollaborator <==> trusted)
            && (zone == PaidPublic <==> paid || (unnamed && Reads(channel, "execute")))
            && (zone == PrivateSelf <==> trustedLocal && (private || (unnamed && Reads(channel, "local"))))
  {
    hide Trim, LowerAll, Reads, Cleaned;
    PortsResolveAlike(explicitZone, trustedLocal, channel);
    var e := if explicitZone.Some? then explicitZone.value else "";
    ReadsIsCleaned(e);
    ReadsIsCleaned(channel);
    ZoneWordsDiffer();
    WordsDiffer(e, "private_self", "trusted_collaborator");
    WordsDiffer(e, "private_self", "paid_public");
    WordsDiffer(e, "private_self", "outside_contact");
    WordsDiffer(e, "trusted_collaborator", "paid_public");
    WordsDiffer(e, "trusted_collaborator", "outside_contact");
    WordsDiffer(e, "outside_contact", "paid_public");
    WordsDiffer(channel, "execute", "local");
  }

  lemma ReadsIsCleaned(text: string)
    ensures forall word :: Reads(text, word) <==> Cleaned(text) == word
  {
    hide Trim, LowerAll;
  }

  /** The rule is for this zone, by name, and does not exclude this mode, by name. */
  ghost predicate IsFor(rule: OverrideRule, zone: TrustZone, mode: ContinuityMode) {
    && (match zone
        case PrivateSelf => rule.trustZone == "private_self"
        case TrustedCollaborator => rule.trustZone == "trusted_collaborator"
        case OutsideContact => rule.trustZone == "outside_contact"
        case PaidPublic => rule.trustZone == "paid_public")
    && (match mode
        case Client => rule.continuityModeNot != "client"
        case Ephemeral => rule.continuityModeNot != "ephemeral"
        case NoMode => rule.continuityModeNot != "default")
  }

  lemma MatchesIff(rule: OverrideRule, zone: TrustZone, mode: ContinuityMode)
    ensures Matches(rule, zone, mode) <==> IsFor(rule, zone, mode)
  {
  }

  /** The value comes from the last rule for this zone and mode that gives one, else from the baseline. */
  ghost predicate ComesFrom<T>(rules: seq<OverrideRule>, zone: TrustZone, mode: ContinuityMode,
                               field: Update -> Option<T>, base: T, value: T) {
    || (value == base && forall j :: 0 <= j < |rules| && IsFor(rules[j], zone, mode) ==> field(rules[j].updates).None?)
    || (exists i :: && 0 <= i < |rules| && IsFor(rules[i], zone, mode) && field(rules[i].updates) == Some(value)
                    && forall j :: i < j < |rules| && IsFor(rules[j], zone, mode) ==> field(rules[j].updates).None?)
  }

  lemma FieldComesFrom<T>(rules: seq<OverrideRule>, zone: TrustZone, mode: ContinuityMode,
                          field: Update -> Option<T>, base: T)
    ensures ComesFrom(rules, zone, mode, field, base, LastSet(rules, zone, mode, field, base))
  {
    hide Matches, IsFor, LastSet;
    LastSetIsLast(rules, zone, mode, field, base);
    forall j | 0 <= j < |rules| ensures Matches(rules[j], zone, mode) <==> IsFor(rules[j], zone, mode) {
      MatchesIff(rules[j], zone, mode);
    }
  }

  /** What a table gives a zone and a mode, for every table: retention, history and expiry each from the last rule that
      sets them, the two access flags from the baseline alone; and a zone without a baseline gets nothing. */
  lemma ResolvedIs(ruleset: Ruleset, zone: TrustZone, mode: ContinuityMode)
    ensures var r := Resolve(ruleset, zone, mode);
            var name := match zone case PrivateSelf => "private_self" case TrustedCollaborator => "trusted_collaborator"
                                   case OutsideContact => "outside_contact" case PaidPublic => "paid_public";
            var b := if name in ruleset.capabilities then ruleset.capabilities[name]
                     else Baseline(false, false, "local_conversation", false, "none");
            && r.zone == zone && r.mode == mode
            && r.repoRetrievalAllowed == b.repoRetrievalAllowed && r.durableMemoryAllowed == b.durableMemoryAllowed
            && ComesFrom(ruleset.overrides, zone, mode, SCOPE, b.retentionScope, r.retentionScope)
            && ComesFrom(ruleset.overrides, zone, mode, HISTORY, b.ephemeralHistory, r.ephemeralHistory)
            && ComesFrom(ruleset.overrides, zone, mode, EXPIRY_FIELD, b.expiryPolicy, r.expiryPolicy)
    ensures forall u ::
              SCOPE(u) == u.retentionScope && HISTORY(u) == u.ephemeralHistory && EXPIRY_FIELD(u) == u.expiryPolicy
  {
    hide LastSet, IsFor;
    var b := BaselineOf(ruleset.capabilities, zone);
    FieldComesFrom(ruleset.overrides, zone, mode, SCOPE, b.retentionScope);
    FieldComesFrom(ruleset.overrides, zone, mode, HISTORY, b.ephemeralHistory);
    FieldComesFrom(ruleset.overrides, zone, mode, EXPIRY_FIELD, b.expiryPolicy);
  }

  /** What the default rules give: the private zone and collaborators get repository and memory access, the paying
      public an ephemeral conversation, or in client mode one that expires, and nobody else anything beyond the local
      conversation. */
  lemma DefaultsAre(zone: TrustZone, mode: ContinuityMode)
    ensures Resolve(Default(), zone, mode) ==
              match zone
              case PrivateSelf => Resolved(zone, mode, "local_conversation", false, true, true, "none")
              case TrustedCollaborator => Resolved(zone, mode, "local_conversation", false, true, true, "none")
              case OutsideContact => Resolved(zone, mode, "local_conversation", false, false, false, "none")
              case PaidPublic =>
                if mode == Client then
                  Resolved(zone, mode, "conversation_only", false, false, false, "7_days_inactivity_operator_deletable")
                else Resolved(zone, mode, "ephemeral", true, false, false, "none")
  {
    hide Resolve;
    DefaultAgreesWithProcedural(zone, mode);
  }
}
