/**
 HTML escaping by five successive global replacements (dashboard/dashboard.js:1-9).
 */
module Escape {
  import opened Options

  /** Replaces every `c` by `entity`. */
  function Replace(s: string, c: char, entity: string): string {
    if s == "" then "" else (if s[0] == c then entity else [s[0]]) + Replace(s[1..], c, entity)
  }

  /** Replaces, from left to right, every occurrence of `entity` by `c`. */
  function Restore(s: string, entity: string, c: char): string
    decreases |s|
  {
    if s == "" then ""
    else if entity != "" && entity <= s then [c] + Restore(s[|entity|..], entity, c)
    else [s[0]] + Restore(s[1..], entity, c)
  }

  const AMP := "&amp;"
  const LT := "&lt;"
  const GT := "&gt;"
  const QUOT := "&quot;"
  const APOS := "&#039;"
  const SPECIAL: set<char> := {'&', '<', '>', '"', '\''}

  function Angles(s: string): string {
    Replace(Replace(Replace(s, '&', AMP), '<', LT), '>', GT)
  }

  /** The replacements in program order. */
  function Sequential(s: string): string {
    Replace(Replace(Angles(s), '"', QUOT), '\'', APOS)
  }

  /** A missing text gives the empty one. */
  function EscapeHtml(text: Option<string>): string {
    if text.None? || text.value == "" then "" else Sequential(text.value)
  }

  function UnescapeHtml(s: string): string {
    Restore(Restore(Restore(Restore(Restore(s, APOS, '\''), QUOT, '"'), GT, '>'), LT, '<'), AMP, '&')
  }

  // --- one simultaneous pass ---------------------------------------------------------------------

  function Entity(c: char): (r: string)
    ensures |r| >= 1 && (|r| == 1 <==> c !in SPECIAL)
  {
    match c
    case '&' => AMP
    case '<' => LT
    case '>' => GT
    case '"' => QUOT
    case '\'' => APOS
    case _ => [c]
  }

  function EscapeChars(s: string): string {
    if s == "" then "" else Entity(s[0]) + EscapeChars(s[1..])
  }

  lemma {:induction false} ReplaceConcat(a: string, b: string, c: char, entity: string)
    ensures Replace(a + b, c, entity) == Replace(a, c, entity) + Replace(b, c, entity)
  {
    if a == "" {
      assert a + b == b;
    } else {
      assert (a + b)[1..] == a[1..] + b;
      ReplaceConcat(a[1..], b, c, entity);
    }
  }

  lemma {:induction false} ReplaceAbsent(s: string, c: char, entity: string)
    requires c !in s
    ensures Replace(s, c, entity) == s
  {
    if s != "" {
      assert c !in s[1..];
      ReplaceAbsent(s[1..], c, entity);
    }
  }

  lemma ReplaceChar(d: char, c: char, entity: string)
    ensures Replace([d], c, entity) == if d == c then entity else [d]
  {
    assert [d][1..] == "";
  }

  lemma SequentialConcat(a: string, b: string)
    ensures Sequential(a + b) == Sequential(a) + Sequential(b)
  {
    ReplaceConcat(a, b, '&', AMP);
    var a1, b1 := Replace(a, '&', AMP), Replace(b, '&', AMP);
    ReplaceConcat(a1, b1, '<', LT);
    var a2, b2 := Replace(a1, '<', LT), Replace(b1, '<', LT);
    ReplaceConcat(a2, b2, '>', GT);
    var a3, b3 := Replace(a2, '>', GT), Replace(b2, '>', GT);
    ReplaceConcat(a3, b3, '"', QUOT);
    ReplaceConcat(Replace(a3, '"', QUOT), Replace(b3, '"', QUOT), '\'', APOS);
  }

  /** No replacement touches what an earlier one inserted. */
  lemma SequentialChar(c: char)
    ensures Sequential([c]) == Entity(c)
  {
    hide Replace;
    ReplaceChar(c, '&', AMP);
    ReplaceChar(c, '<', LT);
    ReplaceChar(c, '>', GT);
    ReplaceChar(c, '"', QUOT);
    ReplaceChar(c, '\'', APOS);
    ReplaceAbsent(AMP, '<', LT);
    ReplaceAbsent(AMP, '>', GT);
    ReplaceAbsent(AMP, '"', QUOT);
    ReplaceAbsent(AMP, '\'', APOS);
    ReplaceAbsent(LT, '>', GT);
    ReplaceAbsent(LT, '"', QUOT);
    ReplaceAbsent(LT, '\'', APOS);
    ReplaceAbsent(GT, '"', QUOT);
    ReplaceAbsent(GT, '\'', APOS);
    ReplaceAbsent(QUOT, '\'', APOS);
  }

  lemma {:induction false} SequentialIsSimultaneous(s: string)
    ensures Sequential(s) == EscapeChars(s)
  {
    if s != "" {
      hide Sequential, Entity;
      assert s == [s[0]] + s[1..];
      SequentialConcat([s[0]], s[1..]);
      SequentialChar(s[0]);
      SequentialIsSimultaneous(s[1..]);
    }
  }

  /** The five successive replacements are one simultaneous replacement of each character. */
  lemma EscapeIsPerCharacter(text: Option<string>)
    ensures EscapeHtml(text) == EscapeChars(if text.Some? then text.value else "")
  {
    if text.Some? { SequentialIsSimultaneous(text.value); }
  }

  // --- what the output may contain ---------------------------------------------------------------

  lemma {:induction false} EscapedCharsAreSafe(s: string, d: char)
    requires d in EscapeChars(s)
    ensures d !in SPECIAL || d == '&'
  {
    if s != "" {
      if d !in Entity(s[0]) { EscapedCharsAreSafe(s[1..], d); }
    }
  }

  /** The output contains none of the markup characters. */
  lemma EscapeIsSafe(text: Option<string>)
    ensures var r := EscapeHtml(text); '<' !in r && '>' !in r && '"' !in r && '\'' !in r
  {
    EscapeIsPerCharacter(text);
    var s := if text.Some? then text.value else "";
    forall d | d in EscapeChars(s) ensures d !in SPECIAL || d == '&' { EscapedCharsAreSafe(s, d); }
  }

  // --- undoing the escape ------------------------------------------------------------------------

  /** An entity: an ampersand and at least one further character, none of them an ampersand. */
  predicate IsEntity(entity: string) {
    |entity| >= 2 && entity[0] == '&' && forall i :: 1 <= i < |entity| ==> entity[i] != '&'
  }

  ghost predicate NoPair(s: string, a: char, b: char) {
    forall i, j :: 0 <= i && j == i + 1 && j < |s| ==> !(s[i] == a && s[j] == b)
  }

  lemma {:induction false} RestoreUndoesReplace(s: string, c: char, entity: string)
    requires IsEntity(entity) && (c == '&' || NoPair(s, '&', entity[1]))
    ensures Restore(Replace(s, c, entity), entity, c) == s
  {
    if s != "" {
      var rest := Replace(s[1..], c, entity);
      if NoPair(s, '&', entity[1]) { NoPairTail(s, entity[1]); }
      RestoreUndoesReplace(s[1..], c, entity);
      if s[0] == c {
        assert (entity + rest)[|entity|..] == rest;
      } else {
        HeadOfReplace(s[1..], c, entity);
        var r := [s[0]] + rest;
        assert r[1..] == rest;
        PrefixHeads(entity, r);
      }
    }
  }

  lemma PrefixHeads(a: string, s: string)
    ensures |a| >= 2 && a <= s ==> s[0] == a[0] && s[1] == a[1]
  {
  }

  lemma NoPairTail(s: string, b: char)
    requires s != "" && NoPair(s, '&', b)
    ensures NoPair(s[1..], '&', b)
  {
    var t := s[1..];
    forall i, j | 0 <= i && j == i + 1 && j < |t| ensures !(t[i] == '&' && t[j] == b) {
      assert t[i] == s[i + 1] && t[j] == s[j + 1];
    }
  }

  lemma HeadOfReplace(s: string, c: char, entity: string)
    requires IsEntity(entity)
    ensures s == "" ==> Replace(s, c, entity) == ""
    ensures s != "" ==> Replace(s, c, entity) != "" && Replace(s, c, entity)[0] == if s[0] == c then '&' else s[0]
  {
  }

  /** Every ampersand is followed by one of these characters. */
  predicate AmpersandsLead(s: string, next: set<char>) {
    forall i :: 0 <= i < |s| && s[i] == '&' ==> i + 1 < |s| && s[i + 1] in next
  }

  /** Replacing extends what may follow an ampersand by the entity's second character only. */
  lemma {:induction false} ReplaceLeads(s: string, c: char, entity: string, next: set<char>)
    requires IsEntity(entity) && c !in next && (c == '&' || AmpersandsLead(s, next))
    ensures AmpersandsLead(Replace(s, c, entity), next + {entity[1]})
  {
    if s != "" {
      var t := s[1..];
      if c != '&' {
        forall i | 0 <= i < |t| && t[i] == '&' ensures i + 1 < |t| && t[i + 1] in next { assert s[i + 1] == t[i]; }
      }
      ReplaceLeads(t, c, entity, next);
      HeadOfReplace(t, c, entity);
      var head := if s[0] == c then entity else [s[0]];
      var rest := Replace(t, c, entity);
      var r := head + rest;
      forall i | 0 <= i < |r| && r[i] == '&' ensures i + 1 < |r| && r[i + 1] in next + {entity[1]} {
        if i >= |head| { assert r[i] == rest[i - |head|] && (i + 1 < |r| ==> r[i + 1] == rest[i + 1 - |head|]); }
      }
    }
  }

  lemma LeadsMeanNoPair(s: string, next: set<char>, b: char)
    requires AmpersandsLead(s, next) && b !in next
    ensures NoPair(s, '&', b)
  {
  }

  /** Undoing the replacements in reverse order restores the text. */
  lemma UnescapeUndoesEscape(text: Option<string>)
    ensures UnescapeHtml(EscapeHtml(text)) == if text.Some? then text.value else ""
  {
    hide Replace, Restore;
    if text.Some? && text.value != "" {
      var s := text.value;
      var s1 := Replace(s, '&', AMP);
      var s2 := Replace(s1, '<', LT);
      var s3 := Replace(s2, '>', GT);
      var s4 := Replace(s3, '"', QUOT);
      ReplaceLeads(s, '&', AMP, {});
      ReplaceLeads(s1, '<', LT, {'a'});
      ReplaceLeads(s2, '>', GT, {'a', 'l'});
      ReplaceLeads(s3, '"', QUOT, {'a', 'l', 'g'});
      LeadsMeanNoPair(s1, {'a'}, 'l');
      LeadsMeanNoPair(s2, {'a', 'l'}, 'g');
      LeadsMeanNoPair(s3, {'a', 'l', 'g'}, 'q');
      LeadsMeanNoPair(s4, {'a', 'l', 'g', 'q'}, '#');
      RestoreUndoesReplace(s4, '\'', APOS);
      RestoreUndoesReplace(s3, '"', QUOT);
      RestoreUndoesReplace(s2, '>', GT);
      RestoreUndoesReplace(s1, '<', LT);
      RestoreUndoesReplace(s, '&', AMP);
    } else {
      NothingToRestore();
    }
  }

  lemma NothingToRestore()
    ensures UnescapeHtml("") == ""
  {
  }

  /** Different texts escape differently. */
  lemma EscapeIsInjective(a: string, b: string)
    requires EscapeHtml(Some(a)) == EscapeHtml(Some(b))
    ensures a == b
  {
    UnescapeUndoesEscape(Some(a));
    UnescapeUndoesEscape(Some(b));
  }

  // --- escaping twice ----------------------------------------------------------------------------

  lemma {:induction false} EscapeGrows(s: string)
    ensures |EscapeChars(s)| >= |s|
    ensures |EscapeChars(s)| == |s| <==> forall c :: c in s ==> c !in SPECIAL
    ensures (forall c :: c in s ==> c !in SPECIAL) ==> EscapeChars(s) == s
    ensures (exists c :: c in s && c in SPECIAL) ==> '&' in EscapeChars(s)
  {
    if s != "" {
      EscapeGrows(s[1..]);
      assert s == [s[0]] + s[1..];
    }
  }

  /** Escaping twice is escaping once exactly when there was nothing to escape. */
  lemma EscapingTwice(s: string)
    ensures EscapeHtml(Some(EscapeHtml(Some(s)))) == EscapeHtml(Some(s)) <==>
              '&' !in s && '<' !in s && '>' !in s && '"' !in s && '\'' !in s
  {
    hide EscapeHtml;
    EscapeIsPerCharacter(Some(s));
    var e := EscapeChars(s);
    EscapeIsPerCharacter(Some(e));
    EscapeGrows(s);
    EscapeGrows(e);
  }

  // --- reading the output as HTML ----------------------------------------------------------------

  predicate IsDecimal(s: string) {
    s != "" && forall i :: 0 <= i < |s| ==> '0' <= s[i] <= '9'
  }

  function DecimalValue(s: string): nat
    requires s == "" || IsDecimal(s)
  {
    if s == "" then 0 else 10 * DecimalValue(s[..|s| - 1]) + (s[|s| - 1] as int - '0' as int)
  }

  /** The character that the reference `&name;` stands for in HTML: the four named ones used here, and `&#n;` for the
      character with the decimal code n. */
  function Denotes(name: string): Option<char> {
    if name == "lt" then Some('<')
    else if name == "gt" then Some('>')
    else if name == "amp" then Some('&')
    else if name == "quot" then Some('"')
    else if name != "" && name[0] == '#' && IsDecimal(name[1..]) && DecimalValue(name[1..]) < 0xD800 then
      Some(DecimalValue(name[1..]) as char)
    else None
  }

  /** Where the first semicolon is, or the length of the text. */
  function FirstSemicolon(s: string): (i: nat)
    ensures i <= |s| && ';' !in s[..i] && (i < |s| ==> s[i] == ';')
  {
    if s == "" || s[0] == ';' then 0 else
      var k := FirstSemicolon(s[1..]);
      assert s[..k + 1] == [s[0]] + s[1..][..k];
      k + 1
  }

  /** The text that a browser shows: references are replaced by what they stand for, everything else stays. */
  function ReadHtml(s: string): string
    decreases |s|
  {
    if s == "" then ""
    else if s[0] != '&' then [s[0]] + ReadHtml(s[1..])
    else
      var end := 1 + FirstSemicolon(s[1..]);
      if end < |s| && Denotes(s[1..end]).Some? then [Denotes(s[1..end]).value] + ReadHtml(s[end + 1..])
      else [s[0]] + ReadHtml(s[1..])
  }

  lemma {:induction false} FirstSemicolonIs(s: string, n: nat)
    requires n < |s| && s[n] == ';' && ';' !in s[..n]
    ensures FirstSemicolon(s) == n
  {
    if n > 0 {
      assert s[0] in s[..n];
      assert forall i :: 0 <= i < n - 1 ==> s[1..][i] == s[..n][i + 1];
      FirstSemicolonIs(s[1..], n - 1);
    }
  }

  lemma ReadReference(name: string, c: char, rest: string)
    requires ';' !in name && Denotes(name) == Some(c)
    ensures ReadHtml("&" + name + ";" + rest) == [c] + ReadHtml(rest)
  {
    var s := "&" + name + ";" + rest;
    assert s[0] == '&';
    var t, n := s[1..], |name|;
    assert t == name + ";" + rest && t[..n] == name;
    FirstSemicolonIs(t, n);
    assert s[1..n + 1] == name && s[n + 2..] == rest;
  }

  lemma ApostropheCode()
    ensures Denotes("#039") == Some('\'')
  {
    var digits := "#039"[1..];
    assert digits == "039" && digits[..2] == "03" && "03"[..1] == "0" && "0"[..0] == "";
    assert DecimalValue("0") == 0 && DecimalValue("03") == 3 && DecimalValue("039") == 39;
  }

  lemma ReadEntity(c: char, rest: string)
    ensures ReadHtml(Entity(c) + rest) == [c] + ReadHtml(rest)
  {
    hide Denotes;
    match c
    case '&' => assert AMP == "&" + "amp" + ";"; assert Denotes("amp") == Some('&') by { NamedReferences(); }
      ReadReference("amp", '&', rest);
    case '<' => assert LT == "&" + "lt" + ";"; assert Denotes("lt") == Some('<') by { NamedReferences(); }
      ReadReference("lt", '<', rest);
    case '>' => assert GT == "&" + "gt" + ";"; assert Denotes("gt") == Some('>') by { NamedReferences(); }
      ReadReference("gt", '>', rest);
    case '"' => assert QUOT == "&" + "quot" + ";"; assert Denotes("quot") == Some('"') by { NamedReferences(); }
      ReadReference("quot", '"', rest);
    case '\'' => assert APOS == "&" + "#039" + ";";
      ApostropheCode();
      ReadReference("#039", '\'', rest);
    case _ => assert ([c] + rest)[1..] == rest;
  }

  lemma NamedReferences()
    ensures Denotes("amp") == Some('&') && Denotes("lt") == Some('<') && Denotes("gt") == Some('>')
    ensures Denotes("quot") == Some('"')
  {
    assert |"amp"| == 3 && |"lt"| == 2 && |"gt"| == 2 && |"quot"| == 4;
    assert "gt"[0] != "lt"[0];
  }

  lemma {:induction false} ReadEscapedChars(s: string)
    ensures ReadHtml(EscapeChars(s)) == s
  {
    if s != "" {
      hide Entity;
      ReadEscapedChars(s[1..]);
      ReadEntity(s[0], EscapeChars(s[1..]));
    }
  }

  /** A browser shows the escaped text as it was: each entity stands for the character it replaced. */
  lemma BrowserShowsText(text: Option<string>)
    ensures ReadHtml(EscapeHtml(text)) == if text.Some? then text.value else ""
  {
    hide ReadHtml, EscapeHtml, EscapeChars;
    EscapeIsPerCharacter(text);
    ReadEscapedChars(if text.Some? then text.value else "");
  }
}
