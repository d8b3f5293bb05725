/** ASCII text operations shared by the ports: lower-casing, character classes and trimming. */
module Text {
  /** The whitespace set of the C++ port's `trim`. */
  const CPP_SPACE: set<char> := {' ', '\t', '\n', '\r'}

  /** The ASCII part of the whitespace set of JavaScript's `String.prototype.trim`. */
  const JS_SPACE: set<char> := CPP_SPACE + {11 as char, 12 as char}

  function Lower(c: char): char {
    if 'A' <= c <= 'Z' then (c as int + 32) as char else c
  }

  function LowerAll(s: string): (r: string)
    ensures |r| == |s|
    ensures forall i :: 0 <= i < |s| ==> r[i] == Lower(s[i])
  {
    seq(|s|, i requires 0 <= i < |s| => Lower(s[i]))
  }

  predicate IsDigit(c: char) {
    '0' <= c <= '9'
  }

  predicate IsLetter(c: char) {
    'a' <= c <= 'z' || 'A' <= c <= 'Z'
  }

  predicate IsAlnum(c: char) {
    IsLetter(c) || IsDigit(c)
  }

  /** A word character of a regular expression: alphanumeric or underscore. */
  predicate IsWordChar(c: char) {
    IsAlnum(c) || c == '_'
  }

  function TrimStart(s: string, space: set<char>): (r: string) {
    if s != "" && s[0] in space then TrimStart(s[1..], space) else s
  }

  function TrimEnd(s: string, space: set<char>): (r: string) {
    if s != "" && s[|s| - 1] in space then TrimEnd(s[..|s| - 1], space) else s
  }

  function Trim(s: string, space: set<char>): string {
    TrimEnd(TrimStart(s, space), space)
  }

  /** Leading whitespace that `TrimStart` drops. */
  lemma {:induction false} TrimStartShape(s: string, space: set<char>) returns (k: nat)
    ensures k <= |s| && TrimStart(s, space) == s[k..] && forall i :: 0 <= i < k ==> s[i] in space
    ensures k < |s| ==> s[k] !in space
  {
    if s != "" && s[0] in space {
      var m := TrimStartShape(s[1..], space);
      k := m + 1;
      forall i | 0 <= i < k ensures s[i] in space {
        if i > 0 { assert s[i] == s[1..][i - 1]; }
      }
    } else {
      k := 0;
    }
  }

  /** Length of what `TrimEnd` keeps. */
  lemma {:induction false} TrimEndShape(s: string, space: set<char>) returns (k: nat)
    ensures k <= |s| && TrimEnd(s, space) == s[..k] && forall i :: k <= i < |s| ==> s[i] in space
    ensures k > 0 ==> s[k - 1] !in space
  {
    if s != "" && s[|s| - 1] in space {
      k := TrimEndShape(s[..|s| - 1], space);
    } else {
      k := |s|;
    }
  }

  /** What trimming means: the text splits into whitespace, the result, and whitespace,
      and the result neither starts nor ends with whitespace. */
  lemma TrimSplits(s: string, space: set<char>) returns (from: nat, to: nat)
    ensures from <= to <= |s| && Trim(s, space) == s[from..to]
    ensures forall i :: 0 <= i < from || to <= i < |s| ==> s[i] in space
    ensures from < to ==> s[from] !in space && s[to - 1] !in space
  {
    from := TrimStartShape(s, space);
    var u := s[from..];
    var k := TrimEndShape(u, space);
    to := from + k;
    forall i | to <= i < |s| ensures s[i] in space {
      assert s[i] == u[i - from];
    }
    if from < to { assert s[to - 1] == u[k - 1]; }
  }

  lemma TrimIdempotent(s: string, space: set<char>)
    ensures Trim(Trim(s, space), space) == Trim(s, space)
  {
    var from, to := TrimSplits(s, space);
    var t := s[from..to];
    assert t != "" ==> t[0] == s[from] && t[|t| - 1] == s[to - 1];
  }

  lemma {:induction false} TrimStartLower(s: string, space: set<char>)
    requires forall c :: Lower(c) in space <==> c in space
    ensures TrimStart(LowerAll(s), space) == LowerAll(TrimStart(s, space))
  {
    if s != "" && s[0] in space {
      assert LowerAll(s)[1..] == LowerAll(s[1..]);
      TrimStartLower(s[1..], space);
    } else {
      assert s != "" ==> LowerAll(s)[0] == Lower(s[0]);
    }
  }

  lemma {:induction false} TrimEndLower(s: string, space: set<char>)
    requires forall c :: Lower(c) in space <==> c in space
    ensures TrimEnd(LowerAll(s), space) == LowerAll(TrimEnd(s, space))
  {
    if s != "" && s[|s| - 1] in space {
      assert LowerAll(s)[..|s| - 1] == LowerAll(s[..|s| - 1]);
      TrimEndLower(s[..|s| - 1], space);
    } else {
      assert s != "" ==> LowerAll(s)[|s| - 1] == Lower(s[|s| - 1]);
    }
  }

  lemma LowerIdempotent(s: string)
    ensures LowerAll(LowerAll(s)) == LowerAll(s)
  {
  }

  /** Trimming with JavaScript's whitespace commutes with lower-casing too. */
  lemma JsTrimLowerCommute(s: string)
    ensures Trim(LowerAll(s), JS_SPACE) == LowerAll(Trim(s, JS_SPACE))
  {
    TrimStartLower(s, JS_SPACE);
    TrimEndLower(TrimStart(s, JS_SPACE), JS_SPACE);
  }

  /** The ports that lower-case first and the port that trims first see the same text. */
  lemma TrimLowerCommute(s: string)
    ensures Trim(LowerAll(s), CPP_SPACE) == LowerAll(Trim(s, CPP_SPACE))
  {
    TrimStartLower(s, CPP_SPACE);
    TrimEndLower(TrimStart(s, CPP_SPACE), CPP_SPACE);
  }

  // --- the alphabets, letter by letter -----------------------------------------------------------

  /** Lower-casing takes each capital to its small letter and leaves every other character alone. */
  lemma LowerIs(c: char)
    ensures var capitals, small := "ABCDEFGHIJKLMNOPQRSTUVWXYZ", "abcdefghijklmnopqrstuvwxyz";
            if c in capitals then exists i :: 0 <= i < 26 && c == capitals[i] && Lower(c) == small[i] else Lower(c) == c
  {
    var capitals, small := "ABCDEFGHIJKLMNOPQRSTUVWXYZ", "abcdefghijklmnopqrstuvwxyz";
    assert forall i :: 0 <= i < 26 ==> capitals[i] == (65 + i) as char && small[i] == (97 + i) as char;
    if 'A' <= c <= 'Z' { assert capitals[c as int - 65] == c; }
  }

  lemma DigitIs(c: char)
    ensures IsDigit(c) <==> c in "0123456789"
  {
    var digits := "0123456789";
    assert forall i :: 0 <= i < 10 ==> digits[i] == (48 + i) as char;
    if '0' <= c <= '9' { assert digits[c as int - 48] == c; }
  }

  lemma LetterIs(c: char)
    ensures IsLetter(c) <==> Lower(c) in "abcdefghijklmnopqrstuvwxyz"
  {
    var small := "abcdefghijklmnopqrstuvwxyz";
    assert forall i :: 0 <= i < 26 ==> small[i] == (97 + i) as char;
    if 'a' <= Lower(c) <= 'z' { assert small[Lower(c) as int - 97] == Lower(c); }
  }

  /** The characters that count as part of a word for the C++ port; a regular expression adds the underscore. */
  lemma AlnumIs(c: char)
    ensures IsAlnum(c) <==> Lower(c) in "abcdefghijklmnopqrstuvwxyz" || c in "0123456789"
    ensures IsWordChar(c) <==> IsAlnum(c) || c == '_'
  {
    hide IsLetter, IsDigit;
    LetterIs(c);
    DigitIs(c);
  }

  /** The code points that count as whitespace: tab, line feed, carriage return and space, and for JavaScript also
      vertical tab and form feed. */
  lemma SpaceIs(c: char)
    ensures c in CPP_SPACE <==> c as int in {9, 10, 13, 32}
    ensures c in JS_SPACE <==> c as int in {9, 10, 11, 12, 13, 32}
  {
  }
}
