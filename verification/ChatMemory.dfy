/**
 What the dashboard chat remembers and forgets (dashboard/dashboard.js:1080-1131, 1155-1171, 1361-1389, 1420-1449):
 which texts are keys, what a send and a reply leave behind, and what a logout, a reset and a clear take away.
 */
module ChatMemory {
  import opened Text
  import opened Conversation

  // --- which texts are keys ----------------------------------------------------------------------

  ghost predicate Only(s: string, alphabet: string) {
    forall i :: 0 <= i < |s| ==> s[i] in alphabet
  }

  ghost predicate SpellsKey(text: string, digits: string, suffix: string) {
    && text == "dashboard_chat_" + digits + "_" + suffix
    && 8 <= |digits| <= 20 && Only(digits, "0123456789")
    && 4 <= |suffix| <= 32 && Only(suffix, "abcdefghijklmnopqrstuvwxyz0123456789_-")
  }

  lemma KeyCharIs(c: char)
    ensures IsKeyChar(c) <==> Lower(c) in "abcdefghijklmnopqrstuvwxyz0123456789_-"
  {
    var all, small, digits := "abcdefghijklmnopqrstuvwxyz0123456789_-", "abcdefghijklmnopqrstuvwxyz", "0123456789";
    assert all == small + digits + "_-";
    AlnumIs(c);
    if c in digits { DigitIs(c); }
  }

  lemma ShapeSpells(t: string, n: nat) returns (digits: string, suffix: string)
    requires KeyShape(t, n) && 8 <= n <= 20
    ensures SpellsKey(LowerAll(t), digits, suffix)
  {
    var u, p := LowerAll(t), |PREFIX|;
    digits, suffix := u[p..p + n], u[p + n + 1..];
    assert u[..p] == PREFIX;
    assert u[p + n] == '_';
    assert u == PREFIX + digits + "_" + suffix;
    forall i | 0 <= i < |digits| ensures digits[i] in "0123456789" {
      assert digits[i] == u[p + i] == t[p + i];
      DigitIs(t[p + i]);
    }
    forall i | 0 <= i < |suffix| ensures suffix[i] in "abcdefghijklmnopqrstuvwxyz0123456789_-" {
      assert suffix[i] == u[p + n + 1 + i];
      KeyCharIs(t[p + n + 1 + i]);
    }
  }

  /** The characters of a text made of a head, digits, an underscore and a suffix. */
  lemma PartsAt(text: string, head: string, digits: string, suffix: string, i: nat)
    requires text == head + digits + "_" + suffix && i < |text|
    ensures |text| == |head| + |digits| + 1 + |suffix|
    ensures text[i] == if i < |head| then head[i] else if i < |head| + |digits| then digits[i - |head|]
                       else if i == |head| + |digits| then '_' else suffix[i - |head| - |digits| - 1]
  {
  }

  lemma SpelledAt(text: string, digits: string, suffix: string, i: nat)
    requires SpellsKey(text, digits, suffix) && i < |text|
    ensures |text| == |PREFIX| + |digits| + 1 + |suffix|
    ensures i < |PREFIX| ==> text[i] == PREFIX[i]
    ensures |PREFIX| <= i < |PREFIX| + |digits| ==> text[i] in "0123456789"
    ensures i == |PREFIX| + |digits| ==> text[i] == '_'
    ensures |PREFIX| + |digits| < i ==> text[i] in "abcdefghijklmnopqrstuvwxyz0123456789_-"
  {
    PartsAt(text, PREFIX, digits, suffix, i);
  }

  lemma SpellsShape(t: string, digits: string, suffix: string)
    requires SpellsKey(LowerAll(t), digits, suffix)
    ensures KeyShape(t, |digits|)
  {
    var u := LowerAll(t);
    assert |u| == |PREFIX| + |digits| + 1 + |suffix| && 4 <= |suffix| <= 32;
    hide SpellsKey;
    forall i | 0 <= i < |t|
      ensures i < |PREFIX| ==> Lower(t[i]) == PREFIX[i]
      ensures |PREFIX| <= i < |PREFIX| + |digits| ==> IsDigit(t[i])
      ensures i == |PREFIX| + |digits| ==> t[i] == '_'
      ensures |PREFIX| + |digits| < i ==> IsKeyChar(t[i])
    {
      SpelledAt(u, digits, suffix, i);
      DigitIs(u[i]);
      KeyCharIs(t[i]);
    }
  }

  /** The conversation keys: the fixed prefix, 8 to 20 digits, an underscore, and 4 to 32 letters, digits, underscores
      or hyphens, in any case and with any whitespace around. */
  lemma IsKeyIff(value: string)
    ensures IsKey(value) <==>
              exists digits, suffix :: SpellsKey(LowerAll(Trim(value, JS_SPACE)), digits, suffix)
  {
    hide KeyShape, SpellsKey, Trim;
    var t := Trim(value, JS_SPACE);
    if IsKey(value) {
      var n: nat :| 8 <= n <= 20 && KeyShape(t, n);
      var digits, suffix := ShapeSpells(t, n);
    }
    if exists digits, suffix :: SpellsKey(LowerAll(t), digits, suffix) {
      var digits, suffix :| SpellsKey(LowerAll(t), digits, suffix);
      SpellsShape(t, digits, suffix);
      assert 8 <= |digits| <= 20 by { SpelledLengths(LowerAll(t), digits, suffix); }
    }
  }

  lemma SpelledLengths(text: string, digits: string, suffix: string)
    requires SpellsKey(text, digits, suffix)
    ensures 8 <= |digits| <= 20
  {
  }

  lemma NothingIsNoKey()
    ensures !IsKey("")
  {
  }

  // --- what a message leaves behind --------------------------------------------------------------

  /** The stored history after a message: unchanged when storage refuses it; otherwise it ends with the message, after
      what was there, at most fifty in all, or alone when the old history cannot be read. */
  ghost predicate Stored(before: seq<Bubble>, b: Bubble, f: Fate, after: seq<Bubble>) {
    if !f.historyWrite then after == before
    else if !f.historyRead then after == [b]
    else
      && |after| == (if |before| < 50 then |before| + 1 else 50)
      && EndsWith(before + [b], after)
  }

  lemma SaveStores(c: Chat, b: Bubble, f: Fate)
    ensures Stored(c.history, b, f, Save(c, b, f).history)
    ensures Save(c, b, f).saved == if f.historyWrite then c.saved + [b] else c.saved
  {
    assert [] + [b] == [b];
  }

  /** A send shows its text, remembers the key in use and the view it was made in, and stores the text. */
  lemma SendIsKept(c: Chat, text: string, f: Fate)
    ensures var d := Step(c, Begin(text, f));
            && d.rendered == c.rendered + [UserBubble(text)]
            && d.sends == c.sends + [Send(GetKey(c, f).key, c.generation, true)]
            && Stored(c.history, UserBubble(text), f, d.history)
            && d.saved == if f.historyWrite then c.saved + [UserBubble(text)] else c.saved
  {
    hide GetKey, Save, Stored;
    GetKeyKeepsRest(c, f);
    var k := GetKey(c, f);
    var sent := Render(k.chat.(sends := k.chat.sends + [Send(k.key, k.chat.generation, true)]), UserBubble(text));
    SaveStores(sent, UserBubble(text), f);
    SaveKeepsRest(sent, UserBubble(text), f);
  }

  lemma SaveKeepsRest(c: Chat, b: Bubble, f: Fate)
    ensures var d := Save(c, b, f); d.rendered == c.rendered && d.sends == c.sends && d.generation == c.generation
  {
  }

  /** The reply shows up: rendered, and stored when storage takes it. */
  ghost predicate Shows(c: Chat, d: Chat, i: nat, text: string, f: Fate) {
    && d.rendered == c.rendered + [ReplyBubble(text, i)]
    && Stored(c.history, ReplyBubble(text, i), f, d.history)
    && d.saved == if f.historyWrite then c.saved + [ReplyBubble(text, i)] else c.saved
  }

  ghost predicate ShowsNothing(c: Chat, d: Chat) {
    d.rendered == c.rendered && d.history == c.history && d.saved == c.saved
  }

  /** A reply is shown and stored exactly when its send still waits for it, in this view and under the key that is in
      use now; and it is waited for no more. */
  lemma ReplyIsShownIff(c: Chat, i: nat, text: string, f: Fate)
    requires i < |c.sends|
    ensures var d := Step(c, Reply(i, text, f));
            && |d.sends| == |c.sends| && !d.sends[i].waiting
            && if c.sends[i] == Send(GetKey(c, f).key, c.generation, true) then Shows(c, d, i, text, f)
               else ShowsNothing(c, d)
  {
    hide GetKey, Save, Stored;
    SendsAreNoKeys(c, Answered(c, i), f);
    if c.sends[i].waiting {
      var done := Answered(c, i);
      GetKeyKeepsRest(done, f);
      var k := GetKey(done, f).chat;
      SaveStores(Render(k, ReplyBubble(text, i)), ReplyBubble(text, i), f);
      SaveKeepsRest(Render(k, ReplyBubble(text, i)), ReplyBubble(text, i), f);
    }
  }

  lemma SendsAreNoKeys(c: Chat, d: Chat, f: Fate)
    requires d == c.(sends := d.sends)
    ensures GetKey(d, f).key == GetKey(c, f).key
  {
    hide IsKey;
  }

  // --- what is taken away ------------------------------------------------------------------------

  /** A clear, a reset and a logout leave no stored history when storage lets it be removed. */
  lemma HistoryIsRemoved(c: Chat, e: Event)
    requires e.Clear? || e.Reset? || e.Logout?
    ensures Step(c, e).history == if e.fate.historyRemove then [] else c.history
  {
  }

  /** A logout ends the conversation: the next look-up makes a new key, unless storage refused to give up the old one
      and it can be read back. */
  lemma LogoutForgetsKey(c: Chat, f: Fate, g: Fate)
    ensures GetKey(Step(c, Logout(f)), g).key
            == if !f.keyRemove && g.keyRead && IsKey(c.storedKey) then Trim(c.storedKey, JS_SPACE)
               else NewKey(g.now, g.rand)
  {
    hide IsKey, NewKey, Trim;
    NothingIsNoKey();
    TrimIdempotent(c.storedKey, JS_SPACE);
    assert Trim("", JS_SPACE) == "" by { NothingToTrim(); }
    assert IsKey(Trim(c.storedKey, JS_SPACE)) <==> IsKey(c.storedKey) by { KeysAreTrimmed(c.storedKey); }
  }

  lemma NothingToTrim()
    ensures Trim("", JS_SPACE) == ""
  {
  }

  lemma KeysAreTrimmed(value: string)
    ensures IsKey(Trim(value, JS_SPACE)) <==> IsKey(value)
  {
    hide Trim, KeyShape;
    TrimIdempotent(value, JS_SPACE);
  }

  /** After a logout with working storage, a waiting reply to an earlier send is shown only if its send was made in
      this view under the very key that is made now. */
  lemma LogoutDropsReplies(c: Chat, f: Fate, i: nat, text: string, g: Fate)
    requires f.keyRemove && i < |c.sends|
    ensures var before := Step(c, Logout(f));
            var after := Step(before, Reply(i, text, g));
            if c.sends[i] == Send(NewKey(g.now, g.rand), c.generation, true) then Shows(before, after, i, text, g)
            else ShowsNothing(before, after)
  {
    hide GetKey, Save, Stored, NewKey;
    LogoutForgetsKey(c, f, g);
    ReplyIsShownIff(Step(c, Logout(f)), i, text, g);
  }

  // --- a forgotten key ---------------------------------------------------------------------------

  /** Neither memory nor storage holds the key. */
  ghost predicate Forgotten(c: Chat, key: string) {
    key != "" && c.volatileKey != key && c.storedKey != key && Trim(c.storedKey, JS_SPACE) != key
  }

  ghost predicate Differs(text: string, key: string) {
    text != key && Trim(text, JS_SPACE) != key
  }

  /** The event brings the key back neither as a new key nor from another tab. */
  ghost predicate Avoids(e: Event, key: string) {
    match e
    case StorageChanges(k) => Differs(k, key)
    case _ => Differs(NewKey(e.fate.now, e.fate.rand), key)
  }

  /** The bubbles from index `n` on answer no send made under the key. */
  ghost predicate NoAnswerUnder(bubbles: seq<Bubble>, n: nat, sends: seq<Send>, key: string) {
    forall k :: n <= k < |bubbles| && bubbles[k].ReplyBubble? ==>
      bubbles[k].send < |sends| && sends[bubbles[k].send].key != key
  }

  lemma LookUpAvoids(c: Chat, f: Fate, key: string)
    requires Forgotten(c, key) && Differs(NewKey(f.now, f.rand), key)
    ensures GetKey(c, f).key != key && Forgotten(GetKey(c, f).chat, key)
  {
    hide IsKey, NewKey, Trim;
    TrimIdempotent(c.storedKey, JS_SPACE);
  }

  /** Compared with `c`, the view and the saved messages only gained bubbles that answer no send under the key. */
  ghost predicate Silent(c: Chat, d: Chat, key: string) {
    && Forgotten(d, key) && SameSends(c.sends, d.sends) && |c.rendered| <= |d.rendered| && |c.saved| <= |d.saved|
    && NoAnswerUnder(d.rendered, |c.rendered|, d.sends, key) && NoAnswerUnder(d.saved, |c.saved|, d.sends, key)
  }

  lemma AnswersStayAway(a: seq<Bubble>, b: seq<Bubble>, n: nat, s: seq<Send>, t: seq<Send>, key: string)
    requires n <= |a| && NoAnswerUnder(a, n, s, key) && SameSends(s, t)
    requires b == a || (b != [] && b[..|b| - 1] == a
                        && (b[|b| - 1].ReplyBubble? ==> b[|b| - 1].send < |s| && s[b[|b| - 1].send].key != key))
    ensures n <= |b| && NoAnswerUnder(b, n, t, key)
  {
    forall k | n <= k < |b| && b[k].ReplyBubble? ensures b[k].send < |t| && t[b[k].send].key != key {
      if k < |a| { assert b[k] == a[k]; }
    }
  }

  /** What one event adds, if anything, answers no send under the key. */
  ghost predicate AddsNoAnswer(a: seq<Bubble>, b: seq<Bubble>, s: seq<Send>, key: string) {
    b == a || (b != [] && b[..|b| - 1] == a
               && (b[|b| - 1].ReplyBubble? ==> b[|b| - 1].send < |s| && s[b[|b| - 1].send].key != key))
  }

  /** The event adds no answer under the key and does not bring it back. */
  ghost predicate StaysSilent(d: Chat, d': Chat, key: string) {
    && Forgotten(d', key) && SameSends(d.sends, d'.sends)
    && AddsNoAnswer(d.rendered, d'.rendered, d.sends, key) && AddsNoAnswer(d.saved, d'.saved, d.sends, key)
  }

  lemma BeginStaysSilent(d: Chat, text: string, f: Fate, key: string)
    requires Forgotten(d, key) && Differs(NewKey(f.now, f.rand), key)
    ensures StaysSilent(d, Step(d, Begin(text, f)), key)
  {
    hide GetKey, Stored, NewKey, Trim, Step;
    LookUpAvoids(d, f, key);
    SendIsKept(d, text, f);
    BeginKeys(d, text, f);
  }

  lemma ReplyStaysSilent(d: Chat, i: nat, text: string, f: Fate, key: string)
    requires Forgotten(d, key) && Differs(NewKey(f.now, f.rand), key)
    ensures StaysSilent(d, Step(d, Reply(i, text, f)), key)
  {
    hide GetKey, Stored, NewKey, Trim, Forgotten, Differs;
    if i < |d.sends| {
      hide Step;
      LookUpAvoids(d, f, key);
      ReplyIsShownIff(d, i, text, f);
      ReplyKeys(d, i, text, f, key);
    }
  }

  lemma EventStaysSilent(d: Chat, e: Event, key: string)
    requires Forgotten(d, key) && Avoids(e, key)
    ensures StaysSilent(d, Step(d, e), key)
  {
    hide NewKey, Trim, LastOnes, BeginSend, FinishSend;
    match e
    case Begin(text, f) => BeginStaysSilent(d, text, f, key);
    case Reply(i, text, f) => ReplyStaysSilent(d, i, text, f, key);
    case Reset(f) => assert AddsNoAnswer(d.rendered, d.rendered + [NoticeBubble], d.sends, key);
    case Clear(f) => assert AddsNoAnswer(d.rendered, d.rendered + [NoticeBubble], d.sends, key);
    case Logout(f) => NothingToTrim();
    case StorageChanges(k) =>
  }

  lemma BeginKeys(d: Chat, text: string, f: Fate)
    ensures var d' := Step(d, Begin(text, f)); var k := GetKey(d, f).chat;
            d'.volatileKey == k.volatileKey && d'.storedKey == k.storedKey
  {
    hide GetKey, LastOnes;
  }

  lemma ReplyKeys(d: Chat, i: nat, text: string, f: Fate, key: string)
    requires i < |d.sends| && Forgotten(d, key) && Differs(NewKey(f.now, f.rand), key)
    ensures Forgotten(Step(d, Reply(i, text, f)), key)
    ensures SameSends(d.sends, Step(d, Reply(i, text, f)).sends)
  {
    hide GetKey, LastOnes, NewKey, Trim;
    var done := Answered(d, i);
    LookUpAvoids(done, f, key);
    GetKeyKeepsRest(done, f);
  }

  lemma SilentGoesOn(c: Chat, d: Chat, e: Event, key: string)
    requires Silent(c, d, key) && Avoids(e, key)
    ensures Silent(c, Step(d, e), key)
  {
    hide Step, Forgotten, Avoids, NoAnswerUnder;
    EventStaysSilent(d, e, key);
    var d' := Step(d, e);
    AnswersStayAway(d.rendered, d'.rendered, |c.rendered|, d.sends, d'.sends, key);
    AnswersStayAway(d.saved, d'.saved, |c.saved|, d.sends, d'.sends, key);
  }

  lemma {:induction false} SilentForever(c: Chat, events: seq<Event>, key: string)
    requires Forgotten(c, key) && forall i :: 0 <= i < |events| ==> Avoids(events[i], key)
    ensures Silent(c, Run(c, events), key)
  {
    hide Forgotten, Avoids, Step;
    if events != [] {
      var n := |events| - 1;
      SilentForever(c, events[..n], key);
      SilentGoesOn(c, Run(c, events[..n]), events[n], key);
    }
  }

  lemma LogoutForgets(c: Chat, f: Fate, key: string)
    requires f.keyRemove && key != ""
    ensures var d := Step(c, Logout(f)); Forgotten(d, key) && d.rendered == c.rendered && d.saved == c.saved
  {
    NothingToTrim();
  }

  /** After a logout with working storage no reply sent under the old key is ever shown or saved again, whatever
      happens next, unless a later new key or another tab happens to bring that very key back. */
  lemma LogoutSilencesKey(c: Chat, f: Fate, key: string, after: seq<Event>)
    requires f.keyRemove && key != "" && forall i :: 0 <= i < |after| ==> Avoids(after[i], key)
    ensures var d := Run(Step(c, Logout(f)), after);
            NoAnswerUnder(d.rendered, |c.rendered|, d.sends, key) && NoAnswerUnder(d.saved, |c.saved|, d.sends, key)
  {
    hide Avoids, Run, Forgotten, SameSends, NoAnswerUnder, Step;
    LogoutForgets(c, f, key);
    SilentForever(Step(c, Logout(f)), after, key);
  }

  // --- keys from storage -------------------------------------------------------------------------

  lemma {:induction false} OnlyResetsClaimKeys(start: Chat, events: seq<Event>)
    requires JustLoaded(start) && forall i :: 0 <= i < |events| ==> !events[i].Reset?
    ensures !Run(start, events).authoritative
  {
    hide IsKey, LastOnes;
    if events != [] { OnlyResetsClaimKeys(start, events[..|events| - 1]); }
  }

  /** A page that made no reset follows the other tabs: a well-formed key found in storage is the one it uses. */
  lemma StoredKeyIsUsed(start: Chat, events: seq<Event>, key: string, g: Fate)
    requires JustLoaded(start) && forall i :: 0 <= i < |events| ==> !events[i].Reset?
    requires IsKey(key) && g.keyRead
    ensures GetKey(Step(Run(start, events), StorageChanges(key)), g).key == Trim(key, JS_SPACE)
  {
    hide IsKey, Run, Trim;
    OnlyResetsClaimKeys(start, events);
    KeysAreTrimmed(key);
  }

  /** The first well-formed key that a page looks up, found in storage or new and taken by it, is what the page uses
      after it is loaded again. */
  lemma FirstKeySurvivesReload(first: Chat, f: Fate, start: Chat, g: Fate)
    requires JustLoaded(first) && f.keyRead && f.keyWrite && AllDigits(f.now) && AllAlnum(f.rand)
    requires IsKey(GetKey(first, f).key)
    requires JustLoaded(start) && start.storedKey == GetKey(first, f).chat.storedKey && g.keyRead
    ensures GetKey(start, g).key == GetKey(first, f).key
  {
    hide IsKey, NewKey, Trim;
    NewKeyHasNoSpace(f.now, f.rand);
    NothingIsNoKey();
    KeysAreTrimmed(first.storedKey);
    TrimIdempotent(first.storedKey, JS_SPACE);
  }

  /** A well-formed key made by a reset and taken by storage is what the page uses after it is loaded again. */
  lemma ResetKeySurvivesReload(c: Chat, f: Fate, start: Chat, g: Fate)
    requires f.keyWrite && AllDigits(f.now) && AllAlnum(f.rand) && IsKey(NewKey(f.now, f.rand))
    requires JustLoaded(start) && start.storedKey == Step(c, Reset(f)).storedKey && g.keyRead
    ensures GetKey(start, g).key == NewKey(f.now, f.rand)
  {
    hide IsKey, NewKey, Trim;
    NewKeyHasNoSpace(f.now, f.rand);
  }
}
