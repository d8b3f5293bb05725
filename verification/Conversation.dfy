/**
 The dashboard chat: the conversation key kept in memory and in session storage, the view generation,
 and the sends in flight while the user resets, clears or logs out
 (dashboard/dashboard.js:1080-1131, 1155-1171, 1305-1393, 1420-1463).
 */
module Conversation {
  import opened Text

  // --- conversation keys -------------------------------------------------------------------------

  const PREFIX := "dashboard_chat_"

  predicate IsKeyChar(c: char) {
    IsAlnum(c) || c == '_' || c == '-'
  }

  /** The prefix, `n` digits, an underscore, and 4 to 32 key characters. */
  predicate KeyShape(t: string, n: nat) {
    && |PREFIX| + n + 5 <= |t| <= |PREFIX| + n + 33
    && (forall i :: 0 <= i < |PREFIX| ==> Lower(t[i]) == PREFIX[i])
    && (forall i :: |PREFIX| <= i < |PREFIX| + n ==> IsDigit(t[i]))
    && t[|PREFIX| + n] == '_'
    && (forall i :: |PREFIX| + n < i < |t| ==> IsKeyChar(t[i]))
  }

  predicate IsKey(value: string) {
    exists n: nat :: 8 <= n <= 20 && KeyShape(Trim(value, JS_SPACE), n)
  }

  /** A new key from the clock and a random suffix. */
  function NewKey(now: string, rand: string): string {
    PREFIX + now + "_" + rand
  }

  // --- the state ---------------------------------------------------------------------------------

  /** What storage and the clock do during one event: which accesses succeed, and the parts of a new key. */
  datatype Fate = Fate(
    keyRead: bool, keyWrite: bool, keyRemove: bool, historyRead: bool, historyWrite: bool, historyRemove: bool,
    now: string, rand: string)

  /** A message bubble; a reply names the send it answers. */
  datatype Bubble = UserBubble(text: string) | ReplyBubble(text: string, send: nat) | NoticeBubble

  datatype Send = Send(key: string, generation: nat, waiting: bool)

  /** The page: key and generation in memory, session storage, the sends so far, and everything that was
      ever rendered or successfully saved. */
  datatype Chat = Chat(
    volatileKey: string, authoritative: bool, generation: nat, storedKey: string, history: seq<Bubble>,
    sends: seq<Send>, rendered: seq<Bubble>, saved: seq<Bubble>)

  const HISTORY_LIMIT := 50

  datatype KeyResult = KeyResult(chat: Chat, key: string)

  function Remember(c: Chat, key: string, authoritative: bool, f: Fate): Chat {
    c.(volatileKey := key, authoritative := authoritative, storedKey := if f.keyWrite then key else c.storedKey)
  }

  function GetKey(c: Chat, f: Fate): KeyResult {
    if c.authoritative && IsKey(c.volatileKey) then KeyResult(c, c.volatileKey)
    else
      var existing := Trim(c.storedKey, JS_SPACE);
      if f.keyRead && IsKey(existing) then KeyResult(c.(volatileKey := existing, authoritative := false), existing)
      else if IsKey(c.volatileKey) then KeyResult(c, c.volatileKey)
      else KeyResult(Remember(c, NewKey(f.now, f.rand), false, f), NewKey(f.now, f.rand))
  }

  function LastOnes(s: seq<Bubble>): seq<Bubble> {
    if |s| > HISTORY_LIMIT then s[|s| - HISTORY_LIMIT..] else s
  }

  function Save(c: Chat, b: Bubble, f: Fate): Chat {
    if f.historyWrite then
      c.(history := LastOnes((if f.historyRead then c.history else []) + [b]), saved := c.saved + [b])
    else c
  }

  function Render(c: Chat, b: Bubble): Chat {
    c.(rendered := c.rendered + [b])
  }

  function ClearHistory(c: Chat, f: Fate): Chat {
    if f.historyRemove then c.(history := []) else c
  }

  datatype Event =
    | Begin(text: string, fate: Fate)
    | Reply(send: nat, text: string, fate: Fate)
    | Reset(fate: Fate)
    | Clear(fate: Fate)
    | Logout(fate: Fate)
    | StorageChanges(key: string)

  function BeginSend(c: Chat, text: string, f: Fate): Chat {
    var k := GetKey(c, f);
    var sent := k.chat.(sends := k.chat.sends + [Send(k.key, k.chat.generation, true)]);
    Save(Render(sent, UserBubble(text)), UserBubble(text), f)
  }

  function Answered(c: Chat, i: nat): Chat
    requires i < |c.sends|
  {
    c.(sends := c.sends[i := c.sends[i].(waiting := false)])
  }

  /** A reply is dropped when the view was reset since, or when the key is no longer the one it was sent with. */
  function FinishSend(c: Chat, i: nat, text: string, f: Fate): Chat {
    if i >= |c.sends| || !c.sends[i].waiting then c
    else
      var done := Answered(c, i);
      if c.sends[i].generation != c.generation then done
      else
        var k := GetKey(done, f);
        if c.sends[i].key != k.key then k.chat
        else Save(Render(k.chat, ReplyBubble(text, i)), ReplyBubble(text, i), f)
  }

  function ResetConversation(c: Chat, f: Fate): Chat {
    var renewed := Remember(c.(generation := c.generation + 1), NewKey(f.now, f.rand), true, f);
    Render(ClearHistory(renewed, f), NoticeBubble)
  }

  function LogOut(c: Chat, f: Fate): Chat {
    var cleared := ClearHistory(c, f);
    cleared.(volatileKey := "", authoritative := false, storedKey := if f.keyRemove then "" else c.storedKey)
  }

  function Step(c: Chat, e: Event): Chat {
    match e
    case Begin(text, f) => BeginSend(c, text, f)
    case Reply(i, text, f) => FinishSend(c, i, text, f)
    case Reset(f) => ResetConversation(c, f)
    case Clear(f) => Render(ClearHistory(c, f), NoticeBubble)
    case Logout(f) => LogOut(c, f)
    case StorageChanges(key) => c.(storedKey := key)
  }

  function Run(c: Chat, events: seq<Event>): Chat {
    if events == [] then c else Step(Run(c, events[..|events| - 1]), events[|events| - 1])
  }

  /** A page right after loading: what session storage held is shown when it could be read. */
  predicate JustLoaded(c: Chat) {
    && c.volatileKey == "" && !c.authoritative && c.generation == 0 && c.sends == [] && c.saved == []
    && (c.rendered == [] || c.rendered == c.history)
  }

  // --- the page as an object ---------------------------------------------------------------------

  class ChatSurface {
    var volatileKey: string
    var authoritative: bool
    var generation: nat
    var storedKey: string
    var history: seq<Bubble>
    var sends: seq<Send>
    var rendered: seq<Bubble>
    var saved: seq<Bubble>

    function State(): Chat
      reads this
    {
      Chat(volatileKey, authoritative, generation, storedKey, history, sends, rendered, saved)
    }

    /** Loads the page over what session storage holds from before. */
    constructor (storedKey: string, stored: seq<Bubble>, readable: bool)
      ensures JustLoaded(State()) && this.storedKey == storedKey && history == stored
      ensures readable ==> rendered == stored
    {
      volatileKey, authoritative, generation, this.storedKey := "", false, 0, storedKey;
      history, sends, saved := stored, [], [];
      rendered := if readable then stored else [];
    }

    method RememberKey(key: string, isAuthoritative: bool, f: Fate)
      modifies this
      ensures State() == Remember(old(State()), key, isAuthoritative, f)
    {
      volatileKey, authoritative := key, isAuthoritative;
      if f.keyWrite { storedKey := key; }
    }

    method CurrentKey(f: Fate) returns (key: string)
      modifies this
      ensures KeyResult(State(), key) == GetKey(old(State()), f)
    {
      if authoritative && IsKey(volatileKey) { return volatileKey; }
      if f.keyRead {
        var existing := Trim(storedKey, JS_SPACE);
        if IsKey(existing) {
          volatileKey, authoritative := existing, false;
          return existing;
        }
      }
      if IsKey(volatileKey) { return volatileKey; }
      key := NewKey(f.now, f.rand);
      RememberKey(key, false, f);
    }

    method SaveMessage(b: Bubble, f: Fate) returns (ok: bool)
      modifies this
      ensures State() == Save(old(State()), b, f) && ok == f.historyWrite
    {
      var h := if f.historyRead then history else [];
      h := h + [b];
      if |h| > HISTORY_LIMIT { h := h[|h| - HISTORY_LIMIT..]; }
      if !f.historyWrite { return false; }
      history, saved := h, saved + [b];
      return true;
    }

    method StartSend(text: string, f: Fate) returns (send: nat)
      modifies this
      ensures State() == BeginSend(old(State()), text, f) && send == |old(sends)|
    {
      var key := CurrentKey(f);
      send := |sends|;
      sends := sends + [Send(key, generation, true)];
      rendered := rendered + [UserBubble(text)];
      var ok := SaveMessage(UserBubble(text), f);
    }

    method ReceiveReply(send: nat, text: string, f: Fate)
      modifies this
      ensures State() == FinishSend(old(State()), send, text, f)
    {
      if send >= |sends| || !sends[send].waiting { return; }
      var conversationKey, sendGeneration := sends[send].key, sends[send].generation;
      sends := sends[send := sends[send].(waiting := false)];
      if sendGeneration != generation { return; }
      var key := CurrentKey(f);
      if conversationKey != key { return; }
      rendered := rendered + [ReplyBubble(text, send)];
      var ok := SaveMessage(ReplyBubble(text, send), f);
    }

    method OnReset(f: Fate)
      modifies this
      ensures State() == ResetConversation(old(State()), f)
    {
      generation := generation + 1;
      RememberKey(NewKey(f.now, f.rand), true, f);
      if f.historyRemove { history := []; }
      rendered := rendered + [NoticeBubble];
    }

    method OnLogout(f: Fate)
      modifies this
      ensures State() == LogOut(old(State()), f)
    {
      if f.historyRemove { history := []; }
      volatileKey, authoritative := "", false;
      if f.keyRemove { storedKey := ""; }
    }

    method Handle(e: Event)
      modifies this
      ensures State() == Step(old(State()), e)
    {
      match e {
        case Begin(text, f) => var send := StartSend(text, f);
        case Reply(i, text, f) => ReceiveReply(i, text, f);
        case Reset(f) => OnReset(f);
        case Clear(f) =>
          if f.historyRemove { history := []; }
          rendered := rendered + [NoticeBubble];
        case Logout(f) => OnLogout(f);
        case StorageChanges(key) => storedKey := key;
      }
    }
  }

  // --- stale replies -----------------------------------------------------------------------------

  lemma {:induction false} RunConcat(c: Chat, a: seq<Event>, b: seq<Event>)
    ensures Run(c, a + b) == Run(Run(c, a), b)
  {
    if b == [] {
      assert a + b == a;
    } else {
      assert (a + b)[..|a + b| - 1] == a + b[..|b| - 1];
      RunConcat(c, a, b[..|b| - 1]);
    }
  }

  ghost predicate NoFutureSends(c: Chat) {
    forall i :: 0 <= i < |c.sends| ==> c.sends[i].generation <= c.generation
  }

  ghost predicate SameSends(a: seq<Send>, b: seq<Send>) {
    |a| <= |b| && forall i :: 0 <= i < |a| ==> b[i].generation == a[i].generation && b[i].key == a[i].key
  }

  /** Compared with `c`: sends are only added, each with a generation at least that of `c`; what was added
      to the view and to the saved messages answers only sends of such a generation. */
  ghost predicate Continues(c: Chat, d: Chat) {
    && c.generation <= d.generation && SameSends(c.sends, d.sends)
    && c.rendered <= d.rendered && c.saved <= d.saved
    && (forall i :: |c.sends| <= i < |d.sends| ==> d.sends[i].generation >= c.generation)
    && AnswersFrom(d.rendered, |c.rendered|, d.sends, c.generation)
    && AnswersFrom(d.saved, |c.saved|, d.sends, c.generation)
  }

  /** The replies from index `n` on answer sends of generation at least `g`. */
  ghost predicate AnswersFrom(bubbles: seq<Bubble>, n: nat, sends: seq<Send>, g: nat) {
    forall k :: n <= k < |bubbles| && bubbles[k].ReplyBubble? ==>
      bubbles[k].send < |sends| && sends[bubbles[k].send].generation >= g
  }

  /** The bubbles stayed, or one was added that answers, if anything, a send of this generation. */
  ghost predicate AddsCurrent(a: seq<Bubble>, b: seq<Bubble>, sends: seq<Send>, g: nat) {
    || b == a
    || (&& |b| == |a| + 1 && a <= b
        && (b[|a|].ReplyBubble? ==> b[|a|].send < |sends| && sends[b[|a|].send].generation == g))
  }

  /** What one event can do: only a send of the current generation is started or answered. */
  ghost predicate MovesOn(c: Chat, d: Chat) {
    && c.generation <= d.generation && SameSends(c.sends, d.sends)
    && (forall i :: |c.sends| <= i < |d.sends| ==> d.sends[i].generation == c.generation)
    && AddsCurrent(c.rendered, d.rendered, c.sends, c.generation)
    && AddsCurrent(c.saved, d.saved, c.sends, c.generation)
  }

  lemma GetKeyKeepsRest(c: Chat, f: Fate)
    ensures var d := GetKey(c, f).chat;
            d.generation == c.generation && d.sends == c.sends && d.rendered == c.rendered && d.saved == c.saved
            && d.history == c.history
  {
  }

  /** A bubble rendered, and perhaps saved, that answers nothing or a send of this generation. */
  lemma ShownMovesOn(c: Chat, d: Chat, b: Bubble, f: Fate)
    requires d.generation == c.generation && SameSends(c.sends, d.sends)
    requires d.rendered == c.rendered && d.saved == c.saved
    requires forall i :: |c.sends| <= i < |d.sends| ==> d.sends[i].generation == c.generation
    requires b.ReplyBubble? ==> b.send < |c.sends| && c.sends[b.send].generation == c.generation
    ensures MovesOn(c, Save(Render(d, b), b, f))
  {
    hide LastOnes;
  }

  lemma QuietMovesOn(c: Chat, d: Chat)
    requires d.generation == c.generation && |d.sends| == |c.sends| && SameSends(c.sends, d.sends)
    requires d.rendered == c.rendered && d.saved == c.saved
    ensures MovesOn(c, d)
  {
  }

  lemma NoticeMovesOn(c: Chat, d: Chat)
    requires c.generation <= d.generation && d.sends == c.sends && d.saved == c.saved
    requires d.rendered == c.rendered + [NoticeBubble]
    ensures MovesOn(c, d)
  {
  }

  lemma StepMovesOn(c: Chat, e: Event)
    ensures MovesOn(c, Step(c, e))
  {
    hide GetKey, LastOnes, Save, MovesOn;
    match e
    case Begin(text, f) =>
      GetKeyKeepsRest(c, f);
      var k := GetKey(c, f);
      ShownMovesOn(c, k.chat.(sends := k.chat.sends + [Send(k.key, k.chat.generation, true)]), UserBubble(text), f);
    case Reply(i, text, f) =>
      if i < |c.sends| {
        GetKeyKeepsRest(Answered(c, i), f);
        if c.sends[i].generation == c.generation {
          ShownMovesOn(c, GetKey(Answered(c, i), f).chat, ReplyBubble(text, i), f);
        }
        QuietMovesOn(c, Answered(c, i));
        QuietMovesOn(c, GetKey(Answered(c, i), f).chat);
      }
      QuietMovesOn(c, c);
    case Reset(f) => NoticeMovesOn(c, ResetConversation(c, f));
    case Clear(f) => NoticeMovesOn(c, Step(c, e));
    case Logout(f) => QuietMovesOn(c, LogOut(c, f));
    case StorageChanges(key) => QuietMovesOn(c, Step(c, e));
  }

  lemma AnswersStay(a: seq<Bubble>, b: seq<Bubble>, n: nat, s: seq<Send>, t: seq<Send>, g: nat, h: nat)
    requires AnswersFrom(a, n, s, g) && SameSends(s, t) && AddsCurrent(a, b, s, h) && g <= h
    ensures AnswersFrom(b, n, t, g)
  {
    forall k | n <= k < |b| && b[k].ReplyBubble? ensures b[k].send < |t| && t[b[k].send].generation >= g {
      if k < |a| { assert b[k] == a[k]; }
    }
  }

  lemma MoveContinues(c: Chat, d: Chat, d': Chat)
    requires Continues(c, d) && MovesOn(d, d')
    ensures Continues(c, d')
  {
    AnswersStay(d.rendered, d'.rendered, |c.rendered|, d.sends, d'.sends, c.generation, d.generation);
    AnswersStay(d.saved, d'.saved, |c.saved|, d.sends, d'.sends, c.generation, d.generation);
    hide AnswersFrom;
  }

  lemma {:induction false} RunContinues(c: Chat, events: seq<Event>)
    ensures Continues(c, Run(c, events))
  {
    if events != [] {
      RunContinues(c, events[..|events| - 1]);
      StepMovesOn(Run(c, events[..|events| - 1]), events[|events| - 1]);
      MoveContinues(c, Run(c, events[..|events| - 1]), Run(c, events));
    }
  }

  lemma MoveKeepsSendsPast(c: Chat, d: Chat)
    requires NoFutureSends(c) && MovesOn(c, d)
    ensures NoFutureSends(d)
  {
  }

  lemma {:induction false} RunKeepsSendsPast(start: Chat, events: seq<Event>)
    requires JustLoaded(start)
    ensures NoFutureSends(Run(start, events))
  {
    if events != [] {
      RunKeepsSendsPast(start, events[..|events| - 1]);
      StepMovesOn(Run(start, events[..|events| - 1]), events[|events| - 1]);
      MoveKeepsSendsPast(Run(start, events[..|events| - 1]), Run(start, events));
    }
  }

  /** No bubble from index `n` on answers one of the first `sends` sends. */
  ghost predicate NoAnswerTo(bubbles: seq<Bubble>, n: nat, sends: nat) {
    forall k :: n <= k < |bubbles| && bubbles[k].ReplyBubble? ==> bubbles[k].send >= sends
  }

  /** Whatever happens before and after a reset, with storage failing or changing at will: no reply to a
      send started before the reset is rendered or saved after it. */
  lemma StaleRepliesAreDropped(start: Chat, before: seq<Event>, f: Fate, after: seq<Event>)
    requires JustLoaded(start)
    ensures var c := Run(start, before);
            var d := Run(start, before + [Reset(f)] + after);
            NoAnswerTo(d.rendered, |c.rendered|, |c.sends|) && NoAnswerTo(d.saved, |c.saved|, |c.sends|)
  {
    hide Run, ResetConversation;
    var c := Run(start, before);
    var r := Run(start, before + [Reset(f)]);
    var d := Run(start, before + [Reset(f)] + after);
    RunKeepsSendsPast(start, before);
    RunConcat(start, before + [Reset(f)], after);
    RunContinues(r, after);
    assert r == ResetConversation(c, f) by { OneMore(start, before, Reset(f)); }
    AfterReset(c, f, d);
  }

  lemma OneMore(c: Chat, events: seq<Event>, e: Event)
    ensures Run(c, events + [e]) == Step(Run(c, events), e)
  {
    assert (events + [e])[..|events|] == events;
  }

  lemma AfterReset(c: Chat, f: Fate, d: Chat)
    requires NoFutureSends(c) && Continues(ResetConversation(c, f), d)
    ensures NoAnswerTo(d.rendered, |c.rendered|, |c.sends|) && NoAnswerTo(d.saved, |c.saved|, |c.sends|)
  {
    var r := ResetConversation(c, f);
    assert r.rendered == c.rendered + [NoticeBubble] && r.saved == c.saved && r.sends == c.sends;
    assert r.rendered[|c.rendered|] == NoticeBubble;
  }

  // --- the key after a reset ---------------------------------------------------------------------

  predicate KeepsConversation(e: Event) {
    !e.Reset? && !e.Logout?
  }

  ghost predicate AllKeep(events: seq<Event>) {
    forall i :: 0 <= i < |events| ==> KeepsConversation(events[i])
  }

  ghost predicate Holds(c: Chat, key: string, generation: nat) {
    c.volatileKey == key && c.authoritative && c.generation == generation
  }

  lemma StepHolds(c: Chat, key: string, e: Event)
    requires Holds(c, key, c.generation) && IsKey(key) && KeepsConversation(e)
    ensures Holds(Step(c, e), key, c.generation)
  {
    hide IsKey, LastOnes;
  }

  lemma {:induction false} RunHolds(c: Chat, key: string, events: seq<Event>)
    requires Holds(c, key, c.generation) && IsKey(key) && AllKeep(events)
    ensures Holds(Run(c, events), key, c.generation)
  {
    hide IsKey;
    if events != [] {
      RunHolds(c, key, events[..|events| - 1]);
      assert KeepsConversation(events[|events| - 1]);
      StepHolds(Run(c, events[..|events| - 1]), key, events[|events| - 1]);
    }
  }

  /** A well-formed key set by a reset is what every later look-up returns, whatever session storage does,
      until the next reset or logout. */
  lemma ResetKeyIsStable(c: Chat, f: Fate, events: seq<Event>, g: Fate)
    requires IsKey(NewKey(f.now, f.rand)) && AllKeep(events)
    ensures GetKey(Run(Step(c, Reset(f)), events), g).key == NewKey(f.now, f.rand)
  {
    hide IsKey, Run;
    RunHolds(Step(c, Reset(f)), NewKey(f.now, f.rand), events);
  }

  /** An ill-formed key set by a reset is never returned by a look-up that can make a different new one. */
  lemma IllFormedKeyIsLost(c: Chat, f: Fate, g: Fate)
    requires !IsKey(NewKey(f.now, f.rand)) && NewKey(g.now, g.rand) != NewKey(f.now, f.rand)
    ensures GetKey(Step(c, Reset(f)), g).key != NewKey(f.now, f.rand)
  {
    hide IsKey, NewKey;
  }

  predicate AllDigits(s: string) {
    forall i :: 0 <= i < |s| ==> IsDigit(s[i])
  }

  predicate AllAlnum(s: string) {
    forall i :: 0 <= i < |s| ==> IsAlnum(s[i])
  }

  lemma NothingTrimmed(s: string, from: nat, to: nat)
    requires from <= to <= |s| && s != "" && forall i :: 0 <= i < from || to <= i < |s| ==> s[i] in JS_SPACE
    requires forall i :: 0 <= i < |s| ==> s[i] !in JS_SPACE
    ensures from == 0 && to == |s|
  {
    var i := if from > 0 then 0 else |s| - 1;
    assert s[i] !in JS_SPACE;
  }

  lemma NewKeyHasNoSpace(now: string, rand: string)
    requires AllDigits(now) && AllAlnum(rand)
    ensures Trim(NewKey(now, rand), JS_SPACE) == NewKey(now, rand)
  {
    var key := NewKey(now, rand);
    var from, to := TrimSplits(key, JS_SPACE);
    forall i | 0 <= i < |key| ensures key[i] !in JS_SPACE {
      KeyCharacters(now, rand, i);
    }
    assert from == 0 && to == |key| by { NothingTrimmed(key, from, to); }
  }

  lemma KeyCharacters(now: string, rand: string, i: nat)
    requires AllDigits(now) && AllAlnum(rand) && i < |NewKey(now, rand)|
    ensures var n := |PREFIX|;
            NewKey(now, rand)[i] == if i < n then PREFIX[i] else if i < n + |now| then now[i - n]
                                    else if i == n + |now| then '_' else rand[i - n - |now| - 1]
    ensures IsKeyChar(NewKey(now, rand)[i])
  {
    assert forall j :: 0 <= j < |PREFIX| ==> IsKeyChar(PREFIX[j]);
  }

  /** A new key is well formed exactly when the clock reading has 8 to 20 digits and the random suffix has
      4 to 32 characters; the suffix can be shorter. */
  lemma NewKeyIsWellFormedIff(now: string, rand: string)
    requires AllDigits(now) && AllAlnum(rand)
    ensures IsKey(NewKey(now, rand)) <==> 8 <= |now| <= 20 && 4 <= |rand| <= 32
  {
    hide Trim;
    var key, n := NewKey(now, rand), |PREFIX|;
    NewKeyHasNoSpace(now, rand);
    forall i | 0 <= i < |key|
      ensures key[i] == if i < n then PREFIX[i] else if i < n + |now| then now[i - n]
                        else if i == n + |now| then '_' else rand[i - n - |now| - 1]
      ensures IsKeyChar(key[i])
    {
      KeyCharacters(now, rand, i);
    }
    assert forall j :: 0 <= j < n ==> Lower(PREFIX[j]) == PREFIX[j];
    if 8 <= |now| <= 20 && 4 <= |rand| <= 32 { assert KeyShape(key, |now|); }
    forall m: nat | KeyShape(key, m) ensures m == |now| {
      assert key[n + m] == '_';
    }
  }

  /** Once a look-up could read session storage, the next one returns the same well-formed key, whether or not
      storage then fails. */
  lemma LookUpIsStable(c: Chat, f: Fate, g: Fate)
    requires f.keyRead && AllDigits(f.now) && AllAlnum(f.rand) && IsKey(GetKey(c, f).key)
    ensures GetKey(GetKey(c, f).chat, g).key == GetKey(c, f).key
  {
    hide IsKey, NewKey, Trim;
    NewKeyHasNoSpace(f.now, f.rand);
  }

  // --- fresh replies -----------------------------------------------------------------------------

  /** The sends since the reset carry its key and generation; the earlier ones an earlier generation. */
  ghost predicate SentWith(c: Chat, n: nat, key: string, generation: nat) {
    forall i :: 0 <= i < |c.sends| ==>
      if i < n then c.sends[i].generation < generation else c.sends[i].generation == generation && c.sends[i].key == key
  }

  lemma StepSentWith(c: Chat, n: nat, key: string, e: Event)
    requires Holds(c, key, c.generation) && IsKey(key) && KeepsConversation(e) && SentWith(c, n, key, c.generation)
    requires n <= |c.sends|
    ensures SentWith(Step(c, e), n, key, c.generation) && n <= |Step(c, e).sends|
  {
    hide IsKey, LastOnes;
  }

  lemma {:induction false} RunSentWith(c: Chat, n: nat, key: string, events: seq<Event>)
    requires Holds(c, key, c.generation) && IsKey(key) && AllKeep(events) && SentWith(c, n, key, c.generation)
    requires n <= |c.sends|
    ensures SentWith(Run(c, events), n, key, c.generation) && n <= |Run(c, events).sends|
  {
    hide IsKey;
    if events != [] {
      var before := Run(c, events[..|events| - 1]);
      RunSentWith(c, n, key, events[..|events| - 1]);
      RunHolds(c, key, events[..|events| - 1]);
      assert KeepsConversation(events[|events| - 1]);
      StepSentWith(before, n, key, events[|events| - 1]);
    }
  }

  lemma ReplyIsShown(c: Chat, key: string, n: nat, i: nat, text: string, f: Fate)
    requires Holds(c, key, c.generation) && IsKey(key) && SentWith(c, n, key, c.generation)
    requires i < |c.sends| && c.sends[i].waiting
    ensures Step(c, Reply(i, text, f)).rendered == c.rendered + (if i >= n then [ReplyBubble(text, i)] else [])
  {
    hide IsKey, LastOnes;
  }

  /** After a reset with a well-formed key and until the next reset or logout, an arriving reply is rendered
      exactly when its send was started after the reset. */
  lemma ReplyShownIffSentSinceReset(start: Chat, before: seq<Event>, f: Fate, after: seq<Event>,
                                    i: nat, text: string, g: Fate)
    requires JustLoaded(start)
    requires IsKey(NewKey(f.now, f.rand)) && AllKeep(after)
    requires var d := Run(Step(Run(start, before), Reset(f)), after); i < |d.sends| && d.sends[i].waiting
    ensures var d := Run(Step(Run(start, before), Reset(f)), after);
            Step(d, Reply(i, text, g)).rendered
            == d.rendered + (if i >= |Run(start, before).sends| then [ReplyBubble(text, i)] else [])
  {
    hide IsKey, Run;
    var c := Run(start, before);
    var r := Step(c, Reset(f));
    var key := NewKey(f.now, f.rand);
    RunKeepsSendsPast(start, before);
    RunHolds(r, key, after);
    RunSentWith(r, |c.sends|, key, after);
    ReplyIsShown(Run(r, after), key, |c.sends|, i, text, g);
  }

  // --- the saved history -------------------------------------------------------------------------

  ghost predicate EndsWith(all: seq<Bubble>, end: seq<Bubble>) {
    |end| <= |all| && end == all[|all| - |end|..]
  }

  /** The stored history is a run of the most recent messages, counting those stored before the page was loaded, and
      at most fifty unless it is still exactly what was stored then. */
  ghost predicate HistoryOk(c: Chat, earlier: seq<Bubble>) {
    (|c.history| <= HISTORY_LIMIT || c.history == earlier) && EndsWith(earlier + c.saved, c.history)
  }

  lemma EndsWithOneMore(all: seq<Bubble>, end: seq<Bubble>, b: Bubble)
    requires EndsWith(all, end)
    ensures EndsWith(all + [b], end + [b])
  {
  }

  lemma EndsWithLastOnes(all: seq<Bubble>, end: seq<Bubble>)
    requires EndsWith(all, end)
    ensures EndsWith(all, LastOnes(end)) && |LastOnes(end)| <= HISTORY_LIMIT
  {
  }

  lemma SaveKeepsHistory(earlier: seq<Bubble>, c: Chat, b: Bubble, f: Fate)
    requires HistoryOk(c, earlier)
    ensures HistoryOk(Save(c, b, f), earlier)
  {
    if f.historyWrite {
      SavedParts(c, b, f);
      hide EndsWith, LastOnes, Save;
      var kept, all := if f.historyRead then c.history else [], earlier + c.saved;
      assert EndsWith(all, kept) by { NothingEnds(all); }
      EndsWithOneMore(all, kept, b);
      EndsWithLastOnes(all + [b], kept + [b]);
      assert earlier + (c.saved + [b]) == all + [b];
    }
  }

  lemma SavedParts(c: Chat, b: Bubble, f: Fate)
    requires f.historyWrite
    ensures Save(c, b, f).history == LastOnes((if f.historyRead then c.history else []) + [b])
    ensures Save(c, b, f).saved == c.saved + [b]
  {
    hide LastOnes;
  }

  lemma NothingEnds(all: seq<Bubble>)
    ensures EndsWith(all, [])
  {
  }

  lemma SameHistory(earlier: seq<Bubble>, c: Chat, d: Chat)
    requires HistoryOk(c, earlier) && d.history == c.history && d.saved == c.saved
    ensures HistoryOk(d, earlier)
  {
  }

  lemma BeginKeepsHistory(earlier: seq<Bubble>, c: Chat, text: string, f: Fate)
    requires HistoryOk(c, earlier)
    ensures HistoryOk(BeginSend(c, text, f), earlier)
  {
    hide GetKey, Save, HistoryOk;
    GetKeyKeepsRest(c, f);
    var k := GetKey(c, f);
    var sent := Render(k.chat.(sends := k.chat.sends + [Send(k.key, k.chat.generation, true)]), UserBubble(text));
    SameHistory(earlier, c, sent);
    SaveKeepsHistory(earlier, sent, UserBubble(text), f);
  }

  lemma ReplyKeepsHistory(earlier: seq<Bubble>, c: Chat, i: nat, text: string, f: Fate)
    requires HistoryOk(c, earlier)
    ensures HistoryOk(FinishSend(c, i, text, f), earlier)
  {
    hide GetKey, Save, HistoryOk;
    if i < |c.sends| {
      var done := Answered(c, i);
      GetKeyKeepsRest(done, f);
      var k := GetKey(done, f).chat;
      SameHistory(earlier, c, done);
      SameHistory(earlier, c, k);
      SameHistory(earlier, c, Render(k, ReplyBubble(text, i)));
      SaveKeepsHistory(earlier, Render(k, ReplyBubble(text, i)), ReplyBubble(text, i), f);
    }
  }

  lemma StepKeepsHistory(earlier: seq<Bubble>, c: Chat, e: Event)
    requires HistoryOk(c, earlier)
    ensures HistoryOk(Step(c, e), earlier)
  {
    hide BeginSend, FinishSend;
    match e
    case Begin(text, f) => BeginKeepsHistory(earlier, c, text, f);
    case Reply(i, text, f) => ReplyKeepsHistory(earlier, c, i, text, f);
    case _ =>
  }

  /** Whatever is sent, answered, reset, cleared or refused by storage. */
  lemma {:induction false} HistoryIsRecent(start: Chat, events: seq<Event>)
    requires JustLoaded(start)
    ensures HistoryOk(Run(start, events), start.history)
  {
    if events != [] {
      HistoryIsRecent(start, events[..|events| - 1]);
      StepKeepsHistory(start.history, Run(start, events[..|events| - 1]), events[|events| - 1]);
    }
  }
}
