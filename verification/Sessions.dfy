/** What an output plugin's thread does with a message is a legal stretch of a delivery session, as long as
    the sandbox's callbacks are nil or name a message in flight. */
module Sessions {
  import opened OutputPlugin
  import D = Delivery

  // ---- stretches of a session ----

  predicate CanPlay(s: D.Session, events: seq<D.Event>)
    decreases |events|, 0
  {
    events == [] ||
    var most := events[..|events| - 1];
    CanPlay(s, most) && D.Shaped(Play(s, most)) && D.Enabled(Play(s, most), events[|events| - 1])
  }

  function Play(s: D.Session, events: seq<D.Event>): D.Session
    requires CanPlay(s, events)
    decreases |events|, 1
  {
    if events == [] then s else D.Next(Play(s, events[..|events| - 1]), events[|events| - 1])
  }

  /** Everything proved of sessions goes on to hold, and the plugin's fields are the fold of the events. */
  lemma {:induction false} PlayKeeps(s: D.Session, events: seq<D.Event>)
    requires D.Inv(s) && CanPlay(s, events)
    ensures D.Inv(Play(s, events)) && |s.d.ring| == s.d.asyncLen
    ensures Play(s, events).d == Fold(s.d, events)
    ensures Play(s, events).d.asyncLen == s.d.asyncLen
  {
    hide D.Inv, D.Enabled;
    InvRing(s);
    if events != [] {
      var most := events[..|events| - 1];
      PlayKeeps(s, most);
      D.InvKept(Play(s, most), events[|events| - 1]);
    }
  }

  lemma InvRing(s: D.Session)
    requires D.Inv(s)
    ensures |s.d.ring| == s.d.asyncLen && D.Shaped(s)
  {
  }

  lemma PlaySnoc(s: D.Session, events: seq<D.Event>, e: D.Event)
    requires CanPlay(s, events) && D.Shaped(Play(s, events)) && D.Enabled(Play(s, events), e)
    ensures CanPlay(s, events + [e]) && Play(s, events + [e]) == D.Next(Play(s, events), e)
  {
    assert (events + [e])[..|events|] == events;
  }

  lemma PlayOne(s: D.Session, e: D.Event)
    requires D.Shaped(s) && D.Enabled(s, e)
    ensures CanPlay(s, [e]) && Play(s, [e]) == D.Next(s, e)
  {
    PlaySnoc(s, [], e);
    assert [] + [e] == [e];
  }

  lemma {:induction false} PlayConcat(s: D.Session, a: seq<D.Event>, b: seq<D.Event>)
    requires CanPlay(s, a) && CanPlay(Play(s, a), b)
    ensures CanPlay(s, a + b) && Play(s, a + b) == Play(Play(s, a), b)
  {
    hide D.Next, D.Enabled, D.Shaped;
    if b == [] {
      assert a + b == a;
    } else {
      var most, e := b[..|b| - 1], b[|b| - 1];
      PlayConcat(s, a, most);
      PlaySnoc(s, a + most, e);
      assert a + b == (a + most) + [e];
    }
  }

  // ---- one attempt ----

  /** The sandbox's side: with `handed` messages handed over so far a callback names nothing or one of the
      last `asyncLen` of them. */
  predicate CallsOk(ids: seq<nat>, handed: nat, asyncLen: nat) {
    forall k :: 0 <= k < |ids| ==> ids[k] == 0 || asyncLen == 0 || 1 <= ids[k] <= handed < ids[k] + asyncLen
  }

  predicate AttemptOk(a: Attempt, handed: nat, asyncLen: nat) {
    CallsOk(a.pm.calls, handed, asyncLen) && CallsOk(a.timer.calls, handed, asyncLen)
  }

  lemma {:induction false} CallsPlay(s: D.Session, ids: seq<nat>)
    requires D.Inv(s) && !s.dead && CallsOk(ids, |s.h.entry|, s.d.asyncLen) && (s.h.open ==> s.h.handed)
    ensures CanPlay(s, Calls(ids))
    ensures var t := Play(s, Calls(ids));
            && D.Inv(t) && !t.dead && t.d.asyncLen == s.d.asyncLen
            && t.h.src == s.h.src && t.h.entry == s.h.entry && t.h.open == s.h.open && t.h.handed == s.h.handed
  {
    hide D.Inv;
    InvRing(s);
    if ids != [] {
      var most, id := ids[..|ids| - 1], ids[|ids| - 1];
      CallsPlay(s, most);
      var t := Play(s, Calls(most));
      InvRing(t);
      PlaySnoc(s, Calls(most), D.Calling(id));
      D.InvKept(t, D.Calling(id));
      CallChanges(t, id);
    }
  }

  lemma CallChanges(s: D.Session, id: nat)
    requires D.Shaped(s) && D.Enabled(s, D.Calling(id))
    ensures var t := D.Next(s, D.Calling(id));
            && t.dead == s.dead && t.d.asyncLen == s.d.asyncLen
            && t.h.src == s.h.src && t.h.entry == s.h.entry && t.h.open == s.h.open && t.h.handed == s.h.handed
  {
  }

  /** A session whose last message waits for an attempt, the first or another one. */
  ghost predicate Waits(s: D.Session) {
    D.Inv(s) && !s.dead && s.h.open
  }

  function Entries(s: D.Session): nat {
    |s.h.entry| + if s.h.handed then 0 else 1
  }

  lemma HandPlays(s: D.Session)
    requires Waits(s)
    ensures CanPlay(s, [D.Handing])
    ensures var t := Play(s, [D.Handing]);
            && Waits(t) && t.h.handed && t.d.asyncLen == s.d.asyncLen
            && t.h.src == s.h.src && |t.h.entry| == Entries(s)
  {
    hide D.Inv;
    InvRing(s);
    PlayOne(s, D.Handing);
    D.InvKept(s, D.Handing);
  }

  lemma AnswerPlays(s: D.Session, ret: D.Answer)
    requires Waits(s) && s.h.handed
    ensures CanPlay(s, [D.Answering(ret)])
    ensures var t := Play(s, [D.Answering(ret)]);
            && D.Inv(t) && (t.dead <==> D.Ends(s.d, ret)) && t.d.asyncLen == s.d.asyncLen
            && t.h.src == s.h.src && t.h.entry == s.h.entry
            && (!t.dead ==> t.h.open == t.h.handed == ret.Retry?)
  {
    hide D.Inv;
    InvRing(s);
    PlayOne(s, D.Answering(ret));
    D.InvKept(s, D.Answering(ret));
  }

  lemma SkipPlays(s: D.Session)
    requires Waits(s) && !s.h.handed
    ensures CanPlay(s, [D.Skipping])
    ensures var t := Play(s, [D.Skipping]);
            && D.Inv(t) && !t.dead && !t.h.open && t.d.asyncLen == s.d.asyncLen
            && t.h.src == s.h.src && t.h.entry == s.h.entry
  {
    hide D.Inv;
    InvRing(s);
    PlayOne(s, D.Skipping);
    D.InvKept(s, D.Skipping);
  }

  lemma MessagePlays(s: D.Session, a: Attempt)
    requires Waits(s) && (s.h.handed ==> a.matched)
    requires a.matched ==> CallsOk(a.pm.calls, Entries(s), s.d.asyncLen)
    ensures CanPlay(s, MessageEvents(a))
    ensures var t := Play(s, MessageEvents(a));
            && D.Inv(t) && (t.dead <==> MessageEnds(a, s.d.asyncLen)) && t.d.asyncLen == s.d.asyncLen
            && t.h.src == s.h.src && |t.h.entry| == (if a.matched then Entries(s) else |s.h.entry|)
            && (!t.dead ==> t.h.open == t.h.handed == (a.matched && a.pm.ret.Retry?))
  {
    hide D.Inv, CanPlay, Play, CallsOk;
    if a.matched {
      HandPlays(s);
      var h := Play(s, [D.Handing]);
      CallsPlay(h, a.pm.calls);
      PlayConcat(s, [D.Handing], Calls(a.pm.calls));
      var c := Play(h, Calls(a.pm.calls));
      AnswerPlays(c, a.pm.ret);
      PlayConcat(s, [D.Handing] + Calls(a.pm.calls), [D.Answering(a.pm.ret)]);
    } else {
      SkipPlays(s);
      InvHanded(Play(s, [D.Skipping]));
    }
  }

  lemma InvHanded(s: D.Session)
    requires D.Inv(s)
    ensures s.h.handed ==> s.h.open
  {
  }

  /** One call of output_message is a legal stretch. It leaves the message waiting exactly if the answer
      was RETRY, and ends the session exactly if the plugin must stop because of the answer. */
  lemma AttemptPlays(s: D.Session, a: Attempt)
    requires Waits(s) && (s.h.handed ==> a.matched)
    requires AttemptOk(a, if a.matched then Entries(s) else |s.h.entry|, s.d.asyncLen)
    ensures CanPlay(s, AttemptEvents(a, s.d.asyncLen))
    ensures var t := Play(s, AttemptEvents(a, s.d.asyncLen));
            && D.Inv(t) && (t.dead <==> MessageEnds(a, s.d.asyncLen)) && t.d.asyncLen == s.d.asyncLen
            && t.h.src == s.h.src && |t.h.entry| == (if a.matched then Entries(s) else |s.h.entry|)
            && (!t.dead ==> t.h.open == t.h.handed == (a.matched && a.pm.ret.Retry?))
  {
    hide D.Inv, CanPlay, Play, CallsOk, MessageEvents, MessageEnds;
    MessagePlays(s, a);
    var m := Play(s, MessageEvents(a));
    if a.timerDue && !MessageEnds(a, s.d.asyncLen) {
      CallsPlay(m, a.timer.calls);
      PlayConcat(s, MessageEvents(a), Calls(a.timer.calls));
    } else {
      assert MessageEvents(a) + [] == MessageEvents(a);
    }
  }

  // ---- the retry loop ----

  /** All attempts but the last were answered RETRY, and the message matches at all of them or at none. */
  predicate Retries(attempts: seq<Attempt>, asyncLen: nat) {
    && (forall k :: 0 <= k < |attempts| - 1 ==> Outcome(attempts[k], asyncLen) == D.Retry)
    && (forall k :: 0 < k < |attempts| ==> attempts[k].matched)
  }

  /** The attempts at a message that has just been taken are a legal stretch. */
  lemma {:induction false} RetryLoopPlays(s: D.Session, attempts: seq<Attempt>)
    requires Waits(s) && !s.h.handed && Retries(attempts, s.d.asyncLen)
    requires forall k :: 0 <= k < |attempts| ==>
               AttemptOk(attempts[k], |s.h.entry| + (if attempts[k].matched then 1 else 0), s.d.asyncLen)
    ensures CanPlay(s, AllEvents(attempts, s.d.asyncLen))
    ensures var t := Play(s, AllEvents(attempts, s.d.asyncLen));
            && D.Inv(t) && t.d.asyncLen == s.d.asyncLen && t.h.src == s.h.src
            && (attempts == [] ==> t == s)
            && (attempts != [] ==>
                  var a := attempts[|attempts| - 1];
                  && (t.dead <==> MessageEnds(a, s.d.asyncLen))
                  && |t.h.entry| == |s.h.entry| + (if a.matched then 1 else 0)
                  && (!t.dead ==> t.h.open == t.h.handed == (a.matched && a.pm.ret.Retry?)))
  {
    hide D.Inv, CanPlay, AttemptEvents, AttemptOk;
    if attempts == [] {
      PlayNothing(s);
    } else {
      var most, a := attempts[..|attempts| - 1], attempts[|attempts| - 1];
      RetryLoopPlays(s, most);
      var m := Play(s, AllEvents(most, s.d.asyncLen));
      if most != [] {
        var b := most[|most| - 1];
        assert b == attempts[|most| - 1] && Outcome(b, s.d.asyncLen) == D.Retry;
      }
      AttemptPlays(m, a);
      PlayConcat(s, AllEvents(most, s.d.asyncLen), AttemptEvents(a, s.d.asyncLen));
    }
  }

  lemma PlayNothing(s: D.Session)
    ensures CanPlay(s, []) && Play(s, []) == s
  {
  }

  // ---- what the attempts have settled ----

  /** Some callback reaches the message with this sequence number, the last one handed over. */
  predicate CallsReach(ids: seq<nat>, number: nat, asyncLen: nat) {
    exists k :: 0 <= k < |ids| && (ids[k] == 0 || asyncLen == 0 || ids[k] >= number)
  }

  /** The message does not match or is sent, failed or skipped, or a callback reaches it. */
  predicate AttemptSettles(a: Attempt, number: nat, asyncLen: nat) {
    || !a.matched
    || a.pm.ret.Sent? || a.pm.ret.Fail? || a.pm.ret.Skip?
    || CallsReach(a.pm.calls, number, asyncLen)
    || (a.timerDue && !MessageEnds(a, asyncLen) && CallsReach(a.timer.calls, number, asyncLen))
  }

  /** The last message taken, and whether it is settled. */
  predicate LastSettled(s: D.Session) {
    s.h.src != [] && |s.h.src| - 1 in s.h.settled
  }

  /** The last sequence number is that of the last message taken. */
  predicate LastHanded(s: D.Session) {
    s.h.entry != [] && s.h.entry[|s.h.entry| - 1] == |s.h.src| - 1
  }

  lemma {:induction false} CallsSettle(s: D.Session, ids: seq<nat>)
    requires D.Inv(s) && !s.dead && CallsOk(ids, |s.h.entry|, s.d.asyncLen) && (s.h.open ==> s.h.handed)
    requires LastHanded(s)
    ensures CanPlay(s, Calls(ids))
    ensures LastSettled(Play(s, Calls(ids))) <==> LastSettled(s) || CallsReach(ids, |s.h.entry|, s.d.asyncLen)
  {
    hide D.Inv, LastSettled, D.Next, D.Enabled, D.Shaped, CallsReach, CallsOk;
    CallsPlay(s, ids);
    if ids == [] {
      NoneReach(s.h.entry, s.d.asyncLen);
    } else {
      var most, id := ids[..|ids| - 1], ids[|ids| - 1];
      FewerOk(ids, |s.h.entry|, s.d.asyncLen);
      CallsSettle(s, most);
      CallsPlay(s, most);
      LastCall(s, ids);
      CallSettles(Play(s, Calls(most)), id);
      ReachNext(ids, |s.h.entry|, s.d.asyncLen);
    }
  }

  lemma NoneReach(entry: seq<nat>, asyncLen: nat)
    ensures !CallsReach([], |entry|, asyncLen)
  {
  }

  lemma ReachNext(ids: seq<nat>, number: nat, asyncLen: nat)
    requires ids != []
    ensures var id := ids[|ids| - 1];
            CallsReach(ids, number, asyncLen) <==>
              CallsReach(ids[..|ids| - 1], number, asyncLen) || id == 0 || asyncLen == 0 || id >= number
  {
    var most := ids[..|ids| - 1];
    if CallsReach(most, number, asyncLen) {
      var k :| 0 <= k < |most| && (most[k] == 0 || asyncLen == 0 || most[k] >= number);
      assert ids[k] == most[k];
    }
  }

  lemma FewerOk(ids: seq<nat>, handed: nat, asyncLen: nat)
    requires ids != [] && CallsOk(ids, handed, asyncLen)
    ensures CallsOk(ids[..|ids| - 1], handed, asyncLen)
  {
  }

  lemma LastCall(s: D.Session, ids: seq<nat>)
    requires ids != [] && CanPlay(s, Calls(ids))
    ensures var most, e := Calls(ids[..|ids| - 1]), D.Calling(ids[|ids| - 1]);
            && CanPlay(s, most) && D.Shaped(Play(s, most)) && D.Enabled(Play(s, most), e)
            && Play(s, Calls(ids)) == D.Next(Play(s, most), e)
  {
    hide D.Next, D.Enabled, D.Shaped;
    var most, e := Calls(ids[..|ids| - 1]), D.Calling(ids[|ids| - 1]);
    assert Calls(ids) == most + [e] && (most + [e])[..|most|] == most;
  }

  lemma CallSettles(s: D.Session, id: nat)
    requires D.Inv(s) && D.Enabled(s, D.Calling(id))
    requires LastHanded(s)
    ensures LastSettled(D.Next(s, D.Calling(id))) <==>
            LastSettled(s) || id == 0 || s.d.asyncLen == 0 || id >= |s.h.entry|
  {
  }

  lemma AnswerSettles(s: D.Session, ret: D.Answer)
    requires D.Inv(s) && D.Enabled(s, D.Answering(ret))
    ensures LastSettled(D.Next(s, D.Answering(ret))) <==>
            LastSettled(s) || ret.Sent? || ret.Fail? || ret.Skip?
  {
  }

  lemma HandSettles(s: D.Session)
    requires Waits(s)
    ensures LastSettled(D.Next(s, D.Handing)) <==> LastSettled(s)
    ensures LastHanded(D.Next(s, D.Handing))
  {
  }

  lemma SkipSettles(s: D.Session)
    requires Waits(s) && !s.h.handed
    ensures LastSettled(D.Next(s, D.Skipping))
  {
  }

  lemma {:induction false} CallsKeepSettled(s: D.Session, ids: seq<nat>)
    requires D.Inv(s) && !s.dead && CallsOk(ids, |s.h.entry|, s.d.asyncLen) && (s.h.open ==> s.h.handed)
    requires LastSettled(s)
    ensures CanPlay(s, Calls(ids)) && LastSettled(Play(s, Calls(ids)))
  {
    hide D.Inv, LastSettled, D.Next, D.Enabled, D.Shaped, CallsOk;
    CallsPlay(s, ids);
    if ids != [] {
      var most, id := ids[..|ids| - 1], ids[|ids| - 1];
      FewerOk(ids, |s.h.entry|, s.d.asyncLen);
      CallsKeepSettled(s, most);
      CallsPlay(s, most);
      LastCall(s, ids);
      CallKeeps(Play(s, Calls(most)), id);
    }
  }

  lemma CallKeeps(s: D.Session, id: nat)
    requires D.Inv(s) && D.Enabled(s, D.Calling(id)) && LastSettled(s)
    ensures LastSettled(D.Next(s, D.Calling(id)))
  {
  }

  lemma MessageSettles(s: D.Session, a: Attempt)
    requires Waits(s) && (s.h.handed ==> a.matched)
    requires a.matched ==> CallsOk(a.pm.calls, Entries(s), s.d.asyncLen)
    ensures CanPlay(s, MessageEvents(a))
    ensures var t := Play(s, MessageEvents(a));
            && (LastSettled(t) <==>
                  || LastSettled(s) || !a.matched || a.pm.ret.Sent? || a.pm.ret.Fail? || a.pm.ret.Skip?
                  || CallsReach(a.pm.calls, Entries(s), s.d.asyncLen))
            && (a.matched ==> LastHanded(t))
  {
    hide D.Inv, CanPlay, Play, CallsOk, CallsReach, LastSettled;
    MessagePlays(s, a);
    if a.matched {
      HandPlays(s);
      InvRing(s);
      PlayOne(s, D.Handing);
      HandSettles(s);
      var h := Play(s, [D.Handing]);
      CallsPlay(h, a.pm.calls);
      CallsSettle(h, a.pm.calls);
      PlayConcat(s, [D.Handing], Calls(a.pm.calls));
      var c := Play(h, Calls(a.pm.calls));
      InvRing(c);
      AnswerPlays(c, a.pm.ret);
      PlayOne(c, D.Answering(a.pm.ret));
      AnswerSettles(c, a.pm.ret);
      PlayConcat(s, [D.Handing] + Calls(a.pm.calls), [D.Answering(a.pm.ret)]);
    } else {
      InvRing(s);
      PlayOne(s, D.Skipping);
      SkipSettles(s);
    }
  }

  /** Whether one call of output_message settles the message. */
  lemma AttemptSettled(s: D.Session, a: Attempt)
    requires Waits(s) && (s.h.handed ==> a.matched)
    requires AttemptOk(a, if a.matched then Entries(s) else |s.h.entry|, s.d.asyncLen)
    ensures CanPlay(s, AttemptEvents(a, s.d.asyncLen))
    ensures LastSettled(Play(s, AttemptEvents(a, s.d.asyncLen))) <==>
            LastSettled(s) || AttemptSettles(a, Entries(s), s.d.asyncLen)
    ensures a.matched ==> LastHanded(Play(s, AttemptEvents(a, s.d.asyncLen)))
  {
    hide D.Inv, CanPlay, Play, CallsOk, CallsReach, LastSettled, MessageEvents, MessageEnds;
    AttemptPlays(s, a);
    MessagePlays(s, a);
    MessageSettles(s, a);
    var m := Play(s, MessageEvents(a));
    if a.timerDue && !MessageEnds(a, s.d.asyncLen) {
      CallsPlay(m, a.timer.calls);
      if a.matched {
        CallsSettle(m, a.timer.calls);
      } else {
        CallsKeepSettled(m, a.timer.calls);
      }
      PlayConcat(s, MessageEvents(a), Calls(a.timer.calls));
    } else {
      assert MessageEvents(a) + [] == MessageEvents(a);
    }
  }

  predicate SomeSettles(attempts: seq<Attempt>, number: nat, asyncLen: nat) {
    exists k :: 0 <= k < |attempts| && AttemptSettles(attempts[k], number, asyncLen)
  }

  lemma SettlesNext(attempts: seq<Attempt>, number: nat, asyncLen: nat)
    requires attempts != []
    ensures SomeSettles(attempts, number, asyncLen) <==>
            || SomeSettles(attempts[..|attempts| - 1], number, asyncLen)
            || AttemptSettles(attempts[|attempts| - 1], number, asyncLen)
  {
    hide AttemptSettles;
    var most := attempts[..|attempts| - 1];
    if k :| 0 <= k < |most| && AttemptSettles(most[k], number, asyncLen) {
      assert attempts[k] == most[k];
    }
    if k :| 0 <= k < |attempts| && AttemptSettles(attempts[k], number, asyncLen) {
      assert k < |most| ==> most[k] == attempts[k];
    }
  }

  /** The attempts at a message that has just been taken settle it exactly if one of them does. */
  lemma {:induction false} TriesSettle(s: D.Session, attempts: seq<Attempt>)
    requires Waits(s) && !s.h.handed && Retries(attempts, s.d.asyncLen)
    requires forall k :: 0 <= k < |attempts| ==>
               AttemptOk(attempts[k], |s.h.entry| + (if attempts[k].matched then 1 else 0), s.d.asyncLen)
    ensures CanPlay(s, AllEvents(attempts, s.d.asyncLen))
    ensures LastSettled(Play(s, AllEvents(attempts, s.d.asyncLen))) <==>
            LastSettled(s) || SomeSettles(attempts, |s.h.entry| + 1, s.d.asyncLen)
    ensures attempts != [] && attempts[|attempts| - 1].matched ==>
              LastHanded(Play(s, AllEvents(attempts, s.d.asyncLen)))
  {
    hide D.Inv, CanPlay, AttemptEvents, AttemptOk, LastSettled, AttemptSettles, SomeSettles;
    RetryLoopPlays(s, attempts);
    if attempts == [] {
      PlayNothing(s);
      NoneSettle(s, s.d.asyncLen);
    } else {
      var most, a := attempts[..|attempts| - 1], attempts[|attempts| - 1];
      RetryLoopPlays(s, most);
      TriesSettle(s, most);
      var m := Play(s, AllEvents(most, s.d.asyncLen));
      if most != [] {
        var b := most[|most| - 1];
        assert b == attempts[|most| - 1] && Outcome(b, s.d.asyncLen) == D.Retry;
      }
      AttemptPlays(m, a);
      AttemptSettled(m, a);
      UnmatchedSettles(a, s.d.asyncLen);
      PlayConcat(s, AllEvents(most, s.d.asyncLen), AttemptEvents(a, s.d.asyncLen));
      SettlesNext(attempts, |s.h.entry| + 1, s.d.asyncLen);
    }
  }

  lemma NoneSettle(s: D.Session, asyncLen: nat)
    ensures !SomeSettles([], |s.h.entry| + 1, asyncLen)
  {
  }

  lemma UnmatchedSettles(a: Attempt, asyncLen: nat)
    ensures !a.matched ==> forall number: nat :: AttemptSettles(a, number, asyncLen)
  {
  }

  // ---- a stretch from the beginning is a run ----

  lemma {:induction false} PlayWithin(s: D.Session, events: seq<D.Event>)
    requires D.Within(s) && D.Inv(s) && CanPlay(s, events)
    ensures D.Within(Play(s, events))
  {
    hide D.Inv, D.Enabled, D.Next, D.Within;
    if events != [] {
      var most := events[..|events| - 1];
      PlayWithin(s, most);
      PlayKeeps(s, most);
      D.WithinNext(Play(s, most), events[|events| - 1]);
    }
  }

  lemma EntryNext(s: D.Session, e: D.Event)
    requires D.Shaped(s) && D.Enabled(s, e)
    ensures s.h.entry <= D.Next(s, e).h.entry
  {
  }

  lemma {:induction false} EntriesGrow(s: D.Session, events: seq<D.Event>)
    requires CanPlay(s, events)
    ensures s.h.entry <= Play(s, events).h.entry
  {
    hide D.Next, D.Enabled, D.Shaped;
    if events != [] {
      var most := events[..|events| - 1];
      EntriesGrow(s, most);
      EntryNext(Play(s, most), events[|events| - 1]);
    }
  }

  lemma {:induction false} PrefixPlays(s: D.Session, events: seq<D.Event>, i: nat)
    requires CanPlay(s, events) && i <= |events|
    ensures CanPlay(s, events[..i])
    decreases |events|
  {
    hide D.Next, D.Enabled, D.Shaped;
    if i == |events| {
      assert events[..i] == events;
    } else {
      PrefixPlays(s, events[..|events| - 1], i);
      assert events[..|events| - 1][..i] == events[..i];
    }
  }

  lemma StepPlays(s: D.Session, events: seq<D.Event>, i: nat)
    requires CanPlay(s, events) && i < |events|
    ensures CanPlay(s, events[..i]) && CanPlay(s, events[..i + 1])
    ensures var t := Play(s, events[..i]);
            D.Shaped(t) && D.Enabled(t, events[i]) && Play(s, events[..i + 1]) == D.Next(t, events[i])
  {
    hide D.Next, D.Enabled, D.Shaped;
    PrefixPlays(s, events, i + 1);
    assert events[..i + 1][..i] == events[..i];
  }

  /** What a plugin does from its start on is a run of a session, so that everything proved of runs holds. */
  lemma PlayIsRun(asyncLen: nat, start: D.Pair, events: seq<D.Event>) returns (states: seq<D.Session>)
    requires CanPlay(D.Begin(asyncLen, start), events)
    ensures D.Run(asyncLen, start, states, events)
    ensures states[|events|] == Play(D.Begin(asyncLen, start), events)
  {
    hide D.Next, D.Enabled, D.Shaped, D.Begin, CanPlay, Play;
    var s := D.Begin(asyncLen, start);
    forall i | 0 <= i <= |events|
      ensures CanPlay(s, events[..i])
    {
      PrefixPlays(s, events, i);
    }
    states := seq(|events| + 1, i requires 0 <= i <= |events| && CanPlay(s, events[..i]) => Play(s, events[..i]));
    assert events[..|events|] == events;
    PlayNothing(s);
    forall i | 0 <= i < |events|
      ensures D.Shaped(states[i]) && D.Enabled(states[i], events[i]) && states[i + 1] == D.Next(states[i], events[i])
    {
      StepPlays(s, events, i);
    }
  }
}
