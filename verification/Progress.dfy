/** That the checkpoint does advance: over any run of a delivery session a message is behind the checkpoint
    exactly if some event has put it there, and which events do is said in terms of the answers and
    callbacks alone. */
module Progress {
  import opened Queue
  import opened Delivery

  // ---- what the sandbox has said so far ----

  /** A callback that names no message: everything handed over so far is delivered. */
  predicate Reports(e: Event, asyncLen: nat) {
    e.Calling? && (e.sequenceId == 0 || asyncLen == 0)
  }

  predicate Acknowledges(e: Event, asyncLen: nat) {
    e.Calling? && e.sequenceId != 0 && asyncLen > 0
  }

  predicate Final(ret: Answer) {
    !ret.Fatal? && !ret.Retry?
  }

  /** How many messages have a final answer; the last of them has this sequence number. */
  function Finals(events: seq<Event>): nat {
    if events == [] then 0
    else
      var e := events[|events| - 1];
      Finals(events[..|events| - 1]) + if e.Answering? && Final(e.ret) then 1 else 0
  }

  /** Among the first i events there is a BATCH with neither a SENT nor a report after it. */
  ghost predicate BatchOpen(events: seq<Event>, asyncLen: nat, i: nat)
    requires i <= |events|
  {
    exists m :: 0 <= m < i && BatchedAt(events, asyncLen, m, i)
  }

  ghost predicate BatchedAt(events: seq<Event>, asyncLen: nat, m: nat, i: nat)
    requires m < i <= |events|
  {
    && events[m] == Answering(Batch)
    && forall k :: m < k < i ==> events[k] != Answering(Sent) && !Reports(events[k], asyncLen)
  }

  /** Event m acknowledges message `id`, and no acknowledgement of another one came between it and the
      message's final answer. */
  ghost predicate AckedAt(events: seq<Event>, asyncLen: nat, id: nat, m: nat, i: nat)
    requires m < i <= |events|
  {
    && events[m] == Calling(id)
    && forall k :: m < k < i && Acknowledges(events[k], asyncLen) ==>
         events[k].sequenceId == id || Finals(events[..k]) >= id
  }

  /** Among the first i events there is such an acknowledgement of the last message with a final answer. */
  ghost predicate NoneMissing(events: seq<Event>, asyncLen: nat, i: nat)
    requires i <= |events|
  {
    var last := Finals(events[..i]);
    asyncLen == 0 || last == 0 || exists m :: 0 <= m < i && AckedAt(events, asyncLen, last, m, i)
  }

  // ---- ... is what the plugin has noted ----

  lemma FinalsNext(events: seq<Event>, i: nat)
    requires i < |events|
    ensures Finals(events[..i + 1]) ==
            Finals(events[..i]) + if events[i].Answering? && Final(events[i].ret) then 1 else 0
  {
    assert events[..i + 1][..i] == events[..i];
  }

  lemma FinalsGrow(events: seq<Event>, i: nat, j: nat)
    requires i <= j <= |events|
    ensures Finals(events[..i]) <= Finals(events[..j])
    decreases j
  {
    if i < j {
      FinalsGrow(events, i, j - 1);
      FinalsNext(events, j - 1);
    }
  }

  predicate Overwrites(d: Delivery, id: nat) {
    id > d.ackSequenceId || d.sequenceId < d.ackSequenceId
  }

  /** What one event does to the fields that hold the checkpoint back. */
  lemma FieldsNext(s: Session, e: Event)
    requires Shaped(s) && Enabled(s, e)
    ensures var t := Next(s, e);
            && t.d.asyncLen == s.d.asyncLen
            && t.d.batching == (if e == Answering(Sent) || Reports(e, s.d.asyncLen) then false
                                else s.d.batching || e == Answering(Batch))
            && t.d.sequenceId == s.d.sequenceId + (if e.Answering? && Final(e.ret) then 1 else 0)
            && |s.h.entry| <= |t.h.entry|
            && t.d.ackSequenceId == if Acknowledges(e, s.d.asyncLen) && Overwrites(s.d, e.sequenceId)
                                    then e.sequenceId else s.d.ackSequenceId
  {
  }

  lemma {:induction false} BatchingExactly(asyncLen: nat, start: Pair, states: seq<Session>, events: seq<Event>, i: nat)
    requires Run(asyncLen, start, states, events) && i <= |events|
    ensures states[i].d.asyncLen == asyncLen
    ensures states[i].d.batching <==> BatchOpen(events, asyncLen, i)
  {
    hide Next, Enabled, Shaped, Reports;
    if i > 0 {
      BatchingExactly(asyncLen, start, states, events, i - 1);
      FieldsNext(states[i - 1], events[i - 1]);
      BatchNext(events, asyncLen, i - 1);
    }
  }

  lemma BatchNext(events: seq<Event>, asyncLen: nat, i: nat)
    requires i < |events|
    ensures BatchOpen(events, asyncLen, i + 1) <==>
            if events[i] == Answering(Sent) || Reports(events[i], asyncLen) then false
            else BatchOpen(events, asyncLen, i) || events[i] == Answering(Batch)
  {
    var next := i + 1;
    if m :| 0 <= m < i && BatchedAt(events, asyncLen, m, i) {
      assert BatchedAt(events, asyncLen, m, i + 1) <==>
        events[i] != Answering(Sent) && !Reports(events[i], asyncLen);
    }
    if m :| 0 <= m < next && BatchedAt(events, asyncLen, m, next) {
      assert m < i ==> BatchedAt(events, asyncLen, m, i);
    }
    assert events[i] == Answering(Batch) ==> BatchedAt(events, asyncLen, i, i + 1);
  }

  lemma {:induction false} FinalsExactly(asyncLen: nat, start: Pair, states: seq<Session>, events: seq<Event>, i: nat)
    requires Run(asyncLen, start, states, events) && i <= |events|
    ensures states[i].d.sequenceId == Finals(events[..i])
  {
    hide Next, Enabled, Shaped;
    if i > 0 {
      FinalsExactly(asyncLen, start, states, events, i - 1);
      FieldsNext(states[i - 1], events[i - 1]);
      FinalsNext(events, i - 1);
    }
  }

  /** The acknowledgement that is noted has been made, and not been overtaken since. */
  lemma {:induction false} NotedIsAcked(asyncLen: nat, start: Pair, states: seq<Session>, events: seq<Event>, i: nat)
    requires Run(asyncLen, start, states, events) && i <= |events|
    ensures var id := states[i].d.ackSequenceId;
            id == 0 || (asyncLen > 0 && exists m :: 0 <= m < i && AckedAt(events, asyncLen, id, m, i))
  {
    hide Next, Enabled, Shaped, Finals;
    if i > 0 {
      NotedIsAcked(asyncLen, start, states, events, i - 1);
      BatchingExactly(asyncLen, start, states, events, i - 1);
      FinalsExactly(asyncLen, start, states, events, i - 1);
      FieldsNext(states[i - 1], events[i - 1]);
      var id, e := states[i - 1].d.ackSequenceId, events[i - 1];
      if Acknowledges(e, asyncLen) && Overwrites(states[i - 1].d, e.sequenceId) {
        assert AckedAt(events, asyncLen, e.sequenceId, i - 1, i);
      } else if id != 0 {
        var m :| 0 <= m < i - 1 && AckedAt(events, asyncLen, id, m, i - 1);
        assert AckedAt(events, asyncLen, id, m, i);
      }
    }
  }

  lemma NotedBound(s: Session)
    requires Inv(s)
    ensures s.d.ackSequenceId <= |s.h.entry|
    ensures !s.dead && !s.h.handed ==> |s.h.entry| == s.d.sequenceId
  {
  }

  lemma {:induction false} EntriesGrow(asyncLen: nat, start: Pair, states: seq<Session>, events: seq<Event>,
                                       i: nat, j: nat)
    requires Run(asyncLen, start, states, events) && i <= j <= |events|
    ensures |states[i].h.entry| <= |states[j].h.entry|
    decreases j
  {
    hide Next, Enabled, Shaped;
    if i < j {
      EntriesGrow(asyncLen, start, states, events, i, j - 1);
      FieldsNext(states[j - 1], events[j - 1]);
    }
  }

  /** An acknowledgement of the last message with a final answer stays noted unless it is overtaken. */
  lemma {:induction false} AckedIsNoted(asyncLen: nat, start: Pair, states: seq<Session>, events: seq<Event>,
                                        id: nat, m: nat, j: nat, i: nat)
    requires Run(asyncLen, start, states, events) && m < j <= i <= |events|
    requires asyncLen > 0 && id > 0 && AckedAt(events, asyncLen, id, m, i)
    requires |states[i].h.entry| == id
    ensures states[j].d.ackSequenceId == id
    decreases j
  {
    hide Next, Enabled, Shaped, Finals, Inv;
    var s, e := states[j - 1], events[j - 1];
    RunInv(asyncLen, start, states, events, j - 1);
    NotedBound(s);
    EntriesGrow(asyncLen, start, states, events, j - 1, i);
    BatchingExactly(asyncLen, start, states, events, j - 1);
    FinalsExactly(asyncLen, start, states, events, j - 1);
    FieldsNext(s, e);
    if j == m + 1 {
      assert e == Calling(id);
    } else {
      AckedIsNoted(asyncLen, start, states, events, id, m, j - 1, i);
      if Acknowledges(e, asyncLen) {
        CallBound(s, e);
      }
    }
  }

  lemma CallBound(s: Session, e: Event)
    requires Enabled(s, e) && Acknowledges(e, s.d.asyncLen)
    ensures e.sequenceId <= |s.h.entry|
  {
  }

  /** No acknowledgement is missing exactly if that is what the two numbers say. */
  lemma MissingExactly(asyncLen: nat, start: Pair, states: seq<Session>, events: seq<Event>, i: nat)
    requires Run(asyncLen, start, states, events) && i <= |events|
    requires !states[i].dead && !states[i].h.handed
    ensures asyncLen == 0 || states[i].d.sequenceId == states[i].d.ackSequenceId <==> NoneMissing(events, asyncLen, i)
  {
    hide Next, Enabled, Shaped, Finals, Inv;
    RunInv(asyncLen, start, states, events, i);
    NotedBound(states[i]);
    FinalsExactly(asyncLen, start, states, events, i);
    NotedIsAcked(asyncLen, start, states, events, i);
    var id := Finals(events[..i]);
    if asyncLen > 0 && id > 0 && NoneMissing(events, asyncLen, i) {
      var m :| 0 <= m < i && AckedAt(events, asyncLen, id, m, i);
      AckedIsNoted(asyncLen, start, states, events, id, m, i, i);
    }
  }

  // ---- what moves the checkpoint ----

  /** Event m puts message j behind the checkpoint: a report while a batch is open, an acknowledgement of it or
      of a later message, or a final answer or a mismatch after which no batch is open and no
      acknowledgement is missing. */
  ghost predicate CoversAt(states: seq<Session>, events: seq<Event>, m: nat, j: nat)
    requires m < |events| && m < |states| && Shaped(states[m]) && Enabled(states[m], events[m])
  {
    var s, len := states[m], states[m].d.asyncLen;
    match events[m]
    case Calling(id) =>
      if Reports(events[m], len) then BatchOpen(events, len, m) && j < |s.h.src| else j <= s.h.entry[id - 1]
    case Answering(ret) =>
      && Final(ret) && !Ends(s.d, ret) && j < |s.h.src|
      && !BatchOpen(events, len, m + 1) && NoneMissing(events, len, m + 1)
    case Skipping => j < |s.h.src| && !BatchOpen(events, len, m + 1) && NoneMissing(events, len, m + 1)
    case _ => false
  }

  /** One event, by the plugin's fields. */
  lemma CoversNext(s: Session, e: Event, j: nat)
    requires Inv(s) && Enabled(s, e)
    ensures var t := Next(s, e);
            var free := !t.d.batching && (t.d.asyncLen == 0 || t.d.sequenceId == t.d.ackSequenceId);
            && t.d.asyncLen == s.d.asyncLen
            && (j < t.h.covered <==>
                || j < s.h.covered
                || match e
                   case Calling(id) =>
                     if Reports(e, s.d.asyncLen) then s.d.batching && j < |s.h.src| else j <= s.h.entry[id - 1]
                   case Answering(ret) => Final(ret) && !Ends(s.d, ret) && j < |s.h.src| && free
                   case Skipping => j < |s.h.src| && free
                   case _ => false)
            && (e.Skipping? || (e.Answering? && Final(e.ret) && !Ends(s.d, e.ret)) ==>
                  !t.dead && !t.h.handed && t.h.src == s.h.src && |t.h.src| > 0)
  {
  }

  lemma {:induction false} CoveredCount(asyncLen: nat, start: Pair, states: seq<Session>, events: seq<Event>,
                                        i: nat, j: nat)
    requires Run(asyncLen, start, states, events) && i <= |events|
    ensures j < states[i].h.covered <==> exists m: nat :: m < i && CoversAt(states, events, m, j)
  {
    hide Next, Enabled, Shaped, Inv, BatchOpen, NoneMissing;
    if i > 0 {
      var m := i - 1;
      CoveredCount(asyncLen, start, states, events, m, j);
      RunInv(asyncLen, start, states, events, m);
      CoversNext(states[m], events[m], j);
      BatchingExactly(asyncLen, start, states, events, m);
      BatchingExactly(asyncLen, start, states, events, i);
      if !states[i].dead && !states[i].h.handed {
        MissingExactly(asyncLen, start, states, events, i);
      }
      assert j < states[i].h.covered <==> j < states[m].h.covered || CoversAt(states, events, m, j);
    }
  }

  /** In every reachable state a message is at or before the checkpoint of its queue exactly if some event has
      put it there. */
  lemma CoveredByEvents(asyncLen: nat, start: Pair, states: seq<Session>, events: seq<Event>, i: nat, j: nat)
    requires Run(asyncLen, start, states, events) && i <= |events|
    ensures var s := states[i];
            Shaped(s) &&
            (j < |s.h.src| ==>
               (AtMost(At(s.h.pos[j + 1], s.h.src[j]), At(s.d.cp, s.h.src[j])) <==>
                exists m: nat :: m < i && CoversAt(states, events, m, j)))
  {
    hide Next, Enabled, CoversAt;
    RunInv(asyncLen, start, states, events, i);
    CoveredCount(asyncLen, start, states, events, i, j);
    if j < |states[i].h.src| {
      CoveredExactly(states[i], j);
    }
  }

  // ---- what settles a message ----

  ghost predicate SettlesAt(states: seq<Session>, events: seq<Event>, m: nat, j: nat)
    requires m < |events| && m < |states| && Shaped(states[m]) && Enabled(states[m], events[m])
  {
    j < |states[m].h.src| && Settles(states[m], events[m], j)
  }

  lemma SettledNext(s: Session, e: Event, j: nat)
    requires Inv(s) && Within(s) && Enabled(s, e)
    ensures j in Next(s, e).h.settled <==> j in s.h.settled || (j < |s.h.src| && Settles(s, e, j))
  {
    if j < |s.h.src| && j !in s.h.settled {
      SettledExactly(s, e, j);
    } else if j < |s.h.src| {
      StepGrows(s, e);
    }
  }

  lemma {:induction false} RunWithin(asyncLen: nat, start: Pair, states: seq<Session>, events: seq<Event>, i: nat)
    requires Run(asyncLen, start, states, events) && i <= |events|
    ensures Within(states[i])
  {
    hide Next, Enabled, Shaped, Inv, Within;
    if i == 0 {
      BeginWithin(asyncLen, start);
    } else {
      RunWithin(asyncLen, start, states, events, i - 1);
      RunInv(asyncLen, start, states, events, i - 1);
      WithinNext(states[i - 1], events[i - 1]);
    }
  }

  lemma BeginWithin(asyncLen: nat, start: Pair)
    ensures Within(Begin(asyncLen, start)) && Begin(asyncLen, start).h.settled == {}
  {
  }

  /** In every reachable state a message is settled exactly if some event after it was taken has settled it. */
  lemma {:induction false} SettledByEvents(asyncLen: nat, start: Pair, states: seq<Session>, events: seq<Event>,
                                           i: nat, j: nat)
    requires Run(asyncLen, start, states, events) && i <= |events|
    ensures j in states[i].h.settled <==> exists m: nat :: m < i && SettlesAt(states, events, m, j)
  {
    hide Next, Enabled, Shaped, Inv, Within, Settles;
    if i == 0 {
      BeginWithin(asyncLen, start);
    } else {
      var m := i - 1;
      SettledByEvents(asyncLen, start, states, events, m, j);
      RunInv(asyncLen, start, states, events, m);
      RunWithin(asyncLen, start, states, events, m);
      SettledNext(states[m], events[m], j);
      assert j in states[i].h.settled <==> j in states[m].h.settled || SettlesAt(states, events, m, j);
    }
  }

  /** Event m puts message j into the batch that is still open after the first i events. */
  ghost predicate InBatchSince(states: seq<Session>, events: seq<Event>, m: nat, i: nat, j: nat)
    requires m < i <= |events| && |events| < |states|
  {
    BatchedAt(events, states[m].d.asyncLen, m, i) && j == |states[m].h.src| - 1
  }

  lemma BatchSetNext(s: Session, e: Event, j: nat)
    requires Shaped(s) && Enabled(s, e)
    ensures Next(s, e).d.asyncLen == s.d.asyncLen
    ensures j in Next(s, e).h.batched <==>
            && e != Answering(Sent) && !Reports(e, s.d.asyncLen)
            && (j in s.h.batched || (e == Answering(Batch) && j == |s.h.src| - 1))
  {
  }

  /** The messages that the next SENT settles are exactly those answered with BATCH since the last SENT or report. */
  lemma {:induction false} BatchedByEvents(asyncLen: nat, start: Pair, states: seq<Session>, events: seq<Event>,
                                           i: nat, j: nat)
    requires Run(asyncLen, start, states, events) && i <= |events|
    ensures j in states[i].h.batched <==> exists m: nat :: m < i && InBatchSince(states, events, m, i, j)
  {
    hide Next, Enabled, Shaped, Reports;
    if i > 0 {
      var last := i - 1;
      BatchedByEvents(asyncLen, start, states, events, last, j);
      BatchingExactly(asyncLen, start, states, events, last);
      BatchSetNext(states[last], events[last], j);
      forall m: nat | m < last
        ensures InBatchSince(states, events, m, i, j) <==>
                && InBatchSince(states, events, m, last, j)
                && events[last] != Answering(Sent) && !Reports(events[last], asyncLen)
      {
        BatchingExactly(asyncLen, start, states, events, m);
      }
      if m: nat :| m < last && InBatchSince(states, events, m, last, j) {
        assert InBatchSince(states, events, m, i, j) <==>
          events[last] != Answering(Sent) && !Reports(events[last], asyncLen);
      }
      if m: nat :| m < i && InBatchSince(states, events, m, i, j) {
        assert m < last ==> InBatchSince(states, events, m, last, j);
      }
      assert events[last] == Answering(Batch) && j == |states[last].h.src| - 1 <==>
        InBatchSince(states, events, last, i, j);
      BatchIsNoReport(asyncLen);
    }
  }

  lemma BatchIsNoReport(asyncLen: nat)
    ensures !Reports(Answering(Batch), asyncLen)
  {
  }

  // ---- the checkpoint at the read position ----

  /** The event that closes a message: its final answer, or that it does not match. */
  predicate Closes(s: Session, e: Event) {
    e.Skipping? || (e.Answering? && Final(e.ret) && !Ends(s.d, e.ret))
  }

  lemma ReadPosition(s: Session)
    requires Inv(s) && s.h.src != []
    ensures s.d.cp == s.d.cur <==> |s.h.src| - 1 < s.h.covered
  {
    if s.h.covered < |s.h.src| {
      MessageAfter(s.h, s.h.covered, |s.h.src| - 1);
    }
  }

  lemma OpenNext(s: Session, e: Event)
    requires Shaped(s) && Enabled(s, e)
    ensures var t := Next(s, e);
            && |s.h.src| <= |t.h.src|
            && (t.h.open && !s.h.open ==> |s.h.src| < |t.h.src|)
            && (Closes(s, e) ==> s.h.open && !t.h.open)
  {
  }

  /** A message closed is not open again. */
  lemma {:induction false} ClosedForGood(asyncLen: nat, start: Pair, states: seq<Session>, events: seq<Event>,
                                         a: nat, b: nat)
    requires Run(asyncLen, start, states, events) && a <= b <= |events| && !states[a].h.open
    ensures |states[a].h.src| <= |states[b].h.src|
    ensures states[b].h.open ==> |states[a].h.src| < |states[b].h.src|
    decreases b
  {
    hide Next, Enabled, Shaped, Closes;
    if a < b {
      ClosedForGood(asyncLen, start, states, events, a, b - 1);
      OpenNext(states[b - 1], events[b - 1]);
    }
  }

  /** A callback among the first m events has covered message j. */
  ghost predicate CalledFor(states: seq<Session>, events: seq<Event>, m: nat, j: nat)
    requires m <= |events| && |events| < |states|
    requires forall k :: 0 <= k < m ==> Shaped(states[k]) && Enabled(states[k], events[k])
  {
    exists k: nat :: k < m && events[k].Calling? && CoversAt(states, events, k, j)
  }

  /** Right after a message has been closed the checkpoint is the read position exactly if no batch is open and
      no acknowledgement is missing, or a callback during its own attempts has covered it. */
  lemma CatchesUp(asyncLen: nat, start: Pair, states: seq<Session>, events: seq<Event>, m: nat)
    requires Run(asyncLen, start, states, events) && m < |events| && Closes(states[m], events[m])
    ensures states[m + 1].h.src != []
    ensures states[m + 1].d.cp == states[m + 1].d.cur <==>
              || (!BatchOpen(events, asyncLen, m + 1) && NoneMissing(events, asyncLen, m + 1))
              || CalledFor(states, events, m, |states[m + 1].h.src| - 1)
  {
    hide Next, Enabled, Shaped, Inv, BatchOpen, NoneMissing, Reports;
    var t := states[m + 1];
    RunInv(asyncLen, start, states, events, m);
    RunInv(asyncLen, start, states, events, m + 1);
    CoversNext(states[m], events[m], 0);
    ReadPosition(t);
    var j := |t.h.src| - 1;
    CoveredCount(asyncLen, start, states, events, m + 1, j);
    BatchingExactly(asyncLen, start, states, events, m);
    assert t == Next(states[m], events[m]);
    forall k: nat | k < m && CoversAt(states, events, k, j)
      ensures events[k].Calling?
    {
      if Closes(states[k], events[k]) {
        OpenNext(states[k], events[k]);
        OpenNext(states[m], events[m]);
        ClosedForGood(asyncLen, start, states, events, k + 1, m);
      }
    }
    assert CoversAt(states, events, m, j) <==>
      !BatchOpen(events, asyncLen, m + 1) && NoneMissing(events, asyncLen, m + 1);
  }

  /** A plugin without a ring that batches nothing: its checkpoint is always the read position between two
      messages. */
  lemma OneByOne(start: Pair, states: seq<Session>, events: seq<Event>, m: nat)
    requires Run(0, start, states, events) && m < |events| && Closes(states[m], events[m])
    requires Answering(Batch) !in events
    ensures states[m + 1].d.cp == states[m + 1].d.cur
  {
    CatchesUp(0, start, states, events, m);
  }

  // ---- an acknowledgement that is forgotten ----

  /** The highest sequence number acknowledged by the first i events. */
  ghost predicate Highest(events: seq<Event>, asyncLen: nat, i: nat, id: nat)
    requires i <= |events|
  {
    && (exists m :: 0 <= m < i && Acknowledges(events[m], asyncLen) && events[m].sequenceId == id)
    && (forall m :: 0 <= m < i && Acknowledges(events[m], asyncLen) ==> events[m].sequenceId <= id)
  }

  /** The input queue's position behind n messages of five bytes each. */
  function Behind(n: nat): Pair {
    Pair(Checkpoint(0, 5 * n), Checkpoint(0, 0))
  }

  /** Two messages that are acknowledged, the second one before its answer and then the first one once more, and a
      third that does not match. */
  const FORGETFUL := [Taking(FromInput, Checkpoint(0, 5)), Handing, Calling(1), Answering(Async),
                      Taking(FromInput, Checkpoint(0, 10)), Handing, Calling(2), Calling(1), Answering(Async),
                      Taking(FromInput, Checkpoint(0, 15)), Skipping]

  /** A plugin with a ring of two after the first n messages of the input queue. */
  function Ringed(cp: nat, n: nat, ring: seq<Pair>, sequenceId: nat, ackSequenceId: nat, entry: seq<nat>,
                  settled: set<nat>, open: bool, handed: bool): Session {
    Session(Delivery(2, Behind(cp), Behind(n), ring, sequenceId, ackSequenceId, false),
            History([Behind(0), Behind(1), Behind(2), Behind(3)][..if n < 3 then n + 1 else 4],
                    [FromInput, FromInput, FromInput][..if n < 3 then n else 3],
                    settled, {}, entry, open, handed, cp), false)
  }

  const NO_RING := [NOWHERE, NOWHERE]
  const ONE_RECORDED := [NOWHERE, Behind(1)]
  const TWO_RECORDED := [Behind(2), Behind(1)]

  ghost predicate Steps(s: Session, e: Event, t: Session) {
    Shaped(s) && Enabled(s, e) && Next(s, e) == t
  }

  lemma FirstMessage()
    ensures Begin(2, NOWHERE) == Ringed(0, 0, NO_RING, 0, 0, [], {}, false, false)
    ensures Steps(Ringed(0, 0, NO_RING, 0, 0, [], {}, false, false), FORGETFUL[0],
                  Ringed(0, 1, NO_RING, 0, 0, [], {}, true, false))
    ensures Steps(Ringed(0, 1, NO_RING, 0, 0, [], {}, true, false), FORGETFUL[1],
                  Ringed(0, 1, ONE_RECORDED, 0, 0, [0], {}, true, true))
    ensures Steps(Ringed(0, 1, ONE_RECORDED, 0, 0, [0], {}, true, true), FORGETFUL[2],
                  Ringed(1, 1, ONE_RECORDED, 0, 1, [0], {0}, true, true))
    ensures Steps(Ringed(1, 1, ONE_RECORDED, 0, 1, [0], {0}, true, true), FORGETFUL[3],
                  Ringed(1, 1, ONE_RECORDED, 1, 1, [0], {0}, false, false))
  {
  }

  lemma SecondMessage()
    ensures Steps(Ringed(1, 1, ONE_RECORDED, 1, 1, [0], {0}, false, false), FORGETFUL[4],
                  Ringed(1, 2, ONE_RECORDED, 1, 1, [0], {0}, true, false))
    ensures Steps(Ringed(1, 2, ONE_RECORDED, 1, 1, [0], {0}, true, false), FORGETFUL[5],
                  Ringed(1, 2, TWO_RECORDED, 1, 1, [0, 1], {0}, true, true))
    ensures Steps(Ringed(1, 2, TWO_RECORDED, 1, 1, [0, 1], {0}, true, true), FORGETFUL[6],
                  Ringed(2, 2, TWO_RECORDED, 1, 2, [0, 1], {0, 1}, true, true))
  {
  }

  lemma Forgotten()
    ensures Steps(Ringed(2, 2, TWO_RECORDED, 1, 2, [0, 1], {0, 1}, true, true), FORGETFUL[7],
                  Ringed(2, 2, TWO_RECORDED, 1, 1, [0, 1], {0, 1}, true, true))
    ensures Steps(Ringed(2, 2, TWO_RECORDED, 1, 1, [0, 1], {0, 1}, true, true), FORGETFUL[8],
                  Ringed(2, 2, TWO_RECORDED, 2, 1, [0, 1], {0, 1}, false, false))
    ensures Steps(Ringed(2, 2, TWO_RECORDED, 2, 1, [0, 1], {0, 1}, false, false), FORGETFUL[9],
                  Ringed(2, 3, TWO_RECORDED, 2, 1, [0, 1], {0, 1}, true, false))
    ensures Steps(Ringed(2, 3, TWO_RECORDED, 2, 1, [0, 1], {0, 1}, true, false), FORGETFUL[10],
                  Ringed(2, 3, TWO_RECORDED, 2, 1, [0, 1], {0, 1, 2}, false, false))
  {
  }

  /** The highest acknowledgement is not enough: a callback for an older message that comes between the
      acknowledgement of the message in progress and its answer makes the plugin forget that one. In this run all
      messages with an answer have been acknowledged, and yet the checkpoint stays behind. */
  lemma AckForgotten() returns (states: seq<Session>)
    ensures Run(2, NOWHERE, states, FORGETFUL)
    ensures Closes(states[10], FORGETFUL[10])
    ensures Highest(FORGETFUL, 2, 11, Finals(FORGETFUL[..11])) && !BatchOpen(FORGETFUL, 2, 11)
    ensures states[11].d.cp != states[11].d.cur
  {
    hide Ringed, Next, Enabled, Shaped, Finals, Highest, BatchOpen;
    FirstMessage();
    SecondMessage();
    Forgotten();
    states := [Ringed(0, 0, NO_RING, 0, 0, [], {}, false, false),
               Ringed(0, 1, NO_RING, 0, 0, [], {}, true, false),
               Ringed(0, 1, ONE_RECORDED, 0, 0, [0], {}, true, true),
               Ringed(1, 1, ONE_RECORDED, 0, 1, [0], {0}, true, true),
               Ringed(1, 1, ONE_RECORDED, 1, 1, [0], {0}, false, false),
               Ringed(1, 2, ONE_RECORDED, 1, 1, [0], {0}, true, false),
               Ringed(1, 2, TWO_RECORDED, 1, 1, [0, 1], {0}, true, true),
               Ringed(2, 2, TWO_RECORDED, 1, 2, [0, 1], {0, 1}, true, true),
               Ringed(2, 2, TWO_RECORDED, 1, 1, [0, 1], {0, 1}, true, true),
               Ringed(2, 2, TWO_RECORDED, 2, 1, [0, 1], {0, 1}, false, false),
               Ringed(2, 3, TWO_RECORDED, 2, 1, [0, 1], {0, 1}, true, false),
               Ringed(2, 3, TWO_RECORDED, 2, 1, [0, 1], {0, 1, 2}, false, false)];
    forall i | 0 <= i < |FORGETFUL|
      ensures Shaped(states[i]) && Enabled(states[i], FORGETFUL[i]) && states[i + 1] == Next(states[i], FORGETFUL[i])
    {
      assert Steps(states[i], FORGETFUL[i], states[i + 1]);
    }
    Behinds();
    AllAcknowledged();
  }

  lemma AllAcknowledged()
    ensures Highest(FORGETFUL, 2, 11, Finals(FORGETFUL[..11])) && !BatchOpen(FORGETFUL, 2, 11)
  {
    FinalsOf();
    assert Acknowledges(FORGETFUL[6], 2);
  }

  lemma Behinds()
    ensures Ringed(2, 3, TWO_RECORDED, 2, 1, [0, 1], {0, 1, 2}, false, false).d.cp !=
            Ringed(2, 3, TWO_RECORDED, 2, 1, [0, 1], {0, 1, 2}, false, false).d.cur
  {
  }

  lemma FinalsOf()
    ensures Finals(FORGETFUL[..11]) == 2
  {
    hide Finals;
    assert Finals([]) == 0 by { NoFinals(); }
    assert FORGETFUL[..0] == [];
    FinalsNext(FORGETFUL, 0);
    FinalsNext(FORGETFUL, 1);
    FinalsNext(FORGETFUL, 2);
    FinalsNext(FORGETFUL, 3);
    FinalsNext(FORGETFUL, 4);
    FinalsNext(FORGETFUL, 5);
    FinalsNext(FORGETFUL, 6);
    FinalsNext(FORGETFUL, 7);
    FinalsNext(FORGETFUL, 8);
    FinalsNext(FORGETFUL, 9);
    FinalsNext(FORGETFUL, 10);
  }

  lemma NoFinals()
    ensures Finals([]) == 0
  {
  }
}
