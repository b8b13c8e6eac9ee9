/** How an output plugin's checkpoint advances: in order, by batch, or by asynchronous
    acknowledgement through the ring of recorded positions, with retries in between. `Delivery` is
    the plugin's own state; `History` remembers what has been taken from the queues and what the
    sandbox has answered for it, so that "the checkpoint covers only settled messages" can be said. */
module Delivery {
  import opened Queue

  /** `hs_checkpoint_pair`. */
  datatype Pair = Pair(input: Checkpoint, analysis: Checkpoint)

  datatype Source = FromInput | FromAnalysis

  /** `read_queue`: 'i', 'a' or 'b'. */
  datatype ReadQueue = InputOnly | AnalysisOnly | Both

  predicate Reads(q: ReadQueue, src: Source) {
    if src.FromInput? then !q.AnalysisOnly? else !q.InputOnly?
  }

  function At(p: Pair, src: Source): Checkpoint {
    if src.FromInput? then p.input else p.analysis
  }

  function Put(p: Pair, src: Source, cp: Checkpoint): Pair {
    if src.FromInput? then p.(input := cp) else p.(analysis := cp)
  }

  predicate PairAtMost(a: Pair, b: Pair) {
    AtMost(a.input, b.input) && AtMost(a.analysis, b.analysis)
  }

  /** What process_message returns; `Fatal` is any positive value. */
  datatype Answer = Sent | Fail | Skip | Retry | Batch | Async | Fatal

  // ---- the plugin ----

  datatype Delivery = Delivery(asyncLen: nat, cp: Pair, cur: Pair, ring: seq<Pair>,
                               sequenceId: nat, ackSequenceId: nat, batching: bool)

  const NOWHERE := Pair(Checkpoint(0, 0), Checkpoint(0, 0))

  /** A plugin as add_to_output_plugins starts it at a looked up checkpoint. */
  function Start(asyncLen: nat, at: Pair): Delivery {
    Delivery(asyncLen, at, at, seq(asyncLen, _ => NOWHERE), 0, 0, false)
  }

  function UpdateCheckpoint(d: Delivery): Delivery {
    d.(cp := d.cur)
  }

  /** The larger of the two in (id, offset) order. */
  function Later(cp: Checkpoint, to: Checkpoint): Checkpoint {
    if (to.id == cp.id && to.offset > cp.offset) || to.id > cp.id then to else cp
  }

  /** update_checkpoint_callback; a nil sequence id is 0. */
  function Callback(d: Delivery, sequenceId: nat): Delivery
    requires |d.ring| == d.asyncLen
  {
    if sequenceId != 0 && d.asyncLen > 0 then
      var slot := d.ring[sequenceId % d.asyncLen];
      d.(ackSequenceId := if sequenceId > d.ackSequenceId || d.sequenceId < d.ackSequenceId
                          then sequenceId else d.ackSequenceId,
         cp := Pair(Later(d.cp.input, slot.input), Later(d.cp.analysis, slot.analysis)))
    else if d.batching then UpdateCheckpoint(d).(batching := false)
    else d
  }

  /** The reader loop takes the next message of a queue; `pos` is the position behind it. */
  function Take(d: Delivery, src: Source, pos: Checkpoint): Delivery {
    d.(cur := Put(d.cur, src, pos))
  }

  /** A matched message is about to be handed to the sandbox as `sequenceId + 1`. */
  function Hand(d: Delivery): Delivery
    requires |d.ring| == d.asyncLen
  {
    if d.asyncLen > 0 then d.(ring := d.ring[(d.sequenceId + 1) % d.asyncLen := d.cur]) else d
  }

  /** An async answer without a ring ends the plugin. */
  predicate Ends(d: Delivery, ret: Answer) {
    ret.Fatal? || (ret.Async? && d.asyncLen == 0)
  }

  function AfterAnswer(d: Delivery, ret: Answer): Delivery {
    var d := match ret
      case Sent => d.(batching := false)
      case Batch => d.(batching := true)
      case _ => d;
    if ret.Fatal? || ret.Retry? then d else d.(sequenceId := d.sequenceId + 1)
  }

  /** Nothing holds the checkpoint back: no fatal answer, open batch, missing acknowledgement or retry. */
  predicate Free(d: Delivery, ends: bool, retry: bool) {
    var pending := d.asyncLen > 0 && d.sequenceId != d.ackSequenceId;
    !ends && !d.batching && !pending && !retry
  }

  function Return(d: Delivery, ret: Answer): Delivery {
    var r := AfterAnswer(d, ret);
    if Free(r, Ends(d, ret), ret.Retry?) then UpdateCheckpoint(r) else r
  }

  /** The message did not match: nothing is handed over. */
  function Unmatched(d: Delivery): Delivery {
    if Free(d, false, false) then UpdateCheckpoint(d) else d
  }

  // ---- the history ----

  /** Message j of this session came from src[j]; pos[j + 1] is where the reader stood behind it,
      pos[0] where it started. Sequence number s belongs to message entry[s - 1]. The last message
      may be `open` (taken, no final answer yet) and then also `handed` to the sandbox. `covered`
      counts the messages up to the plugin's checkpoint. */
  datatype History = History(pos: seq<Pair>, src: seq<Source>, settled: set<nat>, batched: set<nat>,
                             entry: seq<nat>, open: bool, handed: bool, covered: nat)

  datatype Session = Session(d: Delivery, h: History, dead: bool)

  function Begin(asyncLen: nat, at: Pair): Session {
    Session(Start(asyncLen, at), History([at], [], {}, {}, [], false, false, 0), false)
  }

  datatype Event =
    | Taking(src: Source, pos: Checkpoint)
    | Handing
    | Skipping
    | Calling(sequenceId: nat)
    | Answering(ret: Answer)

  /** The first n messages. */
  function Messages(n: nat): (r: set<nat>)
    ensures forall j: nat :: j in r <==> j < n
  {
    if n == 0 then {} else Messages(n - 1) + {n - 1}
  }

  /** A callback names a message in flight: handed over, and fewer than `asyncLen` behind the last. */
  predicate InFlight(s: Session, sequenceId: int) {
    1 <= sequenceId <= |s.h.entry| < sequenceId + s.d.asyncLen
  }

  predicate Enabled(s: Session, e: Event) {
    && !s.dead
    && match e
       case Taking(src, pos) => !s.h.open && Before(At(s.d.cur, src), pos)
       case Handing => s.h.open
       case Skipping => s.h.open && !s.h.handed
       // the sandbox runs only with the message handed over or, for a timer, without one
       case Calling(id) => (s.h.open ==> s.h.handed) && (id == 0 || s.d.asyncLen == 0 || InFlight(s, id))
       case Answering(_) => s.h.open && s.h.handed
  }

  predicate Shaped(s: Session) {
    && |s.d.ring| == s.d.asyncLen
    && |s.h.pos| == |s.h.src| + 1
    && s.d.cur == s.h.pos[|s.h.src|]
    && s.h.covered <= |s.h.src|
    && (s.h.handed ==> s.h.open)
    && (s.h.open ==> s.h.src != [])
    && (!s.dead ==> |s.h.entry| == s.d.sequenceId + if s.h.handed then 1 else 0)
    && (s.h.handed ==> s.h.entry != [] && s.h.entry[|s.h.entry| - 1] == |s.h.src| - 1)
    && (forall i :: 0 <= i < |s.h.entry| ==> s.h.entry[i] < |s.h.src|)
  }

  function Taken(s: Session, src: Source, pos: Checkpoint): Session {
    var d := Take(s.d, src, pos);
    Session(d, s.h.(pos := s.h.pos + [d.cur], src := s.h.src + [src], open := true), s.dead)
  }

  function Handed(s: Session): Session
    requires Shaped(s) && s.h.open
  {
    Session(Hand(s.d), if s.h.handed then s.h else s.h.(entry := s.h.entry + [|s.h.src| - 1], handed := true), s.dead)
  }

  /** A callback settles what the sandbox reports as delivered: with nil everything handed over so far,
      with an acknowledged sequence number everything up to it. */
  function Called(s: Session, id: nat): Session
    requires Shaped(s)
    requires id == 0 || s.d.asyncLen == 0 || InFlight(s, id)
  {
    var n := |s.h.src|;
    var h :=
      if id != 0 && s.d.asyncLen > 0 then
        var upTo := s.h.entry[id - 1] + 1;
        s.h.(settled := s.h.settled + Messages(upTo), covered := if upTo > s.h.covered then upTo else s.h.covered)
      else s.h.(settled := s.h.settled + Messages(n), batched := {},
          covered := if s.d.batching then n else s.h.covered);
    Session(Callback(s.d, id), h, s.dead)
  }

  /** SENT settles the message and the batch it completes; FAIL, SKIP and a message that does not match
      are final too. BATCH, ASYNC and RETRY settle nothing. */
  function Answered(s: Session, ret: Answer): Session
    requires Shaped(s) && s.h.handed
  {
    var n := |s.h.src|;
    var ends := Ends(s.d, ret);
    var h := match ret
      case Sent => s.h.(settled := s.h.settled + s.h.batched + {n - 1}, batched := {})
      case Fail => s.h.(settled := s.h.settled + {n - 1})
      case Skip => s.h.(settled := s.h.settled + {n - 1})
      case Batch => s.h.(batched := s.h.batched + {n - 1})
      case _ => s.h;
    Session(AfterAnswer(s.d, ret), if ret.Retry? || ends then h else h.(open := false, handed := false), s.dead || ends)
  }

  function Skipped(s: Session): Session
    requires Shaped(s) && s.h.open
  {
    s.(h := s.h.(settled := s.h.settled + {|s.h.src| - 1}, open := false))
  }

  function CatchUp(s: Session, ends: bool, retry: bool): Session {
    if Free(s.d, ends, retry) then s.(d := UpdateCheckpoint(s.d), h := s.h.(covered := |s.h.src|)) else s
  }

  function Next(s: Session, e: Event): (r: Session)
    requires Shaped(s) && Enabled(s, e)
    ensures r.d == match e
                   case Taking(src, pos) => Take(s.d, src, pos)
                   case Handing => Hand(s.d)
                   case Skipping => Unmatched(s.d)
                   case Calling(id) => Callback(s.d, id)
                   case Answering(ret) => Return(s.d, ret)
  {
    match e
    case Taking(src, pos) => Taken(s, src, pos)
    case Handing => Handed(s)
    case Skipping => CatchUp(Skipped(s), false, false)
    case Calling(id) => Called(s, id)
    case Answering(ret) => CatchUp(Answered(s, ret), Ends(s.d, ret), ret.Retry?)
  }

  // ---- the invariant ----

  /** Each message moves the position forward in its own queue and leaves the other where it was. */
  ghost predicate Ordered(h: History) {
    && |h.pos| == |h.src| + 1
    && forall j :: 0 <= j < |h.src| ==>
         && Before(At(h.pos[j], h.src[j]), At(h.pos[j + 1], h.src[j]))
         && h.pos[j + 1] == Put(h.pos[j], h.src[j], At(h.pos[j + 1], h.src[j]))
  }

  /** The ring holds the positions of the messages in flight. */
  ghost predicate RingHolds(s: Session)
    requires Shaped(s)
  {
    forall id: nat :: InFlight(s, id) ==> s.d.ring[id % s.d.asyncLen] == s.h.pos[s.h.entry[id - 1] + 1]
  }

  /** The checkpoint pair is one that the reader passed through, and everything before it is settled. */
  ghost predicate Covers(s: Session)
    requires Shaped(s)
  {
    && s.d.cp == s.h.pos[s.h.covered]
    && forall j: nat :: j < s.h.covered ==> j in s.h.settled
  }

  /** What is not settled is waiting for something that still holds the checkpoint back. */
  ghost predicate Waiting(s: Session)
    requires Shaped(s)
  {
    && (forall i, j :: 0 <= i < j < |s.h.entry| ==> s.h.entry[i] < s.h.entry[j])
    && (forall i :: 0 <= i < |s.h.entry| - (if s.h.handed then 1 else 0) ==> s.h.entry[i] < Closed(s))
    && s.d.ackSequenceId <= |s.h.entry|
    && (s.d.ackSequenceId > 0 ==> forall j: nat :: j <= s.h.entry[s.d.ackSequenceId - 1] ==> j in s.h.settled)
    && (!s.dead ==> forall j: nat :: j < Closed(s) && j !in s.h.settled ==>
          j in s.h.entry && (s.d.asyncLen == 0 ==> j in s.h.batched && s.d.batching))
  }

  /** The number of messages with a final answer or a promise of one. */
  function Closed(s: Session): nat
    requires Shaped(s)
  {
    if s.h.open then |s.h.src| - 1 else |s.h.src|
  }

  ghost predicate Inv(s: Session) {
    Shaped(s) && Ordered(s.h) && RingHolds(s) && Covers(s) && Waiting(s)
  }

  lemma BeginInv(asyncLen: nat, at: Pair)
    ensures Inv(Begin(asyncLen, at))
  {
  }

  lemma TakingInv(s: Session, src: Source, pos: Checkpoint)
    requires Inv(s) && Enabled(s, Taking(src, pos))
    ensures Inv(Next(s, Taking(src, pos)))
  {
    var t := Next(s, Taking(src, pos));
    var n := |s.h.src|;
    forall j | 0 <= j < |t.h.src|
      ensures Before(At(t.h.pos[j], t.h.src[j]), At(t.h.pos[j + 1], t.h.src[j]))
      ensures t.h.pos[j + 1] == Put(t.h.pos[j], t.h.src[j], At(t.h.pos[j + 1], t.h.src[j]))
    {
      if j < n {
        assert t.h.src[j] == s.h.src[j] && t.h.pos[j] == s.h.pos[j] && t.h.pos[j + 1] == s.h.pos[j + 1];
      }
    }
    forall id: nat | InFlight(t, id)
      ensures t.d.ring[id % t.d.asyncLen] == t.h.pos[t.h.entry[id - 1] + 1]
    {
      assert InFlight(s, id);
    }
  }

  lemma HandingRing(s: Session)
    requires Inv(s) && Enabled(s, Handing)
    ensures Shaped(Next(s, Handing)) && RingHolds(Next(s, Handing))
  {
    var t := Next(s, Handing);
    var top := s.d.sequenceId + 1;
    assert |t.h.entry| == top && t.h.entry[top - 1] == |s.h.src| - 1;
    forall id: nat | InFlight(t, id)
      ensures t.d.ring[id % t.d.asyncLen] == t.h.pos[t.h.entry[id - 1] + 1]
    {
      if id < top {
        OtherSlot(id, top, t.d.asyncLen);
        assert InFlight(s, id);
      }
    }
  }

  lemma HandingInv(s: Session)
    requires Inv(s) && Enabled(s, Handing)
    ensures Inv(Next(s, Handing))
  {
    hide RingHolds, InFlight;
    HandingRing(s);
    var t := Next(s, Handing);
    if !s.h.handed {
      assert forall j :: j in s.h.entry ==> j in t.h.entry;
    }
  }

  /** Two sequence numbers less than the ring length apart have different slots. */
  lemma OtherSlot(a: nat, b: nat, len: nat)
    requires a < b < a + len
    ensures a % len != b % len
  {
    Multiple(b / len - a / len, len);
    assert (b / len - a / len) * len == len * (b / len) - len * (a / len);
  }

  lemma Multiple(k: int, len: nat)
    ensures k >= 1 ==> k * len >= len
    ensures k <= -1 ==> k * len + len <= 0
    ensures k == 0 ==> k * len == 0
  {
  }

  // ---- order ----

  /** The positions of a session only go up, and strictly so in the queue a message came from. */
  lemma {:induction false} PositionsRise(h: History, i: nat, j: nat)
    requires Ordered(h)
    requires i <= j <= |h.src|
    ensures PairAtMost(h.pos[i], h.pos[j])
    decreases j
  {
    if i < j {
      PositionsRise(h, i, j - 1);
    }
  }

  lemma MessageAfter(h: History, i: nat, j: nat)
    requires Ordered(h)
    requires i <= j < |h.src|
    ensures Before(At(h.pos[i], h.src[j]), At(h.pos[j + 1], h.src[j]))
  {
    PositionsRise(h, i, j);
  }

  /** Taking the later of two positions of a session is taking the position of the later one, in both
      queues at once. */
  lemma LaterOfTwo(h: History, i: nat, j: nat)
    requires Ordered(h)
    requires i <= |h.src| && j <= |h.src|
    ensures Pair(Later(h.pos[i].input, h.pos[j].input), Later(h.pos[i].analysis, h.pos[j].analysis)) ==
            h.pos[if j > i then j else i]
  {
    if j > i {
      PositionsRise(h, i, j);
    } else {
      PositionsRise(h, j, i);
    }
  }

  // ---- the remaining events keep the invariant ----

  /** The ring is untouched by what happens to a message once it has been handed over. */
  lemma SameFlight(s: Session, t: Session)
    requires Shaped(s) && RingHolds(s)
    requires Shaped(t) && t.h.entry == s.h.entry && t.h.pos == s.h.pos && t.d.ring == s.d.ring
    ensures RingHolds(t)
  {
    forall id: nat | InFlight(t, id)
      ensures t.d.ring[id % t.d.asyncLen] == t.h.pos[t.h.entry[id - 1] + 1]
    {
      assert InFlight(s, id);
    }
  }

  lemma CallingRing(s: Session, id: nat)
    requires Inv(s) && Enabled(s, Calling(id))
    ensures Shaped(Next(s, Calling(id))) && RingHolds(Next(s, Calling(id)))
  {
    hide RingHolds, Covers, Ordered, Waiting;
    SameFlight(s, Next(s, Calling(id)));
  }

  lemma NilWaiting(s: Session, id: nat)
    requires Shaped(s) && Waiting(s) && Enabled(s, Calling(id))
    requires id == 0 || s.d.asyncLen == 0
    ensures Shaped(Called(s, id)) && Waiting(Called(s, id))
  {
    var t := Called(s, id);
    assert t.h.entry == s.h.entry && t.d.ackSequenceId == s.d.ackSequenceId;
    assert forall j: nat :: j < |s.h.src| ==> j in t.h.settled;
  }

  lemma AckFields(d: Delivery, id: nat)
    requires |d.ring| == d.asyncLen && id != 0 && d.asyncLen > 0
    ensures var r := Callback(d, id);
            && r == d.(cp := r.cp, ackSequenceId := r.ackSequenceId)
            && (r.ackSequenceId == id || r.ackSequenceId == d.ackSequenceId)
  {
  }

  lemma AckWaiting(s: Session, id: nat)
    requires Shaped(s) && Waiting(s) && Enabled(s, Calling(id))
    requires id != 0 && s.d.asyncLen > 0
    ensures Shaped(Called(s, id)) && Waiting(Called(s, id))
  {
    hide Messages, Callback;
    AckFields(s.d, id);
    var t := Called(s, id);
    assert forall j: nat :: j <= s.h.entry[id - 1] ==> j in t.h.settled;
    assert Closed(t) == Closed(s);
  }

  lemma CallingWaiting(s: Session, id: nat)
    requires Inv(s) && Enabled(s, Calling(id))
    ensures Shaped(Next(s, Calling(id))) && Waiting(Next(s, Calling(id)))
  {
    hide RingHolds, Covers, Ordered, Waiting, Called;
    if id == 0 || s.d.asyncLen == 0 {
      NilWaiting(s, id);
    } else {
      AckWaiting(s, id);
    }
  }

  lemma CallingOrdered(s: Session, id: nat)
    requires Inv(s) && Enabled(s, Calling(id))
    ensures Ordered(Next(s, Calling(id)).h)
  {
    hide RingHolds, Covers, Waiting;
  }

  lemma CallingCovers(s: Session, id: nat)
    requires Inv(s) && Enabled(s, Calling(id))
    ensures Shaped(Next(s, Calling(id))) && Covers(Next(s, Calling(id)))
  {
    if id != 0 && s.d.asyncLen > 0 {
      assert s.d.ring[id % s.d.asyncLen] == s.h.pos[s.h.entry[id - 1] + 1];
      LaterOfTwo(s.h, s.h.covered, s.h.entry[id - 1] + 1);
    }
  }

  lemma CallingInv(s: Session, id: nat)
    requires Inv(s) && Enabled(s, Calling(id))
    ensures Inv(Next(s, Calling(id)))
  {
    hide RingHolds, Covers, Ordered, Waiting, Next, Enabled, Shaped;
    CallingRing(s, id);
    CallingCovers(s, id);
    CallingWaiting(s, id);
    CallingOrdered(s, id);
  }

  /** Whenever nothing holds the checkpoint back, every closed message is settled. */
  lemma NothingPending(s: Session)
    requires Shaped(s) && Waiting(s) && !s.dead && !s.h.open
    requires !s.d.batching
    requires s.d.asyncLen == 0 || s.d.sequenceId == s.d.ackSequenceId
    ensures forall j: nat :: j < |s.h.src| ==> j in s.h.settled
  {
    var last := |s.h.entry| - 1;
    forall j: nat | j < |s.h.src|
      ensures j in s.h.settled
    {
      if s.d.asyncLen > 0 && j in s.h.entry {
        var i :| 0 <= i < |s.h.entry| && s.h.entry[i] == j;
        assert i < last ==> s.h.entry[i] < s.h.entry[last];
      }
    }
  }

  lemma CatchUpInv(s: Session, ends: bool, retry: bool)
    requires Inv(s)
    requires s.dead ==> ends
    requires s.h.open ==> ends || retry
    ensures Inv(CatchUp(s, ends, retry))
  {
    if Free(s.d, ends, retry) {
      NothingPending(s);
      var t := CatchUp(s, ends, retry);
      SameFlight(s, t);
    }
  }

  lemma SkippingInv(s: Session)
    requires Inv(s) && Enabled(s, Skipping)
    ensures Inv(Next(s, Skipping))
  {
    var t := Skipped(s);
    SameFlight(s, t);
    CatchUpInv(t, false, false);
  }

  lemma AnsweredWaiting(s: Session, ret: Answer)
    requires Inv(s) && Enabled(s, Answering(ret))
    ensures Shaped(Answered(s, ret)) && Waiting(Answered(s, ret))
  {
    hide RingHolds, Covers, Ordered;
    var n := |s.h.src|;
    assert s.h.entry[|s.h.entry| - 1] == n - 1;
    assert n - 1 in s.h.entry;
    var t := Answered(s, ret);
    assert Shaped(t);
  }

  lemma AnsweringInv(s: Session, ret: Answer)
    requires Inv(s) && Enabled(s, Answering(ret))
    ensures Inv(Next(s, Answering(ret)))
  {
    hide Waiting;
    AnsweredWaiting(s, ret);
    var t := Answered(s, ret);
    SameFlight(s, t);
    assert Ordered(t.h);
    assert Covers(t);
    CatchUpInv(t, Ends(s.d, ret), ret.Retry?);
  }

  lemma InvKept(s: Session, e: Event)
    requires Inv(s) && Enabled(s, e)
    ensures Inv(Next(s, e))
  {
    hide Inv;
    match e
    case Taking(src, pos) => TakingInv(s, src, pos);
    case Handing => HandingInv(s);
    case Skipping => SkippingInv(s);
    case Calling(id) => CallingInv(s, id);
    case Answering(ret) => AnsweringInv(s, ret);
  }

  /** Nothing but messages that have been taken is settled or batched. */
  ghost predicate Within(s: Session) {
    forall j: nat :: j in s.h.settled || j in s.h.batched ==> j < |s.h.src|
  }

  lemma WithinNext(s: Session, e: Event)
    requires Within(s) && Inv(s) && Enabled(s, e)
    ensures Within(Next(s, e))
  {
  }

  // ---- what holds in every reachable state ----

  ghost predicate Run(asyncLen: nat, start: Pair, states: seq<Session>, events: seq<Event>) {
    && |states| == |events| + 1
    && states[0] == Begin(asyncLen, start)
    && forall i :: 0 <= i < |events| ==>
         Shaped(states[i]) && Enabled(states[i], events[i]) && states[i + 1] == Next(states[i], events[i])
  }

  lemma {:induction false} RunInv(asyncLen: nat, start: Pair, states: seq<Session>, events: seq<Event>, i: nat)
    requires Run(asyncLen, start, states, events)
    requires i < |states|
    ensures Inv(states[i])
  {
    hide Inv;
    if i == 0 {
      BeginInv(asyncLen, start);
    } else {
      RunInv(asyncLen, start, states, events, i - 1);
      InvKept(states[i - 1], events[i - 1]);
    }
  }

  /** A message is at or before the checkpoint exactly if it is one of the `covered` ones. */
  lemma CoveredExactly(s: Session, j: nat)
    requires Inv(s) && j < |s.h.src|
    ensures AtMost(At(s.h.pos[j + 1], s.h.src[j]), At(s.d.cp, s.h.src[j])) <==> j < s.h.covered
  {
    if j < s.h.covered {
      PositionsRise(s.h, j + 1, s.h.covered);
    } else {
      MessageAfter(s.h, s.h.covered, j);
    }
  }

  /** In every reachable state, in any mixture of batching, asynchronous acknowledgement in any order,
      retries and skipped messages: a message that is not settled lies strictly after the checkpoint in
      its queue, and the checkpoint is a pair of positions that the reader has passed through. */
  lemma UnsettledLiesAfterCheckpoint(asyncLen: nat, start: Pair, states: seq<Session>, events: seq<Event>, i: nat)
    requires Run(asyncLen, start, states, events)
    requires i < |states|
    ensures var s := states[i];
            && Shaped(s)
            && (forall j :: 0 <= j < |s.h.src| && j !in s.h.settled ==>
                  Before(At(s.d.cp, s.h.src[j]), At(s.h.pos[j + 1], s.h.src[j])))
            && s.d.cp in s.h.pos
            && PairAtMost(s.d.cp, s.d.cur)
  {
    RunInv(asyncLen, start, states, events, i);
    var s := states[i];
    forall j | 0 <= j < |s.h.src| && j !in s.h.settled
      ensures Before(At(s.d.cp, s.h.src[j]), At(s.h.pos[j + 1], s.h.src[j]))
    {
      CoveredExactly(s, j);
      MessageAfter(s.h, s.h.covered, j);
    }
    PositionsRise(s.h, s.h.covered, |s.h.src|);
  }

  /** The history only grows, and the covered part with it. */
  lemma StepGrows(s: Session, e: Event)
    requires Inv(s) && Enabled(s, e)
    ensures var t := Next(s, e);
            && s.h.pos <= t.h.pos && s.h.src <= t.h.src
            && s.h.settled <= t.h.settled
            && s.h.covered <= t.h.covered
  {
  }

  lemma {:induction false} HistoryGrows(asyncLen: nat, start: Pair, states: seq<Session>, events: seq<Event>, i: nat,
                                        j: nat)
    requires Run(asyncLen, start, states, events)
    requires i <= j < |states|
    ensures states[i].h.pos <= states[j].h.pos && states[i].h.src <= states[j].h.src
    ensures states[i].h.settled <= states[j].h.settled && states[i].h.covered <= states[j].h.covered
    decreases j
  {
    hide Inv, Shaped, Enabled, Next;
    if i < j {
      HistoryGrows(asyncLen, start, states, events, i, j - 1);
      RunInv(asyncLen, start, states, events, j - 1);
      StepGrows(states[j - 1], events[j - 1]);
    }
  }

  /** Neither the checkpoint nor the read position ever moves backwards in either queue. */
  lemma CheckpointsNeverMoveBack(asyncLen: nat, start: Pair, states: seq<Session>, events: seq<Event>, i: nat, j: nat)
    requires Run(asyncLen, start, states, events)
    requires i <= j < |states|
    ensures PairAtMost(states[i].d.cp, states[j].d.cp)
    ensures PairAtMost(states[i].d.cur, states[j].d.cur)
  {
    HistoryGrows(asyncLen, start, states, events, i, j);
    RunInv(asyncLen, start, states, events, i);
    RunInv(asyncLen, start, states, events, j);
    PositionsRise(states[j].h, states[i].h.covered, states[j].h.covered);
    PositionsRise(states[j].h, |states[i].h.src|, |states[j].h.src|);
  }

  // ---- until something settles a message ----

  /** The events that settle message j: a nil callback, an acknowledgement of it or of a later message,
      its own final answer, SENT for the batch it is in, or that it does not match. */
  predicate Settles(s: Session, e: Event, j: nat)
    requires Shaped(s) && Enabled(s, e)
  {
    match e
    case Calling(id) => id == 0 || s.d.asyncLen == 0 || j <= s.h.entry[id - 1]
    case Answering(ret) =>
      || (j == |s.h.src| - 1 && (ret.Sent? || ret.Fail? || ret.Skip?))
      || (ret.Sent? && j in s.h.batched)
    case Skipping => j == |s.h.src| - 1
    case _ => false
  }

  lemma SettledExactly(s: Session, e: Event, j: nat)
    requires Inv(s) && Enabled(s, e)
    requires j < |s.h.src| && j !in s.h.settled
    ensures j in Next(s, e).h.settled <==> Settles(s, e, j)
  {
  }

  /** No event from state `a` up to state `i` settles message j. */
  ghost predicate NothingSettles(states: seq<Session>, events: seq<Event>, a: nat, i: nat, j: nat)
    requires |states| == |events| + 1 && i <= |events|
  {
    forall m :: a <= m < i ==> Shaped(states[m]) && Enabled(states[m], events[m]) && !Settles(states[m], events[m], j)
  }

  lemma {:induction false} StaysUnsettled(asyncLen: nat, start: Pair, states: seq<Session>, events: seq<Event>,
                                          a: nat, i: nat, j: nat)
    requires Run(asyncLen, start, states, events)
    requires a <= i <= |events| && j < |states[a].h.src| && j !in states[a].h.settled
    requires NothingSettles(states, events, a, i, j)
    ensures j < |states[i].h.src| && j !in states[i].h.settled
    decreases i
  {
    hide Inv, Shaped, Enabled, Settles;
    if a < i {
      StaysUnsettled(asyncLen, start, states, events, a, i - 1, j);
      RunInv(asyncLen, start, states, events, i - 1);
      SettledExactly(states[i - 1], events[i - 1], j);
      StepGrows(states[i - 1], events[i - 1]);
    }
  }

  /** A message that is not settled in state `a` lies strictly after the checkpoint in every later state
      up to the first event that settles it. */
  lemma UncoveredUntilSettled(asyncLen: nat, start: Pair, states: seq<Session>, events: seq<Event>,
                              a: nat, i: nat, j: nat)
    requires Run(asyncLen, start, states, events)
    requires a <= i <= |events| && j < |states[a].h.src| && j !in states[a].h.settled
    requires NothingSettles(states, events, a, i, j)
    ensures var s := states[i];
            && Shaped(s) && j < |s.h.src|
            && Before(At(s.d.cp, s.h.src[j]), At(s.h.pos[j + 1], s.h.src[j]))
  {
    hide Inv, Enabled, Settles;
    StaysUnsettled(asyncLen, start, states, events, a, i, j);
    UnsettledLiesAfterCheckpoint(asyncLen, start, states, events, i);
  }

  /** BATCH and ASYNC promise an answer: the message stays after the checkpoint until its batch is sent,
      it is acknowledged, or a nil callback reports it. */
  lemma PromisedNotCovered(asyncLen: nat, start: Pair, states: seq<Session>, events: seq<Event>, a: nat, i: nat)
    requires Run(asyncLen, start, states, events)
    requires a < i <= |events| && (events[a] == Answering(Batch) || events[a] == Answering(Async))
    requires |states[a].h.src| > 0 && |states[a].h.src| - 1 !in states[a].h.settled
    requires NothingSettles(states, events, a + 1, i, |states[a].h.src| - 1)
    ensures var s, j := states[i], |states[a].h.src| - 1;
            && Shaped(s) && j < |s.h.src|
            && Before(At(s.d.cp, s.h.src[j]), At(s.h.pos[j + 1], s.h.src[j]))
  {
    hide Inv, Enabled;
    UncoveredUntilSettled(asyncLen, start, states, events, a, i, |states[a].h.src| - 1);
  }

  /** From state `a` up to state `i` every attempt is answered RETRY and no callback reports message j. */
  ghost predicate OnlyRetries(states: seq<Session>, events: seq<Event>, a: nat, i: nat, j: nat)
    requires |states| == |events| + 1 && i <= |events|
  {
    forall m :: a <= m < i ==>
      && Shaped(states[m]) && Enabled(states[m], events[m])
      && (events[m].Answering? ==> events[m].ret.Retry?)
      && (events[m].Calling? ==> !Settles(states[m], events[m], j))
  }

  lemma {:induction false} RetryStaysOpen(asyncLen: nat, start: Pair, states: seq<Session>, events: seq<Event>,
                                          a: nat, i: nat)
    requires Run(asyncLen, start, states, events)
    requires a < i <= |events| && events[a] == Answering(Retry)
    requires |states[a].h.src| > 0 && OnlyRetries(states, events, a, i, |states[a].h.src| - 1)
    ensures var s := states[i]; s.h.open && s.h.handed && |s.h.src| == |states[a].h.src|
    ensures NothingSettles(states, events, a, i, |states[a].h.src| - 1)
    decreases i
  {
    hide Inv;
    if a + 1 < i {
      RetryStaysOpen(asyncLen, start, states, events, a, i - 1);
    }
  }

  /** A message answered with RETRY is not covered until a later attempt stops returning RETRY, however
      many attempts there are; if `stop` ends the loop, that is never in this session. */
  lemma RetryNotCovered(asyncLen: nat, start: Pair, states: seq<Session>, events: seq<Event>, a: nat, i: nat)
    requires Run(asyncLen, start, states, events)
    requires a < i <= |events| && events[a] == Answering(Retry)
    requires |states[a].h.src| > 0 && |states[a].h.src| - 1 !in states[a].h.settled
    requires OnlyRetries(states, events, a, i, |states[a].h.src| - 1)
    ensures var s, j := states[i], |states[a].h.src| - 1;
            && Shaped(s) && s.h.open && j == |s.h.src| - 1
            && Before(At(s.d.cp, s.h.src[j]), At(s.h.pos[j + 1], s.h.src[j]))
  {
    hide Inv, Enabled, Settles;
    RetryStaysOpen(asyncLen, start, states, events, a, i);
    UncoveredUntilSettled(asyncLen, start, states, events, a, i, |states[a].h.src| - 1);
  }

  // ---- the ring ----

  /** The slot of sequence number `id` holds the position recorded for it exactly as long as the
      message is in flight, that is while fewer than `asyncLen` were handed over from it on. */
  lemma RingSlotExact(s: Session, id: nat)
    requires Inv(s) && s.d.asyncLen > 0
    requires 1 <= id <= |s.h.entry|
    ensures s.d.ring[id % s.d.asyncLen] == s.h.pos[s.h.entry[id - 1] + 1] <==> InFlight(s, id)
  {
    if !InFlight(s, id) {
      var later := LastInSlot(id, |s.h.entry|, s.d.asyncLen);
      assert InFlight(s, later);
      var a, b := s.h.entry[id - 1], s.h.entry[later - 1];
      assert a < b;
      MessageAfter(s.h, a + 1, b);
    }
  }

  /** The last of the numbers up to `top` that share a slot with `id`. */
  lemma {:induction false} LastInSlot(id: nat, top: nat, len: nat) returns (later: nat)
    requires len > 0 && id <= top
    ensures id <= later <= top < later + len
    ensures later % len == id % len
    ensures top >= id + len ==> later > id
    decreases top - id
  {
    if top < id + len {
      later := id;
    } else {
      later := LastInSlot(id + len, top, len);
      Shift(id, len);
    }
  }

  lemma Shift(id: nat, len: nat)
    requires len > 0
    ensures (id + len) % len == id % len
  {
    var q, q' := id / len, (id + len) / len;
    Multiple(q' - q - 1, len);
    assert (q' - q - 1) * len == len * q' - len * q - len;
  }
}
