/** `hs_output_plugin`: the fields the plugin thread and the sandbox callbacks update, method by
    method the events of module Delivery. */
module OutputPlugin {
  import opened Queue
  import D = Delivery

  /** One event on the plugin's own state. */
  function Step(d: D.Delivery, e: D.Event): (r: D.Delivery)
    requires |d.ring| == d.asyncLen
    ensures |r.ring| == r.asyncLen == d.asyncLen
  {
    match e
    case Taking(src, pos) => D.Take(d, src, pos)
    case Handing => D.Hand(d)
    case Skipping => D.Unmatched(d)
    case Calling(id) => D.Callback(d, id)
    case Answering(ret) => D.Return(d, ret)
  }

  function Fold(d: D.Delivery, events: seq<D.Event>): (r: D.Delivery)
    requires |d.ring| == d.asyncLen
    ensures |r.ring| == r.asyncLen == d.asyncLen
  {
    if events == [] then d else Step(Fold(d, events[..|events| - 1]), events[|events| - 1])
  }

  lemma FoldSnoc(d: D.Delivery, events: seq<D.Event>, e: D.Event)
    requires |d.ring| == d.asyncLen
    ensures Fold(d, events + [e]) == Step(Fold(d, events), e)
  {
    assert (events + [e])[..|events|] == events;
  }

  lemma FoldOne(d: D.Delivery, e: D.Event)
    requires |d.ring| == d.asyncLen
    ensures Fold(d, [e]) == Step(d, e)
  {
    FoldSnoc(d, [], e);
    assert [] + [e] == [e];
  }

  lemma {:induction false} FoldConcat(d: D.Delivery, a: seq<D.Event>, b: seq<D.Event>)
    requires |d.ring| == d.asyncLen
    ensures Fold(d, a + b) == Fold(Fold(d, a), b)
  {
    if b == [] {
      assert a + b == a;
    } else {
      var most := b[..|b| - 1];
      FoldConcat(d, a, most);
      assert a + b == (a + most) + [b[|b| - 1]];
      FoldSnoc(d, a + most, b[|b| - 1]);
    }
  }

  /** The plugin's fields after any run of a session are the fold of its events: what is proved about
      sessions is proved about the class below. */
  lemma {:induction false} SessionIsFold(asyncLen: nat, start: D.Pair, states: seq<D.Session>, events: seq<D.Event>,
                                         i: nat)
    requires D.Run(asyncLen, start, states, events)
    requires i <= |events|
    ensures states[i].d == Fold(D.Start(asyncLen, start), events[..i])
  {
    if i > 0 {
      SessionIsFold(asyncLen, start, states, events, i - 1);
      assert events[..i] == events[..i - 1] + [events[i - 1]];
      FoldSnoc(D.Start(asyncLen, start), events[..i - 1], events[i - 1]);
      assert states[i - 1 + 1] == D.Next(states[i - 1], events[i - 1]);
    }
  }

  // ---- what the sandbox does while it has a message or a timer event ----

  /** The sandbox may call update_checkpoint_callback any number of times before it returns. */
  datatype ProcessMessage = ProcessMessage(calls: seq<nat>, ret: D.Answer)
  datatype TimerEvent = TimerEvent(calls: seq<nat>, fatal: bool)

  /** One call of output_message for a message: does it match, what does the sandbox do with it, and
      the timer event if it is due. */
  datatype Attempt = Attempt(matched: bool, pm: ProcessMessage, timerDue: bool, timer: TimerEvent)

  function Calls(ids: seq<nat>): seq<D.Event> {
    if ids == [] then [] else Calls(ids[..|ids| - 1]) + [D.Calling(ids[|ids| - 1])]
  }

  function MessageEvents(a: Attempt): seq<D.Event> {
    if a.matched then ([D.Handing] + Calls(a.pm.calls)) + [D.Answering(a.pm.ret)] else [D.Skipping]
  }

  predicate MessageEnds(a: Attempt, asyncLen: nat) {
    a.matched && (a.pm.ret.Fatal? || (a.pm.ret.Async? && asyncLen == 0))
  }

  function TimerEvents(a: Attempt, asyncLen: nat): seq<D.Event> {
    if a.timerDue && !MessageEnds(a, asyncLen) then Calls(a.timer.calls) else []
  }

  function AttemptEvents(a: Attempt, asyncLen: nat): seq<D.Event> {
    MessageEvents(a) + TimerEvents(a, asyncLen)
  }

  /** The return value of output_message; a message that does not match counts as sent. */
  function Outcome(a: Attempt, asyncLen: nat): D.Answer {
    if MessageEnds(a, asyncLen) || (a.timerDue && a.timer.fatal) then D.Fatal
    else if a.matched then a.pm.ret
    else D.Sent
  }

  class Plugin {
    var cp: D.Pair
    var cur: D.Pair
    const asyncCp: array<D.Pair>
    var sequenceId: nat
    var ackSequenceId: nat
    var batching: bool

    function State(): (d: D.Delivery)
      reads this, asyncCp
      ensures |d.ring| == d.asyncLen
    {
      D.Delivery(asyncCp.Length, cp, cur, asyncCp[..], sequenceId, ackSequenceId, batching)
    }

    /** create_output_plugin, with the checkpoint sync of add_to_output_plugins. */
    constructor (asyncLen: nat, at: D.Pair)
      ensures fresh(asyncCp)
      ensures State() == D.Start(asyncLen, at)
    {
      cp, cur := at, at;
      asyncCp := new D.Pair[asyncLen](_ => D.NOWHERE);
      sequenceId, ackSequenceId := 0, 0;
      batching := false;
      new;
      assert asyncCp[..] == seq(asyncLen, _ => D.NOWHERE);
    }

    method UpdateCheckpoint()
      modifies this`cp
      ensures State() == D.UpdateCheckpoint(old(State()))
    {
      cp := cur;
    }

    method UpdateCheckpointCallback(id: nat)
      modifies this`cp, this`ackSequenceId, this`batching
      ensures State() == D.Callback(old(State()), id)
    {
      if id != 0 && asyncCp.Length > 0 {
        if id > ackSequenceId || sequenceId < ackSequenceId {
          ackSequenceId := id;
        }
        var i := id % asyncCp.Length;
        if (asyncCp[i].input.id == cp.input.id && asyncCp[i].input.offset > cp.input.offset)
           || asyncCp[i].input.id > cp.input.id {
          cp := cp.(input := asyncCp[i].input);
        }
        if (asyncCp[i].analysis.id == cp.analysis.id && asyncCp[i].analysis.offset > cp.analysis.offset)
           || asyncCp[i].analysis.id > cp.analysis.id {
          cp := cp.(analysis := asyncCp[i].analysis);
        }
      } else if batching {
        UpdateCheckpoint();
        batching := false;
      }
    }

    /** The sandbox at work. */
    method RunCalls(ids: seq<nat>)
      modifies this`cp, this`ackSequenceId, this`batching
      ensures State() == Fold(old(State()), Calls(ids))
    {
      var i := 0;
      while i < |ids|
        invariant 0 <= i <= |ids|
        invariant State() == Fold(old(State()), Calls(ids[..i]))
      {
        assert ids[..i + 1][..i] == ids[..i];
        FoldSnoc(old(State()), Calls(ids[..i]), D.Calling(ids[i]));
        UpdateCheckpointCallback(ids[i]);
        i := i + 1;
      }
      assert ids[..i] == ids;
    }

    /** The reader loop has chosen a message and steps its position over it. */
    method TakeMessage(src: D.Source, pos: Checkpoint)
      modifies this`cur
      ensures State() == D.Take(old(State()), src, pos)
    {
      if src.FromInput? {
        cur := cur.(input := pos);
      } else {
        cur := cur.(analysis := pos);
      }
    }

    /** A matched message: record its position, hand it to the sandbox, note the answer. */
    method HandOver(pm: ProcessMessage) returns (ret: D.Answer)
      modifies this`cp, this`sequenceId, this`ackSequenceId, this`batching, asyncCp
      ensures var before := Fold(old(State()), [D.Handing] + Calls(pm.calls));
              State() == D.AfterAnswer(before, pm.ret) && ret == if D.Ends(before, pm.ret) then D.Fatal else pm.ret
    {
      hide Fold, Calls;
      ghost var d0 := State();
      if asyncCp.Length > 0 {
        var i := (sequenceId + 1) % asyncCp.Length;
        asyncCp[i] := cur;
      }
      assert State() == D.Hand(d0);
      FoldOne(d0, D.Handing);
      RunCalls(pm.calls);
      FoldConcat(d0, [D.Handing], Calls(pm.calls));
      ret := Answered(pm.ret);
    }

    /** The part of output_message that deals with the message. */
    method ProcessOne(a: Attempt) returns (ret: D.Answer)
      modifies this`cp, this`sequenceId, this`ackSequenceId, this`batching, asyncCp
      ensures State() == Fold(old(State()), MessageEvents(a))
      ensures ret == if MessageEnds(a, asyncCp.Length) then D.Fatal else if a.matched then a.pm.ret else D.Sent
    {
      hide Fold, Calls;
      ghost var d0 := State();
      FoldOne(d0, D.Skipping);
      ret := D.Sent;
      if a.matched {
        FoldSnoc(d0, [D.Handing] + Calls(a.pm.calls), D.Answering(a.pm.ret));
        ret := HandOver(a.pm);
      }
      var pending := asyncCp.Length > 0 && sequenceId != ackSequenceId;
      if !ret.Fatal? && !batching && !pending && !ret.Retry? {
        UpdateCheckpoint();
      }
    }

    /** The bookkeeping for what process_message returned. */
    method Answered(answer: D.Answer) returns (ret: D.Answer)
      modifies this`sequenceId, this`batching
      ensures State() == D.AfterAnswer(old(State()), answer)
      ensures ret == if D.Ends(old(State()), answer) then D.Fatal else answer
    {
      ret := answer;
      if !answer.Fatal? {
        if answer.Sent? {
          batching := false;
        } else if answer.Batch? {
          batching := true;
        } else if answer.Async? {
          if asyncCp.Length == 0 {
            ret := D.Fatal;
          }
        }
        if !answer.Retry? {
          sequenceId := sequenceId + 1;
        }
      }
    }

    /** output_message for a message. */
    method OutputMessage(a: Attempt) returns (ret: D.Answer)
      modifies this`cp, this`sequenceId, this`ackSequenceId, this`batching, asyncCp
      ensures State() == Fold(old(State()), AttemptEvents(a, asyncCp.Length))
      ensures ret == Outcome(a, asyncCp.Length)
    {
      ret := ProcessOne(a);
      FoldConcat(old(State()), MessageEvents(a), TimerEvents(a, asyncCp.Length));
      if !ret.Fatal? && a.timerDue {
        RunCalls(a.timer.calls);
        if a.timer.fatal {
          ret := D.Fatal;
        }
      }
    }

    /** output_message for an empty message, when there was nothing to read: only the timer. */
    method OutputIdle(timerDue: bool, timer: TimerEvent)
      modifies this`cp, this`ackSequenceId, this`batching
      ensures State() == Fold(old(State()), if timerDue then Calls(timer.calls) else [])
    {
      if timerDue {
        RunCalls(timer.calls);
      }
    }

    /** The retry loop of input_thread around output_message: `attempts` are the calls as they happen,
        `stops` what the thread reads from `stop` after each RETRY. The state after any number of
        attempts is the fold of their events; the loop is left with RETRY only because of `stop`. */
    method OutputWithRetry(attempts: seq<Attempt>, stops: seq<bool>, stopped: bool)
      returns (ret: D.Answer, n: nat, stop: bool)
      requires 0 < |attempts| == |stops|
      modifies this`cp, this`sequenceId, this`ackSequenceId, this`batching, asyncCp
      ensures 1 <= n <= |attempts|
      ensures State() == Fold(old(State()), AllEvents(attempts[..n], asyncCp.Length))
      ensures ret == Outcome(attempts[n - 1], asyncCp.Length)
      ensures forall k :: 0 <= k < n - 1 ==> Outcome(attempts[k], asyncCp.Length) == D.Retry
      ensures ret.Retry? ==> stop || n == |attempts|
      // there is no other attempt once `stop` is set
      ensures n > 1 ==> !stopped && forall k :: 0 < k < n - 1 ==> !stops[k]
      ensures stop == if ret.Retry? && n > 1 then stops[n - 1] else stopped
    {
      hide Fold, AllEvents, AttemptEvents, Outcome;
      ghost var d0 := State();
      stop, n := stopped, 1;
      NoEvents(d0, asyncCp.Length);
      AllEventsNext(d0, attempts, 0, asyncCp.Length);
      assert attempts[..0] == [];
      ret := OutputMessage(attempts[0]);
      while ret.Retry? && !stop && n < |attempts|
        invariant 1 <= n <= |attempts|
        invariant State() == Fold(d0, AllEvents(attempts[..n], asyncCp.Length))
        invariant ret == Outcome(attempts[n - 1], asyncCp.Length)
        invariant stop == if ret.Retry? && n > 1 then stops[n - 1] else stopped
        invariant forall k :: 0 <= k < n - 1 ==> Outcome(attempts[k], asyncCp.Length) == D.Retry
        invariant n > 1 ==> !stopped && forall k :: 0 < k < n - 1 ==> !stops[k]
      {
        AllEventsNext(d0, attempts, n, asyncCp.Length);
        ret := OutputMessage(attempts[n]);
        if ret.Retry? {
          stop := stops[n];
        }
        n := n + 1;
      }
    }
  }

  lemma NoEvents(d: D.Delivery, asyncLen: nat)
    requires |d.ring| == d.asyncLen
    ensures Fold(d, AllEvents([], asyncLen)) == d
  {
  }

  lemma AllEventsNext(d: D.Delivery, attempts: seq<Attempt>, n: nat, asyncLen: nat)
    requires |d.ring| == d.asyncLen
    requires n < |attempts|
    ensures Fold(d, AllEvents(attempts[..n + 1], asyncLen)) ==
            Fold(Fold(d, AllEvents(attempts[..n], asyncLen)), AttemptEvents(attempts[n], asyncLen))
  {
    hide Fold, AttemptEvents;
    assert attempts[..n + 1][..n] == attempts[..n];
    FoldConcat(d, AllEvents(attempts[..n], asyncLen), AttemptEvents(attempts[n], asyncLen));
  }

  function AllEvents(attempts: seq<Attempt>, asyncLen: nat): seq<D.Event> {
    if attempts == [] then []
    else AllEvents(attempts[..|attempts| - 1], asyncLen) + AttemptEvents(attempts[|attempts| - 1], asyncLen)
  }
}
