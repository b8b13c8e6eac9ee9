/** That the pipeline can get on: from every reachable state an analysis thread can process its next message, and
    a sweep can be brought to its end; and what there is then. */
module Completion {
  import opened Framing
  import opened Queue
  import opened Pipeline
  import opened Durability
  import opened AtLeastOnce
  import opened Sweeps
  import InputLoss
  import D = Delivery

  /** Steps that follow each other, from any state on. */
  ghost predicate Path(states: seq<Sys>, actions: seq<Action>) {
    && |states| == |actions| + 1
    && forall k :: 0 <= k < |actions| ==>
         Enabled(states[k], actions[k]) && states[k + 1] == Next(states[k], actions[k])
  }

  lemma Prepend(s: Sys, a: Action, states: seq<Sys>, actions: seq<Action>)
    requires Enabled(s, a) && Path(states, actions) && states[0] == Next(s, a)
    ensures Path([s] + states, [a] + actions) && Last([s] + states) == Last(states)
  {
    hide Next, Enabled;
    var ss, aa := [s] + states, [a] + actions;
    forall k | 0 <= k < |aa|
      ensures Enabled(ss[k], aa[k]) && ss[k + 1] == Next(ss[k], aa[k])
    {
      if k > 0 {
        assert ss[k] == states[k - 1] && ss[k + 1] == states[k] && aa[k] == actions[k - 1];
      }
    }
  }

  // ---- one message in an analysis thread ----

  function Emits(j: nat, payloads: seq<Payload>): seq<Action> {
    if payloads == [] then [FinishMessage(j)] else [Emit(j, payloads[0])] + Emits(j, payloads[1..])
  }

  /** The rest of a message: inject these, then finish. */
  lemma {:induction false} FinishWith(s: Sys, j: nat, payloads: seq<Payload>) returns (states: seq<Sys>)
    requires ThreadInv(s, j) && s.threads[j].working
    ensures Path(states, Emits(j, payloads)) && states[0] == s
    ensures var t := Last(states);
            && ThreadInv(t, j)
            && t.threads[j].done == s.threads[j].done + 1 && !t.threads[j].working
            && t.threads[j].emitted == s.threads[j].emitted + [s.threads[j].part + |payloads|]
            && Flat(t.anq.log.fs) == Flat(s.anq.log.fs) + payloads
            && t.inq == s.inq && t.disk == s.disk && t.phase == s.phase
    decreases |payloads|
  {
    hide Total, PosAfter, Flat, ThreadInv, Path;
    StillWorks(s, j);
    if payloads == [] {
      ThreadStepInv(s, FinishMessage(j), j);
      OneStep(s, FinishMessage(j));
      states := [s, Next(s, FinishMessage(j))];
      assert Flat(s.anq.log.fs) + payloads == Flat(s.anq.log.fs);
    } else {
      var a := Emit(j, payloads[0]);
      ThreadStepInv(s, a, j);
      var t := Next(s, a);
      var rest := FinishWith(t, j, payloads[1..]);
      Prepend(s, a, rest, Emits(j, payloads[1..]));
      states := [s] + rest;
      assert [payloads[0]] + payloads[1..] == payloads;
      ConcatAssoc(Flat(s.anq.log.fs), [payloads[0]], payloads[1..]);
    }
  }

  lemma OneStep(s: Sys, a: Action)
    requires Enabled(s, a)
    ensures Path([s, Next(s, a)], [a])
  {
  }

  lemma StillWorks(s: Sys, j: nat)
    requires ThreadInv(s, j) && s.threads[j].working
    ensures Enabled(s, FinishMessage(j)) && forall p: Payload :: Enabled(s, Emit(j, p))
  {
    hide Flat, PosAfter;
  }

  /** In every reachable state an idle analysis thread with a message ahead of it in the input queue's files can process
      it and inject whatever it likes: it takes exactly that message, and its injections are the next ones of the
      analysis queue, in order. */
  lemma ThreadGoesOn(states: seq<Sys>, actions: seq<Action>, k: nat, j: nat, payloads: seq<Payload>)
    returns (path: seq<Sys>)
    requires Run(states, actions) && k < |states| && ThreadOf(states, j)
    requires HasWork(states[k], j)
    ensures Path(path, [StartMessage(j)] + Emits(j, payloads)) && path[0] == states[k]
    ensures var s, t := states[k], Last(path);
            && j < |t.threads| && t.inq == s.inq
            && t.threads[j].done == s.threads[j].done + 1
            && s.threads[j].done + 1 <= Total(s.inq.log.fs)
            && t.threads[j].cp == PosAfter(s.inq.log.fs, s.threads[j].done + 1)
            && t.threads[j].emitted == s.threads[j].emitted + [|payloads|]
            && Flat(t.anq.log.fs) == Flat(s.anq.log.fs) + payloads
  {
    hide Total, PosAfter, Flat, ThreadInv, Path, Run;
    var s := states[k];
    ThreadRun(states, actions, k, j);
    Starts(s, j);
    ThreadStepInv(s, StartMessage(j), j);
    path := FinishWith(Next(s, StartMessage(j)), j, payloads);
    Prepend(s, StartMessage(j), path, Emits(j, payloads));
    Stands(Last(path), j);
    path := [s] + path;
  }

  /** The thread is idle, and there is a message ahead of it in the input queue's files. */
  predicate HasWork(s: Sys, j: nat) {
    j < |s.threads| && !s.threads[j].working && s.threads[j].done < s.inq.log.durable
  }

  lemma Starts(s: Sys, j: nat)
    requires ThreadInv(s, j) && HasWork(s, j)
    ensures Enabled(s, StartMessage(j))
    ensures var t := Next(s, StartMessage(j));
            && j < |t.threads| && t.threads[j] == s.threads[j].(working := true, part := 0)
            && t.anq == s.anq && t.inq == s.inq
  {
  }

  lemma Stands(s: Sys, j: nat)
    requires ThreadInv(s, j)
    ensures j < |s.threads| && s.threads[j].done <= s.inq.log.durable <= Total(s.inq.log.fs)
    ensures s.threads[j].cp == PosAfter(s.inq.log.fs, s.threads[j].done)
  {
  }

  // ---- one message of an input plugin ----

  /** An input plugin that is not injecting can inject any message, with a checkpoint or without: the message is the
      next one of the queue, and the checkpoint vouches for it exactly if it came with it. */
  lemma PluginGoesOn(s: Sys, i: nat, given: bool, p: Payload) returns (path: seq<Sys>)
    requires InputInv(s, i) && !s.inputs[i].busy
    ensures Path(path, [SetCheckpoint(i, given), AppendMessage(i, p)]) && path[0] == s
    ensures var t := Last(path);
            && InputInv(t, i) && !t.inputs[i].busy
            && t.inputs[i].next == s.inputs[i].next + 1
            && t.inputs[i].covered == (if given then s.inputs[i].next + 1 else s.inputs[i].covered)
            && t.inq.origins == s.inq.origins + [ByInput(i, s.inputs[i].next)]
            && Flat(t.inq.log.fs) == Flat(s.inq.log.fs) + [p]
  {
    hide Total, PosAfter, Flat, Backed, SafelyBacked;
    var t := Next(s, SetCheckpoint(i, given));
    InputStepInv(s, SetCheckpoint(i, given), i);
    InputStepInv(t, AppendMessage(i, p), i);
    path := [s, t, Next(t, AppendMessage(i, p))];
  }

  // ---- what can happen at any time ----

  /** In every reachable state the process may crash; an idle plugin or thread may do what it does without a message;
      a plugin's thread may end, and one that is ending may finish that. */
  lemma AnyTime(states: seq<Sys>, actions: seq<Action>, k: nat, n: nat, p: Payload)
    requires Run(states, actions) && k < |states|
    ensures var s := states[k];
            && Enabled(s, CrashAndRestart(n)) && Enabled(s, SpillInput(n)) && Enabled(s, SpillAnalysis(n))
            && (forall i: nat :: i < |s.inputs| && !s.inputs[i].busy ==>
                  Enabled(s, Synchronize(i)) && Enabled(s, ReloadInput(i)))
            && (forall j: nat :: j < |s.threads| && !s.threads[j].working ==> Enabled(s, EmitIdle(j, p)))
            && (forall o: nat :: o < |s.outputs| ==>
                  if s.outputs[o].ending then Enabled(s, ReloadOutput(o)) else Enabled(s, EndOutput(o)))
  {
    hide CanRestart, Run;
    SameSizes(states, actions, k);
    InputLoss.AllCanRestart(states, actions, k);
  }

  /** A running output plugin between two messages. */
  predicate BetweenMessages(c: Consumer) {
    !c.ending && !c.now.session.dead && !c.now.session.h.open
  }

  /** Such a plugin can take the next message of a queue as soon as that is in the files. */
  lemma OutputGoesOn(states: seq<Sys>, actions: seq<Action>, k: nat, o: nat, src: D.Source)
    requires Run(states, actions) && k < |states| && OutputOf(states, o)
    ensures var s := states[k];
            o < |s.outputs| &&
            var q, life := QueueOf(s, src), s.outputs[o].now;
            && life.cuts != []
            && (BetweenMessages(s.outputs[o]) && CutAt(Last(life.cuts), src) < q.log.durable ==>
                  && CutAt(Last(life.cuts), src) + 1 <= Total(q.log.fs)
                  && Enabled(s, Output(o, D.Taking(src, PosAfter(q.log.fs, CutAt(Last(life.cuts), src) + 1)))))
  {
    hide Total, PosAfter, OutputInv, Run, Init;
    var s := states[k];
    OutputRun(states, actions, k, o);
    LifePositions(s, o);
    var q, i := QueueOf(s, src), CutAt(Last(s.outputs[o].now.cuts), src);
    DurableTotal(q);
    if i < q.log.durable {
      PosOrder(q.log.fs, i, i + 1);
    }
  }

  // ---- a sweep ----

  /** The sweep's next step, when nothing else happens. */
  function SweepAction(s: Sys): Action {
    match s.phase
    case Resting => StartSweep
    case InputStats(i) => if i < |s.inputs| then SampleInput else FlushInput
    case AnalysisStats(_) => SampleThread
    case AnalysisFlush(_) => FlushAnalysis
    case OutputStats(o) => if o < |s.outputs| then SampleOutput else Persist
  }

  function StepsLeft(s: Sys): int {
    var after := |s.outputs| + 1;
    match s.phase
    case Resting => after + 2 * |s.threads| + 2 + |s.inputs|
    case InputStats(i) => after + 2 * |s.threads| + 1 + |s.inputs| - i
    case AnalysisStats(j) => after + 2 * (|s.threads| - j)
    case AnalysisFlush(j) => after + 2 * (|s.threads| - j) - 1
    case OutputStats(o) => after - o
  }

  /** While the sweep goes on from state s nobody has moved, and the table has the positions of all that it has been
      at. */
  ghost predicate Recorded(s: Sys, t: Sys) {
    && Shaped(t) && InputLoss.PhaseOk(t)
    && t.inputs == s.inputs && t.threads == s.threads && t.outputs == s.outputs
    && (forall o :: 0 <= o < |s.outputs| ==> CanRestart(s.outputs[o]))
    && (forall i: nat :: i < |s.inputs| && Past(t.phase, AtInput(i)) ==>
          t.table.inputs[i].covered == s.inputs[i].covered)
    && (forall j: nat :: j < |s.threads| && Past(t.phase, AtThread(j)) ==>
          t.table.threads[j] == Mark(s.threads[j].cp, s.threads[j].done))
    && (forall o: nat :: o < |s.outputs| && Past(t.phase, AtOutput(o)) ==> t.table.outputs[o] == MarkOf(s.outputs[o]))
    && t.inq.origins == s.inq.origins && t.anq.origins == s.anq.origins
    && (InputFlushed(t.phase) ==> t.inq.log.durable == |s.inq.origins|)
    && (t.phase.OutputStats? && s.threads != [] ==> t.anq.log.durable == |s.anq.origins|)
    && (t.phase.AnalysisStats? && t.phase.j > 0 ==> t.anq.log.durable == |s.anq.origins|)
  }

  lemma SweepStep(s: Sys, t: Sys)
    requires Recorded(s, t)
    ensures Enabled(t, SweepAction(t))
    ensures var u := Next(t, SweepAction(t));
            if SweepAction(t) == Persist then
              && u.disk == t.table && u.inq == t.inq && u.anq == t.anq && u.threads == t.threads
              && u.inputs == t.inputs && u.outputs == t.outputs
            else Recorded(s, u) && 0 <= StepsLeft(u) < StepsLeft(t)
  {
    hide PosAfter, Flat, Total, MarkOf, CanRestart, QOk, Flushed, Inserted, Recovered, OutputStep, Restarted,
      Grows, Persists;
    InputLoss.PhaseStep(t, SweepAction(t));
    AllFlushed(t.inq);
    AllFlushed(t.anq);
    match SweepAction(t)
    case StartSweep => assert Next(t, StartSweep).phase == InputStats(0);
    case SampleInput => assert Next(t, SampleInput).phase == InputStats(t.phase.i + 1);
    case FlushInput => assert Next(t, FlushInput).phase == AfterThread(t, 0);
    case SampleThread => assert Next(t, SampleThread).phase == AnalysisFlush(t.phase.j);
    case FlushAnalysis => assert Next(t, FlushAnalysis).phase == AfterThread(t, t.phase.j + 1);
    case SampleOutput => assert Next(t, SampleOutput).phase == OutputStats(t.phase.o + 1);
    case _ =>
  }

  lemma AllFlushed(q: Tagged)
    requires QOk(q)
    ensures var r := Flushed(q, Total(q.log.fs)); QOk(r) && r.log.durable == |q.origins| && r.origins == q.origins
  {
  }

  /** What a sweep leaves that nothing interferes with. */
  ghost predicate Saved(s: Sys, t: Sys) {
    && |t.disk.inputs| == |s.inputs| && |t.disk.threads| == |s.threads| && |t.disk.outputs| == |s.outputs|
    && (forall i: nat :: i < |s.inputs| ==> t.disk.inputs[i].covered == s.inputs[i].covered)
    && (forall j: nat :: j < |s.threads| ==> t.disk.threads[j] == Mark(s.threads[j].cp, s.threads[j].done))
    && (forall o: nat :: o < |s.outputs| ==> CanRestart(s.outputs[o]) && t.disk.outputs[o] == MarkOf(s.outputs[o]))
    && t.inq.origins == s.inq.origins && t.anq.origins == s.anq.origins
    && t.inq.log.durable == |s.inq.origins|
    && (s.threads != [] ==> t.anq.log.durable == |s.anq.origins|)
  }

  lemma {:induction false} SweepOn(s: Sys, t: Sys) returns (states: seq<Sys>, actions: seq<Action>)
    requires Recorded(s, t)
    ensures Path(states, actions) && states[0] == t && Saved(s, Last(states))
    decreases StepsLeft(t)
  {
    hide Next, Enabled, StepsLeft, Recorded;
    SweepStep(s, t);
    var a := SweepAction(t);
    var u := Next(t, a);
    if a == Persist {
      states, actions := [t, u], [a];
      SavedNow(s, t);
    } else {
      states, actions := SweepOn(s, u);
      Prepend(t, a, states, actions);
      states, actions := [t] + states, [a] + actions;
    }
  }

  lemma SavedNow(s: Sys, t: Sys)
    requires Recorded(s, t) && SweepAction(t) == Persist && Enabled(t, Persist)
    ensures Saved(s, Next(t, Persist))
  {
    hide PosAfter, Flat, Total, MarkOf, CanRestart;
  }

  predicate NoSweepAt(states: seq<Sys>, k: nat) {
    k < |states| && states[k].phase == Resting
  }

  /** In every reachable state in which no sweep is under way one can be run to its end. If nothing else happens
      meanwhile, the file then has the position of every thread and plugin as it is, and both queues are in their
      files. */
  lemma SweepCompletes(states: seq<Sys>, actions: seq<Action>, k: nat) returns (path: seq<Sys>, steps: seq<Action>)
    requires Run(states, actions) && NoSweepAt(states, k)
    ensures Path(path, steps) && path[0] == states[k] && Saved(states[k], Last(path))
  {
    hide Next, Enabled, Run, Path, Saved;
    SameSizes(states, actions, k);
    InputLoss.PhaseRun(states, actions, k);
    InputLoss.AllCanRestart(states, actions, k);
    RestingRecorded(states[k]);
    path, steps := SweepOn(states[k], states[k]);
  }

  lemma RestingRecorded(s: Sys)
    requires Shaped(s) && s.phase == Resting && forall o :: 0 <= o < |s.outputs| ==> CanRestart(s.outputs[o])
    ensures Recorded(s, s)
  {
  }
}
