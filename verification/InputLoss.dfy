/** When the input side does lose a message: what a crash skips, and when a plugin thread that ends
    while a sweep is under way stores a checkpoint that is ahead of the files. */
module InputLoss {
  import opened Queue
  import opened Pipeline
  import opened Durability
  import AtLeastOnce

  // ---- what a crash skips ----

  /** The persisted checkpoint of plugin i vouches for a message that is not in the files and has not been
      skipped before: the one whose injection was in progress at the sample or, if the checkpoint was
      stored late, any. */
  ghost predicate Skips(s: Sys, i: nat)
    requires Shaped(s) && i < |s.inputs|
  {
    var d, lost := s.disk.inputs[i], s.inputs[i].lost;
    if d.late then exists n: nat :: n < d.covered && n !in lost && !Safe(s.inq, ByInput(i, n))
    else d.ahead && d.covered > 0 && d.covered - 1 !in lost && !Safe(s.inq, ByInput(i, d.covered - 1))
  }

  /** A crash loses something exactly then; and only one message unless the checkpoint was stored late. */
  lemma SkipsExactly(s: Sys, i: nat, size: nat)
    requires InputInv(s, i)
    ensures var t := Next(s, CrashAndRestart(size));
            && i < |t.inputs|
            && (t.inputs[i].lost != s.inputs[i].lost <==> Skips(s, i))
            && s.inputs[i].lost <= t.inputs[i].lost
            && (!s.disk.inputs[i].late ==> |t.inputs[i].lost| <= |s.inputs[i].lost| + 1)
  {
    hide Total, PosAfter, Recovered;
    var d, lost := s.disk.inputs[i], s.inputs[i].lost;
    var skipped := Skipped(d, s.inq, i);
    if !d.late {
      OnlyTheLast(s, i);
      if d.covered > 0 {
        OneMore(lost, d.covered - 1);
      }
    }
    if Skips(s, i) && d.late {
      var n: nat :| n < d.covered && n !in lost && !Safe(s.inq, ByInput(i, n));
      assert n in skipped;
    }
  }

  lemma OnlyTheLast(s: Sys, i: nat)
    requires InputInv(s, i) && !s.disk.inputs[i].late
    ensures var d, lost := s.disk.inputs[i], s.inputs[i].lost;
            lost + Skipped(d, s.inq, i) == lost + if Skips(s, i) then {d.covered - 1} else {}
  {
    hide Total, PosAfter;
    var d, lost := s.disk.inputs[i], s.inputs[i].lost;
    var skipped := Skipped(d, s.inq, i);
    forall n: nat | n in skipped && n !in lost
      ensures n == d.covered - 1 && Skips(s, i)
    {
      assert n >= Solid(d);
    }
    if Skips(s, i) {
      assert d.covered - 1 in skipped;
    }
  }

  lemma OneMore(a: set<nat>, x: nat)
    ensures |a + {x}| <= |a| + 1
    ensures a + {} == a
  {
    if x in a {
      assert a + {x} == a;
    } else {
      assert |a + {x}| == |a| + 1;
    }
  }

  lemma LostOtherwise(s: Sys, a: Action, i: nat)
    requires Enabled(s, a) && i < |s.inputs| && !a.CrashAndRestart?
    ensures i < |Next(s, a).inputs| && Next(s, a).inputs[i].lost == s.inputs[i].lost
  {
    hide Total, PosAfter, QOk, Inserted, Flushed, OutputStep;
  }

  /** A crash in state m that finds such a message. */
  ghost predicate SkippedAt(states: seq<Sys>, actions: seq<Action>, i: nat, m: nat) {
    && m < |states| && m < |actions| && actions[m].CrashAndRestart?
    && Shaped(states[m]) && i < |states[m].inputs| && Skips(states[m], i)
  }

  /** Over any run, plugin i has lost a message exactly if some crash so far found one. */
  lemma {:induction false} LostExactly(states: seq<Sys>, actions: seq<Action>, k: nat, i: nat)
    requires Run(states, actions)
    requires k < |states| && InputOf(states, i)
    ensures i < |states[k].inputs|
    ensures states[k].inputs[i].lost != {} <==> exists m: nat :: m < k && SkippedAt(states, actions, i, m)
  {
    hide Next, Enabled, Init, InputInv, Skips;
    InputRun(states, actions, k, i);
    InputShape(states[k], i);
    if k == 0 {
      NothingLostYet(states[0], i);
    } else {
      var m := k - 1;
      LostExactly(states, actions, m, i);
      InputRun(states, actions, m, i);
      InputShape(states[m], i);
      if actions[m].CrashAndRestart? {
        SkipsExactly(states[m], i, actions[m].size);
        assert Skips(states[m], i) ==> SkippedAt(states, actions, i, m);
      } else {
        LostOtherwise(states[m], actions[m], i);
      }
    }
  }

  lemma InputShape(s: Sys, i: nat)
    requires InputInv(s, i)
    ensures Shaped(s) && i < |s.inputs|
  {
  }

  lemma NothingLostYet(s: Sys, i: nat)
    requires Init(s) && i < |s.inputs|
    ensures s.inputs[i].lost == {}
  {
  }

  /** How many restarts there have been. */
  function CrashCount(actions: seq<Action>): nat {
    if actions == [] then 0
    else CrashCount(actions[..|actions| - 1]) + if actions[|actions| - 1].CrashAndRestart? then 1 else 0
  }

  /** No crash among the first k steps finds a checkpoint that was stored late. */
  predicate NoneLate(states: seq<Sys>, actions: seq<Action>, i: nat, k: nat) {
    forall m :: 0 <= m < k && m < |states| && m < |actions| && actions[m].CrashAndRestart? ==>
      i < |states[m].disk.inputs| && !states[m].disk.inputs[i].late
  }

  /** Without a late checkpoint each restart skips at most one message of a plugin. */
  lemma {:induction false} LostPerCrash(states: seq<Sys>, actions: seq<Action>, k: nat, i: nat)
    requires Run(states, actions)
    requires k < |states| && InputOf(states, i)
    requires NoneLate(states, actions, i, k)
    ensures i < |states[k].inputs| && |states[k].inputs[i].lost| <= CrashCount(actions[..k])
  {
    hide Next, Enabled, Init, InputInv, Skips;
    if k == 0 {
      NothingLostYet(states[0], i);
    } else {
      var m := k - 1;
      LostPerCrash(states, actions, m, i);
      assert actions[..k][..m] == actions[..m];
      InputRun(states, actions, m, i);
      InputShape(states[m], i);
      if actions[m].CrashAndRestart? {
        SkipsExactly(states[m], i, actions[m].size);
      } else {
        LostOtherwise(states[m], actions[m], i);
      }
    }
  }

  // ---- a plugin thread that ends ----

  /** A message that the plugin's checkpoint vouches for is still in the stdio buffer. */
  ghost predicate Buffered(s: Sys, i: nat)
    requires Shaped(s) && i < |s.inputs|
  {
    var p := s.inputs[i];
    exists n: nat :: n < p.covered && n !in p.lost && In(s.inq, ByInput(i, n)) && !Safe(s.inq, ByInput(i, n))
  }

  /** What the persisted checkpoint of plugin i vouches for is in the files. */
  ghost predicate Promise(s: Sys, i: nat)
    requires Shaped(s) && i < |s.inputs|
  {
    SafelyBacked(s.inq, i, s.inputs[i].lost, Solid(s.disk.inputs[i]))
  }

  /** Any continuation up to the next write of the checkpoint file, without a crash and without another
      end of plugin i's thread. */
  ghost predicate UpToPersist(states: seq<Sys>, actions: seq<Action>, i: nat) {
    && |states| == |actions| + 1 && actions != [] && Last(actions) == Persist
    && forall k :: 0 <= k < |actions| ==>
         && Enabled(states[k], actions[k]) && states[k + 1] == Next(states[k], actions[k])
         && (k < |actions| - 1 ==> Undisturbed(actions[k], i))
  }

  predicate Undisturbed(a: Action, i: nat) {
    a != Persist && !a.CrashAndRestart? && a != ReloadInput(i)
  }

  lemma TableAfter(s: Sys, a: Action, i: nat)
    requires Enabled(s, a) && i < |s.inputs| && Undisturbed(a, i)
    ensures var t := Next(s, a);
            && i < |t.inputs| && i < |t.table.inputs| && i < |s.table.inputs|
            && t.inputs[i].lost == s.inputs[i].lost
            && (InputFlushed(s.phase) ==> InputFlushed(t.phase) && t.table.inputs[i] == s.table.inputs[i])
            && (!s.table.inputs[i].late ==> !t.table.inputs[i].late)
  {
    hide Total, PosAfter, QOk, Inserted, Flushed, Recovered, OutputStep, MarkOf, Restarted, Grows, Persists;
  }

  lemma PersistAfter(s: Sys, i: nat)
    requires Enabled(s, Persist) && i < |s.inputs|
    ensures var t := Next(s, Persist);
            t.inq == s.inq && t.inputs == s.inputs && t.disk == s.table && i < |t.disk.inputs|
  {
  }

  ghost predicate NotLate(states: seq<Sys>, i: nat) {
    states != [] && InputInv(states[0], i) && !states[0].table.inputs[i].late
  }

  ghost predicate SafeFrom(states: seq<Sys>, i: nat) {
    states != [] && TableSafe(states[0], i)
  }

  /** A checkpoint stored before the flush keeps its promise: the flush comes after it. */
  lemma {:induction false} EarlyKept(states: seq<Sys>, actions: seq<Action>, i: nat, k: nat)
    requires UpToPersist(states, actions, i) && k < |actions|
    requires NotLate(states, i)
    ensures InputInv(states[k], i) && i < |states[k].table.inputs| && !states[k].table.inputs[i].late
  {
    hide InputInv, Next, Enabled;
    if k > 0 {
      EarlyKept(states, actions, i, k - 1);
      InputShape(states[k - 1], i);
      InputStepInv(states[k - 1], actions[k - 1], i);
      TableAfter(states[k - 1], actions[k - 1], i);
    } else {
      InputShape(states[0], i);
    }
  }

  ghost predicate TableSafe(s: Sys, i: nat) {
    && InputInv(s, i) && InputFlushed(s.phase)
    && SafelyBacked(s.inq, i, s.inputs[i].lost, Solid(s.table.inputs[i]))
  }

  /** One stored later does so if nothing it vouches for was still in the buffer. */
  lemma {:induction false} LateKept(states: seq<Sys>, actions: seq<Action>, i: nat, k: nat)
    requires UpToPersist(states, actions, i) && k < |actions|
    requires SafeFrom(states, i)
    ensures TableSafe(states[k], i)
  {
    hide InputInv, Next, Enabled, SafelyBacked, Persists, Grows;
    if k > 0 {
      var s, a := states[k - 1], actions[k - 1];
      LateKept(states, actions, i, k - 1);
      InputShape(s, i);
      InputStepInv(s, a, i);
      TableAfter(s, a, i);
      QueueSteps(s, a);
      var lost := s.inputs[i].lost;
      SafelyBackedPersists(s.inq, states[k].inq, i, lost, lost, Solid(s.table.inputs[i]));
    }
  }

  lemma StoredNow(s: Sys, i: nat)
    requires InputInv(s, i) && Enabled(s, ReloadInput(i))
    ensures var t := Next(s, ReloadInput(i));
            && InputInv(t, i)
            && t.phase == s.phase && t.inq == s.inq && t.inputs[i].lost == s.inputs[i].lost
            && t.table.inputs[i] == Sample(s.inputs[i].covered, false, InputFlushed(s.phase))
            && |t.threads| == |s.threads| && t.outputs == s.outputs
    ensures Buffered(s, i) <==> !SafelyBacked(s.inq, i, s.inputs[i].lost, s.inputs[i].covered)
  {
    hide Total, PosAfter;
    InputStepInv(s, ReloadInput(i), i);
    var p := s.inputs[i];
    if n: nat :| n < p.covered && n !in p.lost && !Safe(s.inq, ByInput(i, n)) {
      assert In(s.inq, ByInput(i, n));
    }
  }

  lemma ExitHarmless(s: Sys, i: nat, states: seq<Sys>, actions: seq<Action>)
    requires InputInv(s, i) && Enabled(s, ReloadInput(i)) && ContinuesTo(Next(s, ReloadInput(i)), states, actions, i)
    requires !InputFlushed(s.phase) || !Buffered(s, i)
    ensures Shaped(Last(states)) && i < |Last(states).inputs| && Promise(Last(states), i)
  {
    hide InputInv, Next, Enabled, SafelyBacked, Buffered;
    StoredNow(s, i);
    var last := |actions| - 1;
    if InputFlushed(s.phase) {
      LateKept(states, actions, i, last);
    } else {
      EarlyKept(states, actions, i, last);
    }
    InputShape(states[last], i);
    InputStepInv(states[last], Persist, i);
    InputShape(states[last + 1], i);
    PersistAfter(states[last], i);
    if !InputFlushed(s.phase) {
      PromiseOf(states[last + 1], i);
    }
  }

  lemma PromiseOf(s: Sys, i: nat)
    requires InputInv(s, i) && !s.disk.inputs[i].late
    ensures Promise(s, i)
  {
  }

  // ---- a sweep can always be finished ----

  predicate PhaseOk(s: Sys) {
    match s.phase
    case Resting => true
    case InputStats(m) => m <= |s.inputs|
    case AnalysisStats(j) => j < |s.threads|
    case AnalysisFlush(j) => j < |s.threads|
    case OutputStats(o) => o <= |s.outputs|
  }

  lemma PhaseStep(s: Sys, a: Action)
    requires PhaseOk(s) && Enabled(s, a)
    ensures PhaseOk(Next(s, a))
  {
    hide Total, PosAfter, QOk, Inserted, Flushed, Recovered, OutputStep, MarkOf, Restarted;
  }

  lemma {:induction false} PhaseRun(states: seq<Sys>, actions: seq<Action>, k: nat)
    requires Run(states, actions) && k < |states|
    ensures PhaseOk(states[k])
  {
    hide Next, Enabled, PhaseOk, Init;
    if k == 0 {
      PhaseInit(states[0]);
    } else {
      PhaseRun(states, actions, k - 1);
      PhaseStep(states[k - 1], actions[k - 1]);
    }
  }

  lemma PhaseInit(s: Sys)
    requires Init(s)
    ensures PhaseOk(s)
  {
  }

  /** After the flush: the sweep's next step when nothing else happens. */
  function SweepAction(s: Sys): Action {
    match s.phase
    case AnalysisFlush(_) => FlushAnalysis
    case OutputStats(o) => if o < |s.outputs| then SampleOutput else Persist
    case _ => SampleThread
  }

  function StepsLeft(s: Sys): int {
    match s.phase
    case AnalysisStats(j) => |s.outputs| + 1 + 2 * (|s.threads| - j)
    case AnalysisFlush(j) => |s.outputs| + 2 * (|s.threads| - j)
    case OutputStats(o) => |s.outputs| - o
    case _ => 0
  }

  ghost predicate CanSweep(s: Sys) {
    Shaped(s) && PhaseOk(s) && InputFlushed(s.phase) && forall o :: 0 <= o < |s.outputs| ==> CanRestart(s.outputs[o])
  }

  lemma SweepStep(s: Sys)
    requires CanSweep(s)
    ensures Enabled(s, SweepAction(s))
    ensures var t := Next(s, SweepAction(s));
            && t.inq == s.inq && t.inputs == s.inputs
            && if SweepAction(s) == Persist then t.disk.inputs == s.table.inputs
               else CanSweep(t) && t.table.inputs == s.table.inputs && 0 <= StepsLeft(t) < StepsLeft(s)
  {
    hide Total, PosAfter, MarkOf, CanRestart, Grows, Persists;
    FlushedGrows(s.anq, Total(s.anq.log.fs));
  }

  lemma {:induction false} FinishSweep(s: Sys, i: nat) returns (states: seq<Sys>, actions: seq<Action>)
    requires CanSweep(s)
    ensures UpToPersist(states, actions, i) && states[0] == s
    ensures var t := Last(states);
            t.inq == s.inq && t.inputs == s.inputs && t.disk.inputs == s.table.inputs
    decreases StepsLeft(s)
  {
    hide Next, Enabled, CanSweep, StepsLeft;
    SweepStep(s);
    var a := SweepAction(s);
    var t := Next(s, a);
    if a == Persist {
      states, actions := [s, t], [a];
    } else {
      states, actions := FinishSweep(t, i);
      assert Last([s] + states) == Last(states) && Last([a] + actions) == Last(actions);
      Prepended(s, a, states, actions, i);
      states, actions := [s] + states, [a] + actions;
    }
  }

  lemma Prepended(s: Sys, a: Action, states: seq<Sys>, actions: seq<Action>, i: nat)
    requires Enabled(s, a) && ContinuesTo(Next(s, a), states, actions, i) && Undisturbed(a, i)
    ensures UpToPersist([s] + states, [a] + actions, i)
  {
    hide Next, Enabled, Undisturbed;
    var ss, aa := [s] + states, [a] + actions;
    forall k | 0 <= k < |aa|
      ensures Enabled(ss[k], aa[k]) && ss[k + 1] == Next(ss[k], aa[k])
      ensures k < |aa| - 1 ==> Undisturbed(aa[k], i)
    {
      if k > 0 {
        assert ss[k] == states[k - 1] && ss[k + 1] == states[k] && aa[k] == actions[k - 1];
      }
    }
  }

  ghost predicate ContinuesTo(first: Sys, states: seq<Sys>, actions: seq<Action>, i: nat) {
    states != [] && states[0] == first && UpToPersist(states, actions, i)
  }

  ghost predicate PromiseKept(states: seq<Sys>, i: nat) {
    states != [] && Shaped(Last(states)) && i < |Last(states).inputs| && Promise(Last(states), i)
  }

  /** What the ending thread of an input plugin stores is safe to persist, whatever happens up to the write,
      exactly if the running sweep has not flushed the input queue yet or nothing that the checkpoint
      vouches for is still in the stdio buffer. */
  lemma ExitIsExact(states: seq<Sys>, actions: seq<Action>, a: nat, i: nat)
    requires Run(states, actions)
    requires a < |states| && InputOf(states, i) && Enabled(states[a], ReloadInput(i))
    ensures Shaped(states[a]) && i < |states[a].inputs|
    ensures (forall ss, aa :: ContinuesTo(Next(states[a], ReloadInput(i)), ss, aa, i) ==>
        PromiseKept(ss, i))
            <==> !InputFlushed(states[a].phase) || !Buffered(states[a], i)
  {
    hide InputInv, Next, Enabled, UpToPersist, Promise, Buffered, SafelyBacked;
    var s := states[a];
    InputRun(states, actions, a, i);
    InputShape(s, i);
    if !InputFlushed(s.phase) || !Buffered(s, i) {
      forall ss, aa | ContinuesTo(Next(s, ReloadInput(i)), ss, aa, i)
        ensures PromiseKept(ss, i)
      {
        ExitHarmless(s, i, ss, aa);
      }
    } else {
      var ss, aa := ExitHarmful(states, actions, a, i);
    }
  }

  lemma ExitHarmful(states: seq<Sys>, actions: seq<Action>, a: nat, i: nat)
    returns (ss: seq<Sys>, aa: seq<Action>)
    requires Run(states, actions)
    requires a < |states| && InputOf(states, i) && Enabled(states[a], ReloadInput(i)) && InputInv(states[a], i)
    requires InputFlushed(states[a].phase) && Buffered(states[a], i)
    ensures ContinuesTo(Next(states[a], ReloadInput(i)), ss, aa, i)
    ensures !PromiseKept(ss, i)
  {
    hide Next, Enabled, InputInv, Buffered, SafelyBacked, PhaseOk;
    var s := states[a];
    PhaseRun(states, actions, a);
    PhaseStep(s, ReloadInput(i));
    StoredNow(s, i);
    var t := Next(s, ReloadInput(i));
    InputShape(t, i);
    AllCanRestart(states, actions, a);
    ss, aa := FinishSweep(t, i);
  }

  lemma AllCanRestart(states: seq<Sys>, actions: seq<Action>, a: nat)
    requires Run(states, actions) && a < |states|
    ensures forall o :: 0 <= o < |states[a].outputs| ==> CanRestart(states[a].outputs[o])
  {
    hide Next, Enabled, Init;
    SameOutputs(states, actions, a);
    forall o: nat | o < |states[a].outputs|
      ensures CanRestart(states[a].outputs[o])
    {
      AtLeastOnce.OutputRun(states, actions, a, o);
      AtLeastOnce.CoveredSettled(states[a].inq, states[a].anq, states[a].outputs[o]);
    }
  }

  lemma {:induction false} SameOutputs(states: seq<Sys>, actions: seq<Action>, a: nat)
    requires Run(states, actions) && a < |states|
    ensures |states[a].outputs| == |states[0].outputs|
  {
    hide Next, Enabled, Init;
    if a > 0 {
      SameOutputs(states, actions, a - 1);
      SameOutputsStep(states[a - 1], actions[a - 1]);
    }
  }

  lemma SameOutputsStep(s: Sys, a: Action)
    requires Enabled(s, a)
    ensures |Next(s, a).outputs| == |s.outputs|
  {
    hide Total, PosAfter, QOk, Inserted, Flushed, Recovered, OutputStep, MarkOf, Restarted;
  }
}
