/** That a sweep does record where everybody is: what each write of the checkpoint file puts into it for
    every thread and plugin, and so what a crash has done again. */
module Sweeps {
  import opened Framing
  import opened Queue
  import opened Pipeline
  import opened Durability
  import opened AtLeastOnce
  import D = Delivery

  // ---- one sweep ----

  /** The sweep that began with step s is still under way in state m. */
  ghost predicate InSweep(states: seq<Sys>, actions: seq<Action>, s: nat, m: nat) {
    && |states| == |actions| + 1 && s < m < |states| && actions[s] == StartSweep
    && forall k :: s < k < m ==> actions[k] != StartSweep && actions[k] != Persist && !actions[k].CrashAndRestart?
  }

  lemma PhaseAfter(s: Sys, a: Action)
    requires Enabled(s, a)
    ensures a == StartSweep ==> s.phase == Resting && Next(s, a).phase == InputStats(0)
    ensures a == Persist || a.CrashAndRestart? ==> Next(s, a).phase == Resting
    ensures a != StartSweep && s.phase == Resting ==> Next(s, a).phase == Resting
    ensures |Next(s, a).inputs| == |s.inputs| && |Next(s, a).threads| == |s.threads|
    ensures |Next(s, a).outputs| == |s.outputs|
  {
    hide PosAfter, Total, QOk, Inserted, Flushed, Recovered, OutputStep, Restarted, MarkOf;
  }

  lemma {:induction false} SameSizes(states: seq<Sys>, actions: seq<Action>, k: nat)
    requires Run(states, actions) && k < |states|
    ensures Shaped(states[k]) && Shaped(states[0])
    ensures |states[k].inputs| == |states[0].inputs| && |states[k].threads| == |states[0].threads|
    ensures |states[k].outputs| == |states[0].outputs|
  {
    hide Next, Enabled, Init, Shaped;
    if k == 0 {
      InitShaped(states[0]);
    } else {
      SameSizes(states, actions, k - 1);
      PhaseAfter(states[k - 1], actions[k - 1]);
      QueueSteps(states[k - 1], actions[k - 1]);
    }
  }

  lemma InitShaped(s: Sys)
    requires Init(s)
    ensures Shaped(s) && s.phase == Resting
  {
  }

  /** Whenever the writer is not resting, a sweep is under way. */
  lemma {:induction false} SweepOf(states: seq<Sys>, actions: seq<Action>, m: nat) returns (s: nat)
    requires Run(states, actions) && m < |states|
    ensures states[m].phase != Resting ==> InSweep(states, actions, s, m)
  {
    hide Next, Enabled, Init;
    s := 0;
    if m == 0 {
      InitShaped(states[0]);
    } else {
      PhaseAfter(states[m - 1], actions[m - 1]);
      if actions[m - 1] == StartSweep {
        s := m - 1;
      } else {
        s := SweepOf(states, actions, m - 1);
      }
    }
  }

  // ---- whom a sweep visits, and what it records ----

  /** An input plugin, an analysis thread or an output plugin. */
  datatype Place = AtInput(i: nat) | AtThread(j: nat) | AtOutput(o: nat)

  predicate IsIn(s: Sys, x: Place) {
    match x
    case AtInput(i) => i < |s.inputs|
    case AtThread(j) => j < |s.threads|
    case AtOutput(o) => o < |s.outputs|
  }

  predicate PlaceOf(states: seq<Sys>, x: Place) {
    states != [] && IsIn(states[0], x)
  }

  predicate Visits(s: Sys, a: Action, x: Place) {
    match x
    case AtInput(i) => a == SampleInput && s.phase == InputStats(i)
    case AtThread(j) => a == SampleThread && s.phase == AnalysisStats(j)
    case AtOutput(o) => (a == SampleOutput || a == SkipOutput) && s.phase == OutputStats(o)
  }

  /** An output plugin whose thread is ending may be passed over. */
  predicate PassesOver(s: Sys, a: Action, x: Place) {
    x.AtOutput? && a == SkipOutput && s.phase == OutputStats(x.o) && x.o < |s.outputs| && s.outputs[x.o].ending
  }

  /** The sweep has been there. */
  predicate Past(phase: Phase, x: Place) {
    match x
    case AtInput(i) => (phase.InputStats? && i < phase.i) || InputFlushed(phase)
    case AtThread(j) =>
      (phase.AnalysisStats? && j < phase.j) || (phase.AnalysisFlush? && j <= phase.j) || phase.OutputStats?
    case AtOutput(o) => phase.OutputStats? && o < phase.o
  }

  /** The step stores a position: the sweep's sample, or what the thread of a plugin stores as it ends. */
  predicate Stores(s: Sys, a: Action, x: Place) {
    match x
    case AtInput(i) => Visits(s, a, x) || a == ReloadInput(i)
    case AtThread(_) => Visits(s, a, x)
    case AtOutput(o) => (a == SampleOutput && s.phase == OutputStats(o)) || a == EndOutput(o) || a == ReloadOutput(o)
  }

  /** What the table has after it. For an input plugin: its checkpoint, whether that came with the message that is being
      injected, and whether it was stored late. For a thread: its position. For an output plugin: its checkpoint, of
      which an ending thread stores the input queue's half first. */
  ghost predicate Records(s: Sys, a: Action, x: Place, t: Table) {
    match x
    case AtInput(i) =>
      && i < |s.inputs| && i < |t.inputs|
      && t.inputs[i].covered == s.inputs[i].covered
      && (t.inputs[i].ahead <==> s.inputs[i].busy && s.inputs[i].covered == s.inputs[i].next + 1)
      && (t.inputs[i].late <==> a == ReloadInput(i) && InputFlushed(s.phase))
    case AtThread(j) =>
      && j < |s.threads| && j < |t.threads|
      && t.threads[j] == Mark(s.threads[j].cp, s.threads[j].done)
    case AtOutput(o) =>
      && o < |s.outputs| && o < |t.outputs| && o < |s.table.outputs| && CanRestart(s.outputs[o])
      && var m, half := MarkOf(s.outputs[o]), s.table.outputs[o];
      t.outputs[o] == if a == EndOutput(o)
                      then PairMark(D.Pair(m.cp.input, half.cp.analysis), Cut(m.cut.input, half.cut.analysis))
                      else m
  }

  predicate SameEntry(t: Table, u: Table, x: Place) {
    match x
    case AtInput(i) => i < |t.inputs| && i < |u.inputs| && t.inputs[i] == u.inputs[i]
    case AtThread(j) => j < |t.threads| && j < |u.threads| && t.threads[j] == u.threads[j]
    case AtOutput(o) => o < |t.outputs| && o < |u.outputs| && t.outputs[o] == u.outputs[o]
  }

  ghost predicate Restartable(s: Sys, x: Place) {
    IsIn(s, x) && (x.AtOutput? ==> CanRestart(s.outputs[x.o]))
  }

  lemma InputEntryAfter(s: Sys, a: Action, i: nat)
    requires Enabled(s, a) && i < |s.inputs| && !a.CrashAndRestart?
    ensures if Stores(s, a, AtInput(i)) then Records(s, a, AtInput(i), Next(s, a).table)
            else SameEntry(s.table, Next(s, a).table, AtInput(i))
  {
    hide PosAfter, Total, QOk, Inserted, Flushed, Recovered, OutputStep, Restarted, MarkOf, CanRestart, OutputEnabled;
  }

  lemma ThreadEntryAfter(s: Sys, a: Action, j: nat)
    requires Enabled(s, a) && j < |s.threads| && !a.CrashAndRestart?
    ensures if Stores(s, a, AtThread(j)) then Records(s, a, AtThread(j), Next(s, a).table)
            else SameEntry(s.table, Next(s, a).table, AtThread(j))
  {
    hide PosAfter, Total, QOk, Inserted, Flushed, Recovered, OutputStep, Restarted, MarkOf, CanRestart, OutputEnabled;
  }

  lemma OutputEntryAfter(s: Sys, a: Action, o: nat)
    requires Enabled(s, a) && Restartable(s, AtOutput(o)) && !a.CrashAndRestart?
    ensures if Stores(s, a, AtOutput(o)) then Records(s, a, AtOutput(o), Next(s, a).table)
            else SameEntry(s.table, Next(s, a).table, AtOutput(o))
  {
    hide PosAfter, Total, QOk, Inserted, Flushed, Recovered, OutputStep, Restarted, MarkOf, CanRestart, OutputEnabled;
  }

  lemma TableAfter(s: Sys, a: Action, x: Place)
    requires Enabled(s, a) && Restartable(s, x) && !a.CrashAndRestart?
    ensures if Stores(s, a, x) then Records(s, a, x, Next(s, a).table) else SameEntry(s.table, Next(s, a).table, x)
  {
    hide Next, Enabled, Stores, Records, SameEntry, CanRestart;
    match x
    case AtInput(i) => InputEntryAfter(s, a, i);
    case AtThread(j) => ThreadEntryAfter(s, a, j);
    case AtOutput(o) => OutputEntryAfter(s, a, o);
  }

  lemma PastAfter(s: Sys, a: Action, x: Place)
    requires Enabled(s, a) && IsIn(s, x) && a != Persist && a != StartSweep && !a.CrashAndRestart?
    ensures Past(s.phase, x) ==> Past(Next(s, a).phase, x) && !Visits(s, a, x)
    ensures Past(Next(s, a).phase, x) ==> Past(s.phase, x) || Visits(s, a, x)
    ensures Visits(s, a, x) ==> Past(Next(s, a).phase, x)
    ensures Visits(s, a, x) ==> Stores(s, a, x) || PassesOver(s, a, x)
  {
    hide PosAfter, Total, QOk, Inserted, Flushed, Recovered, OutputStep, Restarted, MarkOf;
  }

  lemma AlwaysIn(states: seq<Sys>, actions: seq<Action>, k: nat, x: Place)
    requires Run(states, actions) && k < |states| && PlaceOf(states, x)
    ensures Restartable(states[k], x)
  {
    hide Next, Enabled, Init, OutputInv;
    SameSizes(states, actions, k);
    if x.AtOutput? {
      OutputRun(states, actions, k, x.o);
      LifePositions(states[k], x.o);
    }
  }

  /** Whatever the sweep is past it has visited. */
  lemma {:induction false} Visited(states: seq<Sys>, actions: seq<Action>, s: nat, m: nat, x: Place) returns (v: nat)
    requires Run(states, actions) && InSweep(states, actions, s, m) && PlaceOf(states, x)
    ensures Past(states[m].phase, x) ==> s < v < m && Visits(states[v], actions[v], x)
  {
    hide Next, Enabled, Init, Shaped, Past, Visits;
    var k := m - 1;
    AlwaysIn(states, actions, k, x);
    v := k;
    if k == s {
      StartsBefore(states[s], x);
    } else {
      PastAfter(states[k], actions[k], x);
      if !Visits(states[k], actions[k], x) {
        v := Visited(states, actions, s, k, x);
      }
    }
  }

  lemma StartsBefore(s: Sys, x: Place)
    requires Enabled(s, StartSweep)
    ensures !Past(Next(s, StartSweep).phase, x)
  {
    hide PosAfter, Total, QOk, Inserted, Flushed, Recovered, OutputStep, Restarted, MarkOf;
  }

  lemma {:induction false} StaysPast(states: seq<Sys>, actions: seq<Action>, s: nat, w: nat, v: nat, m: nat, x: Place)
    requires Run(states, actions) && InSweep(states, actions, s, w) && s < v < m <= w && PlaceOf(states, x)
    ensures Visits(states[v], actions[v], x) ==> Past(states[m].phase, x)
    decreases m
  {
    hide Next, Enabled, Init, Past, Visits;
    AlwaysIn(states, actions, m - 1, x);
    PastAfter(states[m - 1], actions[m - 1], x);
    if v < m - 1 {
      StaysPast(states, actions, s, w, v, m - 1, x);
    }
  }

  /** A sweep visits nobody twice. */
  lemma OnceASweep(states: seq<Sys>, actions: seq<Action>, s: nat, w: nat, v: nat, v': nat, x: Place)
    requires Run(states, actions) && InSweep(states, actions, s, w) && s < v < v' < w && PlaceOf(states, x)
    ensures !(Visits(states[v], actions[v], x) && Visits(states[v'], actions[v'], x))
  {
    hide Next, Enabled, Init, Past, Visits;
    AlwaysIn(states, actions, v', x);
    StaysPast(states, actions, s, w, v, v', x);
    PastAfter(states[v'], actions[v'], x);
  }

  /** Step q is the last before state m to store a position of x. */
  ghost predicate LastStored(states: seq<Sys>, actions: seq<Action>, x: Place, q: nat, m: nat) {
    && q < m <= |actions| < |states| && Stores(states[q], actions[q], x)
    && NoCrash(actions, q, m) && forall k :: q < k < m ==> !Stores(states[k], actions[k], x)
  }

  lemma {:induction false} LastStore(states: seq<Sys>, actions: seq<Action>, x: Place, v: nat, m: nat) returns (q: nat)
    requires v < m <= |actions| < |states| && NoCrash(actions, v, m)
    ensures Stores(states[v], actions[v], x) ==> v <= q && LastStored(states, actions, x, q, m)
  {
    hide Stores;
    q := m - 1;
    if v < q && !Stores(states[q], actions[q], x) {
      q := LastStore(states, actions, x, v, q);
    }
  }

  /** The table has for x what that step has put there. */
  lemma {:induction false} TableHoldsLast(states: seq<Sys>, actions: seq<Action>, x: Place, q: nat, m: nat)
    requires Run(states, actions) && PlaceOf(states, x) && LastStored(states, actions, x, q, m)
    ensures Records(states[q], actions[q], x, states[m].table)
    decreases m
  {
    hide Next, Enabled, Init, Records, Stores;
    var k := m - 1;
    AlwaysIn(states, actions, k, x);
    TableAfter(states[k], actions[k], x);
    if k > q {
      TableHoldsLast(states, actions, x, q, k);
      SameRecords(states[q], actions[q], x, states[k].table, states[m].table);
    }
  }

  lemma SameRecords(s: Sys, a: Action, x: Place, t: Table, u: Table)
    requires Records(s, a, x, t) && SameEntry(t, u, x)
    ensures Records(s, a, x, u)
  {
  }

  lemma EndingAfter(s: Sys, a: Action, o: nat)
    requires Enabled(s, a) && o < |s.outputs|
    ensures o < |Next(s, a).outputs|
    ensures Next(s, a).outputs[o].ending <==>
              a == EndOutput(o) || (s.outputs[o].ending && !a.CrashAndRestart? && a != ReloadOutput(o))
  {
    hide PosAfter, Total, QOk, Inserted, Flushed, Recovered, OutputStep, MarkOf, CanRestart, OutputEnabled;
  }

  lemma {:induction false} EndedBefore(states: seq<Sys>, actions: seq<Action>, o: nat, v: nat) returns (e: nat)
    requires Run(states, actions) && v < |states| && OutputOf(states, o)
    ensures o < |states[v].outputs|
    ensures states[v].outputs[o].ending ==> e < v && actions[e] == EndOutput(o) && NoCrash(actions, e, v)
  {
    hide Next, Enabled, Init, Shaped;
    SameSizes(states, actions, v);
    e := 0;
    if v == 0 {
      NotEnding(states[0], o);
    } else {
      SameSizes(states, actions, v - 1);
      EndingAfter(states[v - 1], actions[v - 1], o);
      if actions[v - 1] == EndOutput(o) {
        e := v - 1;
      } else {
        e := EndedBefore(states, actions, o, v - 1);
      }
    }
  }

  lemma NotEnding(s: Sys, o: nat)
    requires Init(s) && o < |s.outputs|
    ensures !s.outputs[o].ending
  {
  }

  /** Every write of the checkpoint file puts into it, for every input plugin, analysis thread and output plugin, what
      the last step that stored a position of it had to store. That step is in the very sweep that ends with the
      write, at or after the visit; only for an output plugin whose thread the visit finds ending it may be earlier,
      and then it is what that thread has stored. */
  lemma SweepRecords(states: seq<Sys>, actions: seq<Action>, w: nat, x: Place) returns (s: nat, v: nat, q: nat)
    requires Run(states, actions) && Does(actions, w, Persist) && PlaceOf(states, x)
    ensures s < v < w && InSweep(states, actions, s, w) && Visits(states[v], actions[v], x)
    ensures v <= q || PassesOver(states[v], actions[v], x)
    ensures LastStored(states, actions, x, q, w)
    ensures Records(states[q], actions[q], x, states[w + 1].disk)
  {
    hide Next, Init, Enabled, OutputInv, Records, Past, Visits, Stores;
    AlwaysIn(states, actions, w, x);
    PersistAfter(states[w], x);
    s := SweepOf(states, actions, w);
    v := Visited(states, actions, s, w, x);
    AlwaysIn(states, actions, v, x);
    PastAfter(states[v], actions[v], x);
    var e := v;
    if PassesOver(states[v], actions[v], x) {
      e := EndedBefore(states, actions, x.o, v);
      EndStores(states[e], x.o);
    }
    q := LastStore(states, actions, x, e, w);
    TableHoldsLast(states, actions, x, q, w);
  }

  lemma PersistAfter(s: Sys, x: Place)
    requires Enabled(s, Persist) && IsIn(s, x)
    ensures s.phase != Resting && Past(s.phase, x) && Next(s, Persist).disk == s.table
  {
  }

  lemma EndStores(s: Sys, o: nat)
    ensures Stores(s, EndOutput(o), AtOutput(o))
  {
  }

  /** Between two states there is neither a crash nor a write of the file. */
  predicate Quiet(actions: seq<Action>, a: nat, b: nat) {
    forall m :: a <= m < b && m < |actions| ==> actions[m] != Persist && !actions[m].CrashAndRestart?
  }

  lemma DiskAfter(s: Sys, a: Action)
    requires Enabled(s, a) && a != Persist && !a.CrashAndRestart?
    ensures Next(s, a).disk == s.disk
  {
    hide PosAfter, Total, QOk, Inserted, Flushed, Recovered, OutputStep, Restarted, MarkOf;
  }

  lemma {:induction false} FileStays(states: seq<Sys>, actions: seq<Action>, a: nat, b: nat)
    requires Run(states, actions) && a <= b < |states| && Quiet(actions, a, b)
    ensures states[b].disk == states[a].disk
    decreases b
  {
    hide Next, Enabled, Init;
    if a < b {
      FileStays(states, actions, a, b - 1);
      DiskAfter(states[b - 1], actions[b - 1]);
    }
  }

  /** The file as the last write before a crash has left it. */
  lemma LastWrite(states: seq<Sys>, actions: seq<Action>, w: nat, k: nat, x: Place) returns (s: nat, v: nat, q: nat)
    requires Run(states, actions) && Does(actions, w, Persist) && PlaceOf(states, x)
    requires w < k <= |actions| && Quiet(actions, w + 1, k)
    ensures s < v < w && InSweep(states, actions, s, w) && Visits(states[v], actions[v], x)
    ensures v <= q || PassesOver(states[v], actions[v], x)
    ensures LastStored(states, actions, x, q, w) && NoCrash(actions, q, k)
    ensures Records(states[q], actions[q], x, states[k].disk)
  {
    hide Next, Init, Enabled, Records, Visits, Stores;
    s, v, q := SweepRecords(states, actions, w, x);
    FileStays(states, actions, w + 1, k);
  }

  // ---- analysis threads ----

  /** From state a to state b thread j finishes message r of the input queue. */
  ghost predicate Finished(states: seq<Sys>, actions: seq<Action>, j: nat, a: nat, b: nat, r: nat) {
    exists m :: a <= m < b && m < |states| && m < |actions| && FinishedAt(states[m], actions[m], j, r)
  }

  predicate FinishedAt(s: Sys, a: Action, j: nat, r: nat) {
    a == FinishMessage(j) && j < |s.threads| && s.threads[j].done == r
  }

  /** What a step does to a thread. */
  lemma ThreadAfter(s: Sys, a: Action, j: nat)
    requires Enabled(s, a) && j < |s.threads|
    ensures j < |Next(s, a).threads| && j < |s.disk.threads|
    ensures var h, h' := s.threads[j], Next(s, a).threads[j];
            match a
            case StartMessage(k) => h' == if k == j then h.(working := true, part := 0) else h
            case Emit(k, _) => h' == if k == j then h.(part := h.part + 1) else h
            case FinishMessage(k) =>
              if k == j then h'.done == h.done + 1 && h'.emitted == h.emitted + [h.part] && !h'.working else h' == h
            case CrashAndRestart(_) =>
              h'.done == s.disk.threads[j].count && h'.cp == s.disk.threads[j].cp && !h'.working
            case _ => h' == h
  {
    hide PosAfter, Total, QOk, Inserted, Flushed, Recovered, OutputStep, Restarted, MarkOf;
  }

  /** The messages that a thread finishes in one life are a gapless stretch of the queue. */
  lemma {:induction false} FinishedExactly(states: seq<Sys>, actions: seq<Action>, j: nat, a: nat, b: nat, r: nat)
    requires Run(states, actions) && a <= b < |states| && NoCrash(actions, a, b) && ThreadOf(states, j)
    ensures j < |states[a].threads| && j < |states[b].threads|
    ensures Finished(states, actions, j, a, b, r) <==> states[a].threads[j].done <= r < states[b].threads[j].done
    ensures states[a].threads[j].done <= states[b].threads[j].done
    decreases b
  {
    hide Next, Enabled, Init;
    SameSizes(states, actions, a);
    if a < b {
      FinishedExactly(states, actions, j, a, b - 1, r);
      SameSizes(states, actions, b - 1);
      ThreadAfter(states[b - 1], actions[b - 1], j);
      assert FinishedAt(states[b - 1], actions[b - 1], j, r) ==> Finished(states, actions, j, a, b, r);
    }
  }

  /** What a crash has an analysis thread do again. Step w wrote the file last before the crash in step k. In the
      sweep of w there is a sample q of the thread, and of the messages that the life ended by the crash has
      finished since some state a, before or after the sample, it finishes again exactly those that it had finished
      since the sample. */
  lemma ThreadRedoesExactly(states: seq<Sys>, actions: seq<Action>, j: nat, w: nat, k: nat, later: nat, a: nat, r: nat)
    returns (s: nat, q: nat)
    requires Run(states, actions) && ThreadOf(states, j)
    requires w < k < later < |states| && Does(actions, w, Persist) && Crashes(actions, k)
    requires Quiet(actions, w + 1, k) && NoCrash(actions, k + 1, later)
    requires a <= k && NoCrash(actions, a, k)
    ensures s < q < w && InSweep(states, actions, s, w) && Visits(states[q], actions[q], AtThread(j))
    ensures Finished(states, actions, j, a, k, r) && Finished(states, actions, j, k + 1, later, r) <==>
            && Finished(states, actions, j, a, k, r) && Finished(states, actions, j, q, k, r)
            && j < |states[later].threads| && r < states[later].threads[j].done
    ensures j < |states[q].threads| && j < |states[k + 1].threads|
    ensures states[k + 1].threads[j].done == states[q].threads[j].done
    ensures states[k + 1].threads[j].cp == states[q].threads[j].cp
  {
    hide Next, Enabled, Init, Finished, Shaped, Visits;
    var v;
    s, v, q := LastWrite(states, actions, w, k, AtThread(j));
    SameSizes(states, actions, k);
    ThreadAfter(states[k], actions[k], j);
    FinishedExactly(states, actions, j, k + 1, later, r);
    FinishedExactly(states, actions, j, q, k, r);
    FinishedExactly(states, actions, j, a, k, r);
  }

  // ---- what threads inject ----

  /** Step e injects a message while thread j processes message r. */
  predicate EmitsFor(states: seq<Sys>, actions: seq<Action>, e: nat, j: nat, r: nat) {
    && e < |states| && e < |actions| && actions[e].Emit? && actions[e].j == j
    && j < |states[e].threads| && states[e].threads[j].done == r
  }

  /** The injection is on the thread's record: as one of those so far, or of those of a finished message. */
  predicate OnRecord(h: Thread, r: nat, part: nat) {
    (h.done == r && part < h.part && h.working) || (r < h.done && r < |h.emitted| && part < h.emitted[r])
  }

  lemma {:induction false} EmitOnRecord(states: seq<Sys>, actions: seq<Action>, j: nat, e: nat, k: nat, r: nat)
    requires Run(states, actions) && ThreadOf(states, j)
    requires e < k < |states| && EmitsFor(states, actions, e, j, r) && NoCrash(actions, e, k)
    ensures j < |states[k].threads| && OnRecord(states[k].threads[j], r, states[e].threads[j].part)
    decreases k
  {
    hide Next, Init, ThreadInv;
    var last := k - 1;
    ThreadRun(states, actions, last, j);
    ThreadRun(states, actions, k, j);
    ThreadRecord(states[last], j);
    ThreadAfter(states[last], actions[last], j);
    EmitsWorking(states[last], actions[last]);
    if last > e {
      EmitOnRecord(states, actions, j, e, last, r);
    }
  }

  lemma EmitsWorking(s: Sys, a: Action)
    requires Enabled(s, a)
    ensures a.Emit? ==> a.j < |s.threads| && s.threads[a.j].working
    ensures a.StartMessage? ==> a.j < |s.threads| && !s.threads[a.j].working
  {
  }

  lemma ThreadRecord(s: Sys, j: nat)
    requires ThreadInv(s, j)
    ensures Shaped(s) && j < |s.threads| && s.threads[j].done == |s.threads[j].emitted|
  {
  }

  /** Whatever an analysis thread injects while it processes a message is in the analysis queue's files in every
      state of that life in which the persisted checkpoint covers the message. */
  lemma EmittedIsSafe(states: seq<Sys>, actions: seq<Action>, j: nat, e: nat, k: nat, r: nat)
    requires Run(states, actions) && ThreadOf(states, j)
    requires e < k < |states| && EmitsFor(states, actions, e, j, r) && NoCrash(actions, e, k)
    ensures var s := states[k];
            && Shaped(s) && j < |s.disk.threads|
            && (r < s.disk.threads[j].count ==> Safe(s.anq, ByAnalysis(j, r, states[e].threads[j].part)))
  {
    EmitOnRecord(states, actions, j, e, k, r);
    ThreadRun(states, actions, k, j);
  }

  // ---- what is in the queues ----

  /** Step m injects this into the queue. */
  predicate InjectsAt(states: seq<Sys>, actions: seq<Action>, m: nat, src: D.Source, o: Origin, p: Payload) {
    m < |states| && m < |actions| && Injects(states[m], actions[m], src, o, p)
  }

  predicate Injects(s: Sys, a: Action, src: D.Source, o: Origin, p: Payload) {
    match a
    case AppendMessage(i, payload) =>
      src.FromInput? && payload == p && i < |s.inputs| && o == ByInput(i, s.inputs[i].next)
    case Emit(j, payload) =>
      src.FromAnalysis? && payload == p && j < |s.threads| && o == ByAnalysis(j, s.threads[j].done, s.threads[j].part)
    case EmitIdle(j, payload) => src.FromAnalysis? && payload == p && o == ByTimer(j)
    case _ => false
  }

  /** Message x of the queue. */
  ghost predicate Holds(q: Tagged, x: nat, o: Origin, p: Payload) {
    x < |q.origins| && x < |Flat(q.log.fs)| && q.origins[x] == o && Flat(q.log.fs)[x] == p
  }

  /** What a step does to the messages of a queue. */
  lemma QueueAfter(s: Sys, a: Action, src: D.Source)
    requires Enabled(s, a)
    ensures QOk(QueueOf(s, src)) && QOk(QueueOf(Next(s, a), src))
    ensures var q, r := QueueOf(s, src), QueueOf(Next(s, a), src);
            && q.log.durable <= |q.origins| == |Flat(q.log.fs)| && r.log.durable <= |r.origins| == |Flat(r.log.fs)|
            && q.log.durable <= r.log.durable
            && if a.CrashAndRestart? then
                 r.origins == q.origins[..q.log.durable] && Flat(r.log.fs) == Flat(q.log.fs)[..q.log.durable]
               else if exists o, p :: Injects(s, a, src, o, p) then
                 exists o, p :: Injects(s, a, src, o, p) && r.origins == q.origins + [o] &&
                     Flat(r.log.fs) == Flat(q.log.fs) + [p]
               else r.origins == q.origins && Flat(r.log.fs) == Flat(q.log.fs)
  {
    hide PosAfter, Total, Flat, OutputStep, Restarted, MarkOf, Grows, Persists, Shaped;
    QueueSteps(s, a);
    QueueBounds(s, src);
    QueueBounds(Next(s, a), src);
    match a
    case AppendMessage(i, p) => assert src.FromInput? ==> Injects(s, a, src, ByInput(i, s.inputs[i].next), p);
    case Emit(j, p) =>
      assert src.FromAnalysis? ==> Injects(s, a, src, ByAnalysis(j, s.threads[j].done, s.threads[j].part), p);
    case EmitIdle(j, p) => assert src.FromAnalysis? ==> Injects(s, a, src, ByTimer(j), p);
    case _ =>
  }

  lemma QueueBounds(s: Sys, src: D.Source)
    requires Shaped(s)
    ensures var q := QueueOf(s, src); QOk(q) && q.log.durable <= |q.origins| == |Flat(q.log.fs)|
  {
  }

  /** Every crash between the two states finds the message that step m has injected in the files. */
  ghost predicate FlushedAtCrashes(states: seq<Sys>, actions: seq<Action>, m: nat, k: nat, src: D.Source) {
    forall c :: m < c < k && c < |states| && c < |actions| && actions[c].CrashAndRestart? ==>
      m < |states| && |QueueOf(states[m], src).origins| < QueueOf(states[c], src).log.durable
  }

  /** A message injected is the next one of its queue, with its payload and its origin, and stays there: in every
      later state up to a crash, and beyond crashes once it is in the files. */
  lemma {:induction false} InjectedStays(states: seq<Sys>, actions: seq<Action>, m: nat, k: nat, src: D.Source,
                                         o: Origin, p: Payload)
    requires Run(states, actions) && m < k < |states| && InjectsAt(states, actions, m, src, o, p)
    requires FlushedAtCrashes(states, actions, m, k, src)
    ensures Holds(QueueOf(states[k], src), |QueueOf(states[m], src).origins|, o, p)
    decreases k
  {
    hide Next, Enabled, Init, Flat, QOk, QueueOf;
    var x := |QueueOf(states[m], src).origins|;
    QueueAfter(states[k - 1], actions[k - 1], src);
    QueueAfter(states[m], actions[m], src);
    if k > m + 1 {
      InjectedStays(states, actions, m, k - 1, src, o, p);
    }
  }

  // ---- input plugins ----

  /** What a step does to an input plugin. */
  lemma InputAfter(s: Sys, a: Action, i: nat)
    requires Enabled(s, a) && i < |s.inputs|
    ensures i < |Next(s, a).inputs| && i < |s.disk.inputs|
    ensures var p, p' := s.inputs[i], Next(s, a).inputs[i];
            && p'.next == (match a
                           case AppendMessage(k, _) => if k == i then p.next + 1 else p.next
                           case ReloadInput(k) => if k == i then p.covered else p.next
                           case CrashAndRestart(_) => s.disk.inputs[i].covered
                           case _ => p.next)
            && p'.covered == (if Given(s, a, i) then Vouched(s, a, i)
                              else if a.CrashAndRestart? then s.disk.inputs[i].covered else p.covered)
  {
    hide PosAfter, Total, QOk, Inserted, Flushed, Recovered, OutputStep, Restarted, MarkOf;
  }

  /** Step m is the last before state k, and in the same life, at which the plugin hands over a checkpoint. */
  predicate LastGivenAt(states: seq<Sys>, actions: seq<Action>, i: nat, m: nat, k: nat) {
    && m < k <= |actions| < |states| && NoCrash(actions, m, k)
    && Given(states[m], actions[m], i) && forall c :: m < c < k ==> !Given(states[c], actions[c], i)
  }

  /** The plugin hands over a checkpoint, with a message or without one. */
  predicate Given(s: Sys, a: Action, i: nat) {
    i < |s.inputs| && (a == SetCheckpoint(i, true) || a == Synchronize(i))
  }

  /** It vouches for the message it comes with and all before it. */
  function Vouched(s: Sys, a: Action, i: nat): nat
    requires Given(s, a, i)
  {
    if a.SetCheckpoint? then s.inputs[i].next + 1 else s.inputs[i].next
  }

  /** A plugin's checkpoint is the last one that it has handed over. */
  lemma {:induction false} LastGiven(states: seq<Sys>, actions: seq<Action>, i: nat, m: nat, k: nat)
    requires Run(states, actions) && InputOf(states, i) && LastGivenAt(states, actions, i, m, k)
    ensures i < |states[k].inputs| && states[k].inputs[i].covered == Vouched(states[m], actions[m], i)
    decreases k
  {
    hide Next, Enabled, Init, Given, Vouched;
    SameSizes(states, actions, k - 1);
    InputAfter(states[k - 1], actions[k - 1], i);
    if k > m + 1 {
      LastGiven(states, actions, i, m, k - 1);
    }
  }

  /** From state a to state b plugin i appends its message n. */
  ghost predicate Appended(states: seq<Sys>, actions: seq<Action>, i: nat, a: nat, b: nat, n: nat) {
    exists m :: a <= m < b && m < |states| && m < |actions| && AppendedAt(states[m], actions[m], i, n)
  }

  predicate AppendedAt(s: Sys, a: Action, i: nat, n: nat) {
    a.AppendMessage? && a.i == i && i < |s.inputs| && s.inputs[i].next == n
  }

  predicate NoReload(actions: seq<Action>, i: nat, a: nat, b: nat) {
    forall m :: a <= m < b && m < |actions| ==> actions[m] != ReloadInput(i)
  }

  /** Between two restarts a plugin appends a gapless stretch of its messages. */
  lemma {:induction false} AppendedExactly(states: seq<Sys>, actions: seq<Action>, i: nat, a: nat, b: nat, n: nat)
    requires Run(states, actions) && a <= b < |states| && NoCrash(actions, a, b) && InputOf(states, i)
    requires NoReload(actions, i, a, b)
    ensures i < |states[a].inputs| && i < |states[b].inputs|
    ensures Appended(states, actions, i, a, b, n) <==> states[a].inputs[i].next <= n < states[b].inputs[i].next
    ensures states[a].inputs[i].next <= states[b].inputs[i].next
    decreases b
  {
    hide Next, Enabled, Init;
    SameSizes(states, actions, a);
    if a < b {
      AppendedExactly(states, actions, i, a, b - 1, n);
      SameSizes(states, actions, b - 1);
      InputAfter(states[b - 1], actions[b - 1], i);
      assert AppendedAt(states[b - 1], actions[b - 1], i, n) ==> Appended(states, actions, i, a, b, n);
    }
  }

  /** What a crash has an input plugin do again. Step w wrote the file last before the crash in step k. In the sweep
      of w there is a step q at which the plugin's checkpoint was stored, and after the crash the plugin goes on
      behind the messages that this checkpoint vouched for: of those that it had appended since a state a it
      appends again exactly the ones that were not among them. */
  lemma InputRedoesExactly(states: seq<Sys>, actions: seq<Action>, i: nat, w: nat, k: nat, later: nat, a: nat, n: nat)
    returns (s: nat, q: nat)
    requires Run(states, actions) && InputOf(states, i)
    requires w < k < later < |states| && Does(actions, w, Persist) && Crashes(actions, k)
    requires Quiet(actions, w + 1, k) && NoCrash(actions, k + 1, later) && NoReload(actions, i, k + 1, later)
    ensures s < q < w && InSweep(states, actions, s, w) && Stores(states[q], actions[q], AtInput(i))
    ensures i < |states[q].inputs| && i < |states[later].inputs|
    ensures Appended(states, actions, i, a, k, n) && Appended(states, actions, i, k + 1, later, n) <==>
            && Appended(states, actions, i, a, k, n)
            && states[q].inputs[i].covered <= n < states[later].inputs[i].next
  {
    hide Next, Enabled, Init, Appended, Shaped, Visits;
    var v;
    s, v, q := LastWrite(states, actions, w, k, AtInput(i));
    SameSizes(states, actions, k);
    InputAfter(states[k], actions[k], i);
    AppendedExactly(states, actions, i, k + 1, later, n);
  }
}
