/** The whole pipeline as a state machine: input plugins inject into the input queue, analysis threads
    read it and inject into the analysis queue, output plugins read both. A checkpoint sweep samples,
    flushes and persists step by step while all of that goes on, and the process may crash at any
    step and start again from the persisted checkpoints and from what had reached the files. */
module Pipeline {
  import opened Framing
  import opened Queue
  import opened QueueLog
  import D = Delivery

  // ---- queues whose messages remember where they come from ----

  /** Message `number` of an input plugin; message `part` that an analysis thread injected while it was
      processing message `cause` of the input queue; a message of an idle timer event. */
  datatype Origin =
    | ByInput(plugin: nat, number: nat)
    | ByAnalysis(thread: nat, cause: nat, part: nat)
    | ByTimer(thread: nat)

  datatype Tagged = Tagged(log: Log, origins: seq<Origin>)

  ghost predicate QOk(q: Tagged) {
    Ok(q.log) && |q.origins| == Total(q.log.fs)
  }

  function Inserted(q: Tagged, o: Origin, p: Payload, outputSize: nat): Tagged
    requires QOk(q)
  {
    Tagged(Inject(q.log, p, outputSize), q.origins + [o])
  }

  function Flushed(q: Tagged, n: nat): Tagged
    requires QOk(q)
  {
    q.(log := Flush(q.log, n))
  }

  function Recovered(q: Tagged): Tagged
    requires QOk(q)
  {
    Tagged(Recover(q.log), q.origins[..q.log.durable])
  }

  /** In the queue, and in its files. */
  predicate In(q: Tagged, o: Origin) {
    o in q.origins
  }

  predicate Safe(q: Tagged, o: Origin)
    requires q.log.durable <= |q.origins|
  {
    o in q.origins[..q.log.durable]
  }

  /** What holds of a queue across any step, crashes included: files never lose a message, and no
      checkpoint of a message in them changes. */
  ghost predicate Persists(q: Tagged, r: Tagged) {
    && QOk(q) && QOk(r)
    && q.log.durable <= r.log.durable
    && q.origins[..q.log.durable] <= r.origins[..r.log.durable]
    && forall i: nat :: i <= q.log.durable ==> i <= Total(r.log.fs) && PosAfter(r.log.fs, i) == PosAfter(q.log.fs, i)
  }

  /** What holds across any step but a crash. */
  ghost predicate Grows(q: Tagged, r: Tagged) {
    Persists(q, r) && q.origins <= r.origins
  }

  lemma InsertedGrows(q: Tagged, o: Origin, p: Payload, outputSize: nat)
    requires QOk(q)
    ensures var r := Inserted(q, o, p, outputSize); Grows(q, r) && Persists(q, r) && QOk(r)
  {
    hide Total, Flat, PosAfter, Size;
    var r := Inserted(q, o, p, outputSize);
    forall i: nat | i <= q.log.durable
      ensures i <= Total(r.log.fs) && PosAfter(r.log.fs, i) == PosAfter(q.log.fs, i)
    {
      InjectKeepsPos(q.log, p, outputSize, i);
    }
  }

  lemma FlushedGrows(q: Tagged, n: nat)
    requires QOk(q)
    ensures var r := Flushed(q, n); Grows(q, r) && Persists(q, r) && QOk(r)
  {
  }

  lemma RecoveredPersists(q: Tagged)
    requires QOk(q)
    ensures Persists(q, Recovered(q)) && QOk(Recovered(q))
    ensures Recovered(q).origins == q.origins[..q.log.durable]
    ensures Recovered(q).log.durable == |Recovered(q).origins|
  {
    hide Total, Flat, PosAfter, Size;
    forall i: nat | i <= q.log.durable
      ensures i <= Total(Recovered(q).log.fs) && PosAfter(Recovered(q).log.fs, i) == PosAfter(q.log.fs, i)
    {
      TruncateKeepsPos(q.log.fs, q.log.durable, i);
    }
  }

  lemma SamePersists(q: Tagged)
    requires QOk(q)
    ensures Grows(q, q)
  {
  }

  // ---- input plugins ----

  /** `next` is the number of the next message to append. `covered` messages are vouched for by the
      checkpoint the plugin has set. `busy` is the time between the two critical sections of
      inject_message. `lost` collects the messages that a restart has skipped. */
  datatype Producer = Producer(next: nat, covered: nat, busy: bool, lost: set<nat>)

  /** A stored checkpoint; `ahead` if it came with the message whose injection was in progress, `late` if
      a plugin thread stored it as it ended, after the running sweep had flushed the input queue. */
  datatype Sample = Sample(covered: nat, ahead: bool, late: bool)

  function SampleOf(p: Producer): Sample {
    Sample(p.covered, p.busy && p.covered == p.next + 1, false)
  }

  // ---- analysis threads ----

  /** `done` messages processed, `cp` behind the last of them, emitted[r] messages injected while
      message r was processed; `part` of them so far for the one in the works. */
  datatype Thread = Thread(done: nat, cp: Checkpoint, emitted: seq<nat>, working: bool, part: nat)

  /** A checkpoint and the number of messages that it covers. */
  datatype Mark = Mark(cp: Checkpoint, count: nat)

  // ---- output plugins ----

  datatype Cut = Cut(input: nat, analysis: nat)

  function CutAt(c: Cut, src: D.Source): nat {
    if src.FromInput? then c.input else c.analysis
  }

  function CutNext(c: Cut, src: D.Source): Cut {
    if src.FromInput? then c.(input := c.input + 1) else c.(analysis := c.analysis + 1)
  }

  /** The messages an output plugin has taken in one life: cuts[k] is how many of each queue lie before
      the k-th position of the session. */
  datatype Life = Life(session: D.Session, cuts: seq<Cut>)

  /** All lives so far, the current one last. */
  datatype Consumer = Consumer(asyncLen: nat, past: seq<Life>, now: Life, ending: bool)

  datatype PairMark = PairMark(cp: D.Pair, cut: Cut)

  // ---- the system ----

  /** The checkpoint table in memory, and its persisted form. */
  datatype Table = Table(inputs: seq<Sample>, threads: seq<Mark>, outputs: seq<PairMark>)

  /** Where hs_write_checkpoints is. */
  datatype Phase =
    | Resting
    | InputStats(i: nat)      // sampling input plugins; after the last one flush the input queue
    | AnalysisStats(j: nat)   // sampling analysis thread j
    | AnalysisFlush(j: nat)   // flushing the analysis queue after that sample
    | OutputStats(o: nat)     // sampling output plugins; after the last one write the file

  datatype Sys = Sys(inq: Tagged, anq: Tagged, inputs: seq<Producer>, threads: seq<Thread>, outputs: seq<Consumer>,
                     table: Table, disk: Table, phase: Phase, size: nat)

  datatype Action =
    | SetCheckpoint(i: nat, given: bool)       // inject_message, first critical section
    | AppendMessage(i: nat, p: Payload)        // inject_message, second critical section
    | Synchronize(i: nat)                      // inject_message of a NULL message with a checkpoint
    | ReloadInput(i: nat)                      // a plugin thread ends, at any time; its plugin starts again
    | StartMessage(j: nat)
    | Emit(j: nat, p: Payload)
    | FinishMessage(j: nat)
    | EmitIdle(j: nat, p: Payload)
    | Output(o: nat, e: D.Event)
    | EndOutput(o: nat)                        // a plugin thread ends and stores its input position
    | ReloadOutput(o: nat)                     // it stores its analysis position; its plugin starts again
    | SpillInput(n: nat)
    | SpillAnalysis(n: nat)
    | StartSweep
    | SampleInput
    | FlushInput
    | SampleThread
    | FlushAnalysis
    | SampleOutput
    | SkipOutput                               // a plugin that is ending may be off the list already
    | Persist
    | CrashAndRestart(size: nat)               // with any `output_size`

  /** The sweep has flushed the input queue. */
  predicate InputFlushed(phase: Phase) {
    phase.AnalysisStats? || phase.AnalysisFlush? || phase.OutputStats?
  }

  /** What an ending plugin thread stores. */
  function LastSample(p: Producer, phase: Phase): Sample {
    SampleOf(p).(late := InputFlushed(phase))
  }

  ghost predicate Shaped(s: Sys) {
    && QOk(s.inq) && QOk(s.anq)
    && |s.table.inputs| == |s.disk.inputs| == |s.inputs|
    && |s.table.threads| == |s.disk.threads| == |s.threads|
    && |s.table.outputs| == |s.disk.outputs| == |s.outputs|
    && (s.phase.AnalysisFlush? ==> s.phase.j < |s.threads|)
  }

  function Last<T>(a: seq<T>): T
    requires a != []
  {
    a[|a| - 1]
  }

  function QueueOf(s: Sys, src: D.Source): Tagged {
    if src.FromInput? then s.inq else s.anq
  }

  ghost predicate LifeShaped(life: Life) {
    && D.Shaped(life.session)
    && |life.cuts| == |life.session.h.pos|
  }

  /** An output plugin takes the next message of a queue if it has reached the files. */
  ghost predicate OutputEnabled(s: Sys, life: Life, e: D.Event) {
    && LifeShaped(life)
    && D.Enabled(life.session, e)
    && (e.Taking? ==>
          var i := CutAt(Last(life.cuts), e.src);
          var q := QueueOf(s, e.src);
          i < q.log.durable && q.log.durable <= Total(q.log.fs) && e.pos == PosAfter(q.log.fs, i + 1))
  }

  ghost predicate Enabled(s: Sys, a: Action) {
    && Shaped(s)
    && match a
       case SetCheckpoint(i, _) => i < |s.inputs| && !s.inputs[i].busy
       case AppendMessage(i, _) => i < |s.inputs| && s.inputs[i].busy
       case Synchronize(i) => i < |s.inputs| && !s.inputs[i].busy
       case ReloadInput(i) => i < |s.inputs| && !s.inputs[i].busy
       case StartMessage(j) => j < |s.threads| && !s.threads[j].working && s.threads[j].done < s.inq.log.durable
       case Emit(j, _) => j < |s.threads| && s.threads[j].working
       case FinishMessage(j) => j < |s.threads| && s.threads[j].working && s.threads[j].done < Total(s.inq.log.fs)
       case EmitIdle(j, _) => j < |s.threads| && !s.threads[j].working
       case Output(o, e) => o < |s.outputs| && !s.outputs[o].ending && OutputEnabled(s, s.outputs[o].now, e)
       case EndOutput(o) => o < |s.outputs| && !s.outputs[o].ending && CanRestart(s.outputs[o])
       case ReloadOutput(o) => o < |s.outputs| && s.outputs[o].ending && CanRestart(s.outputs[o])
       case SpillInput(_) => true
       case SpillAnalysis(_) => true
       case StartSweep => s.phase.Resting?
       case SampleInput => s.phase.InputStats? && s.phase.i < |s.inputs|
       case FlushInput => s.phase.InputStats? && s.phase.i == |s.inputs|
       case SampleThread => s.phase.AnalysisStats? && s.phase.j < |s.threads|
       case FlushAnalysis => s.phase.AnalysisFlush?
       case SampleOutput => s.phase.OutputStats? && s.phase.o < |s.outputs| && CanRestart(s.outputs[s.phase.o])
       case SkipOutput => s.phase.OutputStats? && s.phase.o < |s.outputs| && s.outputs[s.phase.o].ending
       case Persist => s.phase.OutputStats? && s.phase.o == |s.outputs|
       case CrashAndRestart(_) => true
  }

  ghost predicate CanRestart(c: Consumer) {
    LifeShaped(c.now)
  }

  function OutputStep(s: Sys, life: Life, e: D.Event): Life
    requires OutputEnabled(s, life, e)
  {
    Life(D.Next(life.session, e), if e.Taking? then life.cuts + [CutNext(Last(life.cuts), e.src)] else life.cuts)
  }

  /** The checkpoint of an output plugin with the cut it stands for. */
  function MarkOf(c: Consumer): PairMark
    requires CanRestart(c)
  {
    PairMark(c.now.session.d.cp, c.now.cuts[c.now.session.h.covered])
  }

  /** The table entry between the two critical sections in which an ending thread stores its positions. */
  function HalfStored(t: PairMark, m: PairMark): PairMark {
    PairMark(D.Pair(m.cp.input, t.cp.analysis), Cut(m.cut.input, t.cut.analysis))
  }

  function Restarted(c: Consumer, at: PairMark): Consumer {
    Consumer(c.asyncLen, c.past + [c.now], Life(D.Begin(c.asyncLen, at.cp), [at.cut]), false)
  }

  /** After the samples of all threads come those of the output plugins. */
  function AfterThread(s: Sys, j: nat): Phase {
    if j < |s.threads| then AnalysisStats(j) else OutputStats(0)
  }

  /** The messages of plugin i that a checkpoint vouches for and that are not in the files. */
  function Skipped(d: Sample, inq: Tagged, i: nat): set<nat>
    requires inq.log.durable <= |inq.origins|
  {
    set n: nat | n < d.covered && !Safe(inq, ByInput(i, n))
  }

  function Resume(p: Producer, d: Sample, inq: Tagged, i: nat): Producer
    requires inq.log.durable <= |inq.origins|
  {
    Producer(d.covered, d.covered, false, p.lost + Skipped(d, inq, i))
  }

  function ResumeThread(t: Thread, d: Mark): Thread {
    Thread(d.count, d.cp, if d.count <= |t.emitted| then t.emitted[..d.count] else t.emitted, false, 0)
  }

  function Crashed(s: Sys, size: nat): Sys
    requires Shaped(s)
  {
    Sys(Recovered(s.inq), Recovered(s.anq),
        seq(|s.inputs|, i requires 0 <= i < |s.inputs| => Resume(s.inputs[i], s.disk.inputs[i], s.inq, i)),
        seq(|s.threads|, j requires 0 <= j < |s.threads| => ResumeThread(s.threads[j], s.disk.threads[j])),
        seq(|s.outputs|, o requires 0 <= o < |s.outputs| => Restarted(s.outputs[o], s.disk.outputs[o])),
        s.disk, s.disk, Resting, size)
  }

  function Next(s: Sys, a: Action): Sys
    requires Enabled(s, a)
  {
    match a
    case SetCheckpoint(i, given) =>
      var p := s.inputs[i];
      s.(inputs := s.inputs[i := p.(busy := true, covered := if given then p.next + 1 else p.covered)])
    case AppendMessage(i, p) =>
      s.(inq := Inserted(s.inq, ByInput(i, s.inputs[i].next), p, s.size),
         inputs := s.inputs[i := s.inputs[i].(busy := false, next := s.inputs[i].next + 1)])
    case Synchronize(i) =>
      s.(inputs := s.inputs[i := s.inputs[i].(covered := s.inputs[i].next)])
    case ReloadInput(i) =>
      var p := s.inputs[i];
      s.(table := s.table.(inputs := s.table.inputs[i := LastSample(p, s.phase)]),
         inputs := s.inputs[i := p.(next := p.covered)])
    case StartMessage(j) =>
      s.(threads := s.threads[j := s.threads[j].(working := true, part := 0)])
    case Emit(j, p) =>
      var t := s.threads[j];
      s.(anq := Inserted(s.anq, ByAnalysis(j, t.done, t.part), p, s.size),
         threads := s.threads[j := t.(part := t.part + 1)])
    case FinishMessage(j) =>
      var t := s.threads[j];
      var n := t.done + 1;
      s.(threads := s.threads[j := Thread(n, PosAfter(s.inq.log.fs, n), t.emitted + [t.part], false, 0)])
    case EmitIdle(j, p) =>
      s.(anq := Inserted(s.anq, ByTimer(j), p, s.size))
    case Output(o, e) =>
      var c := s.outputs[o];
      s.(outputs := s.outputs[o := c.(now := OutputStep(s, c.now, e))])
    case EndOutput(o) =>
      var c := s.outputs[o];
      s.(table := s.table.(outputs := s.table.outputs[o := HalfStored(s.table.outputs[o], MarkOf(c))]),
         outputs := s.outputs[o := c.(ending := true)])
    case ReloadOutput(o) =>
      var m := MarkOf(s.outputs[o]);
      s.(table := s.table.(outputs := s.table.outputs[o := m]), outputs := s.outputs[o := Restarted(s.outputs[o], m)])
    case SpillInput(n) => s.(inq := Flushed(s.inq, n))
    case SpillAnalysis(n) => s.(anq := Flushed(s.anq, n))
    case StartSweep => s.(phase := InputStats(0))
    case SampleInput =>
      s.(table := s.table.(inputs := s.table.inputs[s.phase.i := SampleOf(s.inputs[s.phase.i])]),
          phase := InputStats(s.phase.i + 1))
    case FlushInput => s.(inq := Flushed(s.inq, Total(s.inq.log.fs)), phase := AfterThread(s, 0))
    case SampleThread =>
      var t := s.threads[s.phase.j];
      s.(table := s.table.(threads := s.table.threads[s.phase.j := Mark(t.cp, t.done)]),
          phase := AnalysisFlush(s.phase.j))
    case FlushAnalysis => s.(anq := Flushed(s.anq, Total(s.anq.log.fs)), phase := AfterThread(s, s.phase.j + 1))
    case SampleOutput =>
      s.(table := s.table.(outputs := s.table.outputs[s.phase.o := MarkOf(s.outputs[s.phase.o])]),
          phase := OutputStats(s.phase.o + 1))
    case SkipOutput => s.(phase := OutputStats(s.phase.o + 1))
    case Persist => s.(disk := s.table, phase := Resting)
    case CrashAndRestart(size) => Crashed(s, size)
  }

  // ---- runs ----

  /** A first start on empty queues, without a checkpoint file. */
  ghost predicate Init(s: Sys) {
    && Shaped(s)
    && s.inq == Tagged(EMPTY, []) && s.anq == Tagged(EMPTY, [])
    && (forall i :: 0 <= i < |s.inputs| ==>
        s.inputs[i] == Producer(0, 0, false, {}) && s.table.inputs[i] == Sample(0, false, false))
    && (forall j :: 0 <= j < |s.threads| ==>
          s.threads[j] == Thread(0, Checkpoint(0, 0), [], false, 0) && s.table.threads[j] == Mark(Checkpoint(0, 0), 0))
    && (forall o :: 0 <= o < |s.outputs| ==>
          && s.outputs[o] == Consumer(s.outputs[o].asyncLen, [], Life(D.Begin(s.outputs[o].asyncLen, D.NOWHERE),
              [Cut(0, 0)]), false)
          && s.table.outputs[o] == PairMark(D.NOWHERE, Cut(0, 0)))
    && s.disk == s.table
    && s.phase == Resting
  }

  ghost predicate Run(states: seq<Sys>, actions: seq<Action>) {
    && |states| == |actions| + 1
    && Init(states[0])
    && forall k :: 0 <= k < |actions| ==>
         Enabled(states[k], actions[k]) && states[k + 1] == Next(states[k], actions[k])
  }

  // ---- who there is: the same plugins and threads throughout a run ----

  predicate InputOf(states: seq<Sys>, i: nat) {
    states != [] && i < |states[0].inputs|
  }

  predicate ThreadOf(states: seq<Sys>, j: nat) {
    states != [] && j < |states[0].threads|
  }

  predicate OutputOf(states: seq<Sys>, o: nat) {
    states != [] && o < |states[0].outputs|
  }

  // ---- steps of a run ----

  predicate Does(actions: seq<Action>, k: nat, a: Action) {
    k < |actions| && actions[k] == a
  }

  predicate Crashes(actions: seq<Action>, k: nat) {
    k < |actions| && actions[k].CrashAndRestart?
  }

  /** Between two states there is no crash. */
  predicate NoCrash(actions: seq<Action>, a: nat, b: nat) {
    forall m :: a <= m < b && m < |actions| ==> !actions[m].CrashAndRestart?
  }
}
