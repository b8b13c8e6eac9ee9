/** A run in which a crash redoes a message that was taken before the last sweep: at the sample the
    message is part of an open batch. */
module BatchRun {
  import opened Framing
  import opened Queue
  import opened Pipeline
  import AtLeastOnce
  import L = LossRuns
  import D = Delivery
  import QL = QueueLog

  /** One input plugin and one output plugin, nothing persisted yet. */
  function Two(size: nat, q: Tagged, p: Producer, life: Life, sampled: Sample, mark: PairMark, phase: Phase): Sys {
    Sys(q, L.NOTHING, [p], [], [Consumer(0, [], life, false)],
        Table([sampled], [], [mark]), Table([L.UNSET], [], [START]), phase, size)
  }

  const START := PairMark(D.NOWHERE, Cut(0, 0))
  const INJECTING := Producer(0, 0, true, {})
  const DONE := Producer(1, 0, false, {})
  const IDLE := Life(D.Begin(0, D.NOWHERE), [Cut(0, 0)])

  function Spilled(p: Payload): Tagged {
    Tagged(QL.Log([[p]], 1), [ByInput(0, 0)])
  }

  function Behind(p: Payload): Checkpoint {
    Checkpoint(0, FrameLen(p))
  }

  // ---- the message in the output plugin ----

  function Took(p: Payload): D.Session {
    D.Taken(D.Begin(0, D.NOWHERE), D.FromInput, Behind(p))
  }

  function Handed(p: Payload): D.Session {
    D.Handed(Took(p))
  }

  function Batched(p: Payload): D.Session {
    D.Answered(Handed(p), D.Batch)
  }

  lemma SessionSteps(p: Payload)
    ensures var s := D.Begin(0, D.NOWHERE);
            && D.Shaped(s) && D.Enabled(s, D.Taking(D.FromInput, Behind(p)))
            && D.Next(s, D.Taking(D.FromInput, Behind(p))) == Took(p)
    ensures D.Shaped(Took(p)) && D.Enabled(Took(p), D.Handing) && D.Next(Took(p), D.Handing) == Handed(p)
    ensures var e := D.Answering(D.Batch);
            D.Shaped(Handed(p)) && D.Enabled(Handed(p), e) && D.Next(Handed(p), e) == Batched(p)
    ensures D.Shaped(Batched(p)) && Batched(p).h.covered == 0 && |Batched(p).h.pos| == 2
    ensures |Took(p).h.pos| == |Handed(p).h.pos| == 2
    ensures Batched(p).d.cp == D.NOWHERE && Batched(p).d.cur != D.NOWHERE
  {
  }

  lemma QueueSteps(p: Payload, outputSize: nat)
    requires |Frame(p)| < outputSize
    ensures QOk(L.NOTHING) && QOk(L.Holding(p)) && QOk(Spilled(p))
    ensures Inserted(L.NOTHING, ByInput(0, 0), p, outputSize) == L.Holding(p)
    ensures Flushed(L.Holding(p), 1) == Spilled(p) && Flushed(Spilled(p), 1) == Spilled(p)
    ensures Total([[p]]) == 1 && PosAfter([[p]], 1) == Behind(p)
  {
    hide Total, Size, Flat, Inserted;
    L.QueueFacts(p);
    L.QueueInserted(p, outputSize);
    L.SingleFile([p]);
    FirstPosition(p);
  }

  lemma FirstPosition(p: Payload)
    ensures PosAfter([[p]], 1) == Behind(p)
  {
    L.SingleFile([p]);
    L.OneFrame(p);
    assert [[p]][0][..1] == [p];
  }

  // ---- the steps of the system ----

  lemma InjectSteps(p: Payload, outputSize: nat)
    requires |Frame(p)| < outputSize
    ensures var s := Two(outputSize, L.NOTHING, L.FIRST, IDLE, L.UNSET, START, Resting);
            && Init(s) && Enabled(s, SetCheckpoint(0, false))
            && Next(s, SetCheckpoint(0, false)) == Two(outputSize, L.NOTHING, INJECTING, IDLE, L.UNSET, START, Resting)
    ensures var s := Two(outputSize, L.NOTHING, INJECTING, IDLE, L.UNSET, START, Resting);
            && Enabled(s, AppendMessage(0, p))
            && Next(s, AppendMessage(0, p)) == Two(outputSize, L.Holding(p), DONE, IDLE, L.UNSET, START, Resting)
    ensures var s := Two(outputSize, L.Holding(p), DONE, IDLE, L.UNSET, START, Resting);
            && Enabled(s, SpillInput(1))
            && Next(s, SpillInput(1)) == Two(outputSize, Spilled(p), DONE, IDLE, L.UNSET, START, Resting)
  {
    hide Total, QOk, Inserted, Flushed;
    QueueSteps(p, outputSize);
  }

  /** One event in the output plugin, and nothing else. */
  lemma OneEvent(q: Tagged, life: Life, e: D.Event, session: D.Session, cuts: seq<Cut>, outputSize: nat)
    requires QOk(q) && QOk(L.NOTHING) && LifeShaped(life)
    requires D.Enabled(life.session, e) && session == D.Next(life.session, e)
    requires !e.Taking? ==> cuts == life.cuts
    requires e.Taking? ==>
               && cuts == life.cuts + [CutNext(Last(life.cuts), e.src)]
               && e.src.FromInput? && Last(life.cuts).input < q.log.durable <= Total(q.log.fs)
               && e.pos == PosAfter(q.log.fs, Last(life.cuts).input + 1)
    ensures var s := Two(outputSize, q, DONE, life, L.UNSET, START, Resting);
            && Enabled(s, Output(0, e))
            && Next(s, Output(0, e)) == Two(outputSize, q, DONE, Life(session, cuts), L.UNSET, START, Resting)
  {
    hide Total, QOk, PosAfter, D.Next, D.Enabled, LifeShaped;
  }

  const ONE := [Cut(0, 0), Cut(1, 0)]

  /** The input plugin done, nothing sampled. */
  function Delivering(outputSize: nat, p: Payload, life: Life): Sys {
    Two(outputSize, Spilled(p), DONE, life, L.UNSET, START, Resting)
  }

  lemma OutputSteps(p: Payload, outputSize: nat)
    requires |Frame(p)| < outputSize
    ensures var s, e := Delivering(outputSize, p, IDLE), Output(0, D.Taking(D.FromInput, Behind(p)));
            Enabled(s, e) && Next(s, e) == Delivering(outputSize, p, Life(Took(p), ONE))
    ensures var s, e := Delivering(outputSize, p, Life(Took(p), ONE)), Output(0, D.Handing);
            Enabled(s, e) && Next(s, e) == Delivering(outputSize, p, Life(Handed(p), ONE))
    ensures var s, e := Delivering(outputSize, p, Life(Handed(p), ONE)), Output(0, D.Answering(D.Batch));
            Enabled(s, e) && Next(s, e) == Delivering(outputSize, p, Life(Batched(p), ONE))
  {
    hide Total, QOk, PosAfter, D.Next, D.Enabled, Took, Handed, Batched, Next, Enabled;
    QueueSteps(p, outputSize);
    SessionSteps(p);
    OneEvent(Spilled(p), IDLE, D.Taking(D.FromInput, Behind(p)), Took(p), ONE, outputSize);
    OneEvent(Spilled(p), Life(Took(p), ONE), D.Handing, Handed(p), ONE, outputSize);
    OneEvent(Spilled(p), Life(Handed(p), ONE), D.Answering(D.Batch), Batched(p), ONE, outputSize);
  }

  lemma SweepSteps(p: Payload, outputSize: nat)
    requires |Frame(p)| < outputSize
    ensures var life, sample := Life(Batched(p), ONE), Sample(0, false, false);
            var s := Two(outputSize, Spilled(p), DONE, life, L.UNSET, START, Resting);
            && Enabled(s, StartSweep)
            && Next(s, StartSweep) == Two(outputSize, Spilled(p), DONE, life, L.UNSET, START, InputStats(0))
            && var t := Two(outputSize, Spilled(p), DONE, life, L.UNSET, START, InputStats(0));
            && Enabled(t, SampleInput)
            && Next(t, SampleInput) == Two(outputSize, Spilled(p), DONE, life, sample, START, InputStats(1))
            && var u := Two(outputSize, Spilled(p), DONE, life, sample, START, InputStats(1));
            && Enabled(u, FlushInput)
            && Next(u, FlushInput) == Two(outputSize, Spilled(p), DONE, life, sample, START, OutputStats(0))
            && var v := Two(outputSize, Spilled(p), DONE, life, sample, START, OutputStats(0));
            && Enabled(v, SampleOutput)
            && Next(v, SampleOutput) == Two(outputSize, Spilled(p), DONE, life, sample, START, OutputStats(1))
            && Enabled(Two(outputSize, Spilled(p), DONE, life, sample, START, OutputStats(1)), Persist)
  {
    hide Total, QOk, PosAfter, Flushed, Batched, Inserted, Recovered, OutputStep, Restarted, Skipped;
    QueueSteps(p, outputSize);
    SessionSteps(p);
  }

  /** The message is taken in step 3, put into a batch in step 5 and the plugin is sampled in step 9; a crash
      after step 10 has it handed over again. */
  lemma RedoneBeforeSample(p: Payload, outputSize: nat) returns (states: seq<Sys>, actions: seq<Action>)
    requires |Frame(p)| < outputSize
    ensures Run(states, actions) && |states| == 12 && |states[0].outputs| == 1
    ensures AtLeastOnce.LastSampled(states, actions, 0, 9, 10, 11)
    ensures |states[9].outputs| == |states[11].outputs| == |states[11].disk.outputs| == 1
    ensures exists src: D.Source, x: nat ::
              AtLeastOnce.Redone(states[11], 0, src, x) && AtLeastOnce.TakenIn(states[9].outputs[0].now, src, x)
  {
    hide Next, Enabled, Init, Two, Spilled, Batched, Took, Handed, Total, QOk;
    InjectSteps(p, outputSize);
    OutputSteps(p, outputSize);
    SweepSteps(p, outputSize);
    SessionSteps(p);
    var sample := Sample(0, false, false);
    var q, life := Spilled(p), Life(Batched(p), ONE);
    var last := Two(outputSize, q, DONE, life, sample, START, OutputStats(1));
    actions := [SetCheckpoint(0, false), AppendMessage(0, p), SpillInput(1),
                Output(0, D.Taking(D.FromInput, Behind(p))), Output(0, D.Handing), Output(0, D.Answering(D.Batch)),
                StartSweep, SampleInput, FlushInput, SampleOutput, Persist];
    states := [Two(outputSize, L.NOTHING, L.FIRST, IDLE, L.UNSET, START, Resting),
               Two(outputSize, L.NOTHING, INJECTING, IDLE, L.UNSET, START, Resting),
               Two(outputSize, L.Holding(p), DONE, IDLE, L.UNSET, START, Resting),
               Two(outputSize, q, DONE, IDLE, L.UNSET, START, Resting),
               Two(outputSize, q, DONE, Life(Took(p), ONE), L.UNSET, START, Resting),
               Two(outputSize, q, DONE, Life(Handed(p), ONE), L.UNSET, START, Resting),
               Two(outputSize, q, DONE, life, L.UNSET, START, Resting),
               Two(outputSize, q, DONE, life, L.UNSET, START, InputStats(0)),
               Two(outputSize, q, DONE, life, sample, START, InputStats(1)),
               Two(outputSize, q, DONE, life, sample, START, OutputStats(0)),
               last, Next(last, Persist)];
    TwoOutputs(outputSize, q, DONE, life, sample, START, OutputStats(0));
    TwoOutputs(outputSize, q, DONE, life, sample, START, OutputStats(1));
    TwoOutputs(outputSize, L.NOTHING, L.FIRST, IDLE, L.UNSET, START, Resting);
    assert states[9] == Two(outputSize, q, DONE, life, sample, START, OutputStats(0));
    AtLeastOnce.RedoneSinceSample(states, actions, 0, 9, 10, 11);
    TwoAfterPersist(last);
  }

  lemma TwoOutputs(outputSize: nat, q: Tagged, p: Producer, life: Life, sampled: Sample, mark: PairMark, phase: Phase)
    ensures var s := Two(outputSize, q, p, life, sampled, mark, phase);
            |s.outputs| == 1 && s.outputs[0].now == life && s.phase == phase
  {
  }

  lemma TwoAfterPersist(s: Sys)
    requires Enabled(s, Persist)
    ensures var t := Next(s, Persist); |t.outputs| == |s.outputs| == |t.disk.outputs|
  {
  }
}
