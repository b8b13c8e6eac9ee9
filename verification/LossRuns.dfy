/** Two runs of one input plugin, from a first start, in which a crash loses its first message: the
    conditions of module InputLoss do occur. */
module LossRuns {
  import opened Framing
  import opened Queue
  import opened Pipeline
  import QL = QueueLog

  function Alone(size: nat, q: Tagged, p: Producer, table: Sample, disk: Sample, phase: Phase): Sys {
    Sys(q, NOTHING, [p], [], [], Table([table], [], []), Table([disk], [], []), phase,
        size)
  }

  const NOTHING := Tagged(QL.EMPTY, [])
  const FIRST := Producer(0, 0, false, {})
  const BUSY := Producer(0, 1, true, {})
  const UNSET := Sample(0, false, false)

  function Holding(p: Payload): Tagged {
    Tagged(QL.Log([[p]], 0), [ByInput(0, 0)])
  }

  lemma SingleFile(f: File)
    ensures Total([f]) == |f| && Total([f][..0]) == 0
  {
    assert [f][..0] == [];
  }

  lemma OneFrame(p: Payload)
    ensures Size([p]) == |Frame(p)|
  {
    assert [p][..0] == [];
  }

  lemma QueueFacts(p: Payload)
    ensures QOk(NOTHING) && QOk(Holding(p)) && Total(QL.EMPTY.fs) == 0 && Flushed(NOTHING, 0) == NOTHING
  {
    hide Total, Flat;
    SingleFile([]);
    SingleFile([p]);
  }

  lemma QueueInserted(p: Payload, size: nat)
    requires |Frame(p)| < size && QOk(NOTHING)
    ensures Inserted(NOTHING, ByInput(0, 0), p, size) == Holding(p)
  {
    hide Total, Size, Flat, QOk;
    var fs: Files := [[]];
    assert fs[0] + [p] == [p];
    assert Append(fs, p) == [[p]];
    OneFrame(p);
  }

  lemma QueueRecovered(p: Payload)
    requires QOk(NOTHING) && QOk(Holding(p))
    ensures Recovered(NOTHING) == NOTHING && Recovered(Holding(p)) == NOTHING
  {
    hide Total, Size, Flat, QOk;
    var fs: Files := [[]];
    SingleFile([]);
    SingleFile([p]);
    assert Truncate(fs, 0) == fs && Truncate([[p]], 0) == fs;
  }

  lemma StartAndSample(q: Tagged, p: Producer, t: Sample, size: nat)
    requires QOk(q) && QOk(NOTHING) && Flushed(NOTHING, 0) == NOTHING && Total(QL.EMPTY.fs) == 0
    ensures var s := Alone(size, q, p, t, UNSET, Resting);
            Enabled(s, StartSweep) && Next(s, StartSweep) == Alone(size, q, p, t, UNSET, InputStats(0))
    ensures var s := Alone(size, q, p, t, UNSET, InputStats(0));
            Enabled(s, SampleInput) && Next(s, SampleInput) ==
                Alone(size, q, p, SampleOf(p), UNSET, InputStats(1))
  {
    hide Total, QOk;
  }

  lemma FlushAndPersist(q: Tagged, p: Producer, t: Sample, size: nat)
    requires QOk(q) && QOk(NOTHING) && Flushed(NOTHING, 0) == NOTHING && Total(QL.EMPTY.fs) == 0
    ensures var s := Alone(size, NOTHING, p, t, UNSET, InputStats(1));
            Enabled(s, FlushInput) && Next(s, FlushInput) == Alone(size, NOTHING, p, t, UNSET, OutputStats(0))
    ensures var s := Alone(size, q, p, t, UNSET, OutputStats(0));
            Enabled(s, Persist) && Next(s, Persist) == Alone(size, q, p, t, t, Resting)
  {
    hide Total, QOk;
  }

  /** Start, and the sweep up to the flush: with a message being injected since before the sample, or not. */
  lemma SweepSteps(q: Tagged, p: Producer, t: Sample, size: nat)
    requires QOk(q) && QOk(NOTHING) && Flushed(NOTHING, 0) == NOTHING && Total(QL.EMPTY.fs) == 0
    ensures var s := Alone(size, q, p, t, UNSET, Resting);
            Enabled(s, StartSweep) && Next(s, StartSweep) == Alone(size, q, p, t, UNSET, InputStats(0))
    ensures var s := Alone(size, q, p, t, UNSET, InputStats(0));
            Enabled(s, SampleInput) && Next(s, SampleInput) ==
                Alone(size, q, p, SampleOf(p), UNSET, InputStats(1))
    ensures var s := Alone(size, NOTHING, p, t, UNSET, InputStats(1));
            Enabled(s, FlushInput) && Next(s, FlushInput) == Alone(size, NOTHING, p, t, UNSET, OutputStats(0))
    ensures var s := Alone(size, q, p, t, UNSET, OutputStats(0));
            Enabled(s, Persist) && Next(s, Persist) == Alone(size, q, p, t, t, Resting)
  {
    hide Next, Enabled, Alone, QOk, Flushed;
    StartAndSample(q, p, t, size);
    FlushAndPersist(q, p, t, size);
  }

  lemma PluginSteps(payload: Payload, t: Sample, phase: Phase, size: nat)
    requires |Frame(payload)| < size && (phase.InputStats? || phase.OutputStats?)
    ensures var s := Alone(size, NOTHING, FIRST, t, UNSET, phase);
            Enabled(s, SetCheckpoint(0, true)) &&
                Next(s, SetCheckpoint(0, true)) == Alone(size, NOTHING, BUSY, t, UNSET, phase)
    ensures var s := Alone(size, NOTHING, BUSY, t, UNSET, phase);
            && Enabled(s, AppendMessage(0, payload))
            && Next(s, AppendMessage(0, payload)) ==
                Alone(size, Holding(payload), Producer(1, 1, false, {}), t, UNSET, phase)
    ensures var s := Alone(size, Holding(payload), Producer(1, 1, false, {}), t, UNSET, phase);
            && Enabled(s, ReloadInput(0))
            && Next(s, ReloadInput(0)) ==
               Alone(size, Holding(payload), Producer(1, 1, false, {}), Sample(1, false, InputFlushed(phase)),
                     UNSET, phase)
  {
    hide Total, QOk, Inserted;
    QueueFacts(payload);
    QueueInserted(payload, size);
    QueueRecovered(payload);
  }

  lemma CrashStep(q: Tagged, p: Producer, d: Sample, size: nat)
    requires QOk(q) && QOk(NOTHING) && Recovered(NOTHING) == NOTHING
    requires q.log.durable == 0 && d.covered == 1 && p.lost == {}
    ensures var s := Alone(size, q, p, d, d, Resting);
            && Enabled(s, CrashAndRestart(size))
            && Next(s, CrashAndRestart(size)).inputs == [Producer(1, 1, false, {0})]
  {
    hide Total, QOk, Recovered;
    assert Skipped(d, q, 0) == {0};
    var t := Next(Alone(size, q, p, d, d, Resting), CrashAndRestart(size));
    assert |t.inputs| == 1 && t.inputs[0] == Producer(1, 1, false, {0});
  }

  lemma Starts(size: nat)
    requires QOk(NOTHING)
    ensures Init(Alone(size, NOTHING, FIRST, UNSET, UNSET, Resting))
  {
    hide QOk;
  }

  /** A sweep samples between the two critical sections of an injection; the process dies after the write. */
  lemma SampledInProgress(p: Payload, size: nat) returns (states: seq<Sys>, actions: seq<Action>)
    requires |Frame(p)| < size
    ensures actions == [StartSweep, SetCheckpoint(0, true), SampleInput, FlushInput, Persist, CrashAndRestart(size)]
    ensures Run(states, actions)
    ensures Last(states).inputs == [Producer(1, 1, false, {0})]
  {
    hide Next, Enabled, Init, Total, QOk, Inserted, Recovered, Alone;
    QueueFacts(p);
    QueueInserted(p, size);
    QueueRecovered(p);
    Starts(size);
    SweepSteps(NOTHING, FIRST, UNSET, size);
    PluginSteps(p, UNSET, InputStats(0), size);
    SweepSteps(NOTHING, BUSY, UNSET, size);
    var d := Sample(1, true, false);
    SweepSteps(NOTHING, BUSY, d, size);
    CrashStep(NOTHING, BUSY, d, size);
    actions := [StartSweep, SetCheckpoint(0, true), SampleInput, FlushInput, Persist, CrashAndRestart(size)];
    var before := Alone(size, NOTHING, BUSY, d, d, Resting);
    states := [Alone(size, NOTHING, FIRST, UNSET, UNSET, Resting),
               Alone(size, NOTHING, FIRST, UNSET, UNSET, InputStats(0)),
               Alone(size, NOTHING, BUSY, UNSET, UNSET, InputStats(0)),
               Alone(size, NOTHING, BUSY, d, UNSET, InputStats(1)),
               Alone(size, NOTHING, BUSY, d, UNSET, OutputStats(0)), before, Next(before, CrashAndRestart(size))];
  }

  /** A plugin injects after the flush and ends before the write; the process dies after the write. */
  lemma EndedAfterFlush(p: Payload, size: nat) returns (states: seq<Sys>, actions: seq<Action>)
    requires |Frame(p)| < size
    ensures actions == [StartSweep, SampleInput, FlushInput, SetCheckpoint(0, true), AppendMessage(0, p),
                        ReloadInput(0), Persist, CrashAndRestart(size)]
    ensures Run(states, actions)
    ensures Last(states).inputs == [Producer(1, 1, false, {0})]
  {
    hide Next, Enabled, Init, Total, QOk, Inserted, Recovered, Alone;
    QueueFacts(p);
    QueueInserted(p, size);
    QueueRecovered(p);
    Starts(size);
    SweepSteps(NOTHING, FIRST, UNSET, size);
    PluginSteps(p, UNSET, OutputStats(0), size);
    var d, done := Sample(1, false, true), Producer(1, 1, false, {});
    SweepSteps(Holding(p), done, d, size);
    CrashStep(Holding(p), done, d, size);
    actions := [StartSweep, SampleInput, FlushInput, SetCheckpoint(0, true), AppendMessage(0, p), ReloadInput(0),
                Persist, CrashAndRestart(size)];
    var before := Alone(size, Holding(p), done, d, d, Resting);
    states := [Alone(size, NOTHING, FIRST, UNSET, UNSET, Resting),
               Alone(size, NOTHING, FIRST, UNSET, UNSET, InputStats(0)),
               Alone(size, NOTHING, FIRST, UNSET, UNSET, InputStats(1)),
               Alone(size, NOTHING, FIRST, UNSET, UNSET, OutputStats(0)),
               Alone(size, NOTHING, BUSY, UNSET, UNSET, OutputStats(0)),
               Alone(size, Holding(p), done, UNSET, UNSET, OutputStats(0)),
               Alone(size, Holding(p), done, d, UNSET, OutputStats(0)), before, Next(before, CrashAndRestart(size))];
  }
}
