/** The life of one rolling queue: injections, flushes, crashes and restarts, and what each of them
    leaves in the queue directory. `Log` is the specification that the writer class refines and that
    the pipeline and the readers reason with. */
module QueueLog {
  import opened Framing
  import opened Queue

  /** `fs` is everything injected, `durable` how many messages of it have reached the files: what
      is still in the stdio buffer is the tail of the last file. */
  datatype Log = Log(fs: Files, durable: nat)

  ghost predicate Ok(l: Log) {
    && |l.fs| > 0
    && Total(l.fs[..|l.fs| - 1]) <= l.durable <= Total(l.fs)
  }

  const EMPTY := Log([[]], 0)

  function Last(fs: Files): File
    requires |fs| > 0
  {
    fs[|fs| - 1]
  }

  /** The append of `inject_message`: write the frame and, once the file has reached `output_size`,
      close it and open the next one. */
  function Inject(l: Log, p: Payload, outputSize: nat): (r: Log)
    requires Ok(l)
    ensures Ok(r)
    ensures Flat(r.fs) == Flat(l.fs) + [p]
    ensures Total(r.fs) == Total(l.fs) + 1
    ensures r.durable == l.durable || r.durable == Total(r.fs)
  {
    var fs := Append(l.fs, p);
    assert fs[..|fs| - 1] == l.fs[..|l.fs| - 1];
    AppendTotals(l.fs, p);
    RollTotals(fs);
    assert Roll(fs)[..|fs|] == fs;
    if Size(Last(fs)) >= outputSize then Log(Roll(fs), Total(fs)) else Log(fs, l.durable)
  }

  /** stdio hands some more whole frames to the file; fflush hands over all of them. */
  function Flush(l: Log, n: nat): (r: Log)
    requires Ok(l)
    ensures Ok(r) && r.fs == l.fs
    ensures l.durable <= r.durable
  {
    if l.durable <= n <= Total(l.fs) then l.(durable := n) else l
  }

  /** The process dies and is started again on what had reached the files. */
  function Recover(l: Log): (r: Log)
    requires Ok(l)
    ensures Ok(r)
    ensures Flat(r.fs) == Flat(l.fs)[..l.durable]
    ensures r.durable == Total(r.fs) == l.durable
  {
    TruncateTotals(l.fs, l.durable);
    var fs := Truncate(l.fs, l.durable);
    assert fs[..|fs| - 1] == l.fs[..|l.fs| - 1];
    Log(fs, l.durable)
  }

  /** How many messages of file k have reached it. */
  function InFile(l: Log, k: nat): (n: nat)
    requires Ok(l) && k < |l.fs|
    ensures n <= |l.fs[k]|
  {
    if k < |l.fs| - 1 then |l.fs[k]| else l.durable - Total(l.fs[..k])
  }

  function DiskFile(l: Log, k: nat): seq<Byte>
    requires Ok(l) && k < |l.fs|
  {
    Bytes(l.fs[k][..InFile(l, k)])
  }

  /** The queue directory. */
  function Disk(l: Log): map<nat, seq<Byte>>
    requires Ok(l)
  {
    map k: nat | k < |l.fs| :: DiskFile(l, k)
  }

  lemma FileExists(l: Log, id: nat)
    requires Ok(l)
    ensures id in Disk(l) <==> id < |l.fs|
  {
  }

  lemma NoBytes()
    ensures Bytes([]) == []
  {
  }

  /** One message appended, and the next file opened or not. */
  function Extend(l: Log, p: Payload, roll: bool): (r: Log)
    requires Ok(l)
    ensures Ok(r)
  {
    var fs := Append(l.fs, p);
    assert fs[..|fs| - 1] == l.fs[..|l.fs| - 1];
    AppendTotals(l.fs, p);
    RollTotals(fs);
    assert Roll(fs)[..|fs|] == fs;
    if roll then Log(Roll(fs), Total(fs)) else Log(fs, l.durable)
  }

  lemma ExtendShape(l: Log, p: Payload, roll: bool)
    requires Ok(l)
    ensures var last := |l.fs| - 1;
            var r := Extend(l, p, roll);
            var full := Last(l.fs) + [p];
            && |r.fs| >= last + 1 && r.fs[..last] == l.fs[..last] && r.fs[last] == full
            && if roll
               then |r.fs| == last + 2 && r.fs[last + 1] == [] && InFile(r, last) == |full| && InFile(r, last + 1) == 0
               else |r.fs| == last + 1 && r.durable == l.durable && InFile(r, last) == InFile(l, last)
  {
    var last := |l.fs| - 1;
    var fs := Append(l.fs, p);
    AppendTotals(l.fs, p);
    RollTotals(fs);
    assert fs[..last] == l.fs[..last];
    assert Roll(fs)[..last] == l.fs[..last];
    assert Roll(fs)[..last + 1] == fs;
  }

  lemma InjectExtends(l: Log, p: Payload, outputSize: nat)
    requires Ok(l)
    ensures Inject(l, p, outputSize) == Extend(l, p, Size(Last(l.fs) + [p]) >= outputSize)
  {
  }

  /** The shape of a queue after one injection. */
  lemma InjectShape(l: Log, p: Payload, outputSize: nat)
    requires Ok(l)
    ensures var last := |l.fs| - 1;
            var r := Inject(l, p, outputSize);
            var full := Last(l.fs) + [p];
            && |r.fs| >= last + 1 && r.fs[..last] == l.fs[..last] && r.fs[last] == full
            && if Size(full) >= outputSize
               then |r.fs| == last + 2 && r.fs[last + 1] == [] && InFile(r, last) == |full| && InFile(r, last + 1) == 0
               else |r.fs| == last + 1 && r.durable == l.durable && InFile(r, last) == InFile(l, last)
  {
    hide Inject, Extend, Total, Size;
    InjectExtends(l, p, outputSize);
    ExtendShape(l, p, Size(Last(l.fs) + [p]) >= outputSize);
  }

  /** An injection moves no message's checkpoint. */
  lemma InjectKeepsPos(l: Log, p: Payload, outputSize: nat, i: nat)
    requires Ok(l) && i <= Total(l.fs)
    ensures i <= Total(Inject(l, p, outputSize).fs)
    ensures PosAfter(Inject(l, p, outputSize).fs, i) == PosAfter(l.fs, i)
  {
    hide Total, Flat, PosAfter, Size;
    AppendTotals(l.fs, p);
    AppendKeepsPos(l.fs, p, i);
    RollKeepsPos(Append(l.fs, p), i);
  }

  /** What a reader of the directory can see, file by file. */
  function Visible(l: Log): (r: Files)
    requires Ok(l)
    ensures r == Recover(l).fs
    ensures |r| == |l.fs|
    ensures forall k :: 0 <= k < |r| ==> r[k] == l.fs[k][..InFile(l, k)]
  {
    var fs := Recover(l).fs;
    assert forall k :: 0 <= k < |l.fs| - 1 ==> l.fs[k][..InFile(l, k)] == l.fs[k];
    fs
  }

  // ---- runs ----

  datatype Step = Write(p: Payload) | Spill(n: nat) | Crash(size: nat)   // ... and restart with this `output_size`

  function Next(l: Log, s: Step, outputSize: nat): (r: Log)
    requires Ok(l)
    ensures Ok(r)
  {
    match s
    case Write(p) => Inject(l, p, outputSize)
    case Spill(n) => Flush(l, n)
    case Crash(_) => Recover(l)
  }

  /** The `output_size` in force after some steps. */
  function SizeAfter(steps: seq<Step>, outputSize: nat): nat {
    if steps == [] then outputSize
    else if steps[|steps| - 1].Crash? then steps[|steps| - 1].size
    else SizeAfter(steps[..|steps| - 1], outputSize)
  }

  function Run(l: Log, steps: seq<Step>, outputSize: nat): (r: Log)
    requires Ok(l)
    ensures Ok(r)
  {
    if steps == [] then l
    else
      var most := steps[..|steps| - 1];
      Next(Run(l, most, outputSize), steps[|steps| - 1], SizeAfter(most, outputSize))
  }

  /** Closed files: a file with a successor holds every message written to it. */
  lemma ClosedFileComplete(l: Log, k: nat)
    requires Ok(l)
    requires k + 1 in Disk(l)
    ensures k in Disk(l)
    ensures Disk(l)[k] == Bytes(l.fs[k])
  {
    assert l.fs[k][..|l.fs[k]|] == l.fs[k];
  }

  lemma StepFreezes(l: Log, s: Step, outputSize: nat, k: nat)
    requires Ok(l)
    requires k + 1 in Disk(l)
    ensures k + 1 in Disk(Next(l, s, outputSize))
    ensures Next(l, s, outputSize).fs[k] == l.fs[k]
  {
  }

  /** Once file k+1 exists, file k is closed, complete and never changes again: not by any number of
      injections, flushes, crashes and restarts. */
  lemma {:induction false} ClosedFilesNeverChange(l: Log, steps: seq<Step>, outputSize: nat, k: nat)
    requires Ok(l)
    requires k + 1 in Disk(l)
    ensures k + 1 in Disk(Run(l, steps, outputSize)) && k in Disk(Run(l, steps, outputSize))
    ensures Run(l, steps, outputSize).fs[k] == l.fs[k]
    ensures Disk(Run(l, steps, outputSize))[k] == Bytes(l.fs[k]) == Disk(l)[k]
  {
    ClosedFileComplete(l, k);
    if steps != [] {
      var most := steps[..|steps| - 1];
      ClosedFilesNeverChange(l, most, outputSize, k);
      StepFreezes(Run(l, most, outputSize), steps[|steps| - 1], SizeAfter(most, outputSize), k);
    }
    ClosedFileComplete(Run(l, steps, outputSize), k);
  }

  /** The reference: one sequence of messages, of which a crash keeps the flushed part. */
  function Reference(l: Log, steps: seq<Step>, outputSize: nat): seq<Payload>
    requires Ok(l)
  {
    if steps == [] then Flat(l.fs)
    else
      var most := steps[..|steps| - 1];
      var r := Reference(l, most, outputSize);
      match steps[|steps| - 1]
      case Write(p) => r + [p]
      case Spill(_) => r
      case Crash(_) => var d := Run(l, most, outputSize).durable; if d <= |r| then r[..d] else r
  }

  /** The bytes of the files in id order. */
  function DiskBytes(fs: Files): seq<Byte>
  {
    if fs == [] then [] else DiskBytes(fs[..|fs| - 1]) + Bytes(fs[|fs| - 1])
  }

  lemma {:induction false} DiskBytesFlat(fs: Files)
    ensures DiskBytes(fs) == Bytes(Flat(fs))
  {
    if fs != [] {
      DiskBytesFlat(fs[..|fs| - 1]);
      BytesConcat(Flat(fs[..|fs| - 1]), fs[|fs| - 1]);
    }
  }

  /** Reading the files in id order gives the injected messages in injection order, each as one
      whole frame: no frame is split over two files, lost by a roll or doubled by a restart. */
  lemma {:induction false} FilesHoldInjectionOrder(l: Log, steps: seq<Step>, outputSize: nat)
    requires Ok(l)
    ensures var r := Run(l, steps, outputSize);
            && Flat(r.fs) == Reference(l, steps, outputSize)
            && Flat(Visible(r)) == Reference(l, steps, outputSize)[..r.durable]
            && DiskBytes(Visible(r)) == Bytes(Reference(l, steps, outputSize)[..r.durable])
            && (forall k: nat :: k in Disk(r) ==> k < |Visible(r)| && Disk(r)[k] == Bytes(Visible(r)[k]))
  {
    hide Total, Bytes, Size, Visible, DiskBytes;
    RunFollowsReference(l, steps, outputSize);
    DiskShowsVisible(Run(l, steps, outputSize));
  }

  lemma {:induction false} RunFollowsReference(l: Log, steps: seq<Step>, outputSize: nat)
    requires Ok(l)
    ensures Flat(Run(l, steps, outputSize).fs) == Reference(l, steps, outputSize)
  {
    hide Total, Bytes, Size, Inject, Flush, Recover;
    if steps != [] {
      RunFollowsReference(l, steps[..|steps| - 1], outputSize);
    }
  }

  lemma DiskShowsVisible(l: Log)
    requires Ok(l)
    ensures Flat(Visible(l)) == Flat(l.fs)[..l.durable]
    ensures DiskBytes(Visible(l)) == Bytes(Flat(l.fs)[..l.durable])
    ensures forall k: nat :: k in Disk(l) ==> k < |Visible(l)| && Disk(l)[k] == Bytes(Visible(l)[k])
  {
    hide Total, Bytes, Size, DiskBytes;
    DiskBytesFlat(Visible(l));
  }

  // ---- file sizes ----

  /** Every file but the last has reached `output_size`. */
  ghost predicate Rolled(l: Log, outputSize: nat) {
    forall k :: 0 <= k < |l.fs| - 1 ==> Size(l.fs[k]) >= outputSize
  }

  predicate EndsAtSize(f: File, outputSize: nat) {
    f != [] && Size(f) >= outputSize && Size(f[..|f| - 1]) < outputSize
  }

  /** Every closed file reached `output_size` only with its last message, and an open file has not
      reached it yet: what a queue looks like that was never restarted. */
  ghost predicate FreshSizes(l: Log, outputSize: nat)
    requires |l.fs| > 0
  {
    && (forall k :: 0 <= k < |l.fs| - 1 ==> EndsAtSize(l.fs[k], outputSize))
    && Size(l.fs[|l.fs| - 1]) < outputSize
  }

  lemma {:induction false} SizeAfterLeast(steps: seq<Step>, outputSize: nat, least: nat)
    requires least <= outputSize && forall s :: s in steps && s.Crash? ==> least <= s.size
    ensures least <= SizeAfter(steps, outputSize)
  {
    if steps != [] {
      SizeAfterLeast(steps[..|steps| - 1], outputSize, least);
    }
  }

  /** As long as no restart sets an `output_size` below `least`. */
  lemma {:induction false} FilesReachOutputSize(l: Log, steps: seq<Step>, outputSize: nat, least: nat)
    requires Ok(l) && Rolled(l, least)
    requires least <= outputSize && forall s :: s in steps && s.Crash? ==> least <= s.size
    ensures Rolled(Run(l, steps, outputSize), least)
  {
    if steps != [] {
      var most := steps[..|steps| - 1];
      FilesReachOutputSize(l, most, outputSize, least);
      SizeAfterLeast(most, outputSize, least);
      RolledKept(Run(l, most, outputSize), steps[|steps| - 1], SizeAfter(most, outputSize), least);
    }
  }

  lemma RolledKept(l: Log, s: Step, outputSize: nat, least: nat)
    requires Ok(l) && Rolled(l, least) && least <= outputSize
    ensures Rolled(Next(l, s, outputSize), least)
  {
    var r := Next(l, s, outputSize);
    var last := |l.fs| - 1;
    if s.Write? {
      InjectShape(l, s.p, outputSize);
    }
    forall k | 0 <= k < |r.fs| - 1
      ensures Size(r.fs[k]) >= least
    {
      if k < last {
        assert r.fs[k] == r.fs[..last][k] == l.fs[..last][k] == l.fs[k];
      }
    }
  }

  /** In a queue created with this `output_size` and run without a crash a file ends with the very
      message that takes it to `output_size`. */
  lemma {:induction false} FilesEndAtOutputSize(steps: seq<Step>, outputSize: nat)
    requires outputSize > 0
    requires forall s :: s in steps ==> !s.Crash?
    ensures FreshSizes(Run(EMPTY, steps, outputSize), outputSize)
  {
    if steps != [] {
      var most := steps[..|steps| - 1];
      assert forall i :: 0 <= i < |most| ==> most[i] == steps[i];
      FilesEndAtOutputSize(most, outputSize);
      SameSize(most, outputSize);
      FreshSizesKept(Run(EMPTY, most, outputSize), steps[|steps| - 1], outputSize);
    }
  }

  lemma {:induction false} SameSize(steps: seq<Step>, outputSize: nat)
    requires forall s :: s in steps ==> !s.Crash?
    ensures SizeAfter(steps, outputSize) == outputSize
  {
    if steps != [] {
      SameSize(steps[..|steps| - 1], outputSize);
    }
  }

  lemma FreshSizesKept(l: Log, s: Step, outputSize: nat)
    requires outputSize > 0
    requires Ok(l) && FreshSizes(l, outputSize)
    requires !s.Crash?
    ensures FreshSizes(Next(l, s, outputSize), outputSize)
  {
    if s.Write? {
      var f := Last(l.fs);
      var fs := Append(l.fs, s.p);
      var last := |fs| - 1;
      assert fs[last] == f + [s.p] && fs[last][..|f|] == f;
      var r := Next(l, s, outputSize);
      if Size(fs[last]) >= outputSize {
        assert EndsAtSize(r.fs[last], outputSize);
        assert r.fs[last + 1] == [];
      }
      forall k | 0 <= k < |r.fs| - 1
        ensures EndsAtSize(r.fs[k], outputSize)
      {
        if k < last {
          assert r.fs[k] == l.fs[k];
        }
      }
    }
  }
}
