/** The output thread's reader loop: two queues, at most one decoded message held from each, the older
    one delivered first. */
module Merge {
  import opened Options
  import opened Framing
  import opened Queue
  import opened QueueLog
  import opened Reader
  import opened Directory
  import opened Input
  import D = Delivery
  import OutputPlugin
  import S = Sessions
  import W = Switch
  import T = CheckpointText

  /** One side of the merge: the reader has decoded `n` messages of its file; the last of them may
      still be held; `done` messages of the queue have been delivered. */
  ghost predicate Side(r: Reader, held: Option<Payload>, l: Log, n: nat, done: nat) {
    && SizesFit(l.fs)
    // waiting for the first file is the same position with the file not yet open
    && Following(r.(file := Some(r.cp.id)), l, n)
    && (r.file == Some(r.cp.id) || (r.file == None && r.window == [] && held.None?))
    && (held.Some? ==> n > 0 && held.value == l.fs[r.cp.id][n - 1])
    && done + (if held.Some? then 1 else 0) == Index(r, l, n)
  }

  /** The writer going on changes nothing for the merge. */
  lemma WriterKeepsSide(r: Reader, held: Option<Payload>, l: Log, n: nat, done: nat, s: QueueLog.Step, outputSize: nat)
    requires Side(r, held, l, n, done)
    requires !s.Crash? && (s.Write? ==> SizeT(|s.p|))
    ensures Side(r, held, QueueLog.Next(l, s, outputSize), n, done)
    ensures Flat(l.fs) <= Flat(QueueLog.Next(l, s, outputSize).fs)
  {
    hide Total, Bytes, Size, Flat, Following;
    WriterKeeps(r.(file := Some(r.cp.id)), l, n, s, outputSize);
    FollowingBounds(r.(file := Some(r.cp.id)), l, n);
    if s.Write? {
      SizesFitKept(l, s.p, outputSize);
      InjectGrows(l, s.p, outputSize, r.cp.id);
    }
  }

  /** Steps of a writer that is not restarted. */
  ghost predicate WriterSteps(steps: seq<QueueLog.Step>) {
    forall s :: s in steps ==> !s.Crash? && (s.Write? ==> SizeT(|s.p|))
  }

  /** However far the writer goes on: the merge's side is as before, and what was in the queue is still there, at
      the same positions. */
  lemma {:induction false} SideGoesOn(r: Reader, held: Option<Payload>, l: Log, n: nat, done: nat,
                                      steps: seq<QueueLog.Step>, outputSize: nat)
    requires Side(r, held, l, n, done) && Ok(l)
    requires WriterSteps(steps)
    ensures var l' := QueueLog.Run(l, steps, outputSize);
            && Side(r, held, l', n, done)
            && Flat(l.fs) <= Flat(l'.fs) && Total(l.fs) <= Total(l'.fs)
            && forall i: nat :: i <= Total(l.fs) ==> PosAfter(l'.fs, i) == PosAfter(l.fs, i)
  {
    hide Total, Bytes, Size, Flat, PosAfter, Side, QueueLog.Next;
    if steps != [] {
      var most, s := steps[..|steps| - 1], steps[|steps| - 1];
      assert WriterSteps(most) && s in steps;
      SideGoesOn(r, held, l, n, done, most, outputSize);
      var m := QueueLog.Run(l, most, outputSize);
      QueueLog.SameSize(most, outputSize);
      WriterKeepsSide(r, held, m, n, done, s, outputSize);
      PositionsGoOn(m, s, outputSize);
    }
  }

  lemma PositionsGoOn(l: Log, s: QueueLog.Step, outputSize: nat)
    requires Ok(l) && !s.Crash?
    ensures var l' := QueueLog.Next(l, s, outputSize);
            && Flat(l.fs) <= Flat(l'.fs) && Total(l.fs) <= Total(l'.fs)
            && forall i: nat :: i <= Total(l.fs) ==> PosAfter(l'.fs, i) == PosAfter(l.fs, i)
  {
    hide Total, Bytes, Size, Flat, PosAfter;
    var l' := QueueLog.Next(l, s, outputSize);
    assert Total(l.fs) <= Total(l'.fs);
    forall i: nat | i <= Total(l.fs)
      ensures PosAfter(l'.fs, i) == PosAfter(l.fs, i)
    {
      if s.Write? {
        InjectKeepsPos(l, s.p, outputSize, i);
      }
    }
  }

  /** The held message is the next one to deliver, and the position to record with it is the one behind
      it: the read position is further on only by what is still in the buffer. */
  lemma HeldIsNext(r: Reader, held: Option<Payload>, l: Log, n: nat, done: nat)
    requires Side(r, held, l, n, done) && held.Some?
    ensures |r.window| <= r.cp.offset
    ensures done + 1 <= l.durable <= Total(l.fs)
    ensures Flat(l.fs)[done] == held.value
    ensures Recorded(r) == PosAfter(l.fs, done + 1)
  {
    hide Total, Bytes, Size, Flat, SizesFit;
    RecordedIsPosition(r, l, n);
    NextInFlat(l.fs, r.cp.id, n - 1);
  }

  /** What has been delivered from one queue. */
  function Project(log: seq<(D.Source, Payload)>, src: D.Source): seq<Payload> {
    if log == [] then []
    else
      var last := log[|log| - 1];
      Project(log[..|log| - 1], src) + if last.0 == src then [last.1] else []
  }

  lemma ProjectSnoc(log: seq<(D.Source, Payload)>, src: D.Source, p: Payload)
    ensures Project(log + [(src, p)], src) == Project(log, src) + [p]
    ensures forall other: D.Source :: other != src ==> Project(log + [(src, p)], other) == Project(log, other)
  {
    assert (log + [(src, p)])[..|log|] == log;
  }

  // ---- how much there is left to do on one side ----

  /** The bytes in the files from number k on. */
  ghost function OnDisk(l: Log, k: nat): nat
    requires Ok(l)
    decreases |l.fs| - k
  {
    if k < |l.fs| then |DiskFile(l, k)| + OnDisk(l, k + 1) else 0
  }

  /** The first file to open, files to go on to, and bytes to read. */
  ghost function Left(r: Reader, l: Log): nat
    requires Ok(l)
  {
    (if r.file.None? then 1 else 0)
    + (if r.cp.id < |l.fs| then |l.fs| - r.cp.id else 0)
    + (if r.cp.offset <= OnDisk(l, r.cp.id) then OnDisk(l, r.cp.id) - r.cp.offset else 0)
  }

  /** The reader is in the last file, or in one that this writer has filled, unless its last look went well. */
  ghost predicate Sure(next: bool, r: Reader, l: Log, outputSize: nat) {
    r.file.None? || next || r.cp.id + 1 >= |l.fs| || Size(l.fs[r.cp.id]) >= outputSize
  }

  lemma SureStep(next: bool, r: Reader, l: Log, s: QueueLog.Step, outputSize: nat)
    requires Ok(l) && r.cp.id < |l.fs| && Sure(next, r, l, outputSize) && !s.Crash?
    ensures Sure(next, r, QueueLog.Next(l, s, outputSize), outputSize)
    ensures |l.fs| <= |QueueLog.Next(l, s, outputSize).fs|
  {
    hide Total, Size, Inject;
    if s.Write? {
      InjectShape(l, s.p, outputSize);
      W.SameFile(l, s.p, outputSize, r.cp.id);
    }
  }

  lemma {:induction false} SureGoesOn(next: bool, r: Reader, l: Log, steps: seq<QueueLog.Step>, outputSize: nat)
    requires Ok(l) && r.cp.id < |l.fs| && Sure(next, r, l, outputSize) && WriterSteps(steps)
    ensures Sure(next, r, QueueLog.Run(l, steps, outputSize), outputSize)
    ensures |l.fs| <= |QueueLog.Run(l, steps, outputSize).fs|
  {
    hide Sure, QueueLog.Next;
    if steps != [] {
      var most, s := steps[..|steps| - 1], steps[|steps| - 1];
      assert WriterSteps(most) && s in steps;
      SureGoesOn(next, r, l, most, outputSize);
      QueueLog.SameSize(most, outputSize);
      SureStep(next, r, QueueLog.Run(l, most, outputSize), s, outputSize);
    }
  }

  /** A read makes less left. */
  lemma ReadLeaves(r: Reader, l: Log, count: nat)
    requires Ok(l) && r.file == Some(r.cp.id) && count <= Unread(r, Disk(l))
    ensures Left(Read(r, Disk(l), count), l) == Left(r, l) - count
    ensures forall next: bool, outputSize: nat :: Sure(next, r, l, outputSize) ==>
              Sure(next, Read(r, Disk(l), count), l, outputSize)
  {
    hide Bytes, Size, Total;
  }

  /** At the end of a file one step of the search for the next one, when no file is missing: it leads to the next file
      and leaves less, or nothing is left in the queue, or the search does not go on from a short file. */
  lemma LookLeaves(r: Reader, l: Log, n: nat, next: bool, next': bool, waitCount: nat, waitCount': nat,
                   cp': Checkpoint, outputSize: nat)
    requires Following(r, l, n) && SizesFit(l.fs)
    requires Taken(r).None? && Unread(r, Disk(l)) == 0
    requires Looks(Search(r.cp, next, waitCount), Disk(l).Keys, outputSize, Search(cp', next', waitCount'))
    ensures cp' == r.cp || (cp' == Checkpoint(r.cp.id + 1, 0) && cp'.id in Disk(l))
    ensures cp' != r.cp ==> next' && Left(Reader(Some(cp'.id), cp', []), l) < Left(r, l)
    ensures cp' == r.cp && Sure(next, r, l, outputSize) ==>
              Sure(next', r, l, outputSize) && Index(r, l, n) == l.durable
  {
    hide Bytes, Size, Total, SizesFit;
    var k := r.cp.id;
    EndOfFile(r, l, n);
    FileExists(l, k);
    FileExists(l, k + 1);
    FilesContiguous(l);
    assert DiskFile(l, k) == Disk(l)[k];
    if exists later: nat :: IsNext(Disk(l).Keys, k, later) {
      var later: nat :| IsNext(Disk(l).Keys, k, later);
      FileExists(l, later);
    }
    if k + 1 < |l.fs| {
      ClosedFileComplete(l, k);
    } else {
      LastReached(l, k);
    }
  }

  lemma LastReached(l: Log, k: nat)
    requires Ok(l) && k == |l.fs| - 1
    ensures Total(l.fs[..k]) + InFile(l, k) == l.durable
  {
  }

  /** A look of the output thread, which counts from the beginning again whenever it has found a file. */
  ghost predicate LooksAnew(s: Search, ids: set<nat>, outputSize: nat, r: Search) {
    if r.next then r.waitCount == 0 && exists w: nat :: Looks(s, ids, outputSize, Search(r.cp, true, w))
    else Looks(s, ids, outputSize, r)
  }

  /** The head of the loop for one queue: find the next message or read on, at the end of a file go to
      the next one. `turn` is whether this second's look at the directory is still due. */
  method Fill(r: HsInput, held: Option<Payload>, names: seq<string>, outputSize: nat,
              next: bool, waitCount: nat, turn: bool, ghost l: Log, ghost n: nat, ghost done: nat)
    returns (held': Option<Payload>, next': bool, waitCount': nat, bytesRead: nat, ghost n': nat)
    requires r.Valid() && Side(r.State(), held, l, n, done)
    requires r.dir.files == Disk(l) && Ids(names) == r.dir.files.Keys
    modifies r, r.buf
    ensures r.Valid() && (r.buf == old(r.buf) || fresh(r.buf))
    ensures Side(r.State(), held', l, n', done)
    ensures held.Some? ==> held' == held && r.State() == old(r.State())
    ensures Sure(next, old(r.State()), l, outputSize) ==> Sure(next', r.State(), l, outputSize)
    ensures Left(r.State(), l) <= Left(old(r.State()), l)
    ensures bytesRead > 0 ==> Left(r.State(), l) < Left(old(r.State()), l)
    ensures !turn ==> next' == next && r.fn == old(r.fn) && r.cp.id == old(r.cp.id)
    ensures old(r.fn).Some? && held.None? && held'.None? && bytesRead == 0 && turn ==>
              LooksAnew(Search(old(r.cp), next, waitCount), r.dir.files.Keys, outputSize,
                        Search(r.cp, next', waitCount'))
    // nothing found and nothing read: the whole file has been delivered, as far as it has been flushed
    ensures old(r.fn).Some? && held'.None? && bytesRead == 0 ==> n == InFile(l, old(r.cp.id))
    // a message, or less left to do, or the whole queue has been delivered
    ensures turn && Sure(next, old(r.State()), l, outputSize) && held'.None? ==>
              Left(r.State(), l) < Left(old(r.State()), l) || done == l.durable
  {
    hide Total, Bytes, Size, Flat, SizesFit, Disk, Left, Sure, InFile, LooksAnew;
    held', next', waitCount', bytesRead, n' := held, next, waitCount, 0, n;
    ghost var was := r.State();
    if r.fn.Some? && held.None? {
      ScanKeeps(was, l, n);
      held' := r.FindMessage();
      SamePlace(was, r.State(), l, outputSize);
      if held'.Some? {
        n' := n + 1;
      } else {
        next', waitCount', bytesRead, n' := ReadOn(r, names, outputSize, next, waitCount, turn, l, n);
      }
    } else if r.fn.None? && turn {
      FileExists(l, r.cp.id);
      next' := r.OpenFile(r.cp.id);
      OpenLeaves(was, l, outputSize);
      if next' {
        waitCount' := 0;
      }
    }
  }

  /** What is left depends on the file and the position only. */
  lemma SamePlace(r: Reader, r': Reader, l: Log, outputSize: nat)
    requires Ok(l) && r'.file == r.file && r'.cp == r.cp
    ensures Left(r', l) == Left(r, l)
    ensures forall next: bool :: Sure(next, r', l, outputSize) <==> Sure(next, r, l, outputSize)
  {
  }

  lemma OpenLeaves(r: Reader, l: Log, outputSize: nat)
    requires Ok(l) && r.file.None?
    ensures Left(Open(r, r.cp.id), l) < Left(r, l)
    ensures Sure(true, Open(r, r.cp.id), l, outputSize) && forall next: bool :: Sure(next, r, l, outputSize)
  {
  }

  method ReadOn(r: HsInput, names: seq<string>, outputSize: nat, next: bool, waitCount: nat, turn: bool,
                ghost l: Log, ghost n: nat)
    returns (next': bool, waitCount': nat, bytesRead: nat, ghost n': nat)
    requires r.Valid() && SizesFit(l.fs) && Following(r.State(), l, n)
    requires r.dir.files == Disk(l) && Ids(names) == r.dir.files.Keys
    requires Taken(r.State()).None? && !ScanFrame(r.State().window).Corrupt?
    requires ScanFrame(r.State().window).NeedHeader? ==> |r.State().window| < HEADER_BUFFER
    requires r.msglen == match ScanFrame(r.State().window) case NeedBody(m) => m case _ => 0
    modifies r, r.buf
    ensures r.Valid() && (r.buf == old(r.buf) || fresh(r.buf))
    ensures Following(r.State(), l, n') && Index(r.State(), l, n') == old(Index(r.State(), l, n))
    ensures Sure(next, old(r.State()), l, outputSize) ==> Sure(next', r.State(), l, outputSize)
    ensures Left(r.State(), l) <= Left(old(r.State()), l)
    ensures bytesRead > 0 ==> Left(r.State(), l) < Left(old(r.State()), l)
    ensures bytesRead == 0 ==> n == InFile(l, old(r.cp.id))
    ensures bytesRead == 0 && turn ==>
              LooksAnew(Search(old(r.cp), next, waitCount), r.dir.files.Keys, outputSize,
                        Search(r.cp, next', waitCount'))
    ensures !turn ==> next' == next && r.fn == old(r.fn) && r.cp.id == old(r.cp.id)
    ensures turn && Sure(next, old(r.State()), l, outputSize) ==>
              Left(r.State(), l) < Left(old(r.State()), l) || Index(r.State(), l, n') == l.durable
  {
    hide Total, Bytes, Size, Flat, SizesFit, Disk, Left, Sure, InFile, Looks, Following;
    ghost var was := r.State();
    FollowingBounds(was, l, n);
    next', waitCount', n' := next, waitCount, n;
    var limit: nat :| limit > 0;
    bytesRead := r.ReadFile(limit);
    ReadKeeps(was, l, n, bytesRead);
    ReadLeaves(was, l, bytesRead);
    if bytesRead == 0 {
      EndOfFile(was, l, n);
      if turn {
        var id := r.cp.id;
        next', waitCount' := NextFile(r, names, outputSize, next, waitCount);
        LookLeaves(was, l, n, next, next', waitCount, waitCount', r.cp, outputSize);
        if next' {
          waitCount' := 0;
        }
        if r.cp.id > id {
          n' := 0;
          SwitchKeeps(was, l, n);
          assert r.State() == Open(was, id + 1);
          SamePlace(Reader(Some(r.cp.id), r.cp, []), r.State(), l, outputSize);
          SureAfterLook(r.State(), l, outputSize);
        }
      }
    }
  }

  lemma SureAfterLook(r: Reader, l: Log, outputSize: nat)
    ensures Sure(true, r, l, outputSize)
  {
  }

  lemma FilesContiguous(l: Log)
    requires Ok(l)
    ensures Contiguous(Disk(l))
  {
  }

  lemma SideBounds(r: Reader, held: Option<Payload>, l: Log, n: nat, done: nat)
    requires Side(r, held, l, n, done)
    ensures Ok(l) && r.cp.id < |l.fs| && done <= l.durable
  {
    hide Bytes, Size, Flat, SizesFit;
    IndexDurable(l, r.cp.id, n);
  }

  class OutputThread {
    const plugin: OutputPlugin.Plugin
    const input: HsInput
    const analysis: HsInput
    const readQueue: D.ReadQueue
    const timestamp: Payload -> int
    var pim: Option<Payload>
    var pam: Option<Payload>
    var inext: bool
    var anext: bool
    var iwait: nat
    var await: nat
    // the messages handed to output_message, in order
    ghost var delivered: seq<(D.Source, Payload)>
    // the delivery session that the plugin's fields are the visible part of
    ghost var session: D.Session

    constructor (plugin: OutputPlugin.Plugin, input: HsInput, analysis: HsInput, readQueue: D.ReadQueue,
                 timestamp: Payload -> int)
      ensures this.plugin == plugin && this.input == input && this.analysis == analysis
      ensures this.readQueue == readQueue && this.timestamp == timestamp
      ensures pim == None && pam == None && delivered == []
      ensures session == D.Begin(plugin.asyncCp.Length, plugin.cp)
    {
      this.plugin, this.input, this.analysis := plugin, input, analysis;
      this.readQueue, this.timestamp := readQueue, timestamp;
      pim, pam := None, None;
      inext, anext, iwait, await := false, false, 0, 0;
      delivered := [];
      session := D.Begin(plugin.asyncCp.Length, plugin.cp);
    }

    /** Both sides, with `i` and `a` messages delivered since positions `iStart` and `aStart`: the
        deliveries of each queue are its messages in order without gap or repetition, all of them from queues
        that the plugin reads, and the plugin's read position is the pair of checkpoints behind them. */
    ghost predicate Merged(lI: Log, nI: nat, iStart: nat, i: nat, lA: Log, nA: nat, aStart: nat, a: nat)
      reads this`pim, this`pam, this`delivered, plugin`cur
      reads input, input.buf, input.dir, analysis, analysis.buf, analysis.dir
    {
      && input != analysis && input.buf != analysis.buf
      && input.Valid() && Side(input.State(), pim, lI, nI, i) && input.dir.files == Disk(lI)
      && analysis.Valid() && Side(analysis.State(), pam, lA, nA, a) && analysis.dir.files == Disk(lA)
      && iStart <= i <= Total(lI.fs) && Project(delivered, D.FromInput) == Flat(lI.fs)[iStart..i]
      && aStart <= a <= Total(lA.fs) && Project(delivered, D.FromAnalysis) == Flat(lA.fs)[aStart..a]
      && plugin.cur == D.Pair(PosAfter(lI.fs, i), PosAfter(lA.fs, a))
      && (pim.Some? ==> D.Reads(readQueue, D.FromInput)) && (pam.Some? ==> D.Reads(readQueue, D.FromAnalysis))
      && forall m :: m in delivered ==> D.Reads(readQueue, m.0)
    }

    /** Both searches for a next file are where the loop's guards leave them. */
    ghost predicate Steady(lI: Log, lA: Log, outputSize: nat)
      reads this`inext, this`anext, input, input.buf, analysis, analysis.buf
    {
      && input.Valid() && Sure(inext, input.State(), lI, outputSize)
      && analysis.Valid() && Sure(anext, analysis.State(), lA, outputSize)
    }

    /** Everything that is in the files of the queues that the plugin reads. */
    predicate AllDelivered(lI: Log, i: nat, lA: Log, a: nat) {
      && (D.Reads(readQueue, D.FromInput) ==> i == lI.durable)
      && (D.Reads(readQueue, D.FromAnalysis) ==> a == lA.durable)
    }

    /** How many turns there are at most until then, if nothing is added. */
    ghost function Remaining(lI: Log, i: nat, lA: Log, a: nat): nat
      requires Ok(lI) && Ok(lA) && input.Valid() && analysis.Valid()
      reads input, input.buf, analysis, analysis.buf
    {
      (if D.Reads(readQueue, D.FromInput) && i <= lI.durable then Left(input.State(), lI) + (lI.durable - i) else 0)
      + (if D.Reads(readQueue, D.FromAnalysis) && a <= lA.durable
         then Left(analysis.State(), lA) + (lA.durable - a) else 0)
    }

    lemma Readers(lI: Log, nI: nat, iStart: nat, i: nat, lA: Log, nA: nat, aStart: nat, a: nat)
      requires Merged(lI, nI, iStart, i, lA, nA, aStart, a)
      ensures input != analysis && input.buf != analysis.buf && input.Valid() && analysis.Valid() && Ok(lI) && Ok(lA)
      ensures i <= lI.durable && a <= lA.durable && iStart <= i && aStart <= a
      ensures !D.Reads(readQueue, D.FromInput) ==> pim.None?
      ensures !D.Reads(readQueue, D.FromAnalysis) ==> pam.None?
      ensures input.cp.id < |lI.fs| && analysis.cp.id < |lA.fs|
    {
      hide Total, Bytes, Size, Flat, PosAfter, Project, SizesFit;
      SideBounds(input.State(), pim, lI, nI, i);
      SideBounds(analysis.State(), pam, lA, nA, a);
    }

    /** The head of the loop for the input queue. */
    method FillInput(names: seq<string>, outputSize: nat, turn: bool,
                     ghost lI: Log, ghost nI: nat, ghost iStart: nat, ghost i: nat,
                     ghost lA: Log, ghost nA: nat, ghost aStart: nat, ghost a: nat)
      returns (bytesRead: nat, ghost nI': nat)
      requires Merged(lI, nI, iStart, i, lA, nA, aStart, a) && Steady(lI, lA, outputSize)
      requires D.Reads(readQueue, D.FromInput)
      requires Ids(names) == input.dir.files.Keys
      modifies this`pim, this`inext, this`iwait, input, input.buf
      ensures Merged(lI, nI', iStart, i, lA, nA, aStart, a) && Steady(lI, lA, outputSize)
      ensures input.buf == old(input.buf) || fresh(input.buf)
      ensures old(pim).Some? ==> pim == old(pim)
      ensures old(input.fn).Some? && pim.None? && bytesRead == 0 ==> nI == InFile(lI, old(input.cp.id))
      ensures old(input.fn).Some? && old(pim).None? && pim.None? && bytesRead == 0 && turn ==>
                LooksAnew(Search(old(input.cp), old(inext), old(iwait)), input.dir.files.Keys, outputSize,
                          Search(input.cp, inext, iwait))
      ensures !turn ==> inext == old(inext) && input.fn == old(input.fn) && input.cp.id == old(input.cp.id)
      ensures Left(input.State(), lI) <= old(Left(input.State(), lI))
      ensures bytesRead > 0 ==> Left(input.State(), lI) < old(Left(input.State(), lI))
      ensures turn && pim.None? ==> Left(input.State(), lI) < old(Left(input.State(), lI)) || i == lI.durable
    {
      hide Total, Bytes, Size, Flat, PosAfter, Project, Side, Disk, Left, Sure, InFile, LooksAnew;
      Readers(lI, nI, iStart, i, lA, nA, aStart, a);
      pim, inext, iwait, bytesRead, nI' := Fill(input, pim, names, outputSize, inext, iwait, turn, lI, nI, i);
    }

    /** ... and for the analysis queue. */
    method FillAnalysis(names: seq<string>, outputSize: nat, turn: bool,
                        ghost lI: Log, ghost nI: nat, ghost iStart: nat, ghost i: nat,
                        ghost lA: Log, ghost nA: nat, ghost aStart: nat, ghost a: nat)
      returns (bytesRead: nat, ghost nA': nat)
      requires Merged(lI, nI, iStart, i, lA, nA, aStart, a) && Steady(lI, lA, outputSize)
      requires D.Reads(readQueue, D.FromAnalysis)
      requires Ids(names) == analysis.dir.files.Keys
      modifies this`pam, this`anext, this`await, analysis, analysis.buf
      ensures Merged(lI, nI, iStart, i, lA, nA', aStart, a) && Steady(lI, lA, outputSize)
      ensures analysis.buf == old(analysis.buf) || fresh(analysis.buf)
      ensures old(pam).Some? ==> pam == old(pam)
      ensures old(analysis.fn).Some? && pam.None? && bytesRead == 0 ==> nA == InFile(lA, old(analysis.cp.id))
      ensures old(analysis.fn).Some? && old(pam).None? && pam.None? && bytesRead == 0 && turn ==>
                LooksAnew(Search(old(analysis.cp), old(anext), old(await)), analysis.dir.files.Keys, outputSize,
                          Search(analysis.cp, anext, await))
      ensures !turn ==> anext == old(anext) && analysis.fn == old(analysis.fn) && analysis.cp.id == old(analysis.cp.id)
      ensures Left(analysis.State(), lA) <= old(Left(analysis.State(), lA))
      ensures bytesRead > 0 ==> Left(analysis.State(), lA) < old(Left(analysis.State(), lA))
      ensures turn && pam.None? ==> Left(analysis.State(), lA) < old(Left(analysis.State(), lA)) || a == lA.durable
    {
      hide Total, Bytes, Size, Flat, PosAfter, Project, Side, Disk, Left, Sure, InFile, LooksAnew;
      Readers(lI, nI, iStart, i, lA, nA, aStart, a);
      pam, anext, await, bytesRead, nA' := Fill(analysis, pam, names, outputSize, anext, await, turn, lA, nA, a);
    }

    /** The heads of the loop, queue by queue. */
    method FillBoth(namesI: seq<string>, namesA: seq<string>, outputSize: nat, iturn: bool, aturn: bool,
                    ghost lI: Log, ghost nI: nat, ghost iStart: nat, ghost i: nat,
                    ghost lA: Log, ghost nA: nat, ghost aStart: nat, ghost a: nat)
      returns (bytesRead: nat, ghost nI': nat, ghost nA': nat)
      requires Merged(lI, nI, iStart, i, lA, nA, aStart, a) && Steady(lI, lA, outputSize)
      requires Ids(namesI) == input.dir.files.Keys && Ids(namesA) == analysis.dir.files.Keys
      modifies this`pim, this`pam, this`inext, this`anext, this`iwait, this`await
      modifies input, input.buf, analysis, analysis.buf
      ensures Merged(lI, nI', iStart, i, lA, nA', aStart, a) && Steady(lI, lA, outputSize)
      ensures input.buf == old(input.buf) || fresh(input.buf)
      ensures analysis.buf == old(analysis.buf) || fresh(analysis.buf)
      ensures old(pim).Some? ==> pim == old(pim)
      ensures old(pam).Some? ==> pam == old(pam)
      // a queue that is not read is left alone
      ensures !D.Reads(readQueue, D.FromInput) ==>
                pim == old(pim) && inext == old(inext) && iwait == old(iwait) && input.State() == old(input.State())
      ensures !D.Reads(readQueue, D.FromAnalysis) ==>
                && pam == old(pam) && anext == old(anext) && await == old(await)
                && analysis.State() == old(analysis.State())
      // one that is read yields a message, or bytes, or everything in the file has been delivered
      ensures D.Reads(readQueue, D.FromInput) && old(input.fn).Some? && pim.None? && bytesRead == 0 ==>
                nI == InFile(lI, old(input.cp.id))
      ensures D.Reads(readQueue, D.FromAnalysis) && old(analysis.fn).Some? && pam.None? && bytesRead == 0 ==>
                nA == InFile(lA, old(analysis.cp.id))
      // a directory is looked at only when that is due
      ensures !iturn ==> inext == old(inext) && input.fn == old(input.fn) && input.cp.id == old(input.cp.id)
      ensures !aturn ==> anext == old(anext) && analysis.fn == old(analysis.fn) && analysis.cp.id == old(analysis.cp.id)
      // with the looks at the directories due: a message, or there is less left to do, or nothing at all
      ensures Remaining(lI, i, lA, a) <= old(Remaining(lI, i, lA, a))
      ensures bytesRead > 0 ==> Remaining(lI, i, lA, a) < old(Remaining(lI, i, lA, a))
      ensures iturn && aturn && pim.None? && pam.None? ==>
                Remaining(lI, i, lA, a) < old(Remaining(lI, i, lA, a)) || AllDelivered(lI, i, lA, a)
    {
      hide Merged, Steady, Left, InFile;
      bytesRead, nI', nA' := 0, nI, nA;
      Readers(lI, nI, iStart, i, lA, nA, aStart, a);
      if !readQueue.AnalysisOnly? {
        var n: nat;
        n, nI' := FillInput(namesI, outputSize, iturn, lI, nI, iStart, i, lA, nA, aStart, a);
        bytesRead := bytesRead + n;
      }
      Readers(lI, nI', iStart, i, lA, nA, aStart, a);
      if !readQueue.InputOnly? {
        var n: nat;
        n, nA' := FillAnalysis(namesA, outputSize, aturn, lI, nI', iStart, i, lA, nA, aStart, a);
        bytesRead := bytesRead + n;
      }
      Readers(lI, nI', iStart, i, lA, nA', aStart, a);
    }

    /** The choice of the message to deliver, and the step of the read position over it. */
    method Choose(ghost lI: Log, ghost nI: nat, ghost iStart: nat, ghost i: nat,
                  ghost lA: Log, ghost nA: nat, ghost aStart: nat, ghost a: nat)
      returns (msg: Option<(D.Source, Payload)>, ghost i': nat, ghost a': nat)
      requires Merged(lI, nI, iStart, i, lA, nA, aStart, a)
      modifies this`pim, this`pam, this`delivered, plugin`cur
      ensures Merged(lI, nI, iStart, i', lA, nA, aStart, a')
      ensures delivered == if msg.Some? then old(delivered) + [msg.value] else old(delivered)
      // one held message goes, its queue's position moves up over it, the other queue's stays
      ensures match msg
              case None => old(pim).None? && old(pam).None? && plugin.cur == old(plugin.cur) && i' == i && a' == a
              case Some((FromInput, p)) =>
                && old(pim) == Some(p) && pim == None && pam == old(pam)
                && i' == i + 1 && a' == a
              case Some((FromAnalysis, p)) =>
                && old(pam) == Some(p) && pam == None && pim == old(pim)
                && a' == a + 1 && i' == i
      ensures msg.Some? ==>
                && plugin.State() == D.Take(old(plugin.State()), msg.value.0, D.At(plugin.cur, msg.value.0))
                && Before(D.At(old(plugin.cur), msg.value.0), D.At(plugin.cur, msg.value.0))
      // the oldest first, and the input queue's message if they are of the same age
      ensures old(pim).Some? && old(pam).Some? ==>
                msg.Some? && (msg.value.0.FromInput? <==> timestamp(old(pim).value) <= timestamp(old(pam).value))
    {
      hide Total, Bytes, Size, Flat, PosAfter, Project;
      msg, i', a' := None, i, a;
      if pim.Some? {
        if pam.Some? {
          if timestamp(pim.value) <= timestamp(pam.value) {
            msg := Some((D.FromInput, pim.value));
          } else {
            msg := Some((D.FromAnalysis, pam.value));
          }
        } else {
          msg := Some((D.FromInput, pim.value));
        }
      } else if pam.Some? {
        msg := Some((D.FromAnalysis, pam.value));
      }
      if msg.Some? {
        if msg.value.0.FromInput? {
          SideDelivers(input.State(), pim, lI, nI, iStart, i);
          pim := None;
          plugin.TakeMessage(D.FromInput, Checkpoint(input.cp.id, input.cp.offset - (input.readpos - input.scanpos)));
          i' := i + 1;
        } else {
          SideDelivers(analysis.State(), pam, lA, nA, aStart, a);
          pam := None;
          plugin.TakeMessage(D.FromAnalysis, Checkpoint(analysis.cp.id,
              analysis.cp.offset - (analysis.readpos - analysis.scanpos)));
          a' := a + 1;
        }
        ProjectSnoc(delivered, msg.value.0, msg.value.1);
        delivered := delivered + [msg.value];
      }
    }

    /** The plugin's fields belong to a session that keeps its invariant, between two messages or ended. */
    ghost predicate Synced()
      reads this`session, plugin, plugin.asyncCp
    {
      D.Inv(session) && D.Within(session) && session.d == plugin.State()
    }

    ghost predicate Between()
      reads this`session
    {
      !session.dead && !session.h.open
    }

    /** A message whose retries `stop` has ended. */
    ghost predicate Waiting()
      reads this`session
    {
      !session.dead && session.h.open && session.h.handed
    }

    /** The part of a turn behind the reading: the oldest message, or the timer if nothing has been read. */
    method Serve(t: TurnInput, bytesRead: nat,
                 ghost lI: Log, ghost nI: nat, ghost iStart: nat, ghost i: nat,
                 ghost lA: Log, ghost nA: nat, ghost aStart: nat, ghost a: nat)
      returns (stop: bool, fatal: bool, retrying: bool, ghost did: Done, ghost i': nat, ghost a': nat)
      requires Merged(lI, nI, iStart, i, lA, nA, aStart, a) && Synced() && Between()
      requires TurnOk(t, plugin.sequenceId, plugin.asyncCp.Length)
      modifies this`pim, this`pam, this`delivered, this`session
      modifies plugin`cp, plugin`cur, plugin`sequenceId, plugin`ackSequenceId, plugin`batching, plugin.asyncCp
      ensures Merged(lI, nI, iStart, i', lA, nA, aStart, a') && Synced()
      ensures !fatal ==> if retrying then Waiting() && stop else Between()
      ensures Did(old(session), old(delivered), session, delivered, did, t, plugin.asyncCp.Length,
                  stop, fatal, retrying)
      ensures (did.Idling? ==> bytesRead == 0) && (did.Reading? ==> bytesRead > 0)
      ensures if old(pim).Some? || old(pam).Some? then did.Delivering? && i' + a' == i + a + 1 && i <= i' && a <= a'
              else i' == i && a' == a
      ensures (i' > i ==> old(pim).Some?) && (a' > a ==> old(pam).Some?)
    {
      hide Merged, D.Inv, D.Within, S.AttemptOk, S.CanPlay, S.Play, S.SomeSettles, Fits, Did;
      var msg;
      msg, i', a' := Choose(lI, nI, iStart, i, lA, nA, aStart, a);
      if msg.Some? {
        stop, fatal, retrying, did := Deliver(t, msg.value.0, msg.value.1, old(delivered));
      } else if bytesRead == 0 {
        did := Idle(t);
        stop, fatal, retrying := t.stop, false, false;
      } else {
        did := Reading;
        stop, fatal, retrying := t.stop, false, false;
        OnlyRead(session, delivered, t, plugin.asyncCp.Length);
      }
    }

    /** One turn of the loop: read ahead, take the oldest message and deliver it with its retries, or look
        after the timer. */
    method Turn(t: TurnInput, namesI: seq<string>, namesA: seq<string>, outputSize: nat,
                ghost lI: Log, ghost nI: nat, ghost iStart: nat, ghost i: nat,
                ghost lA: Log, ghost nA: nat, ghost aStart: nat, ghost a: nat)
      returns (stop: bool, fatal: bool, retrying: bool, ghost did: Done,
               ghost nI': nat, ghost i': nat, ghost nA': nat, ghost a': nat)
      requires Merged(lI, nI, iStart, i, lA, nA, aStart, a) && Steady(lI, lA, outputSize) && Synced() && Between()
      requires Ids(namesI) == input.dir.files.Keys && Ids(namesA) == analysis.dir.files.Keys
      requires TurnOk(t, plugin.sequenceId, plugin.asyncCp.Length)
      modifies this`pim, this`pam, this`inext, this`anext, this`iwait, this`await, this`delivered, this`session
      modifies input, input.buf, analysis, analysis.buf
      modifies plugin`cp, plugin`cur, plugin`sequenceId, plugin`ackSequenceId, plugin`batching, plugin.asyncCp
      ensures Merged(lI, nI', iStart, i', lA, nA', aStart, a') && Steady(lI, lA, outputSize) && Synced()
      ensures !fatal ==> if retrying then Waiting() && stop else Between()
      ensures input.buf == old(input.buf) || fresh(input.buf)
      ensures analysis.buf == old(analysis.buf) || fresh(analysis.buf)
      ensures Did(old(session), old(delivered), session, delivered, did, t, plugin.asyncCp.Length,
                  stop, fatal, retrying)
      // the queues that are not read are left alone
      ensures !D.Reads(readQueue, D.FromInput) ==> input.State() == old(input.State())
      ensures !D.Reads(readQueue, D.FromAnalysis) ==> analysis.State() == old(analysis.State())
      // the turn gets on, or there is nothing left to do; without a message or bytes read it is the timer's
      ensures i <= i' && a <= a'
      ensures did.Reading? ==> Remaining(lI, i', lA, a') < old(Remaining(lI, i, lA, a))
      ensures t.iturn && t.aturn ==>
                Remaining(lI, i', lA, a') < old(Remaining(lI, i, lA, a)) || AllDelivered(lI, i', lA, a')
      ensures AllDelivered(lI, i, lA, a) ==> AllDelivered(lI, i', lA, a')
    {
      hide Merged, Steady, Synced, TurnOk, Left, Did;
      var bytesRead;
      Readers(lI, nI, iStart, i, lA, nA, aStart, a);
      bytesRead, nI', nA' := FillBoth(namesI, namesA, outputSize, t.iturn, t.aturn, lI, nI, iStart, i, lA, nA,
          aStart, a);
      Readers(lI, nI', iStart, i, lA, nA', aStart, a);
      stop, fatal, retrying, did, i', a' := Serve(t, bytesRead, lI, nI', iStart, i, lA, nA', aStart, a);
      Readers(lI, nI', iStart, i', lA, nA', aStart, a');
    }

    /** What the two writers have done since the last turn: the directories are those of queues that have gone
        on, and nothing of the merge is disturbed. */
    method WritersGoOn(files: QueueFiles, outputSize: nat,
                       ghost stepsI: seq<QueueLog.Step>, ghost stepsA: seq<QueueLog.Step>,
                       ghost lI: Log, ghost nI: nat, ghost iStart: nat, ghost i: nat,
                       ghost lA: Log, ghost nA: nat, ghost aStart: nat, ghost a: nat)
      returns (ghost mI: Log, ghost mA: Log)
      requires Merged(lI, nI, iStart, i, lA, nA, aStart, a) && Steady(lI, lA, outputSize) && Ok(lI) && Ok(lA)
      requires input.dir != analysis.dir
      requires WriterSteps(stepsI) && WriterSteps(stepsA)
      requires files.input == Disk(QueueLog.Run(lI, stepsI, outputSize))
      requires files.analysis == Disk(QueueLog.Run(lA, stepsA, outputSize))
      modifies input.dir, analysis.dir
      ensures mI == QueueLog.Run(lI, stepsI, outputSize) && mA == QueueLog.Run(lA, stepsA, outputSize)
      ensures Merged(mI, nI, iStart, i, mA, nA, aStart, a) && Steady(mI, mA, outputSize)
      ensures input.dir.files == files.input && analysis.dir.files == files.analysis
    {
      hide Total, Bytes, Size, Flat, PosAfter, Project, Side, Disk, QueueLog.Run, Sure;
      Readers(lI, nI, iStart, i, lA, nA, aStart, a);
      SureGoesOn(inext, input.State(), lI, stepsI, outputSize);
      SureGoesOn(anext, analysis.State(), lA, stepsA, outputSize);
      mI, mA := QueueLog.Run(lI, stepsI, outputSize), QueueLog.Run(lA, stepsA, outputSize);
      SideGoesOn(input.State(), pim, lI, nI, i, stepsI, outputSize);
      SideGoesOn(analysis.State(), pam, lA, nA, a, stepsA, outputSize);
      SamePart(Flat(lI.fs), Flat(mI.fs), iStart, i);
      SamePart(Flat(lA.fs), Flat(mA.fs), aStart, a);
      input.dir.files := files.input;
      analysis.dir.files := files.analysis;
    }

    /** What the writers have done since the last turn, and the turn. */
    method NextTurn(t: TurnInput, files: QueueFiles, outputSize: nat,
                    ghost stepsI: seq<QueueLog.Step>, ghost stepsA: seq<QueueLog.Step>,
                    ghost lI: Log, ghost nI: nat, ghost iStart: nat, ghost i: nat,
                    ghost lA: Log, ghost nA: nat, ghost aStart: nat, ghost a: nat)
      returns (stop: bool, fatal: bool, retrying: bool, ghost did: Done, ghost mI: Log, ghost mA: Log,
               ghost nI': nat, ghost i': nat, ghost nA': nat, ghost a': nat)
      requires Ok(lI) && Ok(lA) && Merged(lI, nI, iStart, i, lA, nA, aStart, a) && Synced() && Between()
      requires Steady(lI, lA, outputSize) && input.dir != analysis.dir
      requires Sees(files, QueueLog.Run(lI, stepsI, outputSize), QueueLog.Run(lA, stepsA, outputSize))
      requires WriterSteps(stepsI) && WriterSteps(stepsA)
      requires TurnOk(t, plugin.sequenceId, plugin.asyncCp.Length)
      modifies this`pim, this`pam, this`inext, this`anext, this`iwait, this`await, this`delivered, this`session
      modifies input, input.buf, input.dir, analysis, analysis.buf, analysis.dir
      modifies plugin`cp, plugin`cur, plugin`sequenceId, plugin`ackSequenceId, plugin`batching, plugin.asyncCp
      ensures mI == QueueLog.Run(lI, stepsI, outputSize) && mA == QueueLog.Run(lA, stepsA, outputSize)
      ensures Ok(mI) && Ok(mA) && input.Valid() && analysis.Valid()
      ensures Merged(mI, nI', iStart, i', mA, nA', aStart, a') && Steady(mI, mA, outputSize) && Synced()
      ensures !fatal ==> if retrying then Waiting() && stop else Between()
      ensures input.buf == old(input.buf) || fresh(input.buf)
      ensures analysis.buf == old(analysis.buf) || fresh(analysis.buf)
      ensures Did(old(session), old(delivered), session, delivered, did, t, plugin.asyncCp.Length,
                  stop, fatal, retrying)
      ensures !D.Reads(readQueue, D.FromInput) ==> input.State() == old(input.State())
      ensures !D.Reads(readQueue, D.FromAnalysis) ==> analysis.State() == old(analysis.State())
      ensures Quiet(t, stepsI, stepsA) ==>
                && mI == lI && mA == lA
                && (Remaining(lI, i', lA, a') < old(Remaining(lI, i, lA, a)) || AllDelivered(lI, i', lA, a'))
                && (AllDelivered(lI, i, lA, a) ==> AllDelivered(lI, i', lA, a'))
    {
      hide Merged, Steady, Synced, TurnOk, Disk, WriterSteps, Left, Did, AllDelivered, Fits, Between, Waiting;
      Readers(lI, nI, iStart, i, lA, nA, aStart, a);
      mI, mA := WritersGoOn(files, outputSize, stepsI, stepsA, lI, nI, iStart, i, lA, nA, aStart, a);
      stop, fatal, retrying, did, nI', i', nA', a' :=
        Turn(t, files.inputNames, files.analysisNames, outputSize, mI, nI, iStart, i, mA, nA, aStart, a);
      Readers(mI, nI', iStart, i', mA, nA', aStart, a');
    }

    /** The loop, with both writers going on between its turns and for as long as the sandbox keeps to its side, from
        any state between two turns. What it delivers is, queue by queue, the messages of the queue as it is by
        then, in order, from the queues that the plugin reads. The plugin's session goes on with what the turns
        say: one sequence number for every message delivered that matches. It ends only by `stop` or because the
        plugin has failed; and when nothing is added to the queues, enough turns deliver all that is in the files. */
    method Loop(turns: seq<TurnInput>, seen: seq<QueueFiles>, outputSize: nat,
                ghost stepsI: seq<seq<QueueLog.Step>>, ghost stepsA: seq<seq<QueueLog.Step>>,
                ghost lI: Log, ghost nI: nat, ghost iStart: nat, ghost i0: nat,
                ghost lA: Log, ghost nA: nat, ghost aStart: nat, ghost a0: nat)
      returns (k: nat, stop: bool, fatal: bool, retrying: bool, ghost dids: seq<Done>,
               ghost nI': nat, ghost i: nat, ghost nA': nat, ghost a: nat)
      requires Ok(lI) && Ok(lA) && Merged(lI, nI, iStart, i0, lA, nA, aStart, a0) && Synced() && Between()
      requires Steady(lI, lA, outputSize) && input.dir != analysis.dir
      requires |turns| == |seen| == |stepsI| == |stepsA|
      requires forall k :: 0 <= k < |turns| ==>
                 Sees(seen[k], After(lI, stepsI[..k + 1], outputSize), After(lA, stepsA[..k + 1], outputSize))
      requires forall k :: 0 <= k < |turns| ==> WriterSteps(stepsI[k]) && WriterSteps(stepsA[k])
      modifies this`pim, this`pam, this`inext, this`anext, this`iwait, this`await, this`delivered, this`session
      modifies input, input.buf, input.dir, analysis, analysis.buf, analysis.dir
      modifies plugin`cp, plugin`cur, plugin`sequenceId, plugin`ackSequenceId, plugin`batching, plugin.asyncCp
      ensures k <= |turns|
      ensures Merged(After(lI, stepsI[..k], outputSize), nI', iStart, i,
                     After(lA, stepsA[..k], outputSize), nA', aStart, a)
      ensures Steady(After(lI, stepsI[..k], outputSize), After(lA, stepsA[..k], outputSize), outputSize) && Synced()
      ensures !fatal ==> if retrying then Waiting() && stop else Between()
      // why it ended, and what it did
      ensures k < |turns| ==> stop || fatal || !TurnOk(turns[k], plugin.sequenceId, plugin.asyncCp.Length)
      ensures |dids| == k
      ensures DidAll(old(session), old(delivered), session, delivered, dids, turns, plugin.asyncCp.Length,
                     stop, fatal, retrying)
      ensures !D.Reads(readQueue, D.FromInput) ==> input.State() == old(input.State())
      ensures !D.Reads(readQueue, D.FromAnalysis) ==> analysis.State() == old(analysis.State())
      // that it gets on
      ensures (forall x :: 0 <= x < k ==> Quiet(turns[x], stepsI[x], stepsA[x])) ==>
                AllDelivered(lI, i, lA, a) || Remaining(lI, i, lA, a) + k <= old(Remaining(lI, i0, lA, a0))
    {
      hide Merged, Steady, Synced, TurnOk, After, Disk, QueueLog.Run, WriterSteps, Ok, Left, Did, DidAll, Remaining,
        AllDelivered, Quiet, Between, Waiting, Sees;
      nI', i, nA', a := nI, i0, nA, a0;
      k, stop, fatal, retrying, dids := 0, false, false, false, [];
      ghost var mI, mA := lI, lA;
      NothingAfter(lI, outputSize);
      NothingAfter(lA, outputSize);
      assert stepsI[..0] == [] && stepsA[..0] == [];
      NoTurns(session, delivered, turns, plugin.asyncCp.Length);
      Readers(lI, nI, iStart, i, lA, nA, aStart, a);
      while k < |turns| && !stop && !fatal && TurnOk(turns[k], plugin.sequenceId, plugin.asyncCp.Length)
        invariant 0 <= k <= |turns| && |dids| == k
        invariant Ok(mI) && Ok(mA) && input.Valid() && analysis.Valid()
        invariant mI == After(lI, stepsI[..k], outputSize) && mA == After(lA, stepsA[..k], outputSize)
        invariant Merged(mI, nI', iStart, i, mA, nA', aStart, a) && Steady(mI, mA, outputSize) && Synced()
        invariant !fatal ==> if retrying then Waiting() && stop else Between()
        invariant input.buf == old(input.buf) || fresh(input.buf)
        invariant analysis.buf == old(analysis.buf) || fresh(analysis.buf)
        invariant DidAll(old(session), old(delivered), session, delivered, dids, turns, plugin.asyncCp.Length,
                         stop, fatal, retrying)
        invariant !D.Reads(readQueue, D.FromInput) ==> input.State() == old(input.State())
        invariant !D.Reads(readQueue, D.FromAnalysis) ==> analysis.State() == old(analysis.State())
        invariant (forall x :: 0 <= x < k ==> Quiet(turns[x], stepsI[x], stepsA[x])) ==>
                    && mI == lI && mA == lA
                    && (AllDelivered(lI, i, lA, a) || Remaining(lI, i, lA, a) + k <= old(Remaining(lI, i0, lA, a0)))
      {
        AfterNext(lI, stepsI, k, outputSize);
        AfterNext(lA, stepsA, k, outputSize);
        ghost var was, before := session, delivered;
        ghost var did;
        stop, fatal, retrying, did, mI, mA, nI', i, nA', a :=
          NextTurn(turns[k], seen[k], outputSize, stepsI[k], stepsA[k], mI, nI', iStart, i, mA, nA', aStart, a);
        OneMoreTurn(old(session), old(delivered), was, before, session, delivered, dids, did, turns,
                    plugin.asyncCp.Length, stop, fatal, retrying);
        k, dids := k + 1, dids + [did];
      }
    }

    /** shutdown_timer_event: the sandbox may call back once more. */
    method ShutdownTimer(calls: seq<nat>)
      requires Synced() && !session.dead && (session.h.open ==> session.h.handed)
      requires S.CallsOk(calls, |session.h.entry|, plugin.asyncCp.Length)
      modifies this`session, plugin`cp, plugin`ackSequenceId, plugin`batching
      ensures Synced() && session.h.src == old(session.h.src) && session.h.entry == old(session.h.entry)
      ensures S.CanPlay(old(session), OutputPlugin.Calls(calls))
      ensures session == S.Play(old(session), OutputPlugin.Calls(calls))
    {
      hide D.Inv, D.Within, S.CanPlay, S.Play, OutputPlugin.Fold;
      S.InvRing(session);
      S.CallsPlay(session, calls);
      S.PlayKeeps(session, OutputPlugin.Calls(calls));
      S.PlayWithin(session, OutputPlugin.Calls(calls));
      plugin.RunCalls(calls);
      session := S.Play(session, OutputPlugin.Calls(calls));
    }

    /** The plugin's thread from its first turn to its exit: the loop, the last timer event, and the two positions
        stored in the table, or removed again if the plugin failed and is configured to forget them. What is
        stored stands for settled messages only. All that happens to the plugin is a session from its start: the
        messages delivered with their attempts, the idle timer events, and the last one. */
    method Thread(turns: seq<TurnInput>, seen: seq<QueueFiles>, outputSize: nat, calls: seq<nat>, rmCpTerminate: bool,
                  table: T.CheckpointReader, name: string, render: Checkpoint -> T.Entry,
                  ghost stepsI: seq<seq<QueueLog.Step>>, ghost stepsA: seq<seq<QueueLog.Step>>,
                  ghost lI: Log, ghost nI: nat, ghost iStart: nat, ghost lA: Log, ghost nA: nat, ghost aStart: nat)
      returns (k: nat, ended: bool, kept: bool, ghost dids: seq<Done>, ghost lastCalls: seq<nat>,
               ghost nI': nat, ghost i: nat, ghost nA': nat, ghost a: nat)
      requires Ok(lI) && Ok(lA) && Merged(lI, nI, iStart, iStart, lA, nA, aStart, aStart) && Synced() && Between()
      requires Steady(lI, lA, outputSize) && input.dir != analysis.dir
      requires delivered == [] && session == D.Begin(plugin.asyncCp.Length, plugin.cp)
      requires |turns| == |seen| == |stepsI| == |stepsA|
      requires forall k :: 0 <= k < |turns| ==>
                 Sees(seen[k], After(lI, stepsI[..k + 1], outputSize), After(lA, stepsA[..k + 1], outputSize))
      requires forall k :: 0 <= k < |turns| ==> WriterSteps(stepsI[k]) && WriterSteps(stepsA[k])
      requires forall cp: Checkpoint :: render(cp).Of(cp)
      modifies this`pim, this`pam, this`inext, this`anext, this`iwait, this`await, this`delivered, this`session
      modifies input, input.buf, input.dir, analysis, analysis.buf, analysis.dir, table
      modifies plugin`cp, plugin`cur, plugin`sequenceId, plugin`ackSequenceId, plugin`batching, plugin.asyncCp
      ensures k <= |turns|
      ensures Merged(After(lI, stepsI[..k], outputSize), nI', iStart, i,
                     After(lA, stepsA[..k], outputSize), nA', aStart, a)
      ensures Synced()
      // what was tried is what the turns say; the thread ends by `stop` or because the plugin has failed
      ensures |dids| == k && forall x :: 0 <= x < k ==> Fits(dids[x], turns[x], plugin.asyncCp.Length)
      ensures forall x :: 0 <= x < k - 1 ==>
                !StopOf(dids[x], turns[x], plugin.asyncCp.Length) && !FatalOf(dids[x], plugin.asyncCp.Length)
      ensures ended <==>
                && k > 0
                && (|| StopOf(dids[k - 1], turns[k - 1], plugin.asyncCp.Length)
                    || FatalOf(dids[k - 1], plugin.asyncCp.Length))
      ensures !ended && k < |turns| ==> !TurnOk(turns[k], plugin.sequenceId, plugin.asyncCp.Length)
      ensures delivered == AllMessages(dids)
      ensures session.h.entry == AllEntries(dids, 0) && |session.h.src| == |delivered|
      ensures lastCalls == if ended && !FatalOf(dids[k - 1], plugin.asyncCp.Length) &&
                              S.CallsOk(calls, |session.h.entry|, plugin.asyncCp.Length) then calls else []
      ensures var events := DoneEvents(dids, plugin.asyncCp.Length) + OutputPlugin.Calls(lastCalls);
              var begin := D.Begin(plugin.asyncCp.Length, old(plugin.cp));
              S.CanPlay(begin, events) && session == S.Play(begin, events)
      // ... and so the last state of a run
      ensures var events := DoneEvents(dids, plugin.asyncCp.Length) + OutputPlugin.Calls(lastCalls);
              exists states ::
                D.Run(plugin.asyncCp.Length, old(plugin.cp), states, events) && states[|events|] == session
      // enough turns deliver everything, if nothing is added
      ensures (forall x :: 0 <= x < k ==> Quiet(turns[x], stepsI[x], stepsA[x])) ==>
                AllDelivered(lI, i, lA, a) || k <= old(Remaining(lI, iStart, lA, aStart))
      // the two positions
      ensures D.Shaped(session) && plugin.cp == session.h.pos[session.h.covered]
      ensures forall j: nat :: j < session.h.covered ==> j in session.h.settled
      ensures var saved := T.Saved(old(table.values), name, readQueue,
                                   render(plugin.cp.input), render(plugin.cp.analysis));
              table.values == if !ended then old(table.values)
                              else if kept then saved
                              else T.Removed(saved, name, readQueue)
      ensures kept <==> !(ended && rmCpTerminate && !StopOf(dids[k - 1], turns[k - 1], plugin.asyncCp.Length))
    {
      hide Merged, Steady, Synced, TurnOk, After, Disk, WriterSteps, T.Saved, T.Removed, S.CanPlay, S.Play, Fits,
        StopOf, FatalOf, RetryingOf, Left, AllMessages, DoneEvents, AllEntries, OutputPlugin.Calls, D.Begin, D.Run,
        Quiet, Remaining, AllDelivered, Between, Waiting, D.Shaped, Sees;
      var stop, fatal, retrying;
      k, stop, fatal, retrying, dids, nI', i, nA', a :=
        Loop(turns, seen, outputSize, stepsI, stepsA, lI, nI, iStart, iStart, lA, nA, aStart, aStart);
      ghost var was, len := session, plugin.asyncCp.Length;
      ended, kept, lastCalls := stop || fatal, true, [];
      PlayNoCalls(session);
      Covering();
      if ended {
        kept, lastCalls := Exit(stop, fatal, retrying, calls, rmCpTerminate, table, name, render,
                                After(lI, stepsI[..k], outputSize), nI', iStart, i,
                                After(lA, stepsA[..k], outputSize), nA', aStart, a);
      }
      BeginsEmpty(len, old(plugin.cp));
      ghost var states := RunOfThread(len, old(plugin.cp), was, session, DoneEvents(dids, len), lastCalls);
    }

    /** What the thread does behind its loop. */
    method Exit(stop: bool, fatal: bool, retrying: bool, calls: seq<nat>, rmCpTerminate: bool,
                table: T.CheckpointReader, name: string, render: Checkpoint -> T.Entry,
                ghost lI: Log, ghost nI: nat, ghost iStart: nat, ghost i: nat,
                ghost lA: Log, ghost nA: nat, ghost aStart: nat, ghost a: nat)
      returns (kept: bool, ghost lastCalls: seq<nat>)
      requires Merged(lI, nI, iStart, i, lA, nA, aStart, a) && Synced()
      requires !fatal ==> if retrying then Waiting() else Between()
      requires forall cp: Checkpoint :: render(cp).Of(cp)
      modifies this`session, plugin`cp, plugin`ackSequenceId, plugin`batching, table
      ensures Merged(lI, nI, iStart, i, lA, nA, aStart, a) && Synced()
      ensures lastCalls == if !fatal && S.CallsOk(calls, |session.h.entry|, plugin.asyncCp.Length) then calls else []
      ensures S.CanPlay(old(session), OutputPlugin.Calls(lastCalls))
      ensures session == S.Play(old(session), OutputPlugin.Calls(lastCalls))
      ensures session.h.src == old(session.h.src) && session.h.entry == old(session.h.entry)
      ensures D.Shaped(session) && plugin.cp == session.h.pos[session.h.covered]
      ensures forall j: nat :: j < session.h.covered ==> j in session.h.settled
      ensures var saved := T.Saved(old(table.values), name, readQueue,
                                   render(plugin.cp.input), render(plugin.cp.analysis));
              table.values == if kept then saved else T.Removed(saved, name, readQueue)
      ensures kept <==> stop || !rmCpTerminate
    {
      hide Merged, Synced, T.Saved, T.Removed, S.CanPlay, S.Play, OutputPlugin.Calls;
      kept, lastCalls := true, [];
      PlayNoCalls(session);
      var handed := plugin.sequenceId + if retrying then 1 else 0;
      // a terminated sandbox does not run any more
      if !fatal {
        Entered();
        if S.CallsOk(calls, handed, plugin.asyncCp.Length) {
          lastCalls := calls;
          StillMerged(calls, lI, nI, iStart, i, lA, nA, aStart, a);
        }
      }
      Covering();
      table.SavePositions(name, readQueue, plugin.cp, render(plugin.cp.input), render(plugin.cp.analysis));
      if !stop && rmCpTerminate {
        table.RemoveCheckpointQ(name, readQueue);
        kept := false;
      }
    }

    /** The last timer event leaves the merge alone. */
    method StillMerged(calls: seq<nat>, ghost lI: Log, ghost nI: nat, ghost iStart: nat, ghost i: nat,
                       ghost lA: Log, ghost nA: nat, ghost aStart: nat, ghost a: nat)
      requires Merged(lI, nI, iStart, i, lA, nA, aStart, a)
      requires Synced() && !session.dead && (session.h.open ==> session.h.handed)
      requires S.CallsOk(calls, |session.h.entry|, plugin.asyncCp.Length)
      modifies this`session, plugin`cp, plugin`ackSequenceId, plugin`batching
      ensures Merged(lI, nI, iStart, i, lA, nA, aStart, a)
      ensures Synced() && session.h.src == old(session.h.src) && session.h.entry == old(session.h.entry)
      ensures S.CanPlay(old(session), OutputPlugin.Calls(calls))
      ensures session == S.Play(old(session), OutputPlugin.Calls(calls))
    {
      hide Total, Bytes, Size, Flat, PosAfter, Project, Side, Disk, D.Inv, S.CanPlay, S.Play;
      ShutdownTimer(calls);
    }

    lemma Entered()
      requires Synced() && !session.dead
      ensures |session.h.entry| == plugin.sequenceId + if session.h.handed then 1 else 0
      ensures session.h.handed ==> session.h.open
    {
    }

    lemma Covering()
      requires Synced()
      ensures D.Shaped(session) && plugin.cp == session.h.pos[session.h.covered]
      ensures forall j: nat :: j < session.h.covered ==> j in session.h.settled
    {
    }

    /** A plugin that has just been started at its two positions: both readers stand there, nothing is held. */
    lemma Starts(lI: Log, i: nat, lA: Log, a: nat, outputSize: nat) returns (nI: nat, nA: nat)
      requires input != analysis && input.buf != analysis.buf && input.Valid() && analysis.Valid()
      requires Ok(lI) && SizesFit(lI.fs) && i <= lI.durable && input.dir.files == Disk(lI)
      requires Ok(lA) && SizesFit(lA.fs) && a <= lA.durable && analysis.dir.files == Disk(lA)
      requires input.State() == Reader(None, PosAfter(lI.fs, i), []) && pim == None
      requires analysis.State() == Reader(None, PosAfter(lA.fs, a), []) && pam == None
      requires plugin.State() == D.Start(plugin.asyncCp.Length, D.Pair(PosAfter(lI.fs, i), PosAfter(lA.fs, a)))
      requires delivered == [] && session == D.Begin(plugin.asyncCp.Length, plugin.cp)
      ensures Merged(lI, nI, i, i, lA, nA, a, a) && Steady(lI, lA, outputSize) && Synced() && Between()
    {
      hide Total, Bytes, Size, Flat, PosAfter, Disk;
      nI := SideAtStart(lI, i);
      nA := SideAtStart(lA, a);
      D.BeginInv(plugin.asyncCp.Length, plugin.cp);
    }

    /** The part of a turn behind the choice: the message is handed over until the answer is not RETRY. */
    method Deliver(t: TurnInput, src: D.Source, p: Payload, ghost before: seq<(D.Source, Payload)>)
      returns (stop: bool, fatal: bool, retrying: bool, ghost did: Done)
      requires D.Inv(session) && D.Within(session) && Between()
      requires session.d.asyncLen == plugin.asyncCp.Length && session.d.sequenceId == plugin.sequenceId
      requires D.Enabled(session, D.Taking(src, D.At(plugin.cur, src)))
      requires plugin.State() == D.Take(session.d, src, D.At(plugin.cur, src))
      requires TurnOk(t, plugin.sequenceId, plugin.asyncCp.Length)
      requires delivered == before + [(src, p)]
      modifies this`session, plugin`cp, plugin`sequenceId, plugin`ackSequenceId, plugin`batching, plugin.asyncCp
      ensures Synced() && did.Delivering?
      ensures !fatal ==> if retrying then Waiting() && stop else Between()
      ensures Did(old(session), before, session, delivered, did, t, plugin.asyncCp.Length, stop, fatal, retrying)
    {
      hide D.Inv, D.Within, D.Enabled, S.CanPlay, S.Play, OutputPlugin.Fold, OutputPlugin.AllEvents, S.SomeSettles,
        S.AttemptOk;
      ghost var pos, len, s := D.At(plugin.cur, src), plugin.asyncCp.Length, session;
      S.InvRing(s);
      BetweenEntries(s);
      var ret, n;
      ret, n, stop := plugin.OutputWithRetry(t.attempts, t.stops, t.stop);
      did := Delivering(src, p, pos, t.attempts[..n]);
      Tried(s, did, len);
      session := S.Play(s, EventsOf(did, len));
      fatal, retrying := ret.Fatal?, ret.Retry?;
    }

    method Idle(t: TurnInput) returns (ghost did: Done)
      requires Synced() && Between()
      requires S.CallsOk(t.timer.calls, plugin.sequenceId, plugin.asyncCp.Length)
      modifies this`session, plugin`cp, plugin`ackSequenceId, plugin`batching
      ensures Synced() && Between() && did.Idling?
      ensures Did(old(session), delivered, session, delivered, did, t, plugin.asyncCp.Length, t.stop, false, false)
    {
      hide D.Inv, D.Within, S.CanPlay, S.Play, OutputPlugin.Fold;
      S.InvRing(session);
      did := Idling(if t.timerDue then t.timer.calls else []);
      ghost var events := OutputPlugin.Calls(did.calls);
      S.CallsPlay(session, did.calls);
      S.PlayKeeps(session, events);
      S.PlayWithin(session, events);
      plugin.OutputIdle(t.timerDue, t.timer);
      session := S.Play(session, events);
    }
  }

  lemma BetweenEntries(s: D.Session)
    requires D.Inv(s) && !s.dead && !s.h.open
    ensures !s.h.handed && |s.h.entry| == s.d.sequenceId
  {
  }

  /** What the attempts at a message that is taken make of a session. */
  lemma Tried(s: D.Session, did: Done, asyncLen: nat)
    requires D.Inv(s) && D.Within(s) && s.d.asyncLen == asyncLen && !s.h.handed && |s.h.entry| == s.d.sequenceId
    requires did.Delivering? && did.tries != [] && D.Enabled(s, D.Taking(did.src, did.pos))
    requires S.Retries(did.tries, asyncLen)
    requires forall k :: 0 <= k < |did.tries| ==>
               S.AttemptOk(did.tries[k], |s.h.entry| + (if did.tries[k].matched then 1 else 0), asyncLen)
    ensures S.CanPlay(s, EventsOf(did, asyncLen))
    ensures var t, d := S.Play(s, EventsOf(did, asyncLen)), D.Take(s.d, did.src, did.pos);
            var a := did.tries[|did.tries| - 1];
            && D.Inv(t) && D.Within(t) && |d.ring| == d.asyncLen
            && t.d == OutputPlugin.Fold(d, OutputPlugin.AllEvents(did.tries, asyncLen))
            && t.h.src == s.h.src + [did.src]
            && (t.dead <==> OutputPlugin.MessageEnds(a, asyncLen))
            && (!t.dead ==> t.h.open == t.h.handed == (a.matched && a.pm.ret.Retry?))
            && t.h.entry == s.h.entry + EntriesOf(did, |s.h.src|)
            && (|s.h.src| in t.h.settled <==> S.SomeSettles(did.tries, |s.h.entry| + 1, asyncLen))
  {
    hide D.Inv, D.Within, S.CanPlay, S.Play, OutputPlugin.Fold, OutputPlugin.AllEvents, S.SomeSettles, S.AttemptOk,
      OutputPlugin.MessageEnds;
    S.InvRing(s);
    var taken, events := Taking(s, did.src, did.pos), OutputPlugin.AllEvents(did.tries, asyncLen);
    S.InvRing(taken);
    NotSettledYet(s, did.src, did.pos);
    S.RetryLoopPlays(taken, did.tries);
    S.TriesSettle(taken, did.tries);
    S.EntriesGrow(taken, events);
    OneMoreEntry(taken, did.tries, S.Play(taken, events));
    S.PlayOne(s, D.Taking(did.src, did.pos));
    S.PlayConcat(s, [D.Taking(did.src, did.pos)], events);
    S.PlayKeeps(taken, events);
    S.PlayWithin(s, EventsOf(did, asyncLen));
  }

  lemma NotSettledYet(s: D.Session, src: D.Source, pos: Checkpoint)
    requires D.Inv(s) && D.Within(s) && D.Enabled(s, D.Taking(src, pos))
    ensures !S.LastSettled(Taking(s, src, pos))
  {
  }

  /** A matching message has got the next sequence number. */
  lemma OneMoreEntry(s: D.Session, tries: seq<OutputPlugin.Attempt>, t: D.Session)
    requires tries != [] && S.Retries(tries, s.d.asyncLen) && s.h.entry <= t.h.entry && s.h.src == t.h.src
    requires var a := tries[|tries| - 1];
             && |t.h.entry| == |s.h.entry| + (if a.matched then 1 else 0)
             && (a.matched ==> S.LastHanded(t))
    ensures t.h.entry == s.h.entry + if tries[0].matched then [|s.h.src| - 1] else []
  {
    assert tries[0].matched <==> tries[|tries| - 1].matched;
  }

  // ---- what a turn has done ----

  datatype Done =
    | Delivering(src: D.Source, p: Payload, pos: Checkpoint, tries: seq<OutputPlugin.Attempt>)
    | Idling(calls: seq<nat>)
    | Reading

  function MessagesOf(d: Done): seq<(D.Source, Payload)> {
    if d.Delivering? then [(d.src, d.p)] else []
  }

  function EventsOf(d: Done, asyncLen: nat): seq<D.Event> {
    match d
    case Delivering(src, _, pos, tries) => [D.Taking(src, pos)] + OutputPlugin.AllEvents(tries, asyncLen)
    case Idling(calls) => OutputPlugin.Calls(calls)
    case Reading => []
  }

  /** The message, if it has got a sequence number. */
  function EntriesOf(d: Done, message: nat): seq<nat> {
    if d.Delivering? && d.tries != [] && d.tries[0].matched then [message] else []
  }

  /** The message is tried as the turn's input has it, until an answer is not RETRY or `stop` is set. */
  predicate Fits(d: Done, t: TurnInput, asyncLen: nat) {
    match d
    case Delivering(_, _, _, tries) =>
      && tries != [] && tries <= t.attempts
      && (forall x :: 0 <= x < |tries| - 1 ==> Retried(tries[x], asyncLen))
      && (RetryingOf(d, asyncLen) ==> StopOf(d, t, asyncLen))
      && (|tries| > 1 ==> !t.stop && forall x :: 0 < x < |tries| - 1 && x < |t.stops| ==> !t.stops[x])
    case Idling(calls) => calls == if t.timerDue then t.timer.calls else []
    case Reading => true
  }

  /** The sandbox has failed: a fatal answer, an ASYNC without a ring, or a failing timer event. */
  predicate Failed(a: OutputPlugin.Attempt, asyncLen: nat) {
    || (a.matched && (a.pm.ret.Fatal? || (a.pm.ret.Async? && asyncLen == 0)))
    || (a.timerDue && a.timer.fatal)
  }

  predicate Retried(a: OutputPlugin.Attempt, asyncLen: nat) {
    a.matched && a.pm.ret.Retry? && !Failed(a, asyncLen)
  }

  predicate FatalOf(d: Done, asyncLen: nat) {
    d.Delivering? && d.tries != [] && Failed(d.tries[|d.tries| - 1], asyncLen)
  }

  predicate RetryingOf(d: Done, asyncLen: nat) {
    d.Delivering? && d.tries != [] && Retried(d.tries[|d.tries| - 1], asyncLen)
  }

  /** What the thread has read from `stop` last: at the head of the turn or after another RETRY. */
  predicate StopOf(d: Done, t: TurnInput, asyncLen: nat) {
    if RetryingOf(d, asyncLen) && 1 < |d.tries| <= |t.stops| then t.stops[|d.tries| - 1] else t.stop
  }

  /** What a turn has made of the plugin's session and of the messages delivered is what its input says: the events of
      the session; for a matching message a sequence number, one more than the last; and the message is settled only
      by its attempts. */
  ghost predicate Did(was: D.Session, before: seq<(D.Source, Payload)>, session: D.Session,
                      delivered: seq<(D.Source, Payload)>, did: Done, t: TurnInput, asyncLen: nat,
                      stop: bool, fatal: bool, retrying: bool) {
    && Fits(did, t, asyncLen)
    && stop == StopOf(did, t, asyncLen) && fatal == FatalOf(did, asyncLen) && retrying == RetryingOf(did, asyncLen)
    && delivered == before + MessagesOf(did)
    && S.CanPlay(was, EventsOf(did, asyncLen)) && session == S.Play(was, EventsOf(did, asyncLen))
    && |session.h.src| == |was.h.src| + |MessagesOf(did)|
    && session.h.entry == was.h.entry + EntriesOf(did, |was.h.src|)
    && (did.Delivering? ==>
          (|was.h.src| in session.h.settled <==> S.SomeSettles(did.tries, |was.h.entry| + 1, asyncLen)))
  }

  function AllMessages(dids: seq<Done>): seq<(D.Source, Payload)> {
    if dids == [] then [] else AllMessages(dids[..|dids| - 1]) + MessagesOf(dids[|dids| - 1])
  }

  function DoneEvents(dids: seq<Done>, asyncLen: nat): seq<D.Event> {
    if dids == [] then [] else DoneEvents(dids[..|dids| - 1], asyncLen) + EventsOf(dids[|dids| - 1], asyncLen)
  }

  /** The messages delivered that matched, counted from `first` on. */
  function AllEntries(dids: seq<Done>, first: nat): seq<nat> {
    if dids == [] then []
    else
      var most := dids[..|dids| - 1];
      AllEntries(most, first) + EntriesOf(dids[|dids| - 1], first + |AllMessages(most)|)
  }

  lemma BeginsEmpty(asyncLen: nat, start: D.Pair)
    ensures var s := D.Begin(asyncLen, start); s.h.src == [] && s.h.entry == []
  {
  }

  lemma PlayNoCalls(s: D.Session)
    ensures S.CanPlay(s, OutputPlugin.Calls([])) && S.Play(s, OutputPlugin.Calls([])) == s
  {
    S.PlayNothing(s);
  }

  /** The turns and the last timer event are a run. */
  lemma RunOfThread(asyncLen: nat, start: D.Pair, was: D.Session, s: D.Session, events: seq<D.Event>, calls: seq<nat>)
    returns (states: seq<D.Session>)
    requires var begin := D.Begin(asyncLen, start); S.CanPlay(begin, events) && was == S.Play(begin, events)
    requires S.CanPlay(was, OutputPlugin.Calls(calls)) && s == S.Play(was, OutputPlugin.Calls(calls))
    ensures var all := events + OutputPlugin.Calls(calls);
            && S.CanPlay(D.Begin(asyncLen, start), all) && s == S.Play(D.Begin(asyncLen, start), all)
            && D.Run(asyncLen, start, states, all) && states[|all|] == s
  {
    hide S.CanPlay, S.Play, D.Begin, OutputPlugin.Calls;
    S.PlayConcat(D.Begin(asyncLen, start), events, OutputPlugin.Calls(calls));
    states := S.PlayIsRun(asyncLen, start, events + OutputPlugin.Calls(calls));
  }

  lemma NothingDone(asyncLen: nat, first: nat)
    ensures AllMessages([]) == [] && DoneEvents([], asyncLen) == [] && AllEntries([], first) == []
  {
  }

  lemma DoneNext(dids: seq<Done>, d: Done, asyncLen: nat, first: nat)
    ensures AllMessages(dids + [d]) == AllMessages(dids) + MessagesOf(d)
    ensures DoneEvents(dids + [d], asyncLen) == DoneEvents(dids, asyncLen) + EventsOf(d, asyncLen)
    ensures AllEntries(dids + [d], first) == AllEntries(dids, first) + EntriesOf(d, first + |AllMessages(dids)|)
  {
    hide EventsOf, MessagesOf, EntriesOf;
    assert (dids + [d])[..|dids|] == dids && (dids + [d])[|dids|] == d;
  }

  lemma OnlyRead(s: D.Session, delivered: seq<(D.Source, Payload)>, t: TurnInput, asyncLen: nat)
    ensures Did(s, delivered, s, delivered, Reading, t, asyncLen, t.stop, false, false)
  {
    S.PlayNothing(s);
  }

  /** The same of several turns, of which only the last may have been told to stop or failed. */
  ghost predicate DidAll(was: D.Session, before: seq<(D.Source, Payload)>, session: D.Session,
                         delivered: seq<(D.Source, Payload)>, dids: seq<Done>, turns: seq<TurnInput>, asyncLen: nat,
                         stop: bool, fatal: bool, retrying: bool) {
    var k := |dids|;
    && k <= |turns|
    && (forall x :: 0 <= x < k ==> Fits(dids[x], turns[x], asyncLen))
    && (forall x :: 0 <= x < k - 1 ==> !StopOf(dids[x], turns[x], asyncLen) && !FatalOf(dids[x], asyncLen))
    && stop == (k > 0 && StopOf(dids[k - 1], turns[k - 1], asyncLen))
    && fatal == (k > 0 && FatalOf(dids[k - 1], asyncLen))
    && retrying == (k > 0 && RetryingOf(dids[k - 1], asyncLen))
    && delivered == before + AllMessages(dids)
    && S.CanPlay(was, DoneEvents(dids, asyncLen)) && session == S.Play(was, DoneEvents(dids, asyncLen))
    && |session.h.src| == |was.h.src| + |AllMessages(dids)|
    && session.h.entry == was.h.entry + AllEntries(dids, |was.h.src|)
  }

  lemma NoTurns(was: D.Session, before: seq<(D.Source, Payload)>, turns: seq<TurnInput>, asyncLen: nat)
    ensures DidAll(was, before, was, before, [], turns, asyncLen, false, false, false)
  {
    S.PlayNothing(was);
    NothingDone(asyncLen, |was.h.src|);
    assert before + [] == before;
    assert was.h.entry + [] == was.h.entry;
  }

  lemma OneMoreTurn(was: D.Session, before: seq<(D.Source, Payload)>, s: D.Session, d: seq<(D.Source, Payload)>,
                    s': D.Session, d': seq<(D.Source, Payload)>, dids: seq<Done>, did: Done, turns: seq<TurnInput>,
                    asyncLen: nat, stop: bool, fatal: bool, retrying: bool)
    requires |dids| < |turns| && DidAll(was, before, s, d, dids, turns, asyncLen, false, false, false)
    requires Did(s, d, s', d', did, turns[|dids|], asyncLen, stop, fatal, retrying)
    ensures DidAll(was, before, s', d', dids + [did], turns, asyncLen, stop, fatal, retrying)
  {
    hide Fits, StopOf, FatalOf, RetryingOf, S.CanPlay, S.Play, S.SomeSettles, AllMessages, DoneEvents, AllEntries,
      EventsOf, EntriesOf, MessagesOf;
    DoneNext(dids, did, asyncLen, |was.h.src|);
    S.PlayConcat(was, DoneEvents(dids, asyncLen), EventsOf(did, asyncLen));
    ConcatAssoc(before, AllMessages(dids), MessagesOf(did));
    ConcatAssoc(was.h.entry, AllEntries(dids, |was.h.src|), EntriesOf(did, |s.h.src|));
  }

  /** A turn in which both looks at the directories are due and no writer has done anything before it. */
  ghost predicate Quiet(t: TurnInput, stepsI: seq<QueueLog.Step>, stepsA: seq<QueueLog.Step>) {
    t.iturn && t.aturn && stepsI == [] && stepsA == []
  }

  lemma SideAtStart(l: Log, i: nat) returns (n: nat)
    requires Ok(l) && SizesFit(l.fs) && i <= l.durable
    ensures Side(Reader(None, PosAfter(l.fs, i), []), None, l, n, i)
    ensures i <= Total(l.fs)
  {
    hide Bytes, Size, Flat, PosAfter, Total, SizesFit;
    n := ResumeFollows(l, i);
  }

  lemma SamePart<T>(a: seq<T>, b: seq<T>, start: nat, end: nat)
    requires a <= b && start <= end <= |a|
    ensures b[start..end] == a[start..end]
  {
  }

  /** The two queue directories as a turn sees them, and the names in them as readdir lists them. */
  datatype QueueFiles = QueueFiles(input: Contents, inputNames: seq<string>,
                                   analysis: Contents, analysisNames: seq<string>)

  ghost predicate Sees(f: QueueFiles, lI: Log, lA: Log) {
    && Ok(lI) && f.input == Disk(lI) && Ids(f.inputNames) == f.input.Keys
    && Ok(lA) && f.analysis == Disk(lA) && Ids(f.analysisNames) == f.analysis.Keys
  }

  /** A queue after several turns' worth of steps. */
  ghost function After(l: Log, steps: seq<seq<QueueLog.Step>>, outputSize: nat): (r: Log)
    requires Ok(l)
    ensures Ok(r)
    decreases |steps|
  {
    if steps == [] then l
    else QueueLog.Run(After(l, steps[..|steps| - 1], outputSize), steps[|steps| - 1], outputSize)
  }

  lemma NothingAfter(l: Log, outputSize: nat)
    requires Ok(l)
    ensures After(l, [], outputSize) == l
  {
  }

  lemma AfterNext(l: Log, steps: seq<seq<QueueLog.Step>>, k: nat, outputSize: nat)
    requires Ok(l) && k < |steps|
    ensures After(l, steps[..k + 1], outputSize) == QueueLog.Run(After(l, steps[..k], outputSize), steps[k], outputSize)
  {
    assert steps[..k + 1][..k] == steps[..k];
  }

  /** What the outside does in one turn: the clock, the sandbox's behaviour for the message that will be
      delivered and for the timer, and `stop`. */
  datatype TurnInput = TurnInput(iturn: bool, aturn: bool, attempts: seq<OutputPlugin.Attempt>, stops: seq<bool>,
                                 stop: bool,
                                 timerDue: bool, timer: OutputPlugin.TimerEvent)

  /** The sandbox keeps to its side, a message keeps matching or not matching while it is retried, and only
      `stop` ends the attempts at it. */
  predicate TurnOk(t: TurnInput, sequenceId: nat, asyncLen: nat) {
    && 0 < |t.attempts| == |t.stops|
    && (forall k :: 0 < k < |t.attempts| ==> t.attempts[k].matched)
    && (OutputPlugin.Outcome(t.attempts[|t.attempts| - 1], asyncLen) == D.Retry ==>
          if |t.attempts| == 1 then t.stop else t.stops[|t.attempts| - 1])
    && (forall k :: 0 <= k < |t.attempts| ==>
          S.AttemptOk(t.attempts[k], sequenceId + (if t.attempts[k].matched then 1 else 0), asyncLen))
    && S.CallsOk(t.timer.calls, sequenceId, asyncLen)
  }

  ghost function Taking(s: D.Session, src: D.Source, pos: Checkpoint): (t: D.Session)
    requires D.Inv(s) && D.Enabled(s, D.Taking(src, pos))
    ensures D.Inv(t) && t.h.open && !t.h.handed && !t.dead
    ensures t.h.src == s.h.src + [src] && t.h.entry == s.h.entry && t.d == D.Take(s.d, src, pos)
    ensures |t.h.entry| == s.d.sequenceId
    ensures t == D.Next(s, D.Taking(src, pos))
  {
    D.InvKept(s, D.Taking(src, pos));
    D.Next(s, D.Taking(src, pos))
  }

  /** What delivering the held message does to one side. */
  lemma SideDelivers(r: Reader, held: Option<Payload>, l: Log, n: nat, start: nat, done: nat)
    requires Side(r, held, l, n, done) && held.Some?
    requires start <= done <= Total(l.fs)
    ensures Side(r, None, l, n, done + 1)
    ensures done + 1 <= Total(l.fs)
    ensures Flat(l.fs)[start..done + 1] == Flat(l.fs)[start..done] + [held.value]
    ensures |r.window| <= r.cp.offset && Recorded(r) == PosAfter(l.fs, done + 1)
    ensures Before(PosAfter(l.fs, done), PosAfter(l.fs, done + 1))
  {
    hide Total, Bytes, Size, Flat, PosAfter, Following;
    HeldIsNext(r, held, l, n, done);
    NextElement(Flat(l.fs), start, done);
    PosOrder(l.fs, done, done + 1);
  }
}
