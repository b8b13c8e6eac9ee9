/** The analysis thread's reader loop, in the CLI build: once injection has ended and the thread has
    been told to stop, it drains the input queue and ends. */
module Analysis {
  import opened Options
  import opened Framing
  import opened Queue
  import opened QueueLog
  import opened Reader
  import opened Directory
  import opened Input
  import opened Writer

  class AnalysisThread {
    const input: HsInput
    const outputSize: nat
    var stop: bool
    var cp: Checkpoint
    // the messages handed to analyze_message, in order
    ghost var analyzed: seq<Payload>

    constructor (input: HsInput, outputSize: nat)
      requires input.Valid()
      ensures this.input == input && this.outputSize == outputSize
      ensures !stop && cp == input.cp && analyzed == []
    {
      this.input := input;
      this.outputSize := outputSize;
      stop := false;
      cp := input.cp;
      analyzed := [];
    }

    /** The thread has handled the messages from `start` up to its reader's position, and its checkpoint is
        the one behind the last message handled. */
    ghost predicate Reading(l: Log, start: nat, n: nat)
      reads this, input, input.buf, input.dir
    {
      && input.Valid()
      && Ok(l) && SizesFit(l.fs) && Rolled(l, outputSize)
      && input.dir.files == Disk(l)
      // waiting for the first file is the same position with the file not yet open
      && Following(input.State().(file := Some(input.cp.id)), l, n)
      && (input.fn == None || input.fn == Some(input.cp.id))
      && (input.fn == None ==> input.State().window == [])
      && start <= Index(input.State(), l, n) <= l.durable <= Total(l.fs)
      && analyzed == Flat(l.fs)[start..Index(input.State(), l, n)]
      && cp == PosAfter(l.fs, Index(input.State(), l, n))
    }

    /** ... and everything injected is in the files. */
    ghost predicate Draining(l: Log, start: nat, n: nat)
      reads this, input, input.buf, input.dir
    {
      Reading(l, start, n) && l.durable == Total(l.fs)
    }

    /** One turn of the loop. `n'` counts the messages handled from the file the reader is in then. */
    method Turn(ghost l: Log, ghost start: nat, ghost n: nat) returns (inputStop: bool, ghost n': nat)
      requires Draining(l, start, n) && stop
      modifies this`cp, this`analyzed, input, input.buf
      ensures Draining(l, start, n') && stop
      ensures input.buf == old(input.buf) || fresh(input.buf)
      ensures Progress(old(input.State()), input.State(), Disk(l)) || (inputStop && input.State() == old(input.State()))
      ensures inputStop ==> Index(input.State(), l, n') == Total(l.fs)
    {
      hide Total, Bytes, Size, Flat, SizesFit, Rolled, Disk;
      inputStop, n' := false, n;
      if input.fn.Some? {
        ScanKeeps(input.State(), l, n);
        var msg := input.FindMessage();
        if msg.Some? {
          n' := n + 1;
          Handle(msg.value, l, start, n);
        } else {
          inputStop, n' := ReadOn(l, start, n);
        }
      } else {
        var next := input.OpenFile(input.cp.id);
        FileExists(l, input.cp.id);
        if !next && stop {
          inputStop := true;
        }
      }
    }

    /** The branch without a message in the buffer: read on, and at the end of a full file go on to the
        next one. */
    method ReadOn(ghost l: Log, ghost start: nat, ghost n: nat) returns (inputStop: bool, ghost n': nat)
      requires Draining(l, start, n) && stop && input.fn.Some?
      requires Taken(input.State()).None? && !ScanFrame(input.State().window).Corrupt?
      requires ScanFrame(input.State().window).NeedHeader? ==> |input.State().window| < HEADER_BUFFER
      requires input.msglen == match ScanFrame(input.State().window) case NeedBody(m) => m case _ => 0
      modifies input, input.buf
      ensures Draining(l, start, n') && stop
      ensures input.buf == old(input.buf) || fresh(input.buf)
      ensures Progress(old(input.State()), input.State(), Disk(l)) || (inputStop && input.State() == old(input.State()))
      ensures inputStop ==> Index(input.State(), l, n') == Total(l.fs)
    {
      hide Total, Bytes, Size, Flat, SizesFit, Rolled, Disk, Following, PosAfter, ScanFrame;
      inputStop, n' := false, n;
      var limit: nat :| limit > 0;
      var bytesRead := input.ReadFile(limit);
      ReadKeeps(old(input.State()), l, n, bytesRead);
      FollowingBounds(input.State(), l, n);
      if bytesRead == 0 {
        AtEnd(l, start, n);
        FileExists(l, input.cp.id + 1);
        var next := false;
        if input.cp.offset >= outputSize {
          next := input.OpenFile(input.cp.id + 1);
          if next {
            n' := 0;
          }
        }
        if !next && stop {
          inputStop := true;
        }
      }
    }

    /** analyze_message, and the advance of the thread's checkpoint behind it. */
    method Handle(msg: Payload, ghost l: Log, ghost start: nat, ghost n: nat)
      requires input.Valid()
      requires Ok(l) && SizesFit(l.fs) && l.durable == Total(l.fs) && Rolled(l, outputSize)
      requires input.dir.files == Disk(l)
      requires Following(input.State(), l, n + 1) && msg == l.fs[input.cp.id][n]
      requires start <= Index(input.State(), l, n) <= l.durable
      requires analyzed == Flat(l.fs)[start..Index(input.State(), l, n)]
      modifies this`cp, this`analyzed
      ensures Draining(l, start, n + 1)
    {
      hide Total, Bytes, Size, Flat, SizesFit, Rolled, Disk, Following, PosAfter;
      FollowingBounds(input.State(), l, n + 1);
      RecordedIsPosition(input.State(), l, n + 1);
      FoundAfter(l, input.cp.id, n, start);
      analyzed := analyzed + [msg];
      cp := Checkpoint(input.cp.id, input.cp.offset - (input.readpos - input.scanpos));
    }

    /** After a read that returned nothing every message of the file has been handled; a next file
        exists exactly if there is more to handle, and then this file has reached `output_size`. */
    lemma AtEnd(l: Log, start: nat, n: nat)
      requires Draining(l, start, n) && input.fn.Some?
      requires Taken(input.State()).None? && Unread(input.State(), Disk(l)) == 0
      ensures input.cp.id + 1 < |l.fs| ==>
                && input.cp.offset >= outputSize
                && Following(Open(input.State(), input.cp.id + 1), l, 0)
                && Index(Open(input.State(), input.cp.id + 1), l, 0) == Index(input.State(), l, n)
      ensures input.cp.id + 1 == |l.fs| ==> Index(input.State(), l, n) == Total(l.fs)
    {
      hide Total, Bytes, Size, Flat, SizesFit;
      var k := input.cp.id;
      EndOfFile(input.State(), l, n);
      if k + 1 < |l.fs| {
        SwitchKeeps(input.State(), l, n);
        assert Size(l.fs[k]) >= outputSize;
        ClosedFileComplete(l, k);
      } else {
        LastIndex(l, k, n);
      }
    }

    /** The loop of the CLI build from the moment `stop` is set. It ends: each turn moves to a later
        file, reads bytes, takes a message out of the buffer, or raises `input_stop`. On exit every
        message of the queue has been handled. */
    method Drain(ghost l: Log, ghost start: nat, ghost n0: nat)
      requires Draining(l, start, n0) && stop
      modifies this`cp, this`analyzed, input, input.buf
      ensures analyzed == Flat(l.fs)[start..]
      ensures cp == PosAfter(l.fs, Total(l.fs))
    {
      hide Total, Bytes, Size, SizesFit, Rolled, Disk;
      ghost var n := n0;
      var stopSeen, inputStop := false, false;
      while !(stopSeen && inputStop)
        invariant Draining(l, start, n) && stop
        invariant input.buf == old(input.buf) || fresh(input.buf)
        invariant inputStop ==> stopSeen && Index(input.State(), l, n) == Total(l.fs)
        decreases if input.fn.None? then 1 else 0, |l.fs| - input.cp.id, Unread(input.State(), Disk(l)),
                  |input.State().window|, if inputStop then 0 else 1
      {
        stopSeen := stop;
        inputStop, n := Turn(l, start, n);
      }
    }
  }

  /** The CLI build's shutdown, as far as the analysis threads: the input plugins have stopped, a sweep
      flushes what they injected, then the thread is told to stop and is waited for. Whatever had been
      injected since `start` has then been handled, in order. */
  method CliShutdown(queue: HsOutput, thread: AnalysisThread, ghost start: nat, ghost n: nat)
    requires queue.Valid() && queue.dir == thread.input.dir
    requires thread.Reading(queue.log, start, n)
    modifies queue`pending, queue`log, queue.dir, thread`stop, thread`cp, thread`analyzed, thread.input,
        thread.input.buf
    ensures queue.Valid() && queue.log.fs == old(queue.log.fs) && queue.pending == []
    ensures thread.analyzed == Flat(queue.log.fs)[start..]
    ensures thread.cp == PosAfter(queue.log.fs, Total(queue.log.fs))
  {
    hide Total, Bytes, Size, Flat, SizesFit, Disk, Following, PosAfter;
    ghost var l := queue.log;
    ghost var r := thread.input.State().(file := Some(thread.input.cp.id));
    AllMoved(l);
    WriterKeeps(r, l, n, Spill(Total(l.fs)), thread.outputSize);
    queue.Flush(Total(l.fs), |queue.pending|);
    thread.stop := true;
    thread.Drain(queue.log, start, n);
  }

  lemma AllMoved(l: Log)
    requires Ok(l)
    ensures Moved(l, Total(l.fs)) == Unwritten(l)
  {
    var n := InFile(l, |l.fs| - 1);
    assert Last(l.fs)[n..|Last(l.fs)|] == Last(l.fs)[n..];
  }

  /** The reader is further on. */
  ghost predicate Progress(r: Reader, r': Reader, files: Contents) {
    if r.file.None? || r'.file.None? then r.file.None? && r'.file.Some?
    else if r.cp.id != r'.cp.id then r.cp.id < r'.cp.id
    else if Unread(r, files) != Unread(r', files) then Unread(r', files) < Unread(r, files)
    else |r'.window| < |r.window|
  }

  lemma FoundAfter(l: Log, k: nat, n: nat, start: nat)
    requires Ok(l) && k < |l.fs| && n < |l.fs[k]|
    requires start <= Total(l.fs[..k]) + n
    ensures Total(l.fs[..k]) + n + 1 <= Total(l.fs)
    ensures Flat(l.fs)[start..Total(l.fs[..k]) + n + 1] == Flat(l.fs)[start..Total(l.fs[..k]) + n] + [l.fs[k][n]]
  {
    hide Total, Bytes, Size, Flat;
    NextInFlat(l.fs, k, n);
    NextElement(Flat(l.fs), start, Total(l.fs[..k]) + n);
  }

  lemma LastIndex(l: Log, k: nat, n: nat)
    requires Ok(l) && l.durable == Total(l.fs)
    requires k == |l.fs| - 1 && n == InFile(l, k)
    ensures Total(l.fs[..k]) + n == Total(l.fs)
  {
  }
}
