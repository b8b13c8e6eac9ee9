/** A reader following a queue while the writer extends it: what hs_open_file, hs_read_file and the
    scan of the buffer do to the read position, and why the position recorded after each message is
    always the frame boundary behind exactly the messages found so far. */
module Reader {
  import opened Options
  import opened Framing
  import opened Queue
  import opened QueueLog

  /** `file` is the open file (`fn`), `cp` the read position, `window` the bytes buf[scanpos..readpos]. */
  datatype Reader = Reader(file: Option<nat>, cp: Checkpoint, window: seq<Byte>)

  /** Bytes of the open file that have not been read yet. */
  function Unread(r: Reader, files: map<nat, seq<Byte>>): nat {
    if r.file.Some? && r.file.value in files && r.cp.offset <= |files[r.file.value]|
    then |files[r.file.value]| - r.cp.offset
    else 0
  }

  /** fread of `count` bytes. */
  function Read(r: Reader, files: map<nat, seq<Byte>>, count: nat): Reader
    requires count <= Unread(r, files)
  {
    if count == 0 then r
    else
      var chunk := files[r.file.value][r.cp.offset..r.cp.offset + count];
      r.(cp := r.cp.(offset := r.cp.offset + count), window := r.window + chunk)
  }

  /** hs_open_file succeeds if the file is already open or exists. */
  predicate CanOpen(r: Reader, files: map<nat, seq<Byte>>, id: nat) {
    r.file == Some(id) || id in files
  }

  /** Nothing happens if the file is open already; the offset starts over only when the file changes;
      the buffer is left alone. */
  function Open(r: Reader, id: nat): Reader {
    if r.file == Some(id) then r
    else r.(file := Some(id), cp := if r.cp.id == id then r.cp else Checkpoint(id, 0))
  }

  /** `cp.offset - (readpos - scanpos)`. */
  function Recorded(r: Reader): Checkpoint
    requires |r.window| <= r.cp.offset
  {
    Checkpoint(r.cp.id, r.cp.offset - |r.window|)
  }

  /** What the scan makes of the buffer: the message taken, and the buffer behind it. */
  function Taken(r: Reader): (m: Option<Payload>)
  {
    match ScanFrame(r.window)
    case Found(p, _) => Some(p)
    case _ => None
  }

  function AfterTake(r: Reader): Reader {
    match ScanFrame(r.window)
    case Found(_, n) => r.(window := r.window[n..])
    case _ => r
  }

  // ---- following a queue ----

  ghost predicate SizesFit(fs: Files) {
    forall k, n :: 0 <= k < |fs| && 0 <= n < |fs[k]| ==> SizeT(|fs[k][n]|)
  }

  /** The reader has taken the first `n` messages of its file; the buffer holds the bytes from there
      up to the read position, which is within what has been flushed. */
  ghost predicate Following(r: Reader, l: Log, n: nat) {
    && Ok(l)
    && r.cp.id < |l.fs|
    && r.file == Some(r.cp.id)
    && n <= InFile(l, r.cp.id)
    && Size(l.fs[r.cp.id][..n]) + |r.window| == r.cp.offset
    && r.window <= Bytes(l.fs[r.cp.id][n..InFile(l, r.cp.id)])
  }

  lemma FollowingBounds(r: Reader, l: Log, n: nat)
    requires Following(r, l, n)
    ensures Ok(l) && r.cp.id < |l.fs| && n <= |l.fs[r.cp.id]|
    ensures |r.window| <= r.cp.offset && r.file == Some(r.cp.id)
  {
  }

  /** How many messages of the whole queue that is. */
  function Index(r: Reader, l: Log, n: nat): nat
    requires r.cp.id < |l.fs|
  {
    Total(l.fs[..r.cp.id]) + n
  }

  /** The buffered bytes are all from flushed messages. */
  lemma WindowFits(r: Reader, l: Log, n: nat)
    requires Following(r, l, n)
    ensures Bytes(l.fs[r.cp.id][..InFile(l, r.cp.id)]) ==
            Bytes(l.fs[r.cp.id][..n]) + Bytes(l.fs[r.cp.id][n..InFile(l, r.cp.id)])
    ensures r.cp.offset <= Size(l.fs[r.cp.id][..InFile(l, r.cp.id)])
  {
    var visible := l.fs[r.cp.id][..InFile(l, r.cp.id)];
    SizeSplit(visible, n);
    assert visible[..n] == l.fs[r.cp.id][..n];
    assert visible[n..] == l.fs[r.cp.id][n..InFile(l, r.cp.id)];
  }

  /** Any chunk of unread bytes may arrive. */
  lemma ReadKeeps(r: Reader, l: Log, n: nat, count: nat)
    requires Following(r, l, n)
    requires count <= Unread(r, Disk(l))
    ensures Following(Read(r, Disk(l), count), l, n)
  {
    hide Total, Bytes, Size, Flat;
    var k := r.cp.id;
    WindowFits(r, l, n);
    if count > 0 {
      NextChunk(Bytes(l.fs[k][..n]), Bytes(l.fs[k][n..InFile(l, k)]), r.window, count);
    }
  }

  lemma NextChunk<T>(taken: seq<T>, ahead: seq<T>, window: seq<T>, count: nat)
    requires window <= ahead && |window| + count <= |ahead|
    ensures window + (taken + ahead)[|taken| + |window|..|taken| + |window| + count] <= ahead
  {
  }

  /** A file's bytes begin with the frame of its first message. */
  lemma BytesFirst(f: File)
    requires f != []
    ensures Bytes(f) == Frame(f[0]) + Bytes(f[1..])
    ensures Size(f) == FrameLen(f[0]) + Size(f[1..])
  {
    assert f == [f[0]] + f[1..];
    BytesConcat([f[0]], f[1..]);
    BytesSnoc([], f[0]);
    assert [] + [f[0]] == [f[0]];
  }

  /** The scan takes the next message of the queue or, if that message has not been read completely,
      none; it never sees garbage. */
  lemma ScanKeeps(r: Reader, l: Log, n: nat)
    requires Following(r, l, n)
    requires SizesFit(l.fs)
    ensures !ScanFrame(r.window).Corrupt?
    ensures ScanFrame(r.window).NeedHeader? ==> |r.window| < HEADER_BUFFER
    ensures match Taken(r)
            case Some(p) => n < InFile(l, r.cp.id) && p == l.fs[r.cp.id][n] && Following(AfterTake(r), l, n + 1)
            case None => n < InFile(l, r.cp.id) ==> |r.window| < FrameLen(l.fs[r.cp.id][n])
  {
    var k := r.cp.id;
    var m := InFile(l, k);
    var ahead := l.fs[k][n..m];
    WindowFits(r, l, n);
    if n == m {
      assert ahead == [];
    } else {
      var p := l.fs[k][n];
      assert ahead[0] == p && ahead[1..] == l.fs[k][n + 1..m];
      BytesFirst(ahead);
      SizeTVarint(|p|);
      if |r.window| < |Frame(p)| {
        assert r.window == Frame(p)[..|r.window|];
        PartialFrame(p, |r.window|);
      } else {
        var rest := Bytes(ahead[1..]);
        var more := |r.window| - |Frame(p)|;
        ConcatTake(Frame(p), rest, more);
        assert r.window == Frame(p) + rest[..more];
        FrameRoundTrip(p, rest[..more]);
        assert r.window[|Frame(p)|..] == rest[..more];
        SizeSnocSlice(l.fs[k], n);
      }
    }
  }

  lemma SizeSnocSlice(f: File, n: nat)
    requires n < |f|
    ensures Size(f[..n + 1]) == Size(f[..n]) + FrameLen(f[n])
  {
    assert f[..n + 1] == f[..n] + [f[n]];
    BytesSnoc(f[..n], f[n]);
  }

  /** At end of file with no message left in the buffer, the buffer is empty and the reader has taken
      every message that has reached the file. */
  lemma EndOfFile(r: Reader, l: Log, n: nat)
    requires Following(r, l, n)
    requires SizesFit(l.fs)
    requires Taken(r).None? && Unread(r, Disk(l)) == 0
    ensures n == InFile(l, r.cp.id) && r.window == []
    ensures r.cp.offset == |Disk(l)[r.cp.id]|
  {
    var k := r.cp.id;
    var visible := l.fs[k][..InFile(l, k)];
    ScanKeeps(r, l, n);
    SizeSplit(visible, n);
    assert visible[..n] == l.fs[k][..n];
    if n < InFile(l, k) {
      assert visible[n..][0] == l.fs[k][n];
      BytesFirst(visible[n..]);
      assert false;
    }
  }

  /** Going on to the next file from there loses nothing. */
  lemma SwitchKeeps(r: Reader, l: Log, n: nat)
    requires Following(r, l, n)
    requires SizesFit(l.fs)
    requires Taken(r).None? && Unread(r, Disk(l)) == 0
    requires r.cp.id + 1 in Disk(l)
    ensures Following(Open(r, r.cp.id + 1), l, 0)
    ensures Index(Open(r, r.cp.id + 1), l, 0) == Index(r, l, n)
  {
    var k := r.cp.id;
    EndOfFile(r, l, n);
    assert l.fs[..k + 1][..k] == l.fs[..k];
    assert l.fs[k + 1][..0] == [];
  }

  /** The writer going on disturbs no reader. */
  lemma WriterKeeps(r: Reader, l: Log, n: nat, s: Step, outputSize: nat)
    requires Following(r, l, n)
    requires !s.Crash?
    ensures Following(r, Next(l, s, outputSize), n)
    ensures Index(r, Next(l, s, outputSize), n) == Index(r, l, n)
  {
    var l' := Next(l, s, outputSize);
    var k := r.cp.id;
    match s
    case Write(p) =>
      InjectGrows(l, p, outputSize, k);
      GrowthKeeps(r, l, l', n);
    case Spill(_) =>
      GrowthKeeps(r, l, l', n);
    case Crash(_) =>
  }

  lemma InjectGrows(l: Log, p: Payload, outputSize: nat, k: nat)
    requires Ok(l) && k < |l.fs|
    ensures var l' := Inject(l, p, outputSize);
            && k < |l'.fs| && l'.fs[..k] == l.fs[..k]
            && InFile(l, k) <= InFile(l', k) && l.fs[k] <= l'.fs[k]
  {
    var l' := Inject(l, p, outputSize);
    var last := |l.fs| - 1;
    InjectShape(l, p, outputSize);
    assert l'.fs[..last][..k] == l.fs[..last][..k];
    assert l'.fs[..k] == l'.fs[..last][..k] && l.fs[..k] == l.fs[..last][..k];
    if k < last {
      assert l'.fs[..last][k] == l.fs[..last][k];
    }
  }

  lemma GrowthKeeps(r: Reader, l: Log, l': Log, n: nat)
    requires Following(r, l, n)
    requires Ok(l') && r.cp.id < |l'.fs|
    requires l'.fs[..r.cp.id] == l.fs[..r.cp.id]
    requires InFile(l, r.cp.id) <= InFile(l', r.cp.id)
    requires InFile(l, r.cp.id) <= |l'.fs[r.cp.id]|
    requires l'.fs[r.cp.id][..InFile(l, r.cp.id)] == l.fs[r.cp.id][..InFile(l, r.cp.id)]
    ensures Following(r, l', n)
    ensures Index(r, l', n) == Index(r, l, n)
  {
    var k := r.cp.id;
    var f, f' := l.fs[k], l'.fs[k];
    var m, m' := InFile(l, k), InFile(l', k);
    assert f'[..n] == f[..m][..n] == f[..n];
    assert f'[n..m] == f[..m][n..] == f[n..m];
    MoreVisible(f', n, m, m');
  }

  lemma MoreVisible(f: File, n: nat, m: nat, m': nat)
    requires n <= m <= m' <= |f|
    ensures Bytes(f[n..m]) <= Bytes(f[n..m'])
  {
    SizeSplit(f[n..m'], m - n);
    assert f[n..m'][..m - n] == f[n..m];
  }

  /** The position recorded behind a message is the position of that message in the queue. */
  lemma RecordedIsPosition(r: Reader, l: Log, n: nat)
    requires Following(r, l, n)
    ensures Recorded(r) == Checkpoint(r.cp.id, Size(l.fs[r.cp.id][..n]))
    ensures Index(r, l, n) <= l.durable
    ensures n > 0 ==> Recorded(r) == PosAfter(l.fs, Index(r, l, n))
  {
    var k := r.cp.id;
    if n > 0 {
      PosInFile(l.fs, k, n);
    }
    IndexDurable(l, k, n);
  }

  lemma {:induction false} IndexDurable(l: Log, k: nat, n: nat)
    requires Ok(l) && k < |l.fs| && n <= InFile(l, k)
    ensures Total(l.fs[..k]) + n <= l.durable
  {
    if k < |l.fs| - 1 {
      var fs := l.fs[..|l.fs| - 1];
      FlatInFile(fs, k, n);
      assert fs[..k] == l.fs[..k];
    }
  }

  /** A reader started at any recorded position of a flushed message follows from exactly there. */
  lemma {:induction false} ResumeFollows(l: Log, i: nat) returns (n: nat)
    requires Ok(l) && i <= l.durable
    ensures var r := Reader(Some(PosAfter(l.fs, i).id), PosAfter(l.fs, i), []);
            && Following(r, l, n) && Index(r, l, n) == i
            && Recorded(r) == PosAfter(l.fs, i)
  {
    var k: nat;
    k, n := Locate(l.fs, i);
    if i > 0 && k < |l.fs| - 1 {
    } else if i > 0 {
      assert n <= InFile(l, k);
    }
    assert l.fs[k][n..InFile(l, k)] == l.fs[k][..InFile(l, k)][n..];
    assert l.fs[k][..n] == l.fs[k][..InFile(l, k)][..n];
    SizeSplit(l.fs[k][..InFile(l, k)], n);
  }

  lemma {:induction false} Locate(fs: Files, i: nat) returns (k: nat, n: nat)
    requires |fs| > 0 && i <= Total(fs)
    ensures k < |fs| && n <= |fs[k]| && Total(fs[..k]) + n == i
    ensures PosAfter(fs, i) == Checkpoint(k, Size(fs[k][..n]))
    ensures i <= Total(fs[..|fs| - 1]) && i > 0 ==> k < |fs| - 1
    decreases |fs|
  {
    var last := |fs| - 1;
    var before := Total(fs[..last]);
    if i == 0 {
      k, n := 0, 0;
    } else if i > before {
      k, n := last, i - before;
    } else {
      k, n := Locate(fs[..last], i);
      assert fs[..last][..k] == fs[..k];
    }
  }

  // ---- runs ----

  /** A queue, a reader on it, and the messages the reader has found; `n` counts those of its
      current file. */
  datatype State = State(log: Log, reader: Reader, n: nat, found: seq<Payload>)

  datatype Event = Writer(step: Step) | Chunk(count: nat) | Scan | Switch

  ghost predicate Enabled(s: State, e: Event) {
    match e
    case Writer(step) => Ok(s.log) && !step.Crash? && (step.Write? ==> SizeT(|step.p|))
    case Chunk(count) => Ok(s.log) && Taken(s.reader).None? && count <= Unread(s.reader, Disk(s.log))
    case Scan => Taken(s.reader).Some?
    // a read that returned nothing, and the open of the next file right after it
    case Switch =>
      && Ok(s.log) && Taken(s.reader).None? && Unread(s.reader, Disk(s.log)) == 0
      && CanOpen(s.reader, Disk(s.log), s.reader.cp.id + 1)
  }

  ghost function Step1(s: State, e: Event, outputSize: nat): State
    requires Enabled(s, e)
  {
    match e
    case Writer(step) => s.(log := Next(s.log, step, outputSize))
    case Chunk(count) => s.(reader := Read(s.reader, Disk(s.log), count))
    case Scan => s.(reader := AfterTake(s.reader), n := s.n + 1, found := s.found + [Taken(s.reader).value])
    case Switch => s.(reader := Open(s.reader, s.reader.cp.id + 1), n := 0)
  }

  ghost predicate Run(states: seq<State>, events: seq<Event>, outputSize: nat) {
    && |states| == |events| + 1
    && forall i :: 0 <= i < |events| ==>
         Enabled(states[i], events[i]) && states[i + 1] == Step1(states[i], events[i], outputSize)
  }

  /** A reader opened at the checkpoint behind message `start`. */
  ghost predicate Init(s: State, start: nat) {
    && Ok(s.log) && SizesFit(s.log.fs) && start <= s.log.durable
    && s.reader == Reader(Some(PosAfter(s.log.fs, start).id), PosAfter(s.log.fs, start), [])
    && Following(s.reader, s.log, s.n) && Index(s.reader, s.log, s.n) == start
    && s.found == []
  }

  ghost predicate Inv(s: State, start: nat) {
    && SizesFit(s.log.fs)
    && Following(s.reader, s.log, s.n)
    && start <= Index(s.reader, s.log, s.n) <= s.log.durable
    && s.found == Flat(s.log.fs)[start..Index(s.reader, s.log, s.n)]
  }

  lemma SizesFitKept(l: Log, p: Payload, outputSize: nat)
    requires Ok(l) && SizesFit(l.fs) && SizeT(|p|)
    ensures SizesFit(Inject(l, p, outputSize).fs)
  {
    var fs := Append(l.fs, p);
    assert SizesFit(fs);
  }

  lemma ScanInv(s: State, start: nat)
    requires Inv(s, start)
    requires Taken(s.reader).Some?
    ensures Inv(Step1(s, Scan, 0), start)
  {
    hide Total, Bytes, Size, Flat, SizesFit;
    ScanKeeps(s.reader, s.log, s.n);
    var t := Step1(s, Scan, 0);
    RecordedIsPosition(t.reader, t.log, t.n);
    FoundNext(s, start);
  }

  lemma FoundNext(s: State, start: nat)
    requires Inv(s, start)
    requires s.n < |s.log.fs[s.reader.cp.id]|
    ensures Index(s.reader, s.log, s.n) + 1 <= |Flat(s.log.fs)|
    ensures Flat(s.log.fs)[start..Index(s.reader, s.log, s.n) + 1] == s.found + [s.log.fs[s.reader.cp.id][s.n]]
  {
    hide Total, Bytes, Size, Flat, SizesFit;
    NextInFlat(s.log.fs, s.reader.cp.id, s.n);
    NextElement(Flat(s.log.fs), start, Index(s.reader, s.log, s.n));
  }

  lemma NextInFlat(fs: Files, k: nat, n: nat)
    requires k < |fs| && n < |fs[k]|
    ensures Total(fs[..k]) + n < Total(fs)
    ensures Flat(fs)[Total(fs[..k]) + n] == fs[k][n]
  {
    FlatInFile(fs, k, n + 1);
    var i := Total(fs[..k]) + n;
    assert Flat(fs)[i] == Flat(fs)[..i + 1][i];
    assert (Flat(fs[..k]) + fs[k][..n + 1])[i] == fs[k][..n + 1][n];
  }

  lemma NextElement<T>(a: seq<T>, start: nat, i: nat)
    requires start <= i < |a|
    ensures a[start..i + 1] == a[start..i] + [a[i]]
    ensures a[..i + 1] == a[..i] + [a[i]]
  {
  }

  lemma InvKept(s: State, e: Event, outputSize: nat, start: nat)
    requires Inv(s, start) && Enabled(s, e)
    ensures Inv(Step1(s, e, outputSize), start)
  {
    hide Total, Bytes, Size, Flat, SizesFit;
    var t := Step1(s, e, outputSize);
    match e
    case Writer(step) =>
      WriterKeeps(s.reader, s.log, s.n, step, outputSize);
      if step.Write? {
        SizesFitKept(s.log, step.p, outputSize);
      }
    case Chunk(count) =>
      ReadKeeps(s.reader, s.log, s.n, count);
    case Scan =>
      ScanInv(s, start);
    case Switch =>
      SwitchKeeps(s.reader, s.log, s.n);
  }

  lemma {:induction false} RunInv(states: seq<State>, events: seq<Event>, outputSize: nat, start: nat, i: nat)
    requires Run(states, events, outputSize) && Init(states[0], start)
    requires i < |states|
    ensures Inv(states[i], start)
  {
    if i > 0 {
      RunInv(states, events, outputSize, start, i - 1);
      InvKept(states[i - 1], events[i - 1], outputSize, start);
    }
  }

  /** What the writer does in a run. */
  function WrittenIn(events: seq<Event>): seq<Step> {
    if events == [] then []
    else
      var e := events[|events| - 1];
      WrittenIn(events[..|events| - 1]) + if e.Writer? then [e.step] else []
  }

  /** The queue of a run is what the writer's steps make of the queue it began with. */
  lemma {:induction false} LogOfRun(states: seq<State>, events: seq<Event>, outputSize: nat, i: nat)
    requires Run(states, events, outputSize) && Ok(states[0].log) && i <= |events|
    ensures states[i].log == QueueLog.Run(states[0].log, WrittenIn(events[..i]), outputSize)
    ensures forall s :: s in WrittenIn(events[..i]) ==> !s.Crash?
  {
    hide Next, Disk, Unread, Ok;
    if i > 0 {
      var e := events[i - 1];
      LogOfRun(states, events, outputSize, i - 1);
      assert events[..i][..i - 1] == events[..i - 1];
      var most := WrittenIn(events[..i - 1]);
      assert Enabled(states[i - 1], e) && states[i] == Step1(states[i - 1], e, outputSize);
      if e.Writer? {
        SameSize(most, outputSize);
        assert (most + [e.step])[..|most|] == most && (most + [e.step])[|most|] == e.step;
        assert WrittenIn(events[..i]) == most + [e.step];
      } else {
        assert WrittenIn(events[..i]) == most + [] == most;
      }
    }
  }

  /** However the bytes arrive in chunks, whatever the writer appends, flushes and rolls meanwhile:
      the messages found are exactly the injected ones from the starting checkpoint on; the position
      to record never underflows and is the checkpoint behind the last message found; and a fresh
      reader opened at it starts a run of its own at exactly the next message. */
  lemma ReaderExactness(states: seq<State>, events: seq<Event>, outputSize: nat, start: nat, i: nat)
    requires Run(states, events, outputSize) && Init(states[0], start)
    requires i < |states|
    ensures var s := states[i];
            var reached := start + |s.found|;
            && Following(s.reader, s.log, s.n)
            && reached <= s.log.durable
            && s.found == Flat(s.log.fs)[start..reached]
            && |s.reader.window| <= s.reader.cp.offset
            && (s.n > 0 ==> Recorded(s.reader) == PosAfter(s.log.fs, reached))
            && Recorded(s.reader).offset == Size(s.log.fs[s.reader.cp.id][..s.n])
            && exists other :: Init(other, reached) && other.log == s.log
  {
    hide Total, Bytes, Size, Flat, SizesFit, PosAfter, Following, Run;
    RunInv(states, events, outputSize, start, i);
    var s := states[i];
    FollowingBounds(s.reader, s.log, s.n);
    RecordedIsPosition(s.reader, s.log, s.n);
    var reached := start + |s.found|;
    var n := ResumeFollows(s.log, reached);
    var r := Reader(Some(PosAfter(s.log.fs, reached).id), PosAfter(s.log.fs, reached), []);
    assert Init(State(s.log, r, n, []), reached);
  }

  ghost predicate Exhausted(s: State) {
    && Ok(s.log)
    && Taken(s.reader).None? && Unread(s.reader, Disk(s.log)) == 0 && s.reader.cp.id + 1 !in Disk(s.log)
  }

  /** A reader that can neither scan, read nor switch has found everything that was flushed. */
  lemma ReaderCompleteness(states: seq<State>, events: seq<Event>, outputSize: nat, start: nat, i: nat)
    requires Run(states, events, outputSize) && Init(states[0], start)
    requires i < |states|
    requires Exhausted(states[i])
    ensures Ok(states[i].log) && start <= states[i].log.durable
    ensures states[i].found == Flat(states[i].log.fs)[start..states[i].log.durable]
  {
    RunInv(states, events, outputSize, start, i);
    EndOfFile(states[i].reader, states[i].log, states[i].n);
  }

  // ---- a reader can always be brought to that ----

  /** Take what is in the buffer, read all there is, go on to the next file. */
  ghost function GoOn(s: State): Event
    requires Ok(s.log)
  {
    if Taken(s.reader).Some? then Scan
    else if Unread(s.reader, Disk(s.log)) > 0 then Chunk(Unread(s.reader, Disk(s.log)))
    else Switch
  }

  lemma GoesOn(s: State, start: nat, outputSize: nat)
    requires Inv(s, start) && !Exhausted(s)
    ensures Ok(s.log) && Enabled(s, GoOn(s)) && !GoOn(s).Writer?
    ensures var t := Step1(s, GoOn(s), outputSize);
            && t.log == s.log && Inv(t, start)
            && if t.reader.cp.id != s.reader.cp.id then s.reader.cp.id < t.reader.cp.id < |s.log.fs|
               else if Unread(t.reader, Disk(s.log)) != Unread(s.reader, Disk(s.log))
               then Unread(t.reader, Disk(s.log)) < Unread(s.reader, Disk(s.log))
               else |t.reader.window| < |s.reader.window|
  {
    hide Total, Bytes, Size, Flat, SizesFit, Following;
    FollowingBounds(s.reader, s.log, s.n);
    FileExists(s.log, s.reader.cp.id + 1);
    InvKept(s, GoOn(s), outputSize, start);
  }

  /** From every state of a run, if the writer pauses, the reader can get on until it has found everything that was
      flushed. */
  lemma {:induction false} CanFinish(s: State, start: nat, outputSize: nat)
    returns (states: seq<State>, events: seq<Event>)
    requires Inv(s, start)
    ensures Run(states, events, outputSize) && states[0] == s && forall e :: e in events ==> !e.Writer?
    ensures var t := states[|events|];
            && t.log == s.log && Ok(s.log) && start <= s.log.durable
            && t.found == Flat(s.log.fs)[start..s.log.durable]
    decreases |s.log.fs| - s.reader.cp.id, Unread(s.reader, if Ok(s.log) then Disk(s.log) else map[]), |s.reader.window|
  {
    hide Total, Bytes, Size, Flat, SizesFit, Following, Step1, Enabled, Disk;
    FollowingBounds(s.reader, s.log, s.n);
    if Exhausted(s) {
      states, events := [s], [];
      ExhaustedFound(s, start);
    } else {
      GoesOn(s, start, outputSize);
      var e := GoOn(s);
      var t := Step1(s, e, outputSize);
      FollowingBounds(t.reader, t.log, t.n);
      states, events := CanFinish(t, start, outputSize);
      var ss, ee := [s] + states, [e] + events;
      forall i | 0 <= i < |ee|
        ensures Enabled(ss[i], ee[i]) && ss[i + 1] == Step1(ss[i], ee[i], outputSize)
      {
        if i > 0 {
          assert ss[i] == states[i - 1] && ss[i + 1] == states[i] && ee[i] == events[i - 1];
        }
      }
      assert ss[|ee|] == states[|events|];
      states, events := ss, ee;
    }
  }

  lemma ExhaustedFound(s: State, start: nat)
    requires Inv(s, start) && Exhausted(s)
    ensures Ok(s.log) && start <= s.log.durable && s.found == Flat(s.log.fs)[start..s.log.durable]
  {
    EndOfFile(s.reader, s.log, s.n);
  }
}
