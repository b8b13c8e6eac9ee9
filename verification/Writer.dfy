/** The writing end of a queue: `hs_output` and the append of `inject_message`. */
module Writer {
  import opened Options
  import opened Framing
  import opened Queue
  import opened QueueLog
  import Backpressure
  import opened Directory

  /** The directory after one injection: unchanged, or the last file completed and the next one opened. */
  lemma DiskAfterExtend(l: Log, p: Payload, roll: bool)
    requires Ok(l)
    ensures var last := |l.fs| - 1;
            Disk(Extend(l, p, roll)) ==
            if roll then Put(Put(Disk(l), last, Bytes(Last(l.fs) + [p])), last + 1, []) else Disk(l)
  {
    hide Total, Bytes, Size, Flat, Extend;
    var last := |l.fs| - 1;
    var r := Extend(l, p, roll);
    var full := Last(l.fs) + [p];
    ExtendShape(l, p, roll);
    NoBytes();
    assert full[..|full|] == full;
    assert full[..InFile(l, last)] == Last(l.fs)[..InFile(l, last)];
    forall k: nat | k < last
      ensures DiskFile(r, k) == DiskFile(l, k)
    {
      assert r.fs[..last][k] == l.fs[..last][k];
    }
    if roll {
      assert DiskFile(r, last) == Bytes(full) && DiskFile(r, last + 1) == [];
    } else {
      assert DiskFile(r, last) == DiskFile(l, last);
    }
  }

  /** The stdio buffer holds what is in the log but not yet in the file. */
  function Unwritten(l: Log): seq<Byte>
    requires Ok(l)
  {
    Bytes(Last(l.fs)[InFile(l, |l.fs| - 1)..])
  }

  lemma UnwrittenAfterExtend(l: Log, p: Payload, roll: bool)
    requires Ok(l)
    ensures Bytes(Last(l.fs) + [p]) == Disk(l)[|l.fs| - 1] + (Unwritten(l) + Frame(p))
    ensures Size(Last(l.fs) + [p]) == Size(Last(l.fs)) + FrameLen(p)
    ensures Unwritten(Extend(l, p, roll)) == if roll then [] else Unwritten(l) + Frame(p)
  {
    var f := Last(l.fs);
    var n := InFile(l, |l.fs| - 1);
    SizeSplit(f, n);
    BytesSnoc(f, p);
    ConcatAssoc(Bytes(f[..n]), Bytes(f[n..]), Frame(p));
    ExtendShape(l, p, roll);
    assert (f + [p])[n..] == f[n..] + [p];
    BytesSnoc(f[n..], p);
  }

  /** Up to which message of the last file message n of the queue lies. */
  function FlushEnd(l: Log, n: nat): (to: nat)
    requires Ok(l)
    requires l.durable <= n <= Total(l.fs)
    ensures InFile(l, |l.fs| - 1) <= to <= |Last(l.fs)|
  {
    InFile(l, |l.fs| - 1) + (n - l.durable)
  }

  /** The front of the buffer that reaches the file when message n does. */
  function Moved(l: Log, n: nat): seq<Byte>
    requires Ok(l)
    requires l.durable <= n <= Total(l.fs)
  {
    Bytes(Last(l.fs)[InFile(l, |l.fs| - 1)..FlushEnd(l, n)])
  }

  lemma FlushMoves(l: Log, n: nat)
    requires Ok(l)
    requires l.durable <= n <= Total(l.fs)
    ensures var top := |l.fs| - 1;
            && Disk(QueueLog.Flush(l, n)) == Put(Disk(l), top, Disk(l)[top] + Moved(l, n))
            && Unwritten(l) == Moved(l, n) + Unwritten(QueueLog.Flush(l, n))
  {
    hide Total, Bytes, Size, Flat;
    var f := Last(l.fs);
    var r := QueueLog.Flush(l, n);
    var top := |l.fs| - 1;
    var from := InFile(l, top);
    var to := FlushEnd(l, n);
    SliceSplit(f, from, to);
    assert r.fs == l.fs && InFile(r, top) == to;
    forall k: nat | k < top
      ensures DiskFile(r, k) == DiskFile(l, k)
    {
    }
    assert DiskFile(r, top) == Bytes(f[..to]);
  }

  /** A directory with everything flushed is resumed at the end of its last file. */
  lemma ResumePoint(l: Log, last: nat)
    requires Ok(l) && l.durable == Total(l.fs)
    requires last in Disk(l) && forall k :: k in Disk(l) ==> k <= last
    ensures last == |l.fs| - 1
    ensures |Disk(l)[last]| == Size(Last(l.fs))
    ensures Unwritten(l) == []
  {
    var top := |l.fs| - 1;
    assert top in Disk(l);
    assert InFile(l, top) == |Last(l.fs)|;
    assert Last(l.fs)[..|Last(l.fs)|] == Last(l.fs);
    assert Last(l.fs)[|Last(l.fs)|..] == [];
  }

  /** How files, stdio buffer and the writer's file id hold a queue. */
  ghost predicate Stores(files: Contents, fh: Option<nat>, pending: seq<Byte>, id: nat, l: Log) {
    && Ok(l)
    && id == |l.fs| - 1
    && fh == Some(id)
    && files == Disk(l)
    && pending == Unwritten(l)
  }

  /** ... and the writer's offset is the length of its file. */
  ghost predicate Represents(files: Contents, fh: Option<nat>, pending: seq<Byte>, cp: Checkpoint, l: Log) {
    Stores(files, fh, pending, cp.id, l) && cp.offset == Size(Last(l.fs))
  }

  /** A first file without a message. */
  lemma EmptyRepresents()
    ensures Represents(Put(map[], 0, []), Some(0), [], Checkpoint(0, 0), EMPTY)
  {
    assert Disk(EMPTY) == map[0 := []];
  }

  lemma ExtendStores(files: Contents, pending: seq<Byte>, id: nat, l: Log, p: Payload, roll: bool)
    requires Stores(files, Some(id), pending, id, l)
    ensures var buffered := (pending + Header(|p|)) + p;
            var r := Extend(l, p, roll);
            && id in files && id + 1 !in files
            && Size(Last(l.fs) + [p]) == Size(Last(l.fs)) + FrameLen(p)
            && if roll
               then |r.fs| == |l.fs| + 1 && Size(Last(r.fs)) == 0 &&
                    Stores(Put(Put(files, id, files[id] + buffered), id + 1, []), Some(id + 1), [], id + 1, r)
               else |r.fs| == |l.fs| && Size(Last(r.fs)) == Size(Last(l.fs)) + FrameLen(p) &&
                    Stores(files, Some(id), buffered, id, r)
  {
    ConcatAssoc(pending, Header(|p|), p);
    ExtendShape(l, p, roll);
    DiskAfterExtend(l, p, roll);
    UnwrittenAfterExtend(l, p, roll);
  }

  // ---- the writer's offset ----

  /** `size_t` plus `int`. */
  function AddSize(offset: nat, tlen: int): (r: nat)
    ensures r < TWO_64
    ensures 0 <= offset + tlen < TWO_64 ==> r == offset + tlen
  {
    (offset + tlen) % TWO_64
  }

  /** Adding the `int` length of a frame is adding the frame's length exactly up to INT_MAX, in a file whose
      length fits the `long` that ftell returns. */
  lemma AddedExactly(size: nat, p: Payload)
    requires size + |Frame(p)| < TWO_63
    ensures AddSize(size, Tlen(p)) == size + |Frame(p)| <==> |Frame(p)| <= INT_MAX
  {
    var n := |Frame(p)|;
    assert Tlen(p) == ToInt32(n);
    if n > INT_MAX {
      assert ToInt32(n) <= n - 0x1_0000_0000 && ToInt32(n) >= -0x8000_0000;
    }
  }

  /** A length that an `int` makes larger than the file in the wrong direction takes the offset over any `output_size`:
      the file is closed, and the position is right again. */
  lemma WrappedOffset(size: nat, p: Payload)
    requires size + Tlen(p) < 0
    ensures AddSize(size, Tlen(p)) >= TWO_63
    ensures |Frame(p)| > INT_MAX
  {
    assert Tlen(p) == ToInt32(|Frame(p)|);
    assert AddSize(size, Tlen(p)) == size + Tlen(p) + TWO_64;
  }

  /** `hs_output`. */
  class HsOutput {
    const dir: FileSystem
    // the file behind `fh`, and what stdio has not handed to it yet
    var fh: Option<nat>
    var pending: seq<Byte>
    var cp: Checkpoint
    var minCpId: nat
    ghost var log: Log

    /** Files and buffer are those of the queue. */
    ghost predicate Holds()
      reads this, dir
    {
      Stores(dir.files, fh, pending, cp.id, log)
    }

    /** ... and the offset is right. */
    ghost predicate Valid()
      reads this, dir
    {
      Represents(dir.files, fh, pending, cp, log)
    }

    /** hs_init_output on a directory whose files hold the queue `found`: resume after its last file. */
    constructor (dir: FileSystem, names: seq<string>, ghost found: Log)
      requires Ids(names) == dir.files.Keys
      requires if dir.files == map[] then found == EMPTY
               else Ok(found) && found.durable == Total(found.fs) && dir.files == Disk(found)
      modifies dir
      ensures Valid() && this.dir == dir
      ensures log == found
      ensures minCpId == cp.id
    {
      hide Total, Bytes, Size, Flat, Disk, Unwritten;
      var last := FindLastId(names);
      this.dir := dir;
      fh := None;
      pending := [];
      cp := Checkpoint(last, 0);
      minCpId := last;
      log := found;
      new;
      if dir.files == map[] {
        EmptyRepresents();
      } else {
        assert exists k :: k in dir.files;
        ResumePoint(found, last);
      }
      OpenOutputFile();
    }

    /** hs_open_output_file: close what is open, open file `cp.id` for appending. */
    method OpenOutputFile()
      requires fh.Some? ==> fh.value in dir.files
      modifies this`fh, this`pending, this`cp, dir
      ensures pending == [] && fh == Some(cp.id)
      ensures var closed := if old(fh).Some?
                            then Put(old(dir.files), old(fh).value, old(dir.files)[old(fh).value] + old(pending))
                            else old(dir.files);
              dir.files == if old(cp.id) in closed then closed else Put(closed, old(cp.id), [])
      ensures cp.id == old(cp.id) && cp.id in dir.files && cp.offset == |dir.files[cp.id]|
    {
      if fh.Some? {
        dir.files := Put(dir.files, fh.value, dir.files[fh.value] + pending);
        fh := None;
      }
      pending := [];
      if cp.id !in dir.files {
        dir.files := Put(dir.files, cp.id, []);
      }
      fh := Some(cp.id);
      cp := cp.(offset := |dir.files[cp.id]|);
    }

    /** fflush, and any earlier moment at which stdio empties part of its buffer: `n` messages of the
        queue are in the files afterwards. */
    method Flush(ghost n: nat, bytes: nat)
      requires Valid()
      requires log.durable <= n <= Total(log.fs)
      requires bytes == |Moved(log, n)|
      modifies this`pending, this`log, dir
      ensures Valid()
      ensures log == QueueLog.Flush(old(log), n)
      ensures n == Total(log.fs) ==> pending == []
    {
      FlushMoves(log, n);
      dir.files := Put(dir.files, cp.id, dir.files[cp.id] + pending[..bytes]);
      pending := pending[bytes..];
      log := QueueLog.Flush(log, n);
    }
  }

  /** What a dead process leaves is exactly what the recovered log says is on disk. */
  lemma CrashLeaves(l: Log)
    requires Ok(l)
    ensures Disk(Recover(l)) == Disk(l)
  {
    var r := Recover(l);
    var top := |l.fs| - 1;
    assert r.fs == Visible(l);
    assert r.fs[..top] == l.fs[..top];
    forall k: nat | k < |l.fs|
      ensures r.fs[k][..InFile(r, k)] == l.fs[k][..InFile(l, k)]
    {
      assert InFile(r, k) == InFile(l, k) == |r.fs[k]|;
    }
  }

  /** The part of `inject_message` under the output lock, with its statics. */
  class Injector {
    const output: HsOutput
    const outputSize: nat
    const cfg: Backpressure.Config
    const header: array<Byte>
    var throttle: Backpressure.Throttle

    constructor (output: HsOutput, outputSize: nat, cfg: Backpressure.Config)
      ensures this.output == output && this.outputSize == outputSize && this.cfg == cfg
      ensures !throttle.on && throttle.lastCheck == 0
      ensures header.Length == HEADER_BUFFER && fresh(header)
    {
      this.output := output;
      this.outputSize := outputSize;
      this.cfg := cfg;
      header := new Byte[HEADER_BUFFER];
      throttle := Backpressure.Throttle(false, 0);
    }

    /** The write, and the roll to the next file once the offset has reached `output_size`. Whatever the length
        of the frame, its bytes are appended to the queue; the offset stays right, and with it the choice of
        when to roll, exactly as far as an `int` holds that length. */
    method Append(pb: Payload) returns (rolled: bool)
      requires output.Holds()
      requires header.Length == HEADER_BUFFER
      requires SizeT(|pb|)
      modifies header, output`fh, output`pending, output`cp, output`log, output.dir
      ensures output.Holds()
      ensures output.log == Extend(old(output.log), pb, rolled) &&
          |output.log.fs| == |old(output.log).fs| + if rolled then 1 else 0
      ensures rolled <==> AddSize(old(output.cp.offset), Tlen(pb)) >= outputSize
      ensures output.cp.offset == if rolled then 0 else AddSize(old(output.cp.offset), Tlen(pb))
      ensures old(output.Valid()) && Size(Last(old(output.log).fs)) + |Frame(pb)| < TWO_63 ==>
                && (output.Valid() <==> rolled || |Frame(pb)| <= INT_MAX)
                && (|Frame(pb)| <= INT_MAX ==> output.log == Inject(old(output.log), pb, outputSize))
    {
      hide Total, Bytes, Size, Flat, Inject, Extend, Disk, Unwritten, Varint;
      ghost var l := output.log;
      var len := FillHeader(header, |pb|);
      var tlen := ToInt32(4 + len + |pb|);
      ghost var roll := AddSize(output.cp.offset, tlen) >= outputSize;
      ExtendStores(output.dir.files, output.pending, output.cp.id, l, pb, roll);
      output.pending := output.pending + header[..4 + len];
      output.pending := output.pending + pb;
      output.cp := output.cp.(offset := AddSize(output.cp.offset, tlen));
      rolled := output.cp.offset >= outputSize;
      if rolled {
        output.cp := output.cp.(id := output.cp.id + 1);
        output.OpenOutputFile();
      }
      output.log := Extend(l, pb, roll);
      InjectExtends(l, pb, outputSize);
      if Size(Last(l.fs)) + |Frame(pb)| < TWO_63 {
        AddedExactly(Size(Last(l.fs)), pb);
      }
    }

    /** Returns whether the caller is to be slowed down. */
    method InjectMessage(pb: Payload, now: int, diskFreeAtRoll: nat, diskFreeAtRelease: nat) returns (bp: bool)
      requires output.Holds()
      requires header.Length == HEADER_BUFFER
      requires SizeT(|pb|)
      modifies this`throttle, header, output`fh, output`pending, output`cp, output`log, output.dir
      ensures output.Holds()
      ensures var rolled := AddSize(old(output.cp.offset), Tlen(pb)) >= outputSize;
              && output.log == Extend(old(output.log), pb, rolled)
              && var t := if rolled
                          then Backpressure.AtRoll(cfg, old(throttle), output.cp.id, output.minCpId, diskFreeAtRoll)
                          else old(throttle);
              throttle == Backpressure.AtRelease(cfg, t, output.cp.id, output.minCpId, now, diskFreeAtRelease)
      ensures old(output.Valid()) && Size(Last(old(output.log).fs)) + |Frame(pb)| < TWO_63 && |Frame(pb)| <= INT_MAX ==>
                output.Valid() && output.log == Inject(old(output.log), pb, outputSize)
      // slowed down: it was before or this roll is reason enough, and this second's look does not end it
      ensures var rolled := AddSize(old(output.cp.offset), Tlen(pb)) >= outputSize;
              bp <==>
                && (|| old(throttle.on)
                    || (rolled && cfg.limit != 0 && Backpressure.Sub64(output.cp.id, output.minCpId) > cfg.limit)
                    || (rolled && cfg.diskLimit != 0 && diskFreeAtRoll <= cfg.diskLimit))
                && !(&& old(throttle.lastCheck) < now
                     && output.cp.id == output.minCpId
                     && (cfg.diskLimit == 0 || diskFreeAtRelease > cfg.diskLimit))
      ensures bp == throttle.on
    {
      var rolled := Append(pb);
      UpdateThrottle(rolled, now, diskFreeAtRoll, diskFreeAtRelease);
      bp := throttle.on;
    }

    /** Throttle at a roll; once a second see whether to stop throttling. */
    method UpdateThrottle(rolled: bool, now: int, diskFreeAtRoll: nat, diskFreeAtRelease: nat)
      modifies this`throttle
      ensures var id, minId := output.cp.id, output.minCpId;
              var t := if rolled then Backpressure.AtRoll(cfg, old(throttle), id, minId,
                  diskFreeAtRoll) else old(throttle);
              throttle == Backpressure.AtRelease(cfg, t, id, minId, now, diskFreeAtRelease)
    {
      if rolled {
        if cfg.limit != 0 && Backpressure.Sub64(output.cp.id, output.minCpId) > cfg.limit {
          throttle := throttle.(on := true);
        }
        if !throttle.on && cfg.diskLimit != 0 {
          if diskFreeAtRoll <= cfg.diskLimit {
            throttle := throttle.(on := true);
          }
        }
      }
      if throttle.on && throttle.lastCheck < now {
        throttle := throttle.(lastCheck := now);
        var release := true;
        if cfg.diskLimit != 0 {
          release := diskFreeAtRelease > cfg.diskLimit;
        }
        if output.cp.id == output.minCpId && release {
          throttle := throttle.(on := false);
        }
      }
    }
  }
}
