/** Checkpoints and the positions they name in a queue: a list of numbered files, each holding
    whole frames. Everything that persists, compares or resumes from a position rests on
    `PosAfter`: the checkpoint recorded after the i-th message of the queue. */
module Queue {
  import opened Framing

  /** `hs_checkpoint`: a file id and a byte offset into that file. */
  datatype Checkpoint = Checkpoint(id: nat, offset: nat)

  /** The order in which the callbacks compare checkpoints: id first, then offset. */
  predicate Before(a: Checkpoint, b: Checkpoint) {
    a.id < b.id || (a.id == b.id && a.offset < b.offset)
  }

  predicate AtMost(a: Checkpoint, b: Checkpoint) {
    a == b || Before(a, b)
  }

  type File = seq<Payload>
  /** File k of the queue is fs[k]. */
  type Files = seq<File>

  // ---- one file ----

  function Size(f: File): nat
  {
    if f == [] then 0 else Size(f[..|f| - 1]) + FrameLen(f[|f| - 1])
  }

  function Bytes(f: File): (r: seq<Byte>)
    ensures |r| == Size(f)
  {
    if f == [] then [] else Bytes(f[..|f| - 1]) + Frame(f[|f| - 1])
  }

  lemma ConcatAssoc<T>(a: seq<T>, b: seq<T>, c: seq<T>)
    ensures a + (b + c) == (a + b) + c
  {
  }

  lemma BytesSnoc(f: File, p: Payload)
    ensures Bytes(f + [p]) == Bytes(f) + Frame(p)
    ensures Size(f + [p]) == Size(f) + FrameLen(p)
  {
    assert (f + [p])[..|f|] == f;
  }

  lemma {:induction false} BytesConcat(f: File, g: File)
    ensures Bytes(f + g) == Bytes(f) + Bytes(g)
    ensures Size(f + g) == Size(f) + Size(g)
  {
    if g == [] {
      assert f + g == f;
    } else {
      var g', p := g[..|g| - 1], g[|g| - 1];
      BytesConcat(f, g');
      assert g == g' + [p];
      ConcatAssoc(f, g', [p]);
      BytesSnoc(f + g', p);
      ConcatAssoc(Bytes(f), Bytes(g'), Frame(p));
    }
  }

  /** A file splits at every frame boundary; a later boundary has a larger offset. */
  lemma SizeSplit(f: File, n: nat)
    requires n <= |f|
    ensures Size(f) == Size(f[..n]) + Size(f[n..])
    ensures Bytes(f) == Bytes(f[..n]) + Bytes(f[n..])
    ensures n < |f| ==> Size(f[..n]) + 5 <= Size(f)
  {
    assert f == f[..n] + f[n..];
    BytesConcat(f[..n], f[n..]);
    if n < |f| {
      SizePositive(f[n..]);
    }
  }

  lemma SliceSplit(f: File, from: nat, to: nat)
    requires from <= to <= |f|
    ensures Bytes(f[from..]) == Bytes(f[from..to]) + Bytes(f[to..])
    ensures Bytes(f[..to]) == Bytes(f[..from]) + Bytes(f[from..to])
  {
    assert f[from..] == f[from..to] + f[to..];
    BytesConcat(f[from..to], f[to..]);
    assert f[..to] == f[..from] + f[from..to];
    BytesConcat(f[..from], f[from..to]);
  }

  lemma SizePositive(f: File)
    requires f != []
    ensures Size(f) >= 5
  {
  }

  lemma SizeStrict(f: File, m: nat, n: nat)
    requires m < n <= |f|
    ensures Size(f[..m]) < Size(f[..n])
  {
    SizeSplit(f[..n], m);
    assert f[..n][..m] == f[..m];
  }

  // ---- the whole queue ----

  function Total(fs: Files): nat
  {
    if fs == [] then 0 else Total(fs[..|fs| - 1]) + |fs[|fs| - 1]|
  }

  /** The messages of the queue in the order in which they were injected. */
  function Flat(fs: Files): (r: seq<Payload>)
    ensures |r| == Total(fs)
  {
    if fs == [] then [] else Flat(fs[..|fs| - 1]) + fs[|fs| - 1]
  }

  /** The checkpoint a reader records after the i-th message; (0, 0) before the first. */
  function PosAfter(fs: Files, i: nat): Checkpoint
    requires i <= Total(fs)
  {
    if i == 0 then Checkpoint(0, 0)
    else
      var last := |fs| - 1;
      var before := Total(fs[..last]);
      if i > before then Checkpoint(last, Size(fs[last][..i - before]))
      else PosAfter(fs[..last], i)
  }

  /** Append one message to the last file. */
  function Append(fs: Files, p: Payload): (r: Files)
    requires |fs| > 0
  {
    fs[..|fs| - 1] + [fs[|fs| - 1] + [p]]
  }

  /** Start the next file. */
  function Roll(fs: Files): Files
  {
    fs + [[]]
  }

  /** What a crash leaves when only the first `n` messages had reached the files: all but the last
      file were closed, so it is the last file that loses its tail. */
  function Truncate(fs: Files, n: nat): (r: Files)
    requires |fs| > 0
    requires Total(fs[..|fs| - 1]) <= n <= Total(fs)
  {
    fs[..|fs| - 1] + [fs[|fs| - 1][..n - Total(fs[..|fs| - 1])]]
  }

  lemma LastFile(fs: Files)
    requires |fs| > 0
    ensures Total(fs) == Total(fs[..|fs| - 1]) + |fs[|fs| - 1]|
    ensures Flat(fs) == Flat(fs[..|fs| - 1]) + fs[|fs| - 1]
  {
  }

  lemma AppendTotals(fs: Files, p: Payload)
    requires |fs| > 0
    ensures Total(Append(fs, p)) == Total(fs) + 1
    ensures Flat(Append(fs, p)) == Flat(fs) + [p]
  {
    hide Total, Flat;
    LastFile(fs);
    LastFile(Append(fs, p));
    var a := Append(fs, p);
    assert a[..|a| - 1] == fs[..|fs| - 1];
    ConcatAssoc(Flat(fs[..|fs| - 1]), fs[|fs| - 1], [p]);
  }

  lemma RollTotals(fs: Files)
    ensures Total(Roll(fs)) == Total(fs)
    ensures Flat(Roll(fs)) == Flat(fs)
  {
    assert Roll(fs)[..|fs|] == fs;
  }

  lemma TruncateTotals(fs: Files, n: nat)
    requires |fs| > 0
    requires Total(fs[..|fs| - 1]) <= n <= Total(fs)
    ensures Total(Truncate(fs, n)) == n
    ensures Flat(Truncate(fs, n)) == Flat(fs)[..n]
  {
    hide Total, Flat;
    var last := |fs| - 1;
    var t := Truncate(fs, n);
    LastFile(fs);
    LastFile(t);
    assert t[..last] == fs[..last];
    ConcatTake(Flat(fs[..last]), fs[last], n - Total(fs[..last]));
  }

  lemma ConcatTake<T>(a: seq<T>, b: seq<T>, n: nat)
    requires n <= |b|
    ensures (a + b)[..|a| + n] == a + b[..n]
  {
  }

  /** No checkpoint of an already injected message moves when the queue grows. */
  lemma AppendKeepsPos(fs: Files, p: Payload, i: nat)
    requires |fs| > 0
    requires i <= Total(fs)
    ensures i <= Total(Append(fs, p))
    ensures PosAfter(Append(fs, p), i) == PosAfter(fs, i)
  {
    AppendTotals(fs, p);
    var last := |fs| - 1;
    var a := Append(fs, p);
    assert a[..last] == fs[..last];
    var before := Total(fs[..last]);
    if i > before {
      assert a[last][..i - before] == fs[last][..i - before];
    }
  }

  lemma RollKeepsPos(fs: Files, i: nat)
    requires i <= Total(fs)
    ensures i <= Total(Roll(fs))
    ensures PosAfter(Roll(fs), i) == PosAfter(fs, i)
  {
    RollTotals(fs);
    assert Roll(fs)[..|fs|] == fs;
  }

  /** Nor does a checkpoint of a message that survives a crash. */
  lemma TruncateKeepsPos(fs: Files, n: nat, i: nat)
    requires |fs| > 0
    requires Total(fs[..|fs| - 1]) <= n <= Total(fs)
    requires i <= n
    ensures i <= Total(Truncate(fs, n))
    ensures PosAfter(Truncate(fs, n), i) == PosAfter(fs, i)
  {
    TruncateTotals(fs, n);
    var last := |fs| - 1;
    var t := Truncate(fs, n);
    assert t[..last] == fs[..last];
    var before := Total(fs[..last]);
    if i > before {
      assert t[last][..i - before] == fs[last][..i - before];
    }
  }

  lemma {:induction false} PosAfterFile(fs: Files, i: nat)
    requires i <= Total(fs)
    ensures i > 0 ==> PosAfter(fs, i).id < |fs| && PosAfter(fs, i).offset > 0
  {
    if i > 0 {
      var last := |fs| - 1;
      var before := Total(fs[..last]);
      if i > before {
        SizeStrict(fs[last], 0, i - before);
      } else {
        PosAfterFile(fs[..last], i);
      }
    }
  }

  /** Comparing checkpoints by id and offset is comparing message counts: the order used by the
      checkpoint callback is the order of the queue. */
  lemma {:induction false} PosOrder(fs: Files, i: nat, j: nat)
    requires i <= Total(fs) && j <= Total(fs)
    ensures Before(PosAfter(fs, i), PosAfter(fs, j)) <==> i < j
    ensures PosAfter(fs, i) == PosAfter(fs, j) <==> i == j
  {
    if i > j {
      PosStrict(fs, j, i);
    } else if i < j {
      PosStrict(fs, i, j);
    }
  }

  lemma {:induction false} PosStrict(fs: Files, i: nat, j: nat)
    requires i < j <= Total(fs)
    ensures Before(PosAfter(fs, i), PosAfter(fs, j))
  {
    var last := |fs| - 1;
    var before := Total(fs[..last]);
    PosAfterFile(fs, j);
    if i > before {
      SizeStrict(fs[last], i - before, j - before);
    } else if j <= before {
      PosStrict(fs[..last], i, j);
    } else {
      PosAfterFile(fs[..last], i);
    }
  }

  /** The boundary after n messages of file k is the position after all messages up to there. */
  lemma {:induction false} PosInFile(fs: Files, k: nat, n: nat)
    requires k < |fs|
    requires 0 < n <= |fs[k]|
    ensures Total(fs[..k]) + n <= Total(fs)
    ensures PosAfter(fs, Total(fs[..k]) + n) == Checkpoint(k, Size(fs[k][..n]))
    decreases |fs|
  {
    var last := |fs| - 1;
    if k < last {
      PosInFile(fs[..last], k, n);
      assert fs[..last][..k] == fs[..k];
    }
  }

  /** Message n of file k is message Total(fs[..k]) + n of the queue. */
  lemma {:induction false} FlatInFile(fs: Files, k: nat, n: nat)
    requires k < |fs|
    requires n <= |fs[k]|
    ensures Total(fs[..k]) + n <= Total(fs)
    ensures Flat(fs)[..Total(fs[..k]) + n] == Flat(fs[..k]) + fs[k][..n]
    decreases |fs|
  {
    var last := |fs| - 1;
    if k < last {
      FlatInFile(fs[..last], k, n);
      assert fs[..last][..k] == fs[..k];
      ConcatTake(Flat(fs[..last]), fs[last], 0);
    } else {
      ConcatTake(Flat(fs[..last]), fs[last], n);
    }
  }
}
