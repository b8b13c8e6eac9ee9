/** The switch from one queue file to the next when the writer goes on between the read that returned
    nothing and the open: exactly when it skips no message, across restarts with any `output_size`. And
    the switch with the reader loops' own guard: it leaves nothing unread. */
module Switch {
  import opened Options
  import opened Framing
  import opened Queue
  import opened QueueLog
  import R = Reader

  // ---- the writer, one system call at a time ----

  /** A process that writes a queue: it found file `first` with `start` messages in it and rolls at `size`
      bytes. `closing` is the time from the message that reaches `size` to the open of the next file. */
  datatype Writer = Writer(log: Log, size: nat, first: nat, start: nat, closing: bool)

  datatype Step = Add(p: Payload) | Spill(n: nat) | Create | Restart(size: nat)

  ghost predicate Enabled(w: Writer, s: Step) {
    && Ok(w.log)
    && match s
       case Add(p) => !w.closing && SizeT(|p|)
       case Spill(_) => true
       case Create => w.closing && w.log.durable == Total(w.log.fs)
       case Restart(_) => true
  }

  function Next(w: Writer, s: Step): Writer
    requires Enabled(w, s)
  {
    match s
    case Add(p) =>
      var fs := Append(w.log.fs, p);
      w.(log := Log(fs, w.log.durable), closing := Size(QueueLog.Last(fs)) >= w.size)
    case Spill(n) => w.(log := Flush(w.log, n))
    case Create => w.(log := Log(Roll(w.log.fs), w.log.durable), closing := false)
    case Restart(size) =>
      var l := Recover(w.log);
      Writer(l, size, |l.fs| - 1, |QueueLog.Last(l.fs)|, false)
  }

  ghost predicate Run(states: seq<Writer>, steps: seq<Step>) {
    && |states| == |steps| + 1
    && (exists size :: states[0] == Writer(EMPTY, size, 0, 0, false))
    && forall i :: 0 <= i < |steps| ==> Enabled(states[i], steps[i]) && states[i + 1] == Next(states[i], steps[i])
  }

  /** A message appended, flushed by the close and followed by the open of the next file is an injection. */
  lemma AddIsInject(w: Writer, p: Payload)
    requires Ok(w.log) && !w.closing && SizeT(|p|)
    ensures var added := Next(w, Add(p));
            if added.closing then
              && Enabled(added, Step.Spill(Total(added.log.fs)))
              && var closed := Next(added, Step.Spill(Total(added.log.fs)));
              Enabled(closed, Create) && Next(closed, Create).log == Inject(w.log, p, w.size)
            else added.log == Inject(w.log, p, w.size)
  {
    AppendKeepsOk(w.log, p);
  }

  lemma AppendKeepsOk(l: Log, p: Payload)
    requires Ok(l)
    ensures Ok(Log(Append(l.fs, p), l.durable)) && Total(Append(l.fs, p)) == Total(l.fs) + 1
  {
    var fs := Append(l.fs, p);
    assert fs[..|fs| - 1] == l.fs[..|l.fs| - 1];
    AppendTotals(l.fs, p);
  }

  // ---- what this process has made of the files ----

  /** How many messages of file k are from an earlier process. */
  function Found(w: Writer, k: nat): nat {
    if k == w.first then w.start else 0
  }

  /** Since it was opened the file was below `size` after each of its messages; the last one may have
      reached it. */
  ghost predicate Below(f: File, found: nat, size: nat) {
    forall j :: found < j < |f| ==> Size(f[..j]) < size
  }

  ghost predicate Reached(f: File, found: nat, size: nat) {
    found < |f| && Size(f) >= size && Below(f, found, size)
  }

  ghost predicate Inv(w: Writer) {
    && Ok(w.log) && R.SizesFit(w.log.fs)
    && w.first < |w.log.fs| && w.start <= |w.log.fs[w.first]|
    && (forall k :: w.first <= k < |w.log.fs| - 1 ==> Reached(w.log.fs[k], Found(w, k), w.size))
    && var k := |w.log.fs| - 1;
       if w.closing then Reached(w.log.fs[k], Found(w, k), w.size)
       else Below(w.log.fs[k], Found(w, k), w.size) && (Found(w, k) < |w.log.fs[k]| ==> Size(w.log.fs[k]) < w.size)
  }

  lemma StepInv(w: Writer, s: Step)
    requires Inv(w) && Enabled(w, s)
    ensures Inv(Next(w, s))
  {
    hide Total, Size, Reached, Below;
    var t, last := Next(w, s), |w.log.fs| - 1;
    match s
    case Add(p) =>
      AppendKeepsOk(w.log, p);
      AddedFile(w.log.fs[last], p, Found(w, last), w.size);
    case Spill(n) =>
    case Create =>
      Created(w);
    case Restart(size) =>
      NothingAdded(t.log.fs[last], size);
  }

  lemma AddedFile(f: File, p: Payload, found: nat, size: nat)
    requires Below(f, found, size) && (found < |f| ==> Size(f) < size) && found <= |f|
    ensures Below(f + [p], found, size)
    ensures Size(f + [p]) >= size ==> Reached(f + [p], found, size)
  {
    hide Size;
    forall j | found < j < |f + [p]|
      ensures Size((f + [p])[..j]) < size
    {
      assert (f + [p])[..j] == f[..j];
      assert j == |f| ==> f[..j] == f;
    }
  }

  lemma NothingAdded(f: File, size: nat)
    ensures Below(f, |f|, size)
  {
  }

  lemma Created(w: Writer)
    requires Inv(w) && Enabled(w, Create)
    ensures Inv(Next(w, Create))
  {
    hide Size;
    var t := Next(w, Create);
    RollTotals(w.log.fs);
    assert t.log.fs[..|t.log.fs| - 1] == w.log.fs;
  }

  lemma {:induction false} RunInv(states: seq<Writer>, steps: seq<Step>, i: nat)
    requires Run(states, steps) && i < |states|
    ensures Inv(states[i])
  {
    hide Inv, Next, Enabled;
    if i == 0 {
      var size :| states[0] == Writer(EMPTY, size, 0, 0, false);
      Started(size);
    } else {
      RunInv(states, steps, i - 1);
      StepInv(states[i - 1], steps[i - 1]);
    }
  }

  lemma Started(size: nat)
    ensures Inv(Writer(EMPTY, size, 0, 0, false))
  {
  }

  // ---- the switch ----

  /** How long file k was when this process began to write it. */
  function FoundSize(w: Writer, k: nat): nat
    requires w.first < |w.log.fs| && w.start <= |w.log.fs[w.first]|
  {
    if k == w.first then Size(w.log.fs[w.first][..w.start]) else 0
  }

  /** At the read: the next file exists already, or this writer has taken the file over `size` by now. */
  ghost predicate Done(w: Writer, r: R.Reader)
    requires Inv(w)
  {
    r.cp.id < w.first || (r.cp.offset >= w.size && r.cp.offset > FoundSize(w, r.cp.id))
  }

  lemma StepGrows(w: Writer, s: Step, r: R.Reader, n: nat)
    requires Inv(w) && Enabled(w, s) && !s.Restart?
    requires R.Following(r, w.log, n)
    ensures var t := Next(w, s);
            && t.first == w.first && t.start == w.start && t.size == w.size
            && Inv(t) && R.Following(r, t.log, n) && R.Index(r, t.log, n) == R.Index(r, w.log, n)
            && |w.log.fs| <= |t.log.fs| && (r.cp.id < |w.log.fs| - 1 ==> t.log.fs[r.cp.id] == w.log.fs[r.cp.id])
            && FoundSize(t, w.first) == FoundSize(w, w.first)
  {
    hide Total, Bytes, Size, R.Following, R.SizesFit, Reached, Below;
    StepInv(w, s);
    R.FollowingBounds(r, w.log, n);
    var t, k := Next(w, s), r.cp.id;
    FilesGrow(w, s, k);
    FilesGrow(w, s, w.first);
    assert t.log.fs[w.first][..w.start] == w.log.fs[w.first][..w.start];
    assert t.log.fs[k][..InFile(w.log, k)] == w.log.fs[k][..InFile(w.log, k)];
    R.GrowthKeeps(r, w.log, t.log, n);
  }

  lemma FilesGrow(w: Writer, s: Step, k: nat)
    requires Inv(w) && Enabled(w, s) && !s.Restart? && k < |w.log.fs| && Inv(Next(w, s))
    ensures var t := Next(w, s);
            && |w.log.fs| <= |t.log.fs| && t.log.fs[..k] == w.log.fs[..k] && w.log.fs[k] <= t.log.fs[k]
            && InFile(w.log, k) <= InFile(t.log, k)
            && (k < |w.log.fs| - 1 ==> t.log.fs[k] == w.log.fs[k])
  {
    hide Total, Bytes, Size, R.SizesFit, Reached, Below;
    var t, last := Next(w, s), |w.log.fs| - 1;
    assert t.log.fs[..last] == w.log.fs[..last];
    assert t.log.fs[..k] == t.log.fs[..last][..k] == w.log.fs[..last][..k] == w.log.fs[..k];
    if s.Create? {
      RollTotals(w.log.fs);
      InFileAll(w.log);
    }
  }

  lemma InFileAll(l: Log)
    requires Ok(l) && l.durable == Total(l.fs)
    ensures forall k: nat :: k < |l.fs| ==> InFile(l, k) == |l.fs[k]|
  {
  }

  /** The reader as the writer leaves it in state b: undisturbed since the read in state a. */
  lemma {:induction false} StillFollowing(states: seq<Writer>, steps: seq<Step>, a: nat, b: nat, r: R.Reader, n: nat)
    requires Run(states, steps) && a <= b < |states|
    requires forall m :: a <= m < b ==> !steps[m].Restart?
    requires R.Following(r, states[a].log, n)
    ensures Inv(states[a]) && Inv(states[b]) && R.Following(r, states[b].log, n)
    ensures var v, w, k := states[a], states[b], r.cp.id;
            && w.first == v.first && w.start == v.start && w.size == v.size &&
                FoundSize(w, v.first) == FoundSize(v, v.first)
            && k < |v.log.fs| <= |w.log.fs| && (k < |v.log.fs| - 1 ==> w.log.fs[k] == v.log.fs[k])
    decreases b
  {
    hide Inv, Next, Enabled, FoundSize, R.Following;
    RunInv(states, steps, a);
    R.FollowingBounds(r, states[a].log, n);
    if a < b {
      StillFollowing(states, steps, a, b - 1, r, n);
      StepGrows(states[b - 1], steps[b - 1], r, n);
    }
  }

  /** A read in state a returned nothing, no message is left in the buffer, and the next file is opened in
      state b, whatever the same process has written in between. The switch skips no message exactly if the
      next file existed at the read already or the reader, being at `size` bytes or more, was past what
      the process had found in the file when it began to write it. */
  lemma SwitchIsExact(states: seq<Writer>, steps: seq<Step>, a: nat, b: nat, r: R.Reader, n: nat)
    requires Run(states, steps) && a <= b < |states|
    requires forall m :: a <= m < b ==> !steps[m].Restart?
    requires R.Following(r, states[a].log, n)
    requires R.Taken(r).None? && R.Unread(r, Disk(states[a].log)) == 0
    requires Ok(states[b].log) && R.CanOpen(r, Disk(states[b].log), r.cp.id + 1)
    ensures Inv(states[a]) && R.Following(r, states[b].log, n)
    ensures R.Following(R.Open(r, r.cp.id + 1), states[b].log, 0)
    ensures R.Index(R.Open(r, r.cp.id + 1), states[b].log, 0) == R.Index(r, states[b].log, n) <==> Done(states[a], r)
  {
    hide Inv, Next, Enabled, R.Following, FoundSize, Done, Disk, R.Unread;
    StillFollowing(states, steps, a, b, r, n);
    InvFits(states[a]);
    InvFits(states[b]);
    R.EndOfFile(r, states[a].log, n);
    FileExists(states[b].log, r.cp.id + 1);
    R.FollowingBounds(r, states[b].log, n);
    Opened(r, states[b].log, n);
    DoneExactly(states[a], states[b], r, n);
  }

  lemma InvFits(w: Writer)
    requires Inv(w)
    ensures Ok(w.log) && R.SizesFit(w.log.fs) && w.first < |w.log.fs| && w.start <= |w.log.fs[w.first]|
  {
  }

  /** The first message of the next file comes next exactly if the reader has taken all of this one. */
  lemma Opened(r: R.Reader, l: Log, n: nat)
    requires R.Following(r, l, n) && r.window == [] && r.cp.id + 1 < |l.fs|
    ensures R.Following(R.Open(r, r.cp.id + 1), l, 0)
    ensures R.Index(R.Open(r, r.cp.id + 1), l, 0) == R.Index(r, l, n) <==> n == |l.fs[r.cp.id]|
  {
    var k := r.cp.id;
    assert l.fs[..k + 1][..k] == l.fs[..k];
    assert l.fs[k + 1][..0] == [];
  }

  lemma DoneExactly(v: Writer, w: Writer, r: R.Reader, n: nat)
    requires Inv(v) && Inv(w) && r.window == []
    requires w.first == v.first && w.start == v.start && w.size == v.size &&
        FoundSize(w, v.first) == FoundSize(v, v.first)
    requires R.Following(r, v.log, n) && R.Following(r, w.log, n) && n == InFile(v.log, r.cp.id)
    requires r.cp.id + 1 < |w.log.fs| && |v.log.fs| <= |w.log.fs|
    requires r.cp.id < |v.log.fs| - 1 ==> w.log.fs[r.cp.id] == v.log.fs[r.cp.id]
    ensures n == |w.log.fs[r.cp.id]| <==> Done(v, r)
  {
    hide Total, Size, Bytes, R.SizesFit;
    var k, f := r.cp.id, w.log.fs[r.cp.id];
    assert f[..|f|] == f;
    if k >= v.first {
      assert Reached(f, Found(w, k), w.size);
      SizeOrder(f, Found(w, k), n);
    }
  }

  lemma SizeOrder(f: File, m: nat, n: nat)
    requires m <= |f| && n <= |f|
    ensures Size(f[..m]) < Size(f[..n]) <==> m < n
    ensures Size(f[..0]) == 0
  {
    if m < n {
      SizeStrict(f, m, n);
    } else if n < m {
      SizeStrict(f, n, m);
    }
  }

  // ---- the two ways in which it fails ----

  /** A lowered `output_size`: the process found a last file that had reached the new size already. A
      reader at its end passes the size test, and the first message injected completes the file: the
      switch leaves that message behind, in every such queue. */
  lemma LoweredSizeSkips(w: Writer, size: nat, p: Payload, r: R.Reader, n: nat)
    requires Inv(w) && w.log.durable == Total(w.log.fs) && Size(QueueLog.Last(w.log.fs)) >= size
    requires SizeT(|p|)
    requires R.Following(r, w.log, n) && r.cp.id == |w.log.fs| - 1
    requires R.Taken(r).None? && R.Unread(r, Disk(w.log)) == 0
    ensures var restarted := Next(w, Restart(size));
            && restarted.log == w.log
            && r.cp.offset >= size && !R.CanOpen(r, Disk(w.log), r.cp.id + 1)
            && var l := Inject(w.log, p, size);
            && R.CanOpen(r, Disk(l), r.cp.id + 1) && R.Following(r, l, n)
            && R.Index(R.Open(r, r.cp.id + 1), l, 0) == R.Index(r, l, n) + 1
  {
    hide Bytes, Size, R.SizesFit, Reached, Below, Total;
    var k, l := r.cp.id, Inject(w.log, p, size);
    R.EndOfFile(r, w.log, n);
    Unflushed(w.log);
    FileExists(w.log, k + 1);
    FileExists(l, k + 1);
    InjectShape(w.log, p, size);
    Larger(QueueLog.Last(w.log.fs), p);
    R.WriterKeeps(r, w.log, n, QueueLog.Write(p), size);
    assert l.fs[..k + 1][..k] == l.fs[..k];
    LastFile(l.fs[..k + 1]);
  }

  lemma Unflushed(l: Log)
    requires Ok(l) && l.durable == Total(l.fs)
    ensures Recover(l) == l && InFile(l, |l.fs| - 1) == |QueueLog.Last(l.fs)|
    ensures |Disk(l)[|l.fs| - 1]| == Size(QueueLog.Last(l.fs))
  {
    var f := QueueLog.Last(l.fs);
    assert f[..|f|] == f;
    assert Truncate(l.fs, l.durable) == l.fs;
  }

  lemma Larger(f: File, p: Payload)
    ensures Size(f + [p]) >= Size(f)
  {
    BytesSnoc(f, p);
  }

  /** A queue of one file below 10 bytes, its only message flushed; and what one more empty message
      makes of it when files roll at 10 bytes. */
  const BEFORE := Log([[[]]], 1)
  const AFTER := Log([[[], []], []], 2)
  const AT_END := R.Reader(Some(0), Checkpoint(0, 5), [])

  lemma BeforeFollows()
    ensures R.Following(AT_END, BEFORE, 1)
    ensures FreshSizes(BEFORE, 10)
    ensures R.Unread(AT_END, Disk(BEFORE)) == 0 && Disk(BEFORE).Keys == {0}
  {
    var one := BEFORE.fs[0];
    assert BEFORE.fs[..0] == [];
    assert one[..0] == [] && one[..1] == one && one[1..1] == [];
    assert Size(one) == Size(one[..0]) + FrameLen(one[0]);
  }

  lemma BeforeBecomesAfter()
    requires Ok(BEFORE)
    ensures Inject(BEFORE, [], 10) == AFTER
  {
    var one := BEFORE.fs[0];
    var empty: Payload := [];
    assert BEFORE.fs[..0] == [];
    var fs := Append(BEFORE.fs, empty);
    assert fs == [one + [empty]];
    assert one + [empty] == AFTER.fs[0];
    assert Roll(fs) == AFTER.fs;
    BytesSnoc(one, empty);
    assert one[..0] == [];
    assert Size(one) == Size(one[..0]) + FrameLen(one[0]);
    AppendTotals(BEFORE.fs, empty);
  }

  /** The look-ahead can skip a message: the reader is at the end of file 0, below `output_size`;
      before it opens file 1 the writer appends one more message to file 0, which completes it.
      The switch leaves that message behind. */
  lemma LookAheadSkips()
    ensures R.Following(AT_END, BEFORE, 1) && FreshSizes(BEFORE, 10)
    ensures R.Taken(AT_END).None? && R.Unread(AT_END, Disk(BEFORE)) == 0 && !R.CanOpen(AT_END, Disk(BEFORE), 1)
    ensures Inject(BEFORE, [], 10) == AFTER
    ensures Ok(AFTER) && R.CanOpen(AT_END, Disk(AFTER), 1)
    ensures R.Following(AT_END, AFTER, 1) && R.Index(AT_END, AFTER, 1) == 1
    ensures R.Following(R.Open(AT_END, 1), AFTER, 0) && R.Index(R.Open(AT_END, 1), AFTER, 0) == 2
  {
    BeforeFollows();
    BeforeBecomesAfter();
    AfterFollows();
    StillFollows();
    assert !R.CanOpen(AT_END, Disk(BEFORE), 1) by {
      assert 1 !in Disk(BEFORE).Keys;
    }
  }

  lemma StillFollows()
    ensures R.Following(AT_END, AFTER, 1)
  {
    BeforeFollows();
    BeforeBecomesAfter();
    R.WriterKeeps(AT_END, BEFORE, 1, QueueLog.Write([]), 10);
  }

  lemma AfterFollows()
    ensures Ok(AFTER) && 1 in Disk(AFTER)
    ensures R.Index(AT_END, AFTER, 1) == 1 && R.Index(R.Open(AT_END, 1), AFTER, 0) == 2
    ensures R.Following(R.Open(AT_END, 1), AFTER, 0)
  {
    assert AFTER.fs[..0] == [] && AFTER.fs[..1][..0] == [];
    assert Total(AFTER.fs[..1]) == Total(AFTER.fs[..1][..0]) + 2;
    assert AFTER.fs[1][0..0] == [] && AFTER.fs[1][..0] == [];
  }

  // ---- the guard of the reader loops ----

  /** A reader with its flag `next`: whether the last open succeeded, which is so at first. */
  datatype Guarded = Guarded(s: R.State, next: bool)

  datatype Turn = Plain(e: R.Event) | Look

  /** At the end of a file the loop looks for the next one if this one is full or its last look found one. */
  ghost predicate TurnEnabled(g: Guarded, t: Turn, outputSize: nat) {
    match t
    case Plain(e) => !e.Switch? && R.Enabled(g.s, e)
    case Look =>
      && Ok(g.s.log) && R.Taken(g.s.reader).None? && R.Unread(g.s.reader, Disk(g.s.log)) == 0
      && (g.s.reader.cp.offset >= outputSize || g.next)
  }

  ghost function TurnNext(g: Guarded, t: Turn, outputSize: nat): Guarded
    requires TurnEnabled(g, t, outputSize)
  {
    match t
    case Plain(e) => g.(s := R.Step1(g.s, e, outputSize))
    case Look =>
      if R.CanOpen(g.s.reader, Disk(g.s.log), g.s.reader.cp.id + 1)
      then Guarded(R.Step1(g.s, R.Switch, outputSize), true)
      else g.(next := false)
  }

  ghost predicate Turns(states: seq<Guarded>, turns: seq<Turn>, outputSize: nat, start: nat) {
    && |states| == |turns| + 1
    && R.Init(states[0].s, start) && states[0].next
    && forall i :: 0 <= i < |turns| ==>
         TurnEnabled(states[i], turns[i], outputSize) && states[i + 1] == TurnNext(states[i], turns[i], outputSize)
  }

  /** Turn m is the last look, and it found the next file. */
  ghost predicate FoundAt(states: seq<Guarded>, turns: seq<Turn>, m: nat, i: nat)
    requires m < i <= |turns| && |turns| < |states|
  {
    && turns[m] == Look && states[m].s.reader.cp.id < states[m + 1].s.reader.cp.id
    && forall k :: m < k < i ==> turns[k] != Look
  }

  /** The flag says whether the last look found a file, and it is set as long as there has been none. */
  lemma {:induction false} FlagIsLastLook(states: seq<Guarded>, turns: seq<Turn>, outputSize: nat, start: nat, i: nat)
    requires Turns(states, turns, outputSize, start) && i <= |turns|
    ensures states[i].next <==>
              || (forall k :: 0 <= k < i ==> turns[k] != Look)
              || exists m: nat :: m < i && FoundAt(states, turns, m, i)
  {
    hide TurnNext, TurnEnabled, R.Inv, Sure, FoundAt;
    if i > 0 {
      var last := i - 1;
      FlagIsLastLook(states, turns, outputSize, start, last);
      TurnsKeep(states, turns, outputSize, start, last);
      FlagNext(states[last], turns[last], outputSize, start);
      forall m: nat | m < last
        ensures FoundAt(states, turns, m, i) <==> FoundAt(states, turns, m, last) && turns[last] != Look
      {
        FoundEarlier(states, turns, m, last);
      }
      FoundNow(states, turns, last);
      if m: nat :| m < last && FoundAt(states, turns, m, last) {
        assert FoundAt(states, turns, m, i) <==> turns[last] != Look;
      }
    }
  }

  lemma FoundEarlier(states: seq<Guarded>, turns: seq<Turn>, m: nat, last: nat)
    requires m < last < |turns| < |states|
    ensures FoundAt(states, turns, m, last + 1) <==> FoundAt(states, turns, m, last) && turns[last] != Look
  {
  }

  lemma FoundNow(states: seq<Guarded>, turns: seq<Turn>, last: nat)
    requires last < |turns| < |states|
    ensures FoundAt(states, turns, last, last + 1) <==>
            turns[last] == Look && states[last].s.reader.cp.id < states[last + 1].s.reader.cp.id
  {
  }

  lemma FlagNext(g: Guarded, t: Turn, outputSize: nat, start: nat)
    requires R.Inv(g.s, start) && TurnEnabled(g, t, outputSize)
    ensures var h := TurnNext(g, t, outputSize);
            if t == Look then h.next <==> g.s.reader.cp.id < h.s.reader.cp.id else h.next == g.next
  {
    hide R.Inv, Disk;
    ReaderBounds(g.s, start);
  }

  /** The reader is in the last file, or in one that this writer has filled, unless its last look went well. */
  ghost predicate Sure(g: Guarded, outputSize: nat) {
    var fs, k := g.s.log.fs, g.s.reader.cp.id;
    g.next || k + 1 >= |fs| || Size(fs[k]) >= outputSize
  }

  lemma TurnKeeps(g: Guarded, t: Turn, outputSize: nat, start: nat)
    requires R.Inv(g.s, start) && Sure(g, outputSize) && TurnEnabled(g, t, outputSize)
    ensures R.Inv(TurnNext(g, t, outputSize).s, start) && Sure(TurnNext(g, t, outputSize), outputSize)
  {
    hide Total, Bytes, Size, Flat, R.SizesFit, R.Following, Disk, R.Inv;
    ReaderBounds(g.s, start);
    match t
    case Plain(e) =>
      R.InvKept(g.s, e, outputSize, start);
      if e.Writer? && e.step.Write? {
        InjectShape(g.s.log, e.step.p, outputSize);
        SameFile(g.s.log, e.step.p, outputSize, g.s.reader.cp.id);
      }
    case Look =>
      FileExists(g.s.log, g.s.reader.cp.id + 1);
      if R.CanOpen(g.s.reader, Disk(g.s.log), g.s.reader.cp.id + 1) {
        R.InvKept(g.s, R.Switch, outputSize, start);
      }
  }

  lemma ReaderBounds(s: R.State, start: nat)
    requires R.Inv(s, start)
    ensures Ok(s.log) && s.reader.cp.id < |s.log.fs| && s.reader.file == Some(s.reader.cp.id)
  {
  }

  lemma SameFile(l: Log, p: Payload, outputSize: nat, k: nat)
    requires Ok(l) && k < |l.fs|
    ensures k < |Inject(l, p, outputSize).fs|
    ensures k + 1 < |l.fs| ==> Inject(l, p, outputSize).fs[k] == l.fs[k]
  {
    var last, fs := |l.fs| - 1, Inject(l, p, outputSize).fs;
    InjectShape(l, p, outputSize);
    if k < last {
      assert fs[..last][k] == l.fs[..last][k];
    }
  }

  lemma {:induction false} TurnsKeep(states: seq<Guarded>, turns: seq<Turn>, outputSize: nat, start: nat, i: nat)
    requires Turns(states, turns, outputSize, start) && i < |states|
    ensures R.Inv(states[i].s, start) && Sure(states[i], outputSize)
  {
    hide TurnNext, TurnEnabled, R.Inv, Sure;
    if i > 0 {
      TurnsKeep(states, turns, outputSize, start, i - 1);
      TurnKeeps(states[i - 1], turns[i - 1], outputSize, start);
    } else {
      TurnsStart(states[0], outputSize, start);
    }
  }

  lemma TurnsStart(g: Guarded, outputSize: nat, start: nat)
    requires R.Init(g.s, start) && g.next
    ensures R.Inv(g.s, start) && Sure(g, outputSize)
  {
  }

  /** The loop makes no progress: nothing to take or read, and the guard is down or the next file missing. */
  ghost predicate Blocked(g: Guarded, outputSize: nat) {
    && Ok(g.s.log) && R.Taken(g.s.reader).None? && R.Unread(g.s.reader, Disk(g.s.log)) == 0
    && ((g.s.reader.cp.offset < outputSize && !g.next) || !R.CanOpen(g.s.reader, Disk(g.s.log), g.s.reader.cp.id + 1))
  }

  /** In a queue of any history the loop, guard included, comes to rest only when it has found everything
      that was flushed: the flag leads it through files that are short of the current `output_size`. */
  lemma GuardedCompleteness(states: seq<Guarded>, turns: seq<Turn>, outputSize: nat, start: nat, i: nat)
    requires Turns(states, turns, outputSize, start) && i < |states|
    requires Blocked(states[i], outputSize)
    ensures var s := states[i].s;
            Ok(s.log) && start <= s.log.durable && s.found == Flat(s.log.fs)[start..s.log.durable]
  {
    hide Total, Bytes, Size, Flat, R.SizesFit, R.Following, TurnNext, TurnEnabled, Disk, R.Inv;
    TurnsKeep(states, turns, outputSize, start, i);
    AllFound(states[i], outputSize, start);
  }

  lemma AllFound(g: Guarded, outputSize: nat, start: nat)
    requires R.Inv(g.s, start) && Sure(g, outputSize) && Blocked(g, outputSize)
    ensures start <= g.s.log.durable && g.s.found == Flat(g.s.log.fs)[start..g.s.log.durable]
  {
    hide Bytes, Size, Flat, Disk;
    var s, k := g.s, g.s.reader.cp.id;
    R.EndOfFile(s.reader, s.log, s.n);
    FileExists(s.log, k + 1);
    WholeFile(s.log, k);
  }

  lemma WholeFile(l: Log, k: nat)
    requires Ok(l) && k < |l.fs|
    ensures k + 1 < |l.fs| ==> l.fs[k][..InFile(l, k)] == l.fs[k]
  {
  }
}
