/** The delivery guarantee: across sweeps, crashes, restarts and reloads every message in the files of
    a queue has been settled by an output plugin or lies after that plugin's persisted checkpoint, and
    what a restart hands over again is exactly what lies between that checkpoint and the position reached. */
module AtLeastOnce {
  import opened Queue
  import opened Pipeline
  import opened Durability
  import D = Delivery

  ghost predicate CutDurable(inq: Tagged, anq: Tagged, c: Cut) {
    && c.input <= inq.log.durable <= Total(inq.log.fs)
    && c.analysis <= anq.log.durable <= Total(anq.log.fs)
  }

  /** The checkpoint pair behind the messages of a cut. */
  ghost function PairOf(inq: Tagged, anq: Tagged, c: Cut): D.Pair
    requires CutDurable(inq, anq, c)
  {
    D.Pair(PosAfter(inq.log.fs, c.input), PosAfter(anq.log.fs, c.analysis))
  }

  predicate CutAtMost(a: Cut, b: Cut) {
    a.input <= b.input && a.analysis <= b.analysis
  }

  // ---- one life ----

  /** Message j of the life is message CutAt(cuts[j], src[j]) of its queue; the recorded positions are
      the checkpoint pairs behind the cuts. */
  ghost predicate Counted(life: Life) {
    && |life.cuts| == |life.session.h.pos| == |life.session.h.src| + 1
    && forall k :: 0 <= k < |life.session.h.src| ==> life.cuts[k + 1] == CutNext(life.cuts[k], life.session.h.src[k])
  }

  ghost predicate Positioned(inq: Tagged, anq: Tagged, life: Life) {
    && |life.cuts| == |life.session.h.pos|
    && forall k :: 0 <= k < |life.cuts| ==>
         CutDurable(inq, anq, life.cuts[k]) && life.session.h.pos[k] == PairOf(inq, anq, life.cuts[k])
  }

  ghost predicate LifeOk(inq: Tagged, anq: Tagged, life: Life) {
    D.Inv(life.session) && Counted(life) && Positioned(inq, anq, life)
  }

  /** Message x of a queue was taken in this life. */
  ghost predicate TakenIn(life: Life, src: D.Source, x: nat) {
    exists j :: 0 <= j < |life.session.h.src| && j < |life.cuts| && TakenAs(life, src, x, j)
  }

  ghost predicate TakenAs(life: Life, src: D.Source, x: nat, j: nat) {
    j < |life.session.h.src| && j < |life.cuts| && life.session.h.src[j] == src && CutAt(life.cuts[j], src) == x
  }

  /** ... and settled: sent, acknowledged, or explicitly failed or skipped. */
  ghost predicate SettledIn(life: Life, src: D.Source, x: nat) {
    exists j :: 0 <= j < |life.session.h.src| && j < |life.cuts| && TakenAs(life, src, x, j) &&
        j in life.session.h.settled
  }

  lemma {:induction false} CutsRise(life: Life, i: nat, j: nat)
    requires Counted(life)
    requires i <= j < |life.cuts|
    ensures CutAtMost(life.cuts[i], life.cuts[j])
    decreases j
  {
    if i < j {
      CutsRise(life, i, j - 1);
    }
  }

  /** The messages of a queue before the k-th cut are those before the life began and those that its
      first k steps took, each of them. */
  lemma {:induction false} CutsCount(life: Life, src: D.Source, k: nat, x: nat) returns (j: nat)
    requires Counted(life)
    requires k < |life.cuts|
    requires CutAt(life.cuts[0], src) <= x < CutAt(life.cuts[k], src)
    ensures j < k && TakenAs(life, src, x, j)
  {
    if x < CutAt(life.cuts[k - 1], src) {
      j := CutsCount(life, src, k - 1, x);
    } else {
      j := k - 1;
    }
  }

  /** What a life takes from a queue is a gapless stretch of it, and takes none of it twice. */
  lemma TakenExactly(life: Life, src: D.Source, x: nat)
    requires Counted(life)
    ensures TakenIn(life, src, x) <==> CutAt(life.cuts[0], src) <= x < CutAt(Last(life.cuts), src)
    ensures forall i: nat, j: nat :: TakenAs(life, src, x, i) && TakenAs(life, src, x, j) ==> i == j
  {
    forall j: nat | TakenAs(life, src, x, j)
      ensures CutAt(life.cuts[0], src) <= x < CutAt(Last(life.cuts), src)
    {
      CutsRise(life, 0, j);
      CutsRise(life, j + 1, |life.cuts| - 1);
    }
    if CutAt(life.cuts[0], src) <= x < CutAt(Last(life.cuts), src) {
      var j := CutsCount(life, src, |life.cuts| - 1, x);
      assert TakenAs(life, src, x, j);
    }
    forall i: nat, j: nat | TakenAs(life, src, x, i) && TakenAs(life, src, x, j)
      ensures i == j
    {
      if i < j {
        CutsRise(life, i + 1, j);
      } else if j < i {
        CutsRise(life, j + 1, i);
      }
    }
  }

  // ---- all lives of a plugin ----

  ghost predicate Settled(c: Consumer, src: D.Source, x: nat) {
    SettledIn(c.now, src, x) || exists l :: 0 <= l < |c.past| && SettledIn(c.past[l], src, x)
  }

  ghost predicate SettledBelow(c: Consumer, cut: Cut) {
    forall src: D.Source, x: nat :: x < CutAt(cut, src) ==> Settled(c, src, x)
  }

  ghost predicate MarkOk(inq: Tagged, anq: Tagged, c: Consumer, m: PairMark) {
    && CutDurable(inq, anq, m.cut)
    && m.cp == PairOf(inq, anq, m.cut)
    && SettledBelow(c, m.cut)
  }

  ghost predicate Facts(inq: Tagged, anq: Tagged, c: Consumer, t: PairMark, d: PairMark) {
    && LifeOk(inq, anq, c.now)
    && SettledBelow(c, c.now.cuts[0])
    && MarkOk(inq, anq, c, t) && MarkOk(inq, anq, c, d)
    && CutAtMost(d.cut, t.cut) && CutAtMost(t.cut, c.now.cuts[c.now.session.h.covered])
  }

  ghost predicate OutputInv(s: Sys, o: nat) {
    && Shaped(s) && o < |s.outputs|
    && Facts(s.inq, s.anq, s.outputs[o], s.table.outputs[o], s.disk.outputs[o])
  }

  /** Everything up to the checkpoint of the current life is settled. */
  lemma CoveredSettled(inq: Tagged, anq: Tagged, c: Consumer)
    requires LifeOk(inq, anq, c.now) && SettledBelow(c, c.now.cuts[0])
    ensures CanRestart(c)
    ensures MarkOk(inq, anq, c, MarkOf(c))
  {
    hide PosAfter, Total;
    var life := c.now;
    var k := life.session.h.covered;
    forall src: D.Source, x: nat | x < CutAt(life.cuts[k], src)
      ensures Settled(c, src, x)
    {
      if x >= CutAt(life.cuts[0], src) {
        var j := CutsCount(life, src, k, x);
        assert j in life.session.h.settled;
      }
    }
  }

  // ---- steps ----

  lemma PositionedPersists(inq: Tagged, anq: Tagged, inq': Tagged, anq': Tagged, life: Life)
    requires Positioned(inq, anq, life)
    requires Persists(inq, inq') && Persists(anq, anq')
    ensures Positioned(inq', anq', life)
  {
    hide PosAfter, Total;
    forall k | 0 <= k < |life.cuts|
      ensures CutDurable(inq', anq', life.cuts[k]) && life.session.h.pos[k] == PairOf(inq', anq', life.cuts[k])
    {
      CutPersists(inq, anq, inq', anq', life.cuts[k]);
    }
  }

  lemma CutPersists(inq: Tagged, anq: Tagged, inq': Tagged, anq': Tagged, c: Cut)
    requires CutDurable(inq, anq, c)
    requires Persists(inq, inq') && Persists(anq, anq')
    ensures CutDurable(inq', anq', c) && PairOf(inq', anq', c) == PairOf(inq, anq, c)
  {
    hide PosAfter;
  }

  lemma FactsPersist(inq: Tagged, anq: Tagged, inq': Tagged, anq': Tagged, c: Consumer, t: PairMark, d: PairMark)
    requires Facts(inq, anq, c, t, d)
    requires Persists(inq, inq') && Persists(anq, anq')
    ensures Facts(inq', anq', c, t, d)
  {
    hide PosAfter, Total, Persists, SettledBelow, D.Inv, Positioned;
    PositionedPersists(inq, anq, inq', anq', c.now);
    CutPersists(inq, anq, inq', anq', t.cut);
    CutPersists(inq, anq, inq', anq', d.cut);
  }

  /** What is settled stays settled, in the same life and in the next. */
  lemma SettledBelowGrows(c: Consumer, c': Consumer, cut: Cut)
    requires SettledBelow(c, cut)
    requires forall src: D.Source, x: nat :: Settled(c, src, x) ==> Settled(c', src, x)
    ensures SettledBelow(c', cut)
  {
  }

  lemma SettledInGrows(life: Life, life': Life, src: D.Source, x: nat)
    requires SettledIn(life, src, x)
    requires life.session.h.src <= life'.session.h.src && life.cuts <= life'.cuts
    requires life.session.h.settled <= life'.session.h.settled
    ensures SettledIn(life', src, x)
  {
    var j :| 0 <= j < |life.session.h.src| && j < |life.cuts| && TakenAs(life, src, x, j) &&
        j in life.session.h.settled;
    assert TakenAs(life', src, x, j);
  }

  lemma OutputLifeOk(s: Sys, life: Life, e: D.Event)
    requires LifeOk(s.inq, s.anq, life) && OutputEnabled(s, life, e)
    ensures LifeOk(s.inq, s.anq, OutputStep(s, life, e))
  {
    hide PosAfter, Total, D.Inv;
    var life' := OutputStep(s, life, e);
    D.InvKept(life.session, e);
    InvShape(life.session);
    if e.Taking? {
      TakingPositions(s, life, e.src, e.pos);
    } else {
      SamePositions(life.session, e);
    }
  }

  lemma InvShape(s: D.Session)
    requires D.Inv(s)
    ensures D.Shaped(s) && s.d.cur == s.h.pos[|s.h.src|]
  {
  }

  lemma SamePositions(s: D.Session, e: D.Event)
    requires D.Inv(s) && D.Enabled(s, e) && !e.Taking?
    ensures D.Next(s, e).h.pos == s.h.pos && D.Next(s, e).h.src == s.h.src
  {
  }

  lemma TakingPositions(s: Sys, life: Life, src: D.Source, pos: Checkpoint)
    requires LifeOk(s.inq, s.anq, life) && OutputEnabled(s, life, D.Taking(src, pos))
    ensures var life' := OutputStep(s, life, D.Taking(src, pos)); Counted(life') && Positioned(s.inq, s.anq, life')
  {
    hide PosAfter, Total;
    var life' := OutputStep(s, life, D.Taking(src, pos));
    var top := |life.cuts| - 1;
    assert life.session.d.cur == life.session.h.pos[top] == PairOf(s.inq, s.anq, life.cuts[top]);
    forall k | 0 <= k < |life'.cuts|
      ensures CutDurable(s.inq, s.anq, life'.cuts[k]) && life'.session.h.pos[k] == PairOf(s.inq, s.anq, life'.cuts[k])
    {
      if k <= top {
        assert life'.cuts[k] == life.cuts[k] && life'.session.h.pos[k] == life.session.h.pos[k];
      }
    }
  }

  lemma OutputFacts(s: Sys, o: nat, e: D.Event)
    requires OutputInv(s, o) && OutputEnabled(s, s.outputs[o].now, e)
    ensures var c := s.outputs[o];
            Facts(s.inq, s.anq, c.(now := OutputStep(s, c.now, e)), s.table.outputs[o], s.disk.outputs[o])
  {
    hide PosAfter, Total, D.Inv, Settled, SettledBelow, CutDurable;
    var c := s.outputs[o];
    var life, life' := c.now, OutputStep(s, c.now, e);
    var c' := c.(now := life');
    OutputLifeOk(s, life, e);
    D.StepGrows(life.session, e);
    SettledGrowsInLife(c, life');
    SettledBelowGrows(c, c', life.cuts[0]);
    SettledBelowGrows(c, c', s.table.outputs[o].cut);
    SettledBelowGrows(c, c', s.disk.outputs[o].cut);
    InvShape(life.session);
    InvShape(life'.session);
    CutsRise(life', life.session.h.covered, life'.session.h.covered);
  }

  lemma SettledGrowsInLife(c: Consumer, life: Life)
    requires c.now.session.h.src <= life.session.h.src && c.now.cuts <= life.cuts
    requires c.now.session.h.settled <= life.session.h.settled
    ensures forall src: D.Source, x: nat :: Settled(c, src, x) ==> Settled(c.(now := life), src, x)
  {
    hide SettledIn;
    forall src: D.Source, x: nat | Settled(c, src, x)
      ensures Settled(c.(now := life), src, x)
    {
      if SettledIn(c.now, src, x) {
        SettledInGrows(c.now, life, src, x);
      }
    }
  }

  lemma RestartedFacts(inq: Tagged, anq: Tagged, c: Consumer, m: PairMark, d: PairMark)
    requires MarkOk(inq, anq, c, m) && MarkOk(inq, anq, c, d)
    requires CutAtMost(d.cut, m.cut)
    ensures Facts(inq, anq, Restarted(c, m), m, d)
  {
    hide PosAfter, Total, D.Inv, Settled, SettledBelow;
    var c' := Restarted(c, m);
    SettledGrowsOverRestart(c, m);
    SettledBelowGrows(c, c', m.cut);
    SettledBelowGrows(c, c', d.cut);
    D.BeginInv(c.asyncLen, m.cp);
  }

  lemma SettledGrowsOverRestart(c: Consumer, m: PairMark)
    ensures forall src: D.Source, x: nat :: Settled(c, src, x) ==> Settled(Restarted(c, m), src, x)
  {
    hide SettledIn;
    var c' := Restarted(c, m);
    assert c'.past[|c.past|] == c.now;
    forall src: D.Source, x: nat | Settled(c, src, x)
      ensures Settled(c', src, x)
    {
      if !SettledIn(c.now, src, x) {
        var l :| 0 <= l < |c.past| && SettledIn(c.past[l], src, x);
        assert c'.past[l] == c.past[l];
      }
    }
  }

  /** A position stored in one queue and not yet in the other: each is settled up to. */
  lemma EndingFacts(inq: Tagged, anq: Tagged, c: Consumer, t: PairMark, d: PairMark)
    requires Facts(inq, anq, c, t, d) && CanRestart(c) && MarkOk(inq, anq, c, MarkOf(c))
    ensures Facts(inq, anq, c.(ending := true), HalfStored(t, MarkOf(c)), d)
  {
    hide PosAfter, Total, LifeOk, SettledIn;
    var c' := c.(ending := true);
    forall src: D.Source, x: nat | Settled(c, src, x)
      ensures Settled(c', src, x)
    {
    }
  }

  lemma OutputStepInv(s: Sys, a: Action, o: nat)
    requires OutputInv(s, o) && Enabled(s, a)
    ensures OutputInv(Next(s, a), o)
  {
    hide PosAfter, Total, LifeOk, SettledBelow, Grows, Persists, Restarted;
    var t := Next(s, a);
    QueueSteps(s, a);
    var c, m, d := s.outputs[o], s.table.outputs[o], s.disk.outputs[o];
    FactsPersist(s.inq, s.anq, t.inq, t.anq, c, m, d);
    CoveredSettled(t.inq, t.anq, c);
    match a
    case Output(k, e) =>
      if k == o {
        OutputFacts(s, o, e);
      }
    case EndOutput(k) =>
      if k == o {
        EndingFacts(t.inq, t.anq, c, m, d);
      }
    case ReloadOutput(k) =>
      if k == o {
        RestartedFacts(t.inq, t.anq, c, MarkOf(c), d);
      }
    case CrashAndRestart(_) =>
      RestartedFacts(t.inq, t.anq, c, d, d);
    case _ =>
  }

  lemma OutputInit(s: Sys, o: nat)
    requires Init(s) && o < |s.outputs|
    ensures OutputInv(s, o)
  {
    D.BeginInv(s.outputs[o].asyncLen, D.NOWHERE);
  }

  lemma {:induction false} OutputRun(states: seq<Sys>, actions: seq<Action>, k: nat, o: nat)
    requires Run(states, actions)
    requires k < |states| && OutputOf(states, o)
    ensures OutputInv(states[k], o)
  {
    hide OutputInv, Init, Enabled, Next;
    if k == 0 {
      OutputInit(states[0], o);
    } else {
      OutputRun(states, actions, k - 1, o);
      OutputStepInv(states[k - 1], actions[k - 1], o);
    }
  }

  // ---- the guarantee ----

  /** No loss. In every reachable state, a message that has reached the files of a queue either has been
      settled by the output plugin or lies after the plugin's persisted checkpoint. */
  lemma NothingLost(states: seq<Sys>, actions: seq<Action>, k: nat, o: nat, src: D.Source, x: nat)
    requires Run(states, actions)
    requires k < |states| && OutputOf(states, o)
    ensures var s := states[k];
            var q := QueueOf(s, src);
            && Shaped(s) && o < |s.outputs|
            && (x < q.log.durable ==>
                  && x + 1 <= Total(q.log.fs)
                  && (Settled(s.outputs[o], src, x) ||
                      Before(D.At(s.disk.outputs[o].cp, src), PosAfter(q.log.fs, x + 1))))
  {
    hide OutputInv;
    OutputRun(states, actions, k, o);
    OutputShape(states[k], o);
    if x < QueueOf(states[k], src).log.durable {
      PersistedSettles(states[k], o, src, x);
    }
  }

  lemma OutputShape(s: Sys, o: nat)
    requires OutputInv(s, o)
    ensures Shaped(s) && o < |s.outputs|
  {
  }

  lemma PersistedSettles(s: Sys, o: nat, src: D.Source, x: nat)
    requires OutputInv(s, o)
    requires x < QueueOf(s, src).log.durable
    ensures x + 1 <= Total(QueueOf(s, src).log.fs)
    ensures Settled(s.outputs[o], src, x) ||
            Before(D.At(s.disk.outputs[o].cp, src), PosAfter(QueueOf(s, src).log.fs, x + 1))
  {
    hide Total, PosAfter, LifeOk, Settled;
    var q := QueueOf(s, src);
    var cut := s.disk.outputs[o].cut;
    PosOrder(q.log.fs, CutAt(cut, src), x + 1);
  }

  /** In state t the plugin stands where it stood in the persisted table of state s, behind `cut` messages: the next one
      that it takes from a queue is the first one after that. */
  ghost predicate Resumed(s: Sys, t: Sys, o: nat) {
    && OutputInv(t, o) && o < |s.outputs| && o < |s.disk.outputs|
    && t.outputs[o].past == s.outputs[o].past + [s.outputs[o].now]
    && t.outputs[o].now.cuts == [s.disk.outputs[o].cut]
    && CutDurable(t.inq, t.anq, s.disk.outputs[o].cut)
    && t.outputs[o].now.session.d.cur == s.disk.outputs[o].cp == PairOf(t.inq, t.anq, s.disk.outputs[o].cut)
    && forall src: D.Source, pos: Checkpoint :: OutputEnabled(t, t.outputs[o].now, D.Taking(src, pos)) ==>
         var i := CutAt(s.disk.outputs[o].cut, src) + 1;
         i <= Total(QueueOf(t, src).log.fs) && pos == PosAfter(QueueOf(t, src).log.fs, i)
  }

  /** After a crash the plugin resumes at its persisted checkpoint. */
  lemma RestartResumes(s: Sys, o: nat, size: nat)
    requires OutputInv(s, o)
    ensures Resumed(s, Next(s, CrashAndRestart(size)), o)
  {
    hide PosAfter, Total, LifeOk, SettledBelow, Grows, Persists;
    OutputStepInv(s, CrashAndRestart(size), o);
    RestartLook(s, o, size);
  }

  lemma RestartLook(s: Sys, o: nat, size: nat)
    requires Shaped(s) && o < |s.outputs|
    ensures var t := Next(s, CrashAndRestart(size));
            && t.outputs[o] == Restarted(s.outputs[o], s.disk.outputs[o])
            && t.disk == t.table == s.disk
  {
  }

  /** What one life keeps: its beginning and the lives before it, until it ends. */
  lemma LifeGoesOn(s: Sys, a: Action, o: nat)
    requires OutputInv(s, o) && Enabled(s, a)
    ensures o < |s.outputs| && o < |Next(s, a).outputs|
    ensures var c, c' := s.outputs[o], Next(s, a).outputs[o];
            if a.CrashAndRestart? || (a.ReloadOutput? && a.o == o)
            then c'.past == c.past + [c.now] && |c'.now.cuts| == 1
            else c'.past == c.past && c.now.cuts <= c'.now.cuts && c.now.session.h.pos <= c'.now.session.h.pos
  {
    hide PosAfter, Total, LifeOk, SettledBelow, Grows, Persists, Next, Restarted, OutputStep, MarkOf;
    OutputAfter(s, a, o);
    var c := s.outputs[o];
    match a
    case Output(k, e) =>
      if k == o {
        StepExtends(s, c.now, e);
      }
    case ReloadOutput(k) =>
      if k == o {
        CoveredSettled(s.inq, s.anq, c);
        RestartExtends(c, MarkOf(c));
      }
    case CrashAndRestart(_) =>
      RestartExtends(c, s.disk.outputs[o]);
    case _ =>
  }

  lemma StepExtends(s: Sys, life: Life, e: D.Event)
    requires OutputEnabled(s, life, e)
    ensures life.cuts <= OutputStep(s, life, e).cuts
    ensures life.session.h.pos <= OutputStep(s, life, e).session.h.pos
  {
    hide PosAfter, Total;
  }

  lemma RestartExtends(c: Consumer, m: PairMark)
    ensures Restarted(c, m).past == c.past + [c.now] && |Restarted(c, m).now.cuts| == 1
  {
  }

  /** What a step does to one output plugin. */
  lemma OutputAfter(s: Sys, a: Action, o: nat)
    requires Enabled(s, a) && o < |s.outputs|
    ensures o < |Next(s, a).outputs| && o < |s.disk.outputs|
    ensures var c := s.outputs[o];
            var c' := Next(s, a).outputs[o];
            match a
            case Output(k, e) => c' == if k == o then c.(now := OutputStep(s, c.now, e)) else c
            case EndOutput(k) => c' == if k == o then c.(ending := true) else c
            case ReloadOutput(k) => c' == if k == o then Restarted(c, MarkOf(c)) else c
            case CrashAndRestart(_) => c' == Restarted(c, s.disk.outputs[o])
            case _ => c' == c
  {
    hide PosAfter, Total, QOk, Inserted, Flushed, Recovered, OutputStep, Restarted, MarkOf, CanRestart, OutputEnabled;
  }

  /** Neither a crash nor a reload ends the plugin's life between the two states. */
  predicate LivesOn(actions: seq<Action>, o: nat, first: nat, last: nat) {
    forall k :: first <= k < last && k < |actions| ==> !actions[k].CrashAndRestart? && actions[k] != ReloadOutput(o)
  }

  lemma {:induction false} SameLife(states: seq<Sys>, actions: seq<Action>, o: nat, first: nat,
                                    last: nat)
    requires Run(states, actions)
    requires first <= last < |states| && OutputOf(states, o)
    requires LivesOn(actions, o, first, last)
    ensures OutputInv(states[first], o) && OutputInv(states[last], o)
    ensures states[last].outputs[o].past == states[first].outputs[o].past
    ensures states[first].outputs[o].now.cuts <= states[last].outputs[o].now.cuts
    ensures states[first].outputs[o].now.session.h.pos <= states[last].outputs[o].now.session.h.pos
    decreases last
  {
    hide OutputInv, Next, Enabled, Init;
    OutputRun(states, actions, first, o);
    OutputRun(states, actions, last, o);
    if first < last {
      SameLife(states, actions, o, first, last - 1);
      LifeGoesOn(states[last - 1], actions[last - 1], o);
      OutputIndex(states[last - 1], o);
    }
  }

  lemma OutputIndex(s: Sys, o: nat)
    requires OutputInv(s, o)
    ensures o < |s.outputs| && |s.disk.outputs| == |s.table.outputs| == |s.outputs|
    ensures Counted(s.outputs[o].now)
  {
  }

  /** Only what lies behind the persisted checkpoint is redone. Take a crash in state k and any later
      state `later` of the life that follows. The messages taken both before the crash (in the life
      that it ends) and after it are exactly those from the persisted checkpoint, or the beginning of
      the life if that is later, up to the position reached in both lives. */
  lemma RedoneExactly(states: seq<Sys>, actions: seq<Action>, k: nat, later: nat, o: nat,
                      src: D.Source, x: nat)
    requires Run(states, actions)
    requires k < later < |states| && OutputOf(states, o)
    requires Crashes(actions, k) && LivesOn(actions, o, k + 1, later)
    ensures o < |states[k].outputs| && o < |states[later].outputs| && o < |states[k].disk.outputs|
    ensures var before, after := states[k].outputs[o].now, states[later].outputs[o].now;
            var persisted := CutAt(states[k].disk.outputs[o].cut, src);
            && before.cuts != [] && after.cuts != []
            && states[later].outputs[o].past == states[k].outputs[o].past + [before]
            && persisted <= CutAt(Last(before.cuts), src)
            && (TakenIn(before, src, x) && TakenIn(after, src, x) <==>
                  && persisted <= x && CutAt(before.cuts[0], src) <= x
                  && x < CutAt(Last(before.cuts), src) && x < CutAt(Last(after.cuts), src))
  {
    hide OutputInv, Next, Enabled, Init, TakenIn;
    OutputRun(states, actions, k, o);
    RestartResumes(states[k], o, actions[k].size);
    SameLife(states, actions, o, k + 1, later);
    OutputIndex(states[k], o);
    OutputIndex(states[k + 1], o);
    OutputIndex(states[later], o);
    PersistedReached(states[k], o, src);
    TakenExactly(states[k].outputs[o].now, src, x);
    TakenExactly(states[later].outputs[o].now, src, x);
  }

  lemma PersistedReached(s: Sys, o: nat, src: D.Source)
    requires OutputInv(s, o)
    ensures |s.outputs[o].now.cuts| > 0
    ensures CutAt(s.disk.outputs[o].cut, src) <= CutAt(Last(s.outputs[o].now.cuts), src)
  {
    hide PosAfter, Total, SettledBelow, D.Inv;
    InvShape(s.outputs[o].now.session);
    CutsRise(s.outputs[o].now, s.outputs[o].now.session.h.covered, |s.outputs[o].now.cuts| - 1);
  }

  /** A reload leaves no gap. Take a reload of plugin `o` in state k and any later state of the life that
      follows: the new instance begins at the checkpoint of the old one, the two together take a
      gapless stretch of each queue, and what both of them take is exactly what lies between that
      checkpoint and the position reached. */
  lemma ReloadRedoesExactly(states: seq<Sys>, actions: seq<Action>, k: nat, later: nat, o: nat,
                            src: D.Source, x: nat)
    requires Run(states, actions)
    requires k < later < |states| && OutputOf(states, o)
    requires Does(actions, k, ReloadOutput(o)) && LivesOn(actions, o, k + 1, later)
    ensures o < |states[k].outputs| && o < |states[later].outputs| && CanRestart(states[k].outputs[o])
    ensures var before, after := states[k].outputs[o].now, states[later].outputs[o].now;
            var kept := CutAt(MarkOf(states[k].outputs[o]).cut, src);
            && before.cuts != [] && after.cuts != []
            && after.session.h.pos != [] && after.session.h.pos[0] == before.session.d.cp
            && (TakenIn(before, src, x) && TakenIn(after, src, x) <==>
                  kept <= x < CutAt(Last(before.cuts), src) && x < CutAt(Last(after.cuts), src))
            && (TakenIn(before, src, x) || TakenIn(after, src, x) <==>
                  && CutAt(before.cuts[0], src) <= x
                  && (x < CutAt(Last(before.cuts), src) || x < CutAt(Last(after.cuts), src)))
  {
    hide OutputInv, Next, Enabled, Init, TakenIn, MarkOf;
    OutputRun(states, actions, k, o);
    ReloadLook(states[k], o);
    SameLife(states, actions, o, k + 1, later);
    OutputIndex(states[k], o);
    OutputIndex(states[k + 1], o);
    OutputIndex(states[later], o);
    TakenExactly(states[k].outputs[o].now, src, x);
    TakenExactly(states[later].outputs[o].now, src, x);
  }

  lemma ReloadLook(s: Sys, o: nat)
    requires OutputInv(s, o) && Enabled(s, ReloadOutput(o))
    ensures CanRestart(s.outputs[o])
    ensures Next(s, ReloadOutput(o)).outputs[o] == Restarted(s.outputs[o], MarkOf(s.outputs[o]))
    ensures MarkOf(s.outputs[o]).cp == s.outputs[o].now.session.d.cp
    ensures s.outputs[o].now.cuts != []
    ensures CutAtMost(s.outputs[o].now.cuts[0], MarkOf(s.outputs[o]).cut)
    ensures CutAtMost(MarkOf(s.outputs[o]).cut, Last(s.outputs[o].now.cuts))
  {
    hide PosAfter, Total, SettledBelow, Positioned, D.Inv;
    var life := s.outputs[o].now;
    InvShape(life.session);
    CutsRise(life, 0, life.session.h.covered);
    CutsRise(life, life.session.h.covered, |life.cuts| - 1);
  }

  /** No gap: before a life takes its first message, every earlier message of the queue is settled; so
      the lives together settle or hold everything up to the position reached, whatever crashes and
      reloads came between. */
  lemma LivesLeaveNoGap(states: seq<Sys>, actions: seq<Action>, k: nat, o: nat, src: D.Source, x: nat)
    requires Run(states, actions)
    requires k < |states| && OutputOf(states, o)
    ensures o < |states[k].outputs|
    ensures var c := states[k].outputs[o];
            && c.now.cuts != []
            && (x < CutAt(Last(c.now.cuts), src) ==> Settled(c, src, x) || TakenIn(c.now, src, x))
  {
    OutputRun(states, actions, k, o);
    TakenExactly(states[k].outputs[o].now, src, x);
  }

  /** The persisted positions never move back in either queue, crashes included. */
  lemma {:induction false} PersistedNeverMovesBack(states: seq<Sys>, actions: seq<Action>,
                                                   o: nat, i: nat, k: nat)
    requires Run(states, actions)
    requires i <= k < |states| && OutputOf(states, o)
    ensures o < |states[i].disk.outputs| && o < |states[k].disk.outputs|
    ensures D.PairAtMost(states[i].disk.outputs[o].cp, states[k].disk.outputs[o].cp)
    decreases k
  {
    hide OutputInv, Next, Enabled, Init;
    OutputRun(states, actions, k, o);
    OutputIndex(states[k], o);
    if i < k {
      PersistedNeverMovesBack(states, actions, o, i, k - 1);
      OutputRun(states, actions, k - 1, o);
      PersistStep(states[k - 1], actions[k - 1], o);
      PersistedForward(states[k - 1], actions[k - 1], o);
      AtMostTransitive(states[i].disk.outputs[o].cp, states[k - 1].disk.outputs[o].cp, states[k].disk.outputs[o].cp);
    }
  }

  lemma PersistedForward(s: Sys, a: Action, o: nat)
    requires OutputInv(s, o) && Enabled(s, a)
    ensures var t := Next(s, a);
            && o < |s.disk.outputs| && o < |t.disk.outputs|
            && D.PairAtMost(s.disk.outputs[o].cp, t.disk.outputs[o].cp)
  {
    hide Next, Enabled, LifeOk, SettledBelow, PosAfter, Total, Persists, CutDurable;
    var t := Next(s, a);
    OutputStepInv(s, a, o);
    PersistStep(s, a, o);
    QueueSteps(s, a);
    var c, c' := s.disk.outputs[o].cut, t.disk.outputs[o].cut;
    CutPersists(s.inq, s.anq, t.inq, t.anq, c);
    PairsInOrder(t.inq, t.anq, c, c');
  }

  /** Pairs of positions are ordered as the numbers of messages they stand for. */
  lemma PairsInOrder(inq: Tagged, anq: Tagged, a: Cut, b: Cut)
    requires CutDurable(inq, anq, a) && CutDurable(inq, anq, b)
    requires CutAtMost(a, b)
    ensures D.PairAtMost(PairOf(inq, anq, a), PairOf(inq, anq, b))
  {
    hide PosAfter, Total;
    PosOrder(inq.log.fs, a.input, b.input);
    PosOrder(anq.log.fs, a.analysis, b.analysis);
  }

  lemma AtMostTransitive(a: D.Pair, b: D.Pair, c: D.Pair)
    requires D.PairAtMost(a, b) && D.PairAtMost(b, c)
    ensures D.PairAtMost(a, c)
  {
  }

  lemma PersistStep(s: Sys, a: Action, o: nat)
    requires OutputInv(s, o) && Enabled(s, a)
    ensures o < |Next(s, a).disk.outputs| && o < |s.disk.outputs|
    ensures CutAtMost(s.disk.outputs[o].cut, Next(s, a).disk.outputs[o].cut)
  {
    hide PosAfter, Total, LifeOk, SettledBelow, Grows, Persists;
  }

  // ---- positions ----

  /** In terms of the plugin's own fields: what the current life has taken from a queue is what lies after
      its first position there and not after its read position. */
  lemma TakenByPosition(states: seq<Sys>, actions: seq<Action>, k: nat, o: nat, src: D.Source, x: nat)
    requires Run(states, actions)
    requires k < |states| && OutputOf(states, o)
    ensures var s := states[k];
            var q := QueueOf(s, src);
            && o < |s.outputs| && s.outputs[o].now.session.h.pos != []
            && (x < q.log.durable ==>
                  && x + 1 <= Total(q.log.fs)
                  && (TakenIn(s.outputs[o].now, src, x) <==>
                        && Before(D.At(s.outputs[o].now.session.h.pos[0], src), PosAfter(q.log.fs, x + 1))
                        && AtMost(PosAfter(q.log.fs, x + 1), D.At(s.outputs[o].now.session.d.cur, src))))
  {
    hide OutputInv, Next, Enabled, Init, TakenIn, PosAfter, Total;
    OutputRun(states, actions, k, o);
    OutputIndex(states[k], o);
    if x < QueueOf(states[k], src).log.durable {
      TakenBetween(states[k], o, src, x);
      TakenExactly(states[k].outputs[o].now, src, x);
    } else {
      LifePositions(states[k], o);
    }
  }

  lemma LifePositions(s: Sys, o: nat)
    requires OutputInv(s, o)
    ensures Shaped(s) && o < |s.outputs| && CanRestart(s.outputs[o])
    ensures var life := s.outputs[o].now;
            && life.cuts != []
            && CutDurable(s.inq, s.anq, life.cuts[0]) && CutDurable(s.inq, s.anq, Last(life.cuts))
            && life.session.h.pos != [] && life.session.h.pos[0] == PairOf(s.inq, s.anq, life.cuts[0])
            && life.session.d.cur == PairOf(s.inq, s.anq, Last(life.cuts))
  {
    hide PosAfter, Total, SettledBelow, CutDurable, D.Inv;
    InvShape(s.outputs[o].now.session);
  }

  lemma TakenBetween(s: Sys, o: nat, src: D.Source, x: nat)
    requires OutputInv(s, o)
    requires x < QueueOf(s, src).log.durable
    ensures var q, life := QueueOf(s, src), s.outputs[o].now;
            && x + 1 <= Total(q.log.fs)
            && life.cuts != [] && life.session.h.pos != []
            && (CutAt(life.cuts[0], src) <= x <==> Before(D.At(life.session.h.pos[0], src), PosAfter(q.log.fs, x + 1)))
            && (x < CutAt(Last(life.cuts), src) <==> AtMost(PosAfter(q.log.fs, x + 1), D.At(life.session.d.cur, src)))
  {
    hide PosAfter, Total, OutputInv;
    LifePositions(s, o);
    var q, life := QueueOf(s, src), s.outputs[o].now;
    DurableTotal(q);
    PosOrder(q.log.fs, CutAt(life.cuts[0], src), x + 1);
    PosOrder(q.log.fs, x + 1, CutAt(Last(life.cuts), src));
  }

  lemma DurableTotal(q: Tagged)
    requires QOk(q)
    ensures q.log.durable <= Total(q.log.fs)
  {
  }

  // ---- nothing but what came since the last sweep ----

  /** Step m samples plugin o. */
  ghost predicate IsSample(states: seq<Sys>, actions: seq<Action>, o: nat, m: nat) {
    m < |states| && m < |actions| && actions[m] == SampleOutput && states[m].phase == OutputStats(o)
  }

  /** Up to state k the file holds the sample that a sweep took of plugin o in state q and wrote in step w,
      and the plugin lives on. */
  ghost predicate LastSampled(states: seq<Sys>, actions: seq<Action>, o: nat, q: nat, w: nat, k: nat) {
    && |states| == |actions| + 1 && q < w < k < |states|
    && IsSample(states, actions, o, q) && actions[w] == Persist
    && (forall m: nat :: q < m < w ==> !IsSample(states, actions, o, m))
    && (forall m: nat :: w < m < k ==> actions[m] != Persist)
    && (forall m: nat :: q <= m < k ==>
          !actions[m].CrashAndRestart? && actions[m] != EndOutput(o) && actions[m] != ReloadOutput(o))
  }

  lemma {:induction false} TableHoldsSample(states: seq<Sys>, actions: seq<Action>,
                                            o: nat, q: nat, w: nat, k: nat, m: nat)
    requires Run(states, actions) && OutputOf(states, o)
    requires LastSampled(states, actions, o, q, w, k) && q < m <= w
    ensures o < |states[q].outputs| && CanRestart(states[q].outputs[o]) && o < |states[m].table.outputs|
    ensures states[m].table.outputs[o] == MarkOf(states[q].outputs[o])
    decreases m
  {
    hide OutputInv, Next, Enabled, Init, MarkOf;
    if m == q + 1 {
      OutputRun(states, actions, q, o);
      LifePositions(states[q], o);
    } else {
      TableHoldsSample(states, actions, o, q, w, k, m - 1);
      assert !IsSample(states, actions, o, m - 1);
    }
    OutputRun(states, actions, m - 1, o);
    OutputIndex(states[m - 1], o);
    TableOutputAfter(states[m - 1], actions[m - 1], o);
  }

  lemma TableOutputAfter(s: Sys, a: Action, o: nat)
    requires Enabled(s, a) && o < |s.outputs|
    requires !a.CrashAndRestart? && a != EndOutput(o) && a != ReloadOutput(o)
    ensures var t := Next(s, a);
            && o < |t.table.outputs| && o < |s.table.outputs| && o < |t.disk.outputs| && o < |s.disk.outputs|
            && (a == SampleOutput && s.phase == OutputStats(o) ==>
                  CanRestart(s.outputs[o]) && t.table.outputs[o] == MarkOf(s.outputs[o]))
            && (!(a == SampleOutput && s.phase == OutputStats(o)) ==> t.table.outputs[o] == s.table.outputs[o])
            && t.disk.outputs[o] == if a == Persist then s.table.outputs[o] else s.disk.outputs[o]
  {
    hide PosAfter, Total, QOk, Inserted, Flushed, Recovered, OutputStep, Restarted, MarkOf, CanRestart, OutputEnabled;
  }

  lemma {:induction false} FileHoldsSample(states: seq<Sys>, actions: seq<Action>,
                                           o: nat, q: nat, w: nat, k: nat, m: nat)
    requires Run(states, actions) && OutputOf(states, o)
    requires LastSampled(states, actions, o, q, w, k) && w < m <= k
    ensures o < |states[q].outputs| && CanRestart(states[q].outputs[o]) && o < |states[m].disk.outputs|
    ensures states[m].disk.outputs[o] == MarkOf(states[q].outputs[o])
    decreases m
  {
    hide OutputInv, Next, Enabled, Init, MarkOf;
    if m == w + 1 {
      TableHoldsSample(states, actions, o, q, w, k, w);
    } else {
      FileHoldsSample(states, actions, o, q, w, k, m - 1);
    }
    OutputRun(states, actions, m - 1, o);
    OutputIndex(states[m - 1], o);
    TableOutputAfter(states[m - 1], actions[m - 1], o);
  }

  /** Taken before a crash in state s and put ahead of the plugin again by the restart. */
  ghost predicate Redone(s: Sys, o: nat, src: D.Source, x: nat)
    requires o < |s.outputs| && o < |s.disk.outputs|
  {
    TakenIn(s.outputs[o].now, src, x) && CutAt(s.disk.outputs[o].cut, src) <= x
  }

  /** All that a crash in state k would have redone was taken after the sample that the last sweep
      persisted, exactly if at that sample the checkpoint was the read position. An open batch, a missing
      acknowledgement, a message being retried or just being delivered at that moment makes the difference. */
  lemma RedoneSinceSample(states: seq<Sys>, actions: seq<Action>, o: nat, q: nat, w: nat, k: nat)
    requires Run(states, actions) && OutputOf(states, o)
    requires LastSampled(states, actions, o, q, w, k)
    ensures o < |states[q].outputs| && o < |states[k].outputs| && o < |states[k].disk.outputs|
    ensures (forall src: D.Source, x: nat :: Redone(states[k], o, src, x) ==>
        !TakenIn(states[q].outputs[o].now, src, x))
            <==> states[q].outputs[o].now.session.d.cp == states[q].outputs[o].now.session.d.cur
  {
    hide OutputInv, Next, Enabled, Init, TakenIn, MarkOf;
    FileHoldsSample(states, actions, o, q, w, k, k);
    SameLife(states, actions, o, q, k);
    OutputIndex(states[q], o);
    OutputIndex(states[k], o);
    CoveredOrNot(states[q], o);
    var life, now, m := states[q].outputs[o].now, states[k].outputs[o].now, MarkOf(states[q].outputs[o]);
    forall src: D.Source, x: nat
      ensures TakenIn(life, src, x) <==> CutAt(life.cuts[0], src) <= x < CutAt(Last(life.cuts), src)
      ensures TakenIn(now, src, x) <==> CutAt(now.cuts[0], src) <= x < CutAt(Last(now.cuts), src)
    {
      TakenExactly(life, src, x);
      TakenExactly(now, src, x);
    }
    if life.session.d.cp != life.session.d.cur {
      var src, x := Uncovered(states[q], o);
      CutsRise(now, |life.cuts| - 1, |now.cuts| - 1);
      assert Redone(states[k], o, src, x) && TakenIn(life, src, x);
    }
  }

  /** The checkpoint is the read position exactly if it stands for all messages taken. */
  lemma CoveredOrNot(s: Sys, o: nat)
    requires OutputInv(s, o)
    ensures o < |s.outputs|
    ensures var life := s.outputs[o].now;
            && CanRestart(s.outputs[o]) && life.cuts != []
            && (life.session.d.cp == life.session.d.cur <==> MarkOf(s.outputs[o]).cut == Last(life.cuts))
            && CutAtMost(life.cuts[0], MarkOf(s.outputs[o]).cut) && CutAtMost(MarkOf(s.outputs[o]).cut, Last(life.cuts))
  {
    hide PosAfter, Total, SettledBelow, D.Inv;
    var life := s.outputs[o].now;
    LifePositions(s, o);
    CoveredPosition(life.session);
    CutsRise(life, 0, life.session.h.covered);
    CutsRise(life, life.session.h.covered, |life.cuts| - 1);
    SamePair(s.inq, s.anq, life.cuts[life.session.h.covered], Last(life.cuts));
  }

  lemma CoveredPosition(s: D.Session)
    requires D.Inv(s)
    ensures D.Shaped(s) && s.d.cp == s.h.pos[s.h.covered]
  {
  }

  lemma SamePair(inq: Tagged, anq: Tagged, a: Cut, b: Cut)
    requires CutDurable(inq, anq, a) && CutDurable(inq, anq, b)
    ensures PairOf(inq, anq, a) == PairOf(inq, anq, b) <==> a == b
  {
    hide PosAfter, Total;
    PosOrder(inq.log.fs, a.input, b.input);
    PosOrder(anq.log.fs, a.analysis, b.analysis);
  }

  /** Otherwise some message was taken and lies after the checkpoint. */
  lemma Uncovered(s: Sys, o: nat) returns (src: D.Source, x: nat)
    requires OutputInv(s, o) && s.outputs[o].now.session.d.cp != s.outputs[o].now.session.d.cur
    ensures CanRestart(s.outputs[o]) && s.outputs[o].now.cuts != []
    ensures CutAt(MarkOf(s.outputs[o]).cut, src) <= x < CutAt(Last(s.outputs[o].now.cuts), src)
  {
    hide OutputInv, MarkOf;
    CoveredOrNot(s, o);
    var a, b := MarkOf(s.outputs[o]).cut, Last(s.outputs[o].now.cuts);
    src := if a.input < b.input then D.FromInput else D.FromAnalysis;
    x := CutAt(a, src);
  }
}
