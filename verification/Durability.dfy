/** What the sweep's order "sample, flush, persist" buys: no persisted checkpoint is ahead of the
    queue that it vouches for. One lemma per plugin or thread, for every step of the pipeline and so for
    every run. */
module Durability {
  import opened Framing
  import opened Queue
  import opened Pipeline

  /** The steps that write to the input queue, the analysis queue, or neither. */
  lemma QueueSteps(s: Sys, a: Action)
    requires Enabled(s, a)
    ensures Shaped(Next(s, a))
    ensures Persists(s.inq, Next(s, a).inq) && Persists(s.anq, Next(s, a).anq)
    ensures !a.CrashAndRestart? ==> Grows(s.inq, Next(s, a).inq) && Grows(s.anq, Next(s, a).anq)
  {
    hide Grows, Persists, QOk, Total;
    SamePersistsBoth(s);
    match a
    case AppendMessage(i, p) => InsertedGrows(s.inq, ByInput(i, s.inputs[i].next), p, s.size);
    case Emit(j, p) => InsertedGrows(s.anq, ByAnalysis(j, s.threads[j].done, s.threads[j].part), p, s.size);
    case EmitIdle(j, p) => InsertedGrows(s.anq, ByTimer(j), p, s.size);
    case SpillInput(n) => FlushedGrows(s.inq, n);
    case SpillAnalysis(n) => FlushedGrows(s.anq, n);
    case FlushInput => FlushedGrows(s.inq, Total(s.inq.log.fs));
    case FlushAnalysis => FlushedGrows(s.anq, Total(s.anq.log.fs));
    case CrashAndRestart(_) => RecoveredPersists(s.inq); RecoveredPersists(s.anq);
    case _ =>
  }

  lemma SamePersistsBoth(s: Sys)
    requires Shaped(s)
    ensures Grows(s.inq, s.inq) && Grows(s.anq, s.anq) && Persists(s.inq, s.inq) && Persists(s.anq, s.anq)
  {
    SamePersists(s.inq);
    SamePersists(s.anq);
  }

  // ---- input plugins ----

  /** Messages below `c` of plugin i are in the queue or were skipped by an earlier restart. */
  ghost predicate Backed(q: Tagged, i: nat, lost: set<nat>, c: nat) {
    forall n: nat :: n < c ==> n in lost || In(q, ByInput(i, n))
  }

  ghost predicate SafelyBacked(q: Tagged, i: nat, lost: set<nat>, c: nat)
    requires q.log.durable <= |q.origins|
  {
    forall n: nat :: n < c ==> n in lost || Safe(q, ByInput(i, n))
  }

  /** The messages a sample vouches for, without the one that was being injected. */
  function Solid(d: Sample): nat {
    if d.ahead && d.covered > 0 then d.covered - 1 else d.covered
  }

  ghost predicate InputInv(s: Sys, i: nat) {
    && Shaped(s) && i < |s.inputs|
    && var p, t, d := s.inputs[i], s.table.inputs[i], s.disk.inputs[i];
       && p.covered <= p.next + (if p.busy then 1 else 0)
       && Backed(s.inq, i, p.lost, p.next)
       && Backed(s.inq, i, p.lost, Solid(t))
       && (InputFlushed(s.phase) && !t.late ==> SafelyBacked(s.inq, i, p.lost, Solid(t)))
       && (!d.late ==> SafelyBacked(s.inq, i, p.lost, Solid(d)))
  }

  lemma BackedGrows(q: Tagged, r: Tagged, i: nat, lost: set<nat>, c: nat)
    requires Grows(q, r) && Backed(q, i, lost, c)
    ensures Backed(r, i, lost, c)
  {
    hide Total, PosAfter;
    forall n: nat | n < c
      ensures n in lost || In(r, ByInput(i, n))
    {
      if n !in lost {
        assert In(q, ByInput(i, n));
      }
    }
  }

  lemma SafelyBackedPersists(q: Tagged, r: Tagged, i: nat, lost: set<nat>, more: set<nat>, c: nat)
    requires Persists(q, r) && SafelyBacked(q, i, lost, c)
    requires lost <= more
    ensures SafelyBacked(r, i, more, c)
  {
    hide Total, PosAfter;
    forall n: nat | n < c
      ensures n in more || Safe(r, ByInput(i, n))
    {
      if n !in lost {
        assert Safe(q, ByInput(i, n));
      }
    }
  }

  /** After a flush everything in the queue is in its files. */
  lemma FlushBacks(q: Tagged, i: nat, lost: set<nat>, c: nat)
    requires QOk(q) && Backed(q, i, lost, c)
    ensures SafelyBacked(Flushed(q, Total(q.log.fs)), i, lost, c)
  {
    var r := Flushed(q, Total(q.log.fs));
    assert r.origins[..r.log.durable] == q.origins;
    forall n: nat | n < c
      ensures n in lost || Safe(r, ByInput(i, n))
    {
      if n !in lost {
        assert In(q, ByInput(i, n));
      }
    }
  }

  lemma SafelyBackedIsBacked(q: Tagged, i: nat, lost: set<nat>, c: nat)
    requires QOk(q) && SafelyBacked(q, i, lost, c)
    ensures Backed(q, i, lost, c)
  {
    forall n: nat | n < c
      ensures n in lost || In(q, ByInput(i, n))
    {
      if n !in lost {
        assert Safe(q, ByInput(i, n));
      }
    }
  }

  /** Whatever the persisted checkpoint vouches for is in the files, or a restart records it as skipped. */
  lemma InputCrash(s: Sys, i: nat, size: nat)
    requires InputInv(s, i)
    ensures InputInv(Next(s, CrashAndRestart(size)), i)
  {
    hide Backed, SafelyBacked, Total, PosAfter, Persists, Skipped;
    var t := Next(s, CrashAndRestart(size));
    QueueSteps(s, CrashAndRestart(size));
    var d, lost := s.disk.inputs[i], t.inputs[i].lost;
    ResumeBacked(s.inq, t.inq, i, s.inputs[i].lost, d);
    FewerSafelyBacked(t.inq, i, lost, d.covered, Solid(d));
    SafelyBackedIsBacked(t.inq, i, lost, d.covered);
    FewerBacked(t.inq, i, lost, d.covered, Solid(d));
  }

  lemma ResumeBacked(q: Tagged, r: Tagged, i: nat, lost: set<nat>, d: Sample)
    requires Persists(q, r)
    ensures SafelyBacked(r, i, lost + Skipped(d, q, i), d.covered)
  {
    hide Total, PosAfter;
    forall n: nat | n < d.covered
      ensures n in lost + Skipped(d, q, i) || Safe(r, ByInput(i, n))
    {
      assert Safe(q, ByInput(i, n)) || n in Skipped(d, q, i);
    }
  }

  lemma FewerSafelyBacked(q: Tagged, i: nat, lost: set<nat>, c: nat, fewer: nat)
    requires QOk(q) && SafelyBacked(q, i, lost, c) && fewer <= c
    ensures SafelyBacked(q, i, lost, fewer)
  {
  }

  lemma InputStepInv(s: Sys, a: Action, i: nat)
    requires InputInv(s, i) && Enabled(s, a) && !a.CrashAndRestart?
    ensures InputInv(Next(s, a), i)
  {
    hide Backed, SafelyBacked, Total, PosAfter, Persists, Grows, QOk, OutputStep, Restarted, MarkOf;
    var t := Next(s, a);
    QueueSteps(s, a);
    var p := s.inputs[i];
    BackedGrows(s.inq, t.inq, i, p.lost, p.next);
    BackedGrows(s.inq, t.inq, i, p.lost, Solid(s.table.inputs[i]));
    if !s.disk.inputs[i].late {
      SafelyBackedPersists(s.inq, t.inq, i, p.lost, p.lost, Solid(s.disk.inputs[i]));
    }
    if InputFlushed(s.phase) && !s.table.inputs[i].late {
      SafelyBackedPersists(s.inq, t.inq, i, p.lost, p.lost, Solid(s.table.inputs[i]));
    }
    match a
    case AppendMessage(k, payload) =>
      if k == i {
        AppendedBacked(s, i, payload);
      }
    case ReloadInput(k) =>
      if k == i {
        FewerBacked(t.inq, i, p.lost, p.next, p.covered);
      }
    case SampleInput =>
      if s.phase.i == i {
        FewerBacked(t.inq, i, p.lost, p.next, Solid(SampleOf(p)));
      }
    case FlushInput =>
      FlushBacks(s.inq, i, p.lost, Solid(s.table.inputs[i]));
    case _ =>
  }

  lemma AppendedBacked(s: Sys, i: nat, p: Payload)
    requires InputInv(s, i)
    ensures Backed(Inserted(s.inq, ByInput(i, s.inputs[i].next), p, s.size), i, s.inputs[i].lost,
        s.inputs[i].next + 1)
  {
    var q := Inserted(s.inq, ByInput(i, s.inputs[i].next), p, s.size);
    assert q.origins[|s.inq.origins|] == ByInput(i, s.inputs[i].next);
    forall n: nat | n < s.inputs[i].next + 1
      ensures n in s.inputs[i].lost || In(q, ByInput(i, n))
    {
      if n < s.inputs[i].next && n !in s.inputs[i].lost {
        assert In(s.inq, ByInput(i, n));
      }
    }
  }

  lemma FewerBacked(q: Tagged, i: nat, lost: set<nat>, c: nat, fewer: nat)
    requires Backed(q, i, lost, c) && fewer <= c
    ensures Backed(q, i, lost, fewer)
  {
  }

  // ---- analysis threads ----

  /** Everything injected while the first `c` messages were processed is in the queue. */
  ghost predicate Injected(q: Tagged, j: nat, emitted: seq<nat>, c: nat) {
    c <= |emitted| && forall r: nat, k: nat :: r < c && k < emitted[r] ==> In(q, ByAnalysis(j, r, k))
  }

  ghost predicate SafelyInjected(q: Tagged, j: nat, emitted: seq<nat>, c: nat)
    requires q.log.durable <= |q.origins|
  {
    c <= |emitted| && forall r: nat, k: nat :: r < c && k < emitted[r] ==> Safe(q, ByAnalysis(j, r, k))
  }

  ghost predicate PartInjected(q: Tagged, j: nat, cause: nat, part: nat) {
    forall k: nat :: k < part ==> In(q, ByAnalysis(j, cause, k))
  }

  ghost predicate Marks(q: Tagged, m: Mark) {
    m.count <= q.log.durable && q.log.durable <= Total(q.log.fs) && m.cp == PosAfter(q.log.fs, m.count)
  }

  /** The sweep has flushed the analysis queue since it sampled thread j. */
  predicate ThreadFlushed(phase: Phase, j: nat) {
    || (phase.AnalysisStats? && j < phase.j)
    || (phase.AnalysisFlush? && j < phase.j)
    || phase.OutputStats?
  }

  ghost predicate ThreadFacts(inq: Tagged, anq: Tagged, j: nat, h: Thread, t: Mark, d: Mark, flushed: bool) {
    && QOk(inq) && QOk(anq)
    && Marks(inq, Mark(h.cp, h.done)) && Marks(inq, t) && Marks(inq, d)
    && d.count <= t.count <= h.done == |h.emitted|
    && (h.working ==> h.done < inq.log.durable && PartInjected(anq, j, h.done, h.part))
    && Injected(anq, j, h.emitted, h.done)
    && (flushed ==> SafelyInjected(anq, j, h.emitted, t.count))
    && SafelyInjected(anq, j, h.emitted, d.count)
  }

  ghost predicate ThreadInv(s: Sys, j: nat) {
    && Shaped(s) && j < |s.threads|
    && ThreadFacts(s.inq, s.anq, j, s.threads[j], s.table.threads[j], s.disk.threads[j], ThreadFlushed(s.phase, j))
  }

  /** What other threads, plugins and flushes do to the queues does not disturb a thread's facts. */
  lemma ThreadFactsGrow(inq: Tagged, anq: Tagged, inq': Tagged, anq': Tagged, j: nat, h: Thread, t: Mark, d: Mark,
                        flushed: bool)
    requires ThreadFacts(inq, anq, j, h, t, d, flushed)
    requires Persists(inq, inq') && Grows(anq, anq') && Persists(anq, anq')
    ensures ThreadFacts(inq', anq', j, h, t, d, flushed)
  {
    hide Total, PosAfter, Persists, Grows, QOk, Injected, SafelyInjected, PartInjected, Marks;
    MarksPersist(inq, inq', Mark(h.cp, h.done));
    MarksPersist(inq, inq', t);
    MarksPersist(inq, inq', d);
    DurableGrows(inq, inq');
    DurableGrows(anq, anq');
    InjectedGrows(anq, anq', j, h.emitted, h.done);
    SafelyInjectedPersists(anq, anq', j, h.emitted, d.count);
    if flushed {
      SafelyInjectedPersists(anq, anq', j, h.emitted, t.count);
    }
    if h.working {
      PartGrows(anq, anq', j, h.done, h.part);
    }
  }

  lemma InjectedGrows(q: Tagged, r: Tagged, j: nat, emitted: seq<nat>, c: nat)
    requires Grows(q, r) && Injected(q, j, emitted, c)
    ensures Injected(r, j, emitted, c)
  {
    hide Total, PosAfter;
    forall m: nat, k: nat | m < c && k < emitted[m]
      ensures In(r, ByAnalysis(j, m, k))
    {
      assert In(q, ByAnalysis(j, m, k));
    }
  }

  lemma PartGrows(q: Tagged, r: Tagged, j: nat, cause: nat, part: nat)
    requires Grows(q, r) && PartInjected(q, j, cause, part)
    ensures PartInjected(r, j, cause, part)
  {
    hide Total, PosAfter;
    forall k: nat | k < part
      ensures In(r, ByAnalysis(j, cause, k))
    {
      assert In(q, ByAnalysis(j, cause, k));
    }
  }

  lemma SafelyInjectedPersists(q: Tagged, r: Tagged, j: nat, emitted: seq<nat>, c: nat)
    requires Persists(q, r) && SafelyInjected(q, j, emitted, c)
    ensures SafelyInjected(r, j, emitted, c)
  {
    hide Total, PosAfter;
    forall m: nat, k: nat | m < c && k < emitted[m]
      ensures Safe(r, ByAnalysis(j, m, k))
    {
      assert Safe(q, ByAnalysis(j, m, k));
    }
  }

  lemma FlushInjects(q: Tagged, j: nat, emitted: seq<nat>, c: nat, fewer: nat)
    requires QOk(q) && Injected(q, j, emitted, c) && fewer <= c
    ensures SafelyInjected(Flushed(q, Total(q.log.fs)), j, emitted, fewer)
  {
    var r := Flushed(q, Total(q.log.fs));
    assert r.origins[..r.log.durable] == q.origins;
    forall m: nat, k: nat | m < fewer && k < emitted[m]
      ensures Safe(r, ByAnalysis(j, m, k))
    {
      assert In(q, ByAnalysis(j, m, k));
    }
  }

  lemma MarksPersist(q: Tagged, r: Tagged, m: Mark)
    requires Persists(q, r) && Marks(q, m)
    ensures Marks(r, m)
  {
  }

  lemma ThreadCrash(s: Sys, j: nat, size: nat)
    requires ThreadInv(s, j)
    ensures ThreadInv(Next(s, CrashAndRestart(size)), j)
  {
    hide Total, PosAfter, Persists, Grows, SafelyInjected, Marks;
    var t := Next(s, CrashAndRestart(size));
    QueueSteps(s, CrashAndRestart(size));
    var d := s.disk.threads[j];
    MarksPersist(s.inq, t.inq, d);
    SafelyInjectedPersists(s.anq, t.anq, j, s.threads[j].emitted, d.count);
    FirstEmitted(t.anq, j, s.threads[j].emitted, d.count);
  }

  /** A restarted thread keeps the record of the messages that it will not process again. */
  lemma FirstEmitted(q: Tagged, j: nat, emitted: seq<nat>, c: nat)
    requires QOk(q) && SafelyInjected(q, j, emitted, c)
    ensures c <= |emitted| && SafelyInjected(q, j, emitted[..c], c) && Injected(q, j, emitted[..c], c)
  {
    forall m: nat, k: nat | m < c && k < emitted[..c][m]
      ensures Safe(q, ByAnalysis(j, m, k)) && In(q, ByAnalysis(j, m, k))
    {
      assert Safe(q, ByAnalysis(j, m, k));
    }
  }

  lemma ThreadStepInv(s: Sys, a: Action, j: nat)
    requires ThreadInv(s, j) && Enabled(s, a) && !a.CrashAndRestart?
    ensures ThreadInv(Next(s, a), j)
  {
    hide Total, PosAfter, Persists, Grows, QOk, Injected, SafelyInjected, PartInjected, Marks;
    var t := Next(s, a);
    QueueSteps(s, a);
    var h, m, d := s.threads[j], s.table.threads[j], s.disk.threads[j];
    ThreadFactsGrow(s.inq, s.anq, t.inq, t.anq, j, h, m, d, ThreadFlushed(s.phase, j));
    match a
    case StartMessage(k) =>
      NoPart(t.anq, j, h.done);
    case Emit(k, p) =>
      if k == j {
        EmittedPart(s, j, p);
      }
    case FinishMessage(k) =>
      if k == j {
        Finished(t.inq, t.anq, h, j);
        EmittedMore(t.anq, j, h.emitted, h.part, d.count);
        if ThreadFlushed(s.phase, j) {
          EmittedMore(t.anq, j, h.emitted, h.part, m.count);
        }
      }
    case FlushAnalysis =>
      FlushInjects(s.anq, j, h.emitted, h.done, m.count);
    case _ =>
  }

  lemma DurableGrows(q: Tagged, r: Tagged)
    requires Persists(q, r)
    ensures q.log.durable <= r.log.durable && QOk(r)
  {
  }

  lemma NoPart(q: Tagged, j: nat, cause: nat)
    ensures PartInjected(q, j, cause, 0)
  {
  }

  lemma EmittedPart(s: Sys, j: nat, p: Payload)
    requires ThreadInv(s, j) && s.threads[j].working
    ensures var h := s.threads[j];
            PartInjected(Inserted(s.anq, ByAnalysis(j, h.done, h.part), p, s.size), j, h.done, h.part + 1)
  {
    hide Total, PosAfter, Marks, Injected, SafelyInjected;
    var h := s.threads[j];
    var q := Inserted(s.anq, ByAnalysis(j, h.done, h.part), p, s.size);
    assert q.origins[|s.anq.origins|] == ByAnalysis(j, h.done, h.part);
    forall k: nat | k < h.part + 1
      ensures In(q, ByAnalysis(j, h.done, k))
    {
      if k < h.part {
        assert In(s.anq, ByAnalysis(j, h.done, k));
      }
    }
  }

  lemma EmittedMore(q: Tagged, j: nat, emitted: seq<nat>, part: nat, c: nat)
    requires QOk(q) && SafelyInjected(q, j, emitted, c)
    ensures SafelyInjected(q, j, emitted + [part], c)
  {
  }

  lemma Finished(inq: Tagged, anq: Tagged, h: Thread, j: nat)
    requires QOk(inq) && h.done < inq.log.durable
    requires h.done == |h.emitted|
    requires Injected(anq, j, h.emitted, h.done) && PartInjected(anq, j, h.done, h.part)
    ensures Marks(inq, Mark(PosAfter(inq.log.fs, h.done + 1), h.done + 1))
    ensures Injected(anq, j, h.emitted + [h.part], h.done + 1)
  {
    hide Total, PosAfter;
    var more := h.emitted + [h.part];
    forall r: nat, k: nat | r < h.done + 1 && k < more[r]
      ensures In(anq, ByAnalysis(j, r, k))
    {
      if r < h.done {
        assert k < h.emitted[r];
      }
    }
  }

  // ---- every run ----

  lemma {:induction false} InputRun(states: seq<Sys>, actions: seq<Action>, k: nat, i: nat)
    requires Run(states, actions)
    requires k < |states| && InputOf(states, i)
    ensures InputInv(states[k], i)
  {
    hide InputInv;
    if k == 0 {
      InputInit(states[0], i);
    } else {
      InputRun(states, actions, k - 1, i);
      if actions[k - 1].CrashAndRestart? {
        InputCrash(states[k - 1], i, actions[k - 1].size);
      } else {
        InputStepInv(states[k - 1], actions[k - 1], i);
      }
    }
  }

  lemma InputInit(s: Sys, i: nat)
    requires Init(s) && i < |s.inputs|
    ensures InputInv(s, i)
  {
  }

  lemma {:induction false} ThreadRun(states: seq<Sys>, actions: seq<Action>, k: nat, j: nat)
    requires Run(states, actions)
    requires k < |states| && ThreadOf(states, j)
    ensures ThreadInv(states[k], j)
  {
    hide ThreadInv;
    if k == 0 {
      ThreadInit(states[0], j);
    } else {
      ThreadRun(states, actions, k - 1, j);
      if actions[k - 1].CrashAndRestart? {
        ThreadCrash(states[k - 1], j, actions[k - 1].size);
      } else {
        ThreadStepInv(states[k - 1], actions[k - 1], j);
      }
    }
  }

  lemma ThreadInit(s: Sys, j: nat)
    requires Init(s) && j < |s.threads|
    ensures ThreadInv(s, j)
  {
  }

  /** In every reachable state every message that the persisted checkpoint of an input plugin vouches for
      is in the files of the input queue, except at most the one whose injection was in progress when
      the checkpoint was sampled, and except what an earlier restart skipped. A checkpoint that an ending
      thread stored after the flush is the subject of module InputLoss. */
  lemma InputDurability(states: seq<Sys>, actions: seq<Action>, k: nat, i: nat, n: nat)
    requires Run(states, actions)
    requires k < |states| && InputOf(states, i)
    ensures var s := states[k];
            && Shaped(s) && i < |s.inputs|
            && (n < s.disk.inputs[i].covered ==>
                  || Safe(s.inq, ByInput(i, n))
                  || (s.disk.inputs[i].ahead && n == s.disk.inputs[i].covered - 1)
                  || n in s.inputs[i].lost
                  || s.disk.inputs[i].late)
  {
    InputRun(states, actions, k, i);
  }

  /** In every reachable state: if the persisted checkpoint of an analysis thread covers message r of
      the input queue, every message injected while r was processed is in the files of the analysis
      queue. And the persisted checkpoint is the position behind the messages it counts. */
  lemma AnalysisDurability(states: seq<Sys>, actions: seq<Action>, k: nat, j: nat, r: nat, part: nat)
    requires Run(states, actions)
    requires k < |states| && ThreadOf(states, j)
    ensures var s := states[k];
            && Shaped(s) && j < |s.threads|
            && Marks(s.inq, s.disk.threads[j])
            && (r < s.inq.log.durable && AtMost(PosAfter(s.inq.log.fs, r + 1), s.disk.threads[j].cp) ==>
                  && r < |s.threads[j].emitted|
                  && (part < s.threads[j].emitted[r] ==> Safe(s.anq, ByAnalysis(j, r, part))))
  {
    ThreadRun(states, actions, k, j);
    CoversCount(states[k].inq, states[k].disk.threads[j], r);
  }

  /** A message lies at or before a checkpoint exactly if it is among those that it counts. */
  lemma CoversCount(q: Tagged, m: Mark, r: nat)
    requires Marks(q, m)
    ensures r < q.log.durable ==> (AtMost(PosAfter(q.log.fs, r + 1), m.cp) <==> r < m.count)
  {
    if r < q.log.durable {
      PosOrder(q.log.fs, r + 1, m.count);
    }
  }
}
