/** The threads' own loops take the steps of the pipeline's state machine. */
module Refinement {
  import opened Options
  import opened Framing
  import opened Queue
  import R = Reader
  import M = Merge
  import P = Pipeline
  import AtLeastOnce
  import D = Delivery
  import T = CheckpointText
  import F = CheckpointFile
  import QL = QueueLog
  import Durability

  /** An output thread that has delivered what its life has taken and holds the next message of a queue: the
      position it is about to record is the one the pipeline's step asks for. Taking it leads to the
      cut that counts one message more, and that message is the queue's own. */
  lemma HeldIsEnabled(s: P.Sys, o: nat, src: D.Source, r: R.Reader, held: Option<Payload>, n: nat)
    requires AtLeastOnce.OutputInv(s, o)
    requires !s.outputs[o].now.session.dead && !s.outputs[o].now.session.h.open
    requires M.Side(r, held, P.QueueOf(s, src).log, n, P.CutAt(P.Last(s.outputs[o].now.cuts), src)) && held.Some?
    ensures |r.window| <= r.cp.offset
    ensures var life, q := s.outputs[o].now, P.QueueOf(s, src);
            var done := P.CutAt(P.Last(life.cuts), src);
            && P.OutputEnabled(s, life, D.Taking(src, R.Recorded(r)))
            && done < |Flat(q.log.fs)| && Flat(q.log.fs)[done] == held.value
            && P.CutAt(P.Last(P.OutputStep(s, life, D.Taking(src, R.Recorded(r))).cuts), src) == done + 1
  {
    hide Total, Bytes, Size, Flat, PosAfter, AtLeastOnce.OutputInv, D.Inv, R.Following;
    AtLeastOnce.LifePositions(s, o);
    var life, q := s.outputs[o].now, P.QueueOf(s, src);
    var done := P.CutAt(P.Last(life.cuts), src);
    M.HeldIsNext(r, held, q.log, n, done);
    PosOrder(q.log.fs, done, done + 1);
  }

  /** A crash puts the plugin at this position of a queue. */
  ghost predicate RestartsAt(s: P.Sys, o: nat, size: nat, src: D.Source, cp: Checkpoint)
    requires P.Shaped(s)
  {
    var t := P.Next(s, P.CrashAndRestart(size));
    o < |t.outputs| && D.At(t.outputs[o].now.session.d.cur, src) == cp
  }

  lemma RestartsAtDisk(s: P.Sys, o: nat, size: nat, src: D.Source)
    requires P.Shaped(s) && o < |s.outputs|
    ensures RestartsAt(s, o, size, src, D.At(s.disk.outputs[o].cp, src))
  {
    hide PosAfter, Total;
    AtLeastOnce.RestartLook(s, o, size);
  }

  /** The pipeline restarts a plugin at its persisted position as it is; the program reads that position back
      from the text in the checkpoint file. Both are the same exactly if its two numbers are below 10^14. */
  lemma RestartThroughFile(s: P.Sys, o: nat, size: nat, src: D.Source, key: string, cp: Checkpoint,
                           order: seq<string>, values: F.Values, entry: T.Entry)
    requires P.Shaped(s) && o < |s.outputs| && cp == D.At(s.disk.outputs[o].cp, src)
    requires F.Dumpable(values) && F.Enumerates(order, values)
    requires entry.Of(cp) && key in values && values[key] == entry.Text()
    ensures RestartsAt(s, o, size, src, cp)
    ensures F.Restores(order, values, key, cp) <==> T.Fits(cp)
  {
    hide P.Next, RestartsAt, F.Dumpable, F.Dump, F.Load, T.Stored, T.Fits, T.Entry.Of, T.Entry.Text;
    RestartsAtDisk(s, o, size, src);
    F.PositionSurvivesRestart(order, values, key, cp, entry);
  }

  // ---- the queues ----

  /** What a step of the pipeline is for a queue. */
  ghost function QueueStep(s: P.Sys, a: P.Action, src: D.Source): seq<QL.Step> {
    match a
    case AppendMessage(_, p) => if src.FromInput? then [QL.Write(p)] else []
    case Emit(_, p) => if src.FromAnalysis? then [QL.Write(p)] else []
    case EmitIdle(_, p) => if src.FromAnalysis? then [QL.Write(p)] else []
    case SpillInput(n) => if src.FromInput? then [QL.Spill(n)] else []
    case SpillAnalysis(n) => if src.FromAnalysis? then [QL.Spill(n)] else []
    case FlushInput => if src.FromInput? then [QL.Spill(Total(s.inq.log.fs))] else []
    case FlushAnalysis => if src.FromAnalysis? then [QL.Spill(Total(s.anq.log.fs))] else []
    case CrashAndRestart(size) => [QL.Crash(size)]
    case _ => []
  }

  ghost function QueueSteps(states: seq<P.Sys>, actions: seq<P.Action>, k: nat, src: D.Source): seq<QL.Step>
    requires k <= |actions| && |actions| < |states|
  {
    if k == 0 then [] else QueueSteps(states, actions, k - 1, src) + QueueStep(states[k - 1], actions[k - 1], src)
  }

  lemma QueueNext(s: P.Sys, a: P.Action, src: D.Source)
    requires P.Enabled(s, a)
    ensures P.Shaped(s) && P.Shaped(P.Next(s, a)) && QL.Ok(P.QueueOf(s, src).log)
    ensures var l, t, steps := P.QueueOf(s, src).log, P.Next(s, a), QueueStep(s, a, src);
            if steps == [] then P.QueueOf(t, src).log == l && t.size == s.size
            else && |steps| == 1 && P.QueueOf(t, src).log == QL.Next(l, steps[0], s.size)
                 && t.size == (if steps[0].Crash? then steps[0].size else s.size)
  {
    hide Total, Flat, PosAfter, QL.Inject, QL.Flush, QL.Recover, P.OutputStep, P.Restarted, P.MarkOf, P.CanRestart;
    Durability.QueueSteps(s, a);
  }

  /** The two queues of the pipeline are queues as module QueueLog has them: after any run each is what its appends,
      flushes, crashes and restarts make of an empty one, so that what is proved of its files there holds here. */
  lemma {:induction false} QueuesAreLogs(states: seq<P.Sys>, actions: seq<P.Action>, k: nat, src: D.Source)
    requires P.Run(states, actions) && k < |states|
    ensures P.Shaped(states[k])
    ensures var steps := QueueSteps(states, actions, k, src);
            && P.QueueOf(states[k], src).log == QL.Run(QL.EMPTY, steps, states[0].size)
            && states[k].size == QL.SizeAfter(steps, states[0].size)
  {
    hide P.Next, P.Enabled, P.Shaped, P.Init, QueueStep, QL.Next;
    if k == 0 {
      Empty(states[0], src);
    } else {
      var m := k - 1;
      QueuesAreLogs(states, actions, m, src);
      QueueNext(states[m], actions[m], src);
      var before, now := QueueSteps(states, actions, m, src), QueueStep(states[m], actions[m], src);
      if now == [] {
        assert before + now == before;
      } else {
        assert (before + now)[..|before|] == before && (before + now)[|before|] == now[0];
      }
    }
  }

  lemma Empty(s: P.Sys, src: D.Source)
    requires P.Init(s)
    ensures P.Shaped(s) && P.QueueOf(s, src).log == QL.EMPTY
  {
  }
}
