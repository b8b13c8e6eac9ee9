/** When `inject_message` throttles its caller, and what that promises about slow readers. */
module Backpressure {
  import opened Framing
  import opened Decimal
  import D = Delivery

  /** `backpressure` (files) and `backpressure_disk_free` (files that still fit); 0 switches one off. */
  datatype Config = Config(limit: nat, diskLimit: nat)

  /** The statics of inject_message. */
  datatype Throttle = Throttle(on: bool, lastCheck: int)

  /** Difference of two unsigned long longs. */
  function Sub64(a: nat, b: nat): (r: nat)
    ensures b <= a < TWO_64 ==> r == a - b
  {
    (a - b) % TWO_64
  }

  /** Right after a roll to file `id`. */
  function AtRoll(c: Config, t: Throttle, id: nat, minId: nat, diskFree: nat): (r: Throttle)
    ensures t.on ==> r.on
  {
    var on := t.on || (c.limit != 0 && Sub64(id, minId) > c.limit);
    t.(on := on || (c.diskLimit != 0 && diskFree <= c.diskLimit))
  }

  /** The release check, at most once per second. */
  function AtRelease(c: Config, t: Throttle, id: nat, minId: nat, now: int, diskFree: nat): (r: Throttle)
    ensures r.on ==> t.on
  {
    if t.on && t.lastCheck < now then
      var release := id == minId && (c.diskLimit == 0 || diskFree > c.diskLimit);
      Throttle(!release, now)
    else t
  }

  // ---- the protocol: injections, reader progress and the sweep that looks for the slowest reader ----

  /** `sampled` counts the readers whose file id the running sweep has folded into `least`.
      `swept` and `rolled` remember that a sweep has completed and that a roll came after it. */
  datatype State = State(id: nat, minId: nat, throttle: Throttle, readers: seq<nat>,
                         sampled: nat, least: nat, swept: bool, rolled: bool)

  datatype Event =
    | Inject(rolls: bool, now: int, diskFreeAtRoll: nat, diskFreeAtRelease: nat)
    | Advance(reader: nat, to: nat)
    | Sample
    | EndSweep

  predicate Enabled(s: State, e: Event) {
    match e
    case Inject(rolls, _, _, _) => rolls ==> s.id + 1 < ULLONG_MAX
    case Advance(r, to) => r < |s.readers| && s.readers[r] <= to <= s.id
    case Sample => s.sampled < |s.readers|
    case EndSweep => s.sampled == |s.readers|
  }

  function Next(c: Config, s: State, e: Event): State
    requires Enabled(s, e)
  {
    match e
    case Inject(rolls, now, d1, d2) =>
      var id := if rolls then s.id + 1 else s.id;
      var t := if rolls then AtRoll(c, s.throttle, id, s.minId, d1) else s.throttle;
      s.(id := id, throttle := AtRelease(c, t, id, s.minId, now, d2), rolled := s.rolled || (rolls && s.swept))
    case Advance(r, to) => s.(readers := s.readers[r := to])
    case Sample =>
      var id := s.readers[s.sampled];
      s.(sampled := s.sampled + 1, least := if id < s.least then id else s.least)
    case EndSweep => s.(minId := s.least, sampled := 0, least := ULLONG_MAX, swept := true)
  }

  ghost predicate Run(c: Config, states: seq<State>, events: seq<Event>) {
    && |states| == |events| + 1
    && forall i :: 0 <= i < |events| ==> Enabled(states[i], events[i]) && states[i + 1] == Next(c, states[i], events[i])
  }

  /** Start-up: nothing is throttled, the minimum is the writer's own file and not yet a sweep's. */
  ghost predicate Init(s: State) {
    && !s.throttle.on && s.minId == s.id < ULLONG_MAX
    && s.readers != [] && (forall i :: 0 <= i < |s.readers| ==> s.readers[i] <= s.id)
    && s.sampled == 0 && s.least == ULLONG_MAX && !s.swept && !s.rolled
  }

  ghost predicate Inv(c: Config, s: State) {
    && s.id < ULLONG_MAX
    && s.readers != []
    && (forall i :: 0 <= i < |s.readers| ==> s.readers[i] <= s.id)
    && s.sampled <= |s.readers|
    && (forall i :: 0 <= i < s.sampled ==> s.least <= s.readers[i])
    && (s.swept ==> s.minId <= s.least)
    && (s.swept ==> forall i :: 0 <= i < |s.readers| ==> s.minId <= s.readers[i])
    && (s.rolled ==> s.swept)
    && (c.limit != 0 && s.rolled && !s.throttle.on ==> s.id <= s.minId + c.limit)
  }

  lemma InvKept(c: Config, s: State, e: Event)
    requires Inv(c, s) && Enabled(s, e)
    ensures Inv(c, Next(c, s, e))
  {
    var t := Next(c, s, e);
    match e
    case Inject(rolls, now, d1, d2) =>
      if rolls && s.swept {
        assert s.minId <= s.readers[0] <= s.id;
      }
    case Advance(r, to) =>
    case Sample =>
      assert s.readers[s.sampled] <= s.id;
    case EndSweep =>
      assert s.least <= s.readers[0];
  }

  lemma {:induction false} RunInv(c: Config, states: seq<State>, events: seq<Event>, i: nat)
    requires Run(c, states, events) && Init(states[0])
    requires i < |states|
    ensures Inv(c, states[i])
  {
    if i > 0 {
      RunInv(c, states, events, i - 1);
      InvKept(c, states[i - 1], events[i - 1]);
    }
  }

  lemma {:induction false} Remembered(c: Config, states: seq<State>, events: seq<Event>, w: nat, i: nat)
    requires Run(c, states, events) && w < i < |states|
    ensures events[w] == EndSweep ==> states[i].swept
    ensures events[w].Inject? && events[w].rolls && states[w].swept ==> states[i].rolled
    decreases i
  {
    hide AtRoll, AtRelease;
    if w + 1 < i {
      Remembered(c, states, events, w, i - 1);
    }
  }

  /** After a completed sweep the published minimum never exceeds a reader's file. With a nonzero limit, from the first
      roll after a completed sweep on: whenever the writer is not throttled every reader, so the slowest one too, is
      at most `limit` files behind it. */
  lemma SlowestReaderBound(c: Config, states: seq<State>, events: seq<Event>, w: nat, r: nat, i: nat, reader: nat)
    requires Run(c, states, events) && Init(states[0])
    requires w < i < |states| && events[w] == EndSweep
    requires reader < |states[i].readers|
    ensures states[i].minId <= states[i].readers[reader]
    ensures w < r < i && events[r].Inject? && events[r].rolls && c.limit != 0 && !states[i].throttle.on ==>
              states[i].id - states[i].readers[reader] <= c.limit
  {
    RunInv(c, states, events, i);
    Remembered(c, states, events, w, i);
    if w < r < i {
      Remembered(c, states, events, w, r);
      Remembered(c, states, events, r, i);
    }
  }

  /** An injection that, in a new second, finds the queue caught up and the disk condition met. */
  predicate Releases(c: Config, s: State, e: Event)
    requires Enabled(s, e)
  {
    && e.Inject?
    && s.throttle.lastCheck < e.now
    && (if e.rolls then s.id + 1 else s.id) == s.minId
    && (c.diskLimit == 0 || e.diskFreeAtRelease > c.diskLimit)
  }

  /** A roll that leaves the slowest reader too far behind or too little room on the disk. */
  predicate Applies(c: Config, s: State, e: Event) {
    && e.Inject? && e.rolls
    && (|| (c.limit != 0 && Sub64(s.id + 1, s.minId) > c.limit)
        || (c.diskLimit != 0 && e.diskFreeAtRoll <= c.diskLimit))
  }

  /** An injection that looks whether to stop throttling. */
  predicate Examines(c: Config, s: State, e: Event) {
    e.Inject? && (s.throttle.on || Applies(c, s, e)) && s.throttle.lastCheck < e.now
  }

  /** Throttling is on after an event exactly if it was on or the event begins it, and the event does not
      end it. */
  lemma OneStep(c: Config, s: State, e: Event)
    requires Enabled(s, e)
    ensures Next(c, s, e).throttle.on <==> (s.throttle.on || Applies(c, s, e)) && !Releases(c, s, e)
    ensures Next(c, s, e).throttle.lastCheck == if Examines(c, s, e) then e.now else s.throttle.lastCheck
  {
  }

  /** No event of a stretch ends throttling. */
  ghost predicate NoRelease(c: Config, states: seq<State>, events: seq<Event>, a: nat, b: nat)
    requires Run(c, states, events) && b < |states|
  {
    forall m :: a <= m < b ==> !Releases(c, states[m], events[m])
  }

  /** Event m begins throttling, and nothing has ended it since. */
  ghost predicate AppliedAt(c: Config, states: seq<State>, events: seq<Event>, m: nat, b: nat)
    requires Run(c, states, events) && b < |states|
  {
    m < b && Applies(c, states[m], events[m]) && NoRelease(c, states, events, m, b)
  }

  /** Throttling is on in a state of a run exactly if it was on in an earlier one and no injection has ended it
      since, or a roll in between has begun it and no injection has ended it since then. */
  lemma {:induction false} ThrottleChanges(c: Config, states: seq<State>, events: seq<Event>, a: nat, b: nat)
    requires Run(c, states, events)
    requires a <= b < |states|
    ensures states[b].throttle.on <==>
              || (states[a].throttle.on && NoRelease(c, states, events, a, b))
              || exists m: nat :: a <= m && AppliedAt(c, states, events, m, b)
    decreases b
  {
    hide Next, Enabled, Releases, Applies, NoRelease;
    if a == b {
      NothingBetween(c, states, events, a);
    } else {
      var last := b - 1;
      ThrottleChanges(c, states, events, a, last);
      OneStep(c, states[last], events[last]);
      OneMore(c, states, events, a, last);
      AppliedOneMore(c, states, events, last, last);
      if m: nat :| a <= m && AppliedAt(c, states, events, m, last) {
        AppliedOneMore(c, states, events, m, last);
      }
      if m: nat :| a <= m && AppliedAt(c, states, events, m, b) {
        AppliedOneMore(c, states, events, m, last);
      }
    }
  }

  lemma AppliedOneMore(c: Config, states: seq<State>, events: seq<Event>, m: nat, b: nat)
    requires Run(c, states, events) && m <= b < |events|
    ensures AppliedAt(c, states, events, m, b + 1) <==>
            && !Releases(c, states[b], events[b])
            && if m == b then Applies(c, states[b], events[b]) else AppliedAt(c, states, events, m, b)
  {
    hide Next;
  }

  lemma OneMore(c: Config, states: seq<State>, events: seq<Event>, m: nat, b: nat)
    requires Run(c, states, events) && m <= b < |events|
    ensures NoRelease(c, states, events, m, b + 1) <==>
            NoRelease(c, states, events, m, b) && !Releases(c, states[b], events[b])
  {
    hide Next;
  }

  lemma NothingBetween(c: Config, states: seq<State>, events: seq<Event>, m: nat)
    requires Run(c, states, events) && m < |states|
    ensures NoRelease(c, states, events, m, m)
  {
  }

  lemma {:induction false} LastCheckRises(c: Config, states: seq<State>, events: seq<Event>, a: nat, b: nat)
    requires Run(c, states, events) && a <= b < |states|
    ensures states[a].throttle.lastCheck <= states[b].throttle.lastCheck
    decreases b
  {
    hide Next, Enabled, Applies, Releases;
    if a < b {
      LastCheckRises(c, states, events, a, b - 1);
      OneStep(c, states[b - 1], events[b - 1]);
    }
  }

  /** There is at most one such look per second, whatever the clock does: a later one is in a later second. */
  lemma OncePerSecond(c: Config, states: seq<State>, events: seq<Event>, a: nat, b: nat)
    requires Run(c, states, events) && a < b < |events|
    requires Examines(c, states[a], events[a]) && Examines(c, states[b], events[b])
    ensures events[a].now < events[b].now
  {
    hide Next, Enabled, Applies, Releases;
    OneStep(c, states[a], events[a]);
    LastCheckRises(c, states, events, a + 1, b);
  }

  /** Step q samples a reader in file `id`. */
  ghost predicate SampledAt(states: seq<State>, events: seq<Event>, q: nat, id: nat) {
    && q < |events| && q < |states| && events[q] == Sample
    && states[q].sampled < |states[q].readers| && id == states[q].readers[states[q].sampled]
  }

  ghost predicate SomeSampledAt(states: seq<State>, events: seq<Event>, i: nat, id: nat) {
    exists q: nat :: q < i && SampledAt(states, events, q, id)
  }

  /** What one event does to a sweep. */
  lemma SweepStep(c: Config, s: State, e: Event)
    requires Inv(c, s) && Enabled(s, e)
    ensures var t := Next(c, s, e);
            match e
            case Sample =>
              && t.least == (if s.readers[s.sampled] < s.least then s.readers[s.sampled] else s.least)
              && s.readers[s.sampled] < ULLONG_MAX && t.sampled == s.sampled + 1
              && t.minId == s.minId && t.swept == s.swept && t.readers == s.readers && t.id == s.id
            case EndSweep =>
              t.minId == s.least && t.swept && t.sampled == 0 && t.least == ULLONG_MAX && t.readers == s.readers &&
              s.sampled > 0 && t.id == s.id
            case _ => t.least == s.least && t.sampled == s.sampled && t.minId == s.minId && t.swept == s.swept
    ensures Next(c, s, e).readers == match e
                                     case Advance(r, to) => s.readers[r := to]
                                     case _ => s.readers
    ensures Next(c, s, e).id == if e.Inject? && e.rolls then s.id + 1 else s.id
  {
    hide AtRoll, AtRelease;
  }

  /** What the sweep has found so far is the file of a reader when it was sampled, and so is the published
      minimum. */
  lemma {:induction false} MinimumIsSampled(c: Config, states: seq<State>, events: seq<Event>, i: nat)
    requires Run(c, states, events) && Init(states[0]) && i < |states|
    ensures states[i].sampled > 0 ==> SomeSampledAt(states, events, i, states[i].least)
    ensures states[i].swept ==> SomeSampledAt(states, events, i, states[i].minId)
    ensures states[i].sampled == 0 ==> states[i].least == ULLONG_MAX
  {
    hide Next, Enabled, SomeSampledAt, Inv;
    if i > 0 {
      var s := states[i - 1];
      MinimumIsSampled(c, states, events, i - 1);
      RunInv(c, states, events, i - 1);
      SweepStep(c, s, events[i - 1]);
      SampledEarlier(states, events, i - 1, s.least);
      SampledEarlier(states, events, i - 1, s.minId);
      if events[i - 1].Sample? {
        SampledNow(c, states, events, i - 1);
      }
    }
  }

  lemma SampledEarlier(states: seq<State>, events: seq<Event>, i: nat, id: nat)
    ensures SomeSampledAt(states, events, i, id) ==> SomeSampledAt(states, events, i + 1, id)
  {
  }

  lemma SampledNow(c: Config, states: seq<State>, events: seq<Event>, i: nat)
    requires Run(c, states, events) && i < |events| && events[i] == Sample
    ensures states[i].sampled < |states[i].readers|
    ensures SomeSampledAt(states, events, i + 1, states[i].readers[states[i].sampled])
  {
    assert SampledAt(states, events, i, states[i].readers[states[i].sampled]);
  }

  /** A sweep from state a on that finds every reader in the writer's own file publishes that file. */
  lemma {:induction false} CaughtUpSweep(c: Config, states: seq<State>, events: seq<Event>, a: nat, b: nat)
    requires Run(c, states, events) && Init(states[0]) && a <= b < |states|
    requires states[a].sampled == 0 && forall r :: 0 <= r < |states[a].readers| ==> states[a].readers[r] == states[a].id
    requires forall m :: a <= m < b ==> !events[m].EndSweep? && !(events[m].Inject? && events[m].rolls)
    ensures states[b].id == states[a].id && states[b].readers == states[a].readers
    ensures states[b].sampled > 0 ==> states[b].least == states[b].id
    decreases b
  {
    hide Next, Inv, SomeSampledAt;
    if a < b {
      CaughtUpSweep(c, states, events, a, b - 1);
      MinimumIsSampled(c, states, events, b - 1);
      RunInv(c, states, events, b - 1);
      SweepStep(c, states[b - 1], events[b - 1]);
    }
  }

  /** Throttling does end: once a sweep has found all readers in the writer's file, the next injection that does
      not roll, in a new second and with room on the disk, ends it. */
  lemma CaughtUpReleases(c: Config, states: seq<State>, events: seq<Event>, a: nat, b: nat)
    requires Run(c, states, events) && Init(states[0]) && a <= b && b + 1 < |events|
    requires states[a].sampled == 0 && forall r :: 0 <= r < |states[a].readers| ==> states[a].readers[r] == states[a].id
    requires forall m :: a <= m < b ==> !events[m].EndSweep? && !(events[m].Inject? && events[m].rolls)
    requires events[b] == EndSweep
    requires var e := events[b + 1];
             e.Inject? && !e.rolls && states[b].throttle.lastCheck < e.now &&
             (c.diskLimit == 0 || e.diskFreeAtRelease > c.diskLimit)
    ensures states[b + 1].minId == states[b + 1].id
    ensures !states[b + 2].throttle.on
  {
    hide Next, Inv, SomeSampledAt;
    CaughtUpSweep(c, states, events, a, b);
    RunInv(c, states, events, b);
    SweepStep(c, states[b], events[b]);
    OneStep(c, states[b], events[b]);
    OneStep(c, states[b + 1], events[b + 1]);
  }

  // ---- the sweep's search for the slowest reader ----

  /** An output plugin as the sweep sees it. */
  datatype OutputReader = OutputReader(readQueue: D.ReadQueue, cur: D.Pair) {
    predicate On(src: D.Source) {
      D.Reads(readQueue, src)
    }

    function Id(src: D.Source): nat {
      D.At(cur, src).id
    }
  }

  predicate Ids64(plugins: seq<OutputReader>) {
    forall i :: 0 <= i < |plugins| ==> plugins[i].cur.input.id <= ULLONG_MAX && plugins[i].cur.analysis.id <= ULLONG_MAX
  }

  /** The least of `ids`, or ULLONG_MAX if there is none. */
  ghost predicate IsLeast(least: nat, ids: set<nat>) {
    (forall id :: id in ids ==> least <= id) && (least == ULLONG_MAX || least in ids)
  }

  /** The files that the plugins reading a queue are in. */
  ghost function IdsOn(plugins: seq<OutputReader>, src: D.Source): set<nat> {
    set i | 0 <= i < |plugins| && plugins[i].On(src) :: plugins[i].Id(src)
  }

  /** The static `cpi` of hs_write_checkpoints. */
  class CheckpointInfo {
    var minInputId: nat
    var minAnalysisId: nat

    /** The minima that one sweep publishes: over the analysis threads' and output plugins' read
        positions, not over the checkpoints that batching holds back. */
    method Sweep(threads: seq<nat>, plugins: seq<OutputReader>)
      requires forall i :: 0 <= i < |threads| ==> threads[i] <= ULLONG_MAX
      requires Ids64(plugins)
      modifies this
      ensures IsLeast(minInputId, (set i | 0 <= i < |threads| :: threads[i]) + IdsOn(plugins, D.FromInput))
      ensures IsLeast(minAnalysisId, IdsOn(plugins, D.FromAnalysis))
    {
      minInputId, minAnalysisId := ULLONG_MAX, ULLONG_MAX;
      AnalysisStats(threads);
      OutputStats(plugins);
    }

    method AnalysisStats(threads: seq<nat>)
      requires minInputId == ULLONG_MAX
      requires forall i :: 0 <= i < |threads| ==> threads[i] <= ULLONG_MAX
      modifies this`minInputId
      ensures IsLeast(minInputId, set i | 0 <= i < |threads| :: threads[i])
    {
      var i := 0;
      while i < |threads|
        invariant 0 <= i <= |threads|
        invariant minInputId <= ULLONG_MAX
        invariant forall k :: 0 <= k < i ==> minInputId <= threads[k]
        invariant minInputId == ULLONG_MAX || exists k :: 0 <= k < i && minInputId == threads[k]
      {
        if threads[i] < minInputId {
          minInputId := threads[i];
        }
        i := i + 1;
      }
    }

    method OutputStats(plugins: seq<OutputReader>)
      requires minInputId <= ULLONG_MAX && minAnalysisId == ULLONG_MAX
      requires Ids64(plugins)
      modifies this
      ensures minInputId <= old(minInputId) && (forall id :: id in IdsOn(plugins, D.FromInput) ==> minInputId <= id)
      ensures minInputId == old(minInputId) || minInputId in IdsOn(plugins, D.FromInput)
      ensures IsLeast(minAnalysisId, IdsOn(plugins, D.FromAnalysis))
    {
      var i := 0;
      while i < |plugins|
        invariant 0 <= i <= |plugins|
        invariant minInputId <= old(minInputId) && minAnalysisId <= ULLONG_MAX
        invariant forall k :: 0 <= k < i && plugins[k].On(D.FromInput) ==> minInputId <= plugins[k].Id(D.FromInput)
        invariant forall k :: 0 <= k < i && plugins[k].On(D.FromAnalysis) ==>
            minAnalysisId <= plugins[k].Id(D.FromAnalysis)
        invariant minInputId == old(minInputId) ||
                  exists k :: 0 <= k < i && plugins[k].On(D.FromInput) && minInputId == plugins[k].Id(D.FromInput)
        invariant minAnalysisId == ULLONG_MAX ||
                  exists k :: 0 <= k < i && plugins[k].On(D.FromAnalysis) &&
                      minAnalysisId == plugins[k].Id(D.FromAnalysis)
      {
        if plugins[i].On(D.FromInput) {
          if plugins[i].cur.input.id < minInputId {
            minInputId := plugins[i].cur.input.id;
          }
        }
        if plugins[i].On(D.FromAnalysis) {
          if plugins[i].cur.analysis.id < minAnalysisId {
            minAnalysisId := plugins[i].cur.analysis.id;
          }
        }
        i := i + 1;
      }
    }
  }
}
