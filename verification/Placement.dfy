/** On which analysis thread a plugin runs. */
module Placement {
  import opened Options
  import opened Framing

  /** Thread `t` is the first of those with the fewest plugins. */
  predicate FirstLeast(counts: seq<nat>, t: nat) {
    && t < |counts|
    && (forall i :: 0 <= i < |counts| ==> counts[t] <= counts[i])
    && (forall i :: 0 <= i < t ==> counts[t] < counts[i])
  }

  /** The choice for a plugin whose thread nobody has set. Stopping at an empty thread is only a short
      cut. Counts are C ints. */
  method ChooseThread(counts: array<nat>) returns (thread: nat)
    requires counts.Length > 0
    requires forall i :: 0 <= i < counts.Length ==> counts[i] < INT_MAX
    ensures FirstLeast(counts[..], thread)
  {
    var least := INT_MAX;
    thread := 0;
    var i := 0;
    while i < counts.Length
      invariant 0 <= i <= counts.Length
      invariant forall k :: 0 <= k < i ==> 0 < counts[k] && least <= counts[k]
      invariant if i == 0 then least == INT_MAX
                else thread < i && counts[thread] == least && forall k :: 0 <= k < thread ==> least < counts[k]
    {
      if counts[i] == 0 {
        return i;
      }
      if counts[i] < least {
        least := counts[i];
        thread := i;
      }
      i := i + 1;
    }
  }

  /** A plugin's configuration: the thread that it names or that its plugin ran on before, and whether it
      loads. One that does not load is counted where it is pinned, but not placed. */
  datatype Config = Config(pin: Option<nat>, loads: bool)

  /** How many of the first n configurations are pinned to thread t. */
  function PinnedTo(configs: seq<Config>, threads: nat, t: nat, n: nat): nat
    requires threads > 0 && n <= |configs|
  {
    if n == 0 then 0
    else
      PinnedTo(configs, threads, t, n - 1) +
      if configs[n - 1].pin.Some? && configs[n - 1].pin.value % threads == t then 1 else 0
  }

  /** Nobody has said where it goes, and it goes somewhere. */
  predicate Free(c: Config) {
    c.loads && c.pin.None?
  }

  /** How many of the first n configurations have been given thread t without being pinned. */
  function GivenTo(configs: seq<Config>, placed: seq<Option<nat>>, t: nat, n: nat): nat
    requires n <= |configs| && n <= |placed|
  {
    if n == 0 then 0
    else GivenTo(configs, placed, t, n - 1) + if Free(configs[n - 1]) && placed[n - 1] == Some(t) then 1 else 0
  }

  lemma {:induction false} FewerThanPlugins(configs: seq<Config>, threads: nat, placed: seq<Option<nat>>, t: nat,
                                            m: nat, n: nat)
    requires threads > 0 && m <= n <= |configs| && m <= |placed|
    ensures PinnedTo(configs, threads, t, n) + GivenTo(configs, placed, t, m) <= n
    decreases n, m
  {
    if m == n && n > 0 {
      FewerThanPlugins(configs, threads, placed, t, m - 1, n - 1);
    } else if n > 0 {
      FewerThanPlugins(configs, threads, placed, t, m, n - 1);
    }
  }

  lemma {:induction false} GivenPrefix(configs: seq<Config>, placed: seq<Option<nat>>, more: seq<Option<nat>>,
                                       t: nat, n: nat)
    requires n <= |configs| && n <= |placed| && placed <= more
    ensures GivenTo(configs, more, t, n) == GivenTo(configs, placed, t, n)
  {
    if n > 0 {
      GivenPrefix(configs, placed, more, t, n - 1);
    }
  }

  /** The pre-count of hs_load_analysis_startup. */
  method CountPinned(configs: seq<Config>, counts: array<nat>)
    requires counts.Length > 0
    requires forall t :: 0 <= t < counts.Length ==> counts[t] == 0
    modifies counts
    ensures forall t :: 0 <= t < counts.Length ==> counts[t] == PinnedTo(configs, counts.Length, t, |configs|)
  {
    var i := 0;
    while i < |configs|
      invariant 0 <= i <= |configs|
      invariant forall t :: 0 <= t < counts.Length ==> counts[t] == PinnedTo(configs, counts.Length, t, i)
    {
      if configs[i].pin.Some? {
        var t := configs[i].pin.value % counts.Length;
        counts[t] := counts[t] + 1;
      }
      i := i + 1;
    }
  }

  /** The counts are those of the pinned plugins and of the plugins placed so far. */
  ghost predicate Accounts(counts: seq<nat>, configs: seq<Config>, placed: seq<Option<nat>>) {
    && counts != [] && |placed| <= |configs|
    && forall t: nat :: t < |counts| ==>
         counts[t] == PinnedTo(configs, |counts|, t, |configs|) + GivenTo(configs, placed, t, |placed|)
  }

  predicate Obeys(placed: seq<Option<nat>>, configs: seq<Config>, threads: nat) {
    && threads > 0 && |placed| <= |configs|
    && forall i :: 0 <= i < |placed| ==>
         && (placed[i].Some? <==> configs[i].loads)
         && (placed[i].Some? ==> placed[i].value < threads)
         && (configs[i].loads && configs[i].pin.Some? ==> placed[i] == Some(configs[i].pin.value % threads))
  }

  /** A thread that was given a plugin of its own choice is at most one above every other thread. */
  predicate Balanced(counts: seq<nat>, configs: seq<Config>, placed: seq<Option<nat>>) {
    && Obeys(placed, configs, |counts|)
    && forall i, t :: 0 <= i < |placed| && Free(configs[i]) && 0 <= t < |counts| ==>
         counts[placed[i].value] <= counts[t] + 1
  }

  lemma CountsAreInts(counts: seq<nat>, configs: seq<Config>, placed: seq<Option<nat>>)
    requires Accounts(counts, configs, placed) && |configs| < INT_MAX
    ensures forall t :: 0 <= t < |counts| ==> counts[t] < INT_MAX
  {
    forall t: nat | t < |counts|
      ensures counts[t] < INT_MAX
    {
      FewerThanPlugins(configs, |counts|, placed, t, |placed|, |configs|);
    }
  }

  lemma AccountsStep(counts: seq<nat>, configs: seq<Config>, placed: seq<Option<nat>>, thread: Option<nat>)
    requires Accounts(counts, configs, placed) && |placed| < |configs|
    requires Free(configs[|placed|]) ==> thread.Some? && thread.value < |counts|
    ensures Accounts(if Free(configs[|placed|]) then counts[thread.value := counts[thread.value] + 1] else counts,
                     configs, placed + [thread])
  {
    forall t: nat | t < |counts| {
      GivenPrefix(configs, placed, placed + [thread], t, |placed|);
    }
  }

  /** hs_load_analysis_startup: the thread of every plugin, in the order the directory lists them, and the
      final counts. */
  method LoadStartup(configs: seq<Config>, threads: nat) returns (placed: seq<Option<nat>>, counts: array<nat>)
    requires threads > 0 && |configs| < INT_MAX
    ensures |placed| == |configs| && counts.Length == threads
    ensures Obeys(placed, configs, threads)
    ensures Accounts(counts[..], configs, placed)
    ensures Balanced(counts[..], configs, placed)
  {
    hide Accounts;
    counts := new nat[threads](_ => 0);
    CountPinned(configs, counts);
    placed := [];
    PinnedAccounts(counts[..], configs);
    while |placed| < |configs|
      invariant |placed| <= |configs|
      invariant Accounts(counts[..], configs, placed)
      invariant Balanced(counts[..], configs, placed)
    {
      ghost var before := counts[..];
      var thread: Option<nat> := None;
      if configs[|placed|].loads {
        if configs[|placed|].pin.Some? {
          thread := Some(configs[|placed|].pin.value % threads);
        } else {
          CountsAreInts(before, configs, placed);
          assert forall t :: 0 <= t < threads ==> before[t] == counts[t];
          var least := ChooseThread(counts);
          counts[least] := counts[least] + 1;
          thread := Some(least);
          assert counts[..] == before[least := before[least] + 1];
        }
      }
      AccountsStep(before, configs, placed, thread);
      placed := placed + [thread];
    }
  }

  lemma PinnedAccounts(counts: seq<nat>, configs: seq<Config>)
    requires counts != []
    requires forall t :: 0 <= t < |counts| ==> counts[t] == PinnedTo(configs, |counts|, t, |configs|)
    ensures Accounts(counts, configs, [])
  {
  }

  // ---- a plugin loaded later ----

  /** What least_used_thread_id looks at. */
  datatype Load = Load(utilization: nat, plugins: nat)

  predicate Lighter(a: Load, b: Load) {
    a.utilization < b.utilization || (a.utilization == b.utilization && a.plugins < b.plugins)
  }

  /** least_used_thread_id: the first of the least loaded threads, or none exactly if there is a limit and
      no thread is below it. */
  method LeastUsedThread(loads: seq<Load>, limit: nat) returns (thread: Option<nat>)
    requires loads != []
    requires forall i :: 0 <= i < |loads| ==> loads[i].utilization <= 255 && loads[i].plugins < INT_MAX
    ensures thread.None? <==> limit != 0 && forall i :: 0 <= i < |loads| ==> loads[i].utilization >= limit
    ensures thread.Some? ==>
              && thread.value < |loads|
              && (forall i :: 0 <= i < |loads| ==> !Lighter(loads[i], loads[thread.value]))
              && (forall i :: 0 <= i < thread.value ==> Lighter(loads[thread.value], loads[i]))
  {
    var tid, least := 0, Load(255, INT_MAX);
    var i := 0;
    while i < |loads|
      invariant 0 <= i <= |loads|
      invariant if i == 0 then least == Load(255, INT_MAX) else tid < i && least == loads[tid]
      invariant forall k :: 0 <= k < i ==> !Lighter(loads[k], least)
      invariant forall k :: 0 <= k < tid && k < i ==> Lighter(least, loads[k])
    {
      if loads[i].utilization < least.utilization ||
         (loads[i].utilization == least.utilization && loads[i].plugins < least.plugins) {
        least := loads[i];
        tid := i;
      }
      i := i + 1;
    }
    if limit != 0 && least.utilization >= limit {
      return None;
    }
    return Some(tid);
  }
}
