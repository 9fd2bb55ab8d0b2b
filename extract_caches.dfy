/** The batch: every entry of the cache map extracted in turn, unless
    extraction is switched off. */
module BatchExtraction {
  import opened Effects
  import opened Extraction

  /** The options the batch reads, already resolved: whether extraction is
      skipped, the cache map as the list of its entries (cache source, cache
      options) in enumeration order, the scratch directory, the utility image
      the Dancefile builds on, and the builder (`""` when there is none). */
  datatype Opts = Opts(skipExtraction: bool, cacheMap: seq<(string, CacheOptions)>,
                       scratchDir: string, utilityImage: string, builder: string)

  /** The clock: the timestamp read by the `k`-th extraction of the batch. */
  type Clock = nat -> string

  /** The plan of the `k`-th entry, stamped with the `k`-th reading of the clock. */
  function EntryPlan(opts: Opts, k: nat, clock: Clock): seq<Step>
    requires k < |opts.cacheMap|
  {
    Plan(opts.cacheMap[k].0, opts.cacheMap[k].1, opts.scratchDir, opts.utilityImage, opts.builder, clock(k))
  }

  /** Extracts the entries from the `i`-th on, each awaited before the next
      starts; a failure propagates and ends the batch. */
  function RunFrom(opts: Opts, i: nat, history: seq<Command>, succeeds: Oracle, clock: Clock): Run
    requires i <= |opts.cacheMap|
    decreases |opts.cacheMap| - i
  {
    if i == |opts.cacheMap| then Run([], Done)
    else
      var first := Execute(EntryPlan(opts, i, clock), history, succeeds);
      if first.status.Failed? then first
      else After(first.trace, RunFrom(opts, i + 1, history + first.trace, succeeds, clock))
  }

  /** The whole batch after `history`: nothing at all when extraction is
      skipped, otherwise every entry from the first. */
  function Batch(opts: Opts, history: seq<Command>, succeeds: Oracle, clock: Clock): Run {
    if opts.skipExtraction then Run([], Done) else RunFrom(opts, 0, history, succeeds, clock)
  }

  /** Extracts every cache source of the cache map, in order. */
  method ExtractCaches(opts: Opts, history: seq<Command>, succeeds: Oracle, clock: Clock)
    returns (trace: seq<Command>, status: Status)
    ensures Run(trace, status) == Batch(opts, history, succeeds, clock)
  {
    if opts.skipExtraction {
      return [], Done;
    }
    var cacheMap := opts.cacheMap;
    var scratchDir, containerImage, builder := opts.scratchDir, opts.utilityImage, opts.builder;
    trace := [];
    assert history + trace == history;
    var i := 0;
    while i < |cacheMap|
      invariant i <= |cacheMap|
      invariant Batch(opts, history, succeeds, clock) == After(trace, RunFrom(opts, i, history + trace, succeeds, clock))
    {
      var (cacheSource, cacheOptions) := cacheMap[i];
      var t, s := ExtractCache(cacheSource, cacheOptions, scratchDir, containerImage, builder, clock(i),
                               history + trace, succeeds);
      Associative(history, trace, t);
      if s.Failed? {
        return trace + t, s;
      }
      Associative(trace, t, RunFrom(opts, i + 1, history + (trace + t), succeeds, clock).trace);
      trace := trace + t;
      i := i + 1;
    }
    status := Done;
  }

  /** The plans of the entries from the `i`-th on, back to back. */
  function PlansFrom(opts: Opts, i: nat, clock: Clock): seq<Step>
    requires i <= |opts.cacheMap|
    decreases |opts.cacheMap| - i
  {
    if i == |opts.cacheMap| then [] else EntryPlan(opts, i, clock) + PlansFrom(opts, i + 1, clock)
  }

  /** Entry after entry is one flat plan: extracting the entries one by one,
      stopping at the first failure, is running their plans back to back. */
  lemma {:induction false} RunFromIsOnePlan(opts: Opts, i: nat, history: seq<Command>, succeeds: Oracle, clock: Clock)
    requires i <= |opts.cacheMap|
    ensures RunFrom(opts, i, history, succeeds, clock) == Execute(PlansFrom(opts, i, clock), history, succeeds)
    decreases |opts.cacheMap| - i
  {
    if i < |opts.cacheMap| {
      var first := Execute(EntryPlan(opts, i, clock), history, succeeds);
      ExecuteConcatFrom(EntryPlan(opts, i, clock), PlansFrom(opts, i + 1, clock), 0, history, succeeds);
      RunFromIsOnePlan(opts, i + 1, history + first.trace, succeeds, clock);
    }
  }

  /** Every entry contributes its ten steps. */
  lemma {:induction false} PlansFromLength(opts: Opts, i: nat, clock: Clock)
    requires i <= |opts.cacheMap|
    ensures |PlansFrom(opts, i, clock)| == 10 * (|opts.cacheMap| - i)
    decreases |opts.cacheMap| - i
  {
    if i < |opts.cacheMap| {
      PlansFromLength(opts, i + 1, clock);
    }
  }

  /** Step `j` of entry `k` sits at `10 * (k - i) + j` in the flat plan from
      entry `i` on. */
  lemma {:induction false} PlansFromAt(opts: Opts, i: nat, clock: Clock, k: nat, j: nat)
    requires i <= k < |opts.cacheMap| && j < 10
    ensures 10 * (k - i) + j < |PlansFrom(opts, i, clock)|
    ensures PlansFrom(opts, i, clock)[10 * (k - i) + j] == EntryPlan(opts, k, clock)[j]
    decreases k - i
  {
    PlansFromLength(opts, i, clock);
    if k > i {
      PlansFromAt(opts, i + 1, clock, k, j);
    }
  }

  /** In the flat plan, a step ignores its failure exactly when it removes a
      leftover container. */
  lemma {:induction false} PlansFromIgnores(opts: Opts, i: nat, clock: Clock)
    requires i <= |opts.cacheMap|
    ensures forall t :: 0 <= t < |PlansFrom(opts, i, clock)| ==>
              (PlansFrom(opts, i, clock)[t].ignoreFailure <==> PlansFrom(opts, i, clock)[t].cmd == ResetContainer)
    decreases |opts.cacheMap| - i
  {
    if i < |opts.cacheMap| {
      var entry := EntryPlan(opts, i, clock);
      var (cacheSource, options) := opts.cacheMap[i];
      PlansFromIgnores(opts, i + 1, clock);
      forall t | 0 <= t < 10
        ensures entry[t].ignoreFailure <==> entry[t].cmd == ResetContainer
      {
        OnlyRemovalIgnored(cacheSource, options, opts.scratchDir, opts.utilityImage, opts.builder, clock(i), t);
        ResetOnlyAtRemoval(cacheSource, options, opts.scratchDir, opts.utilityImage, opts.builder, clock(i), t);
      }
    }
  }

  /** How a batch ends. A skipped batch issues nothing. Otherwise the commands
      issued are the steps of the entries, entry after entry in cache-map
      order, each entry's in its own order; a finished batch ran every step of
      every entry; a failed batch ends with the step that failed, which is
      never a removal of a leftover container, so nothing later was started;
      and every command before the end succeeded, except those removals. */
  lemma BatchOutcome(opts: Opts, history: seq<Command>, succeeds: Oracle, clock: Clock, r: Run)
    requires r == Batch(opts, history, succeeds, clock)
    ensures opts.skipExtraction ==> r == Run([], Done)
    ensures |r.trace| <= 10 * |opts.cacheMap|
    ensures forall k, j :: 0 <= k < |opts.cacheMap| && 0 <= j < 10 && 10 * k + j < |r.trace| ==>
              r.trace[10 * k + j] == EntryPlan(opts, k, clock)[j].cmd
    ensures r.status == Done && !opts.skipExtraction ==> |r.trace| == 10 * |opts.cacheMap|
    ensures r.status.Failed? ==>
              && r.trace != []
              && r.status.at == r.trace[|r.trace| - 1]
              && r.status.at != ResetContainer
              && !succeeds(history + r.trace)
    ensures forall n :: 1 <= n <= |r.trace| && r.trace[n - 1] != ResetContainer && (r.status == Done || n < |r.trace|) ==>
              succeeds(history + r.trace[..n])
  {
    if !opts.skipExtraction {
      var plan := PlansFrom(opts, 0, clock);
      RunFromIsOnePlan(opts, 0, history, succeeds, clock);
      PlansFromLength(opts, 0, clock);
      PlansFromIgnores(opts, 0, clock);
      ExecuteFollowsPlan(plan, 0, history, succeeds, r);
      ExecuteFailureIsLast(plan, 0, history, succeeds, r);
      ExecutePassedBeforeStop(plan, 0, history, succeeds, r);
      forall k, j | 0 <= k < |opts.cacheMap| && 0 <= j < 10 && 10 * k + j < |r.trace|
        ensures r.trace[10 * k + j] == EntryPlan(opts, k, clock)[j].cmd
      {
        PlansFromAt(opts, 0, clock, k, j);
      }
      forall n | 1 <= n <= |r.trace| && r.trace[n - 1] != ResetContainer && (r.status == Done || n < |r.trace|)
        ensures succeeds(history + r.trace[..n])
      {
        assert Passed(plan, 0, history, r.trace, succeeds, n - 1);
      }
    }
  }
}
