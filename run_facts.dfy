/** What a run of `executeRealSimulation` leaves behind, stated entry by entry and then for the whole plan:
    which items are listed, what the counters say, which external calls are made and in what order, what the
    chart holds, and how long the log gets. */
module RunFacts {
  import opened Types
  import opened AppState
  import opened AppRun
  import Seqs
  import Format

  // ---------------------------------------------------------------------------------------------------------
  // One plan entry

  /** The item plan entry `k` adds to the list: the non-null result of its create call, marked merged when it
      is a PR whose auto-merge succeeded; nothing when the entry has no create branch, when the create call
      threw or when it returned `null`. */
  function Listing(spec: ActivitySpec, k: nat, ctx: Ctx): Option<GeneratedItem>
  {
    if !Dispatchable(spec.kind) then None
    else
      match ctx.env.create.At(k)
      case Threw(_) => None
      case Returned(None) => None
      case Returned(Some(item)) =>
        if spec.kind == PR && ctx.autoMerge && ctx.env.merge.At(k).Pass? then Some(item.(status := Merged))
        else Some(item)
  }

  /** Whether plan entry `k` bumps a counter: its create call was made and did not throw. */
  predicate Counted(spec: ActivitySpec, k: nat, ctx: Ctx)
  {
    Dispatchable(spec.kind) && ctx.env.create.At(k).Returned?
  }

  /** The external calls plan entry `k` makes: its create call, then the merge of the PR it created when
      auto-merge is on. */
  function EntryCalls(spec: ActivitySpec, k: nat, ctx: Ctx): seq<Call>
  {
    if !Dispatchable(spec.kind) then []
    else
      match ctx.env.create.At(k)
      case Returned(Some(item)) =>
        if spec.kind == PR && ctx.autoMerge then [CreateCall(spec.kind, k), MergePr(k, item.id)]
        else [CreateCall(spec.kind, k)]
      case _ => [CreateCall(spec.kind, k)]
  }

  function AsSeq<T>(o: Option<T>): seq<T>
  {
    if o.Some? then [o.value] else []
  }

  /** 1 when `b` holds, 0 otherwise. */
  function Indicator(b: bool): nat
  {
    if b then 1 else 0
  }

  /** The counters after one entry, stated per counter rather than per type: each of the three counters the
      run keeps grows by one exactly when the entry is counted and has its type; `discussions` never grows. */
  function Bump(st: Stats, kind: ActivityType, counted: bool): Stats
  {
    Stats(st.issues + Indicator(counted && kind == ISSUE),
          st.prs + Indicator(counted && kind == PR),
          st.commits + Indicator(counted && kind == COMMIT),
          st.discussions)
  }

  /** The state updater of each create branch agrees with the per-counter definition: it adds one to the
      entry type's counter only, and leaves every other field of the state alone. */
  lemma BumpStatCounts(s: SimulationState, kind: ActivityType)
    ensures var r := BumpStat(s, kind);
      && r.stats == Bump(s.stats, kind, true)
      && r.logs == s.logs && r.items == s.items && r.isRunning == s.isRunning && r.progress == s.progress
  {
  }

  predicate LogBounded(w: World)
  {
    |w.sim.logs| <= LogKeep + 1
  }

  lemma LogIsBounded(w: World, msg: string)
    ensures LogBounded(Log(w, msg))
  {
    AddLogEffect(w.sim, msg);
  }

  /** The effect of the `try`/`catch` part for one entry. */
  lemma AttemptEffect(w: World, spec: ActivitySpec, k: nat, ctx: Ctx)
    ensures var r := Attempt(w, spec, k, ctx);
      && r.sim.isRunning == w.sim.isRunning && r.sim.progress == w.sim.progress && r.chart == w.chart
      && r.sim.items == AsSeq(Listing(spec, k, ctx)) + w.sim.items
      && r.sim.stats == Bump(w.sim.stats, spec.kind, Counted(spec, k, ctx))
      && r.trace == w.trace + EntryCalls(spec, k, ctx)
      && (LogBounded(w) ==> LogBounded(r))
  {
    if Dispatchable(spec.kind) {
      var w1 := Record(Log(w, StartLine(spec)), CreateCall(spec.kind, k));
      LogIsBounded(w, StartLine(spec));
      match ctx.env.create.At(k)
      case Threw(m) =>
        LogIsBounded(w1, CreateError + spec.title + " - " + m);
      case Returned(r) =>
        if r.Some? {
          CreatedEffect(w1.(sim := BumpStat(w1.sim, spec.kind)), spec, r.value, k, ctx);
        }
    }
  }

  /** The part of an attempt after its create call returned `item`. */
  lemma CreatedEffect(w: World, spec: ActivitySpec, item: GeneratedItem, k: nat, ctx: Ctx)
    ensures var r := if spec.kind == PR && ctx.autoMerge then Listed(MergeStep(w, item, k, ctx.env).0, MergeStep(w, item, k, ctx.env).1)
                     else Listed(w, item);
      && r.sim.isRunning == w.sim.isRunning && r.sim.progress == w.sim.progress && r.chart == w.chart
      && r.sim.stats == w.sim.stats
      && r.sim.items == [if spec.kind == PR && ctx.autoMerge && ctx.env.merge.At(k).Pass? then item.(status := Merged) else item] + w.sim.items
      && r.trace == w.trace + (if spec.kind == PR && ctx.autoMerge then [MergePr(k, item.id)] else [])
      && LogBounded(r)
  {
    var (w3, item') := if spec.kind == PR && ctx.autoMerge then MergeStep(w, item, k, ctx.env) else (w, item);
    LogIsBounded(w3.(sim := PrependItem(w3.sim, item')),
      CreatedPrefix + TypeName(item'.kind) + " #" + Format.IntToString(item'.id));
  }

  /** One entry, `finally` block included: the attempt's effect, then progress `k + 1` of `totalOps` and the
      chart sample `k + 1`. */
  lemma ItemStepEffect(w: World, spec: ActivitySpec, k: nat, ctx: Ctx)
    ensures var r := ItemStep(w, spec, k, ctx);
      && r.sim.isRunning == w.sim.isRunning
      && r.sim.progress == Tally(k + 1, ctx.totalOps)
      && r.chart == AddSample(w.chart, k + 1)
      && r.sim.items == AsSeq(Listing(spec, k, ctx)) + w.sim.items
      && r.sim.stats == Bump(w.sim.stats, spec.kind, Counted(spec, k, ctx))
      && r.trace == w.trace + EntryCalls(spec, k, ctx)
      && (LogBounded(w) ==> LogBounded(r))
  {
    AttemptEffect(w, spec, k, ctx);
  }

  lemma ItemStepItems(w: World, spec: ActivitySpec, k: nat, ctx: Ctx)
    ensures ItemStep(w, spec, k, ctx).sim.items == AsSeq(Listing(spec, k, ctx)) + w.sim.items
  {
    ItemStepEffect(w, spec, k, ctx);
  }

  lemma ItemStepStats(w: World, spec: ActivitySpec, k: nat, ctx: Ctx)
    ensures ItemStep(w, spec, k, ctx).sim.stats == Bump(w.sim.stats, spec.kind, Counted(spec, k, ctx))
  {
    ItemStepEffect(w, spec, k, ctx);
  }

  lemma ItemStepTrace(w: World, spec: ActivitySpec, k: nat, ctx: Ctx)
    ensures ItemStep(w, spec, k, ctx).trace == w.trace + EntryCalls(spec, k, ctx)
  {
    ItemStepEffect(w, spec, k, ctx);
  }

  lemma ItemStepChart(w: World, spec: ActivitySpec, k: nat, ctx: Ctx)
    ensures ItemStep(w, spec, k, ctx).chart == AddSample(w.chart, k + 1)
  {
  }

  lemma ItemStepRest(w: World, spec: ActivitySpec, k: nat, ctx: Ctx)
    ensures var r := ItemStep(w, spec, k, ctx);
      && r.sim.isRunning == w.sim.isRunning && r.sim.progress == Tally(k + 1, ctx.totalOps)
      && (LogBounded(w) ==> LogBounded(r))
  {
    ItemStepEffect(w, spec, k, ctx);
  }

  // ---------------------------------------------------------------------------------------------------------
  // A range of plan entries

  /** The items entries `lo` up to `hi` list, newest first, as the page shows them. */
  function Listings(plan: seq<ActivitySpec>, lo: nat, hi: nat, ctx: Ctx): seq<GeneratedItem>
    requires lo <= hi <= |plan|
    decreases hi - lo
  {
    if lo == hi then [] else AsSeq(Listing(plan[hi - 1], hi - 1, ctx)) + Listings(plan, lo, hi - 1, ctx)
  }

  /** How many of entries `lo` up to `hi` have type `kind` and bump its counter. */
  function CountIn(plan: seq<ActivitySpec>, lo: nat, hi: nat, ctx: Ctx, kind: ActivityType): nat
    requires lo <= hi <= |plan|
    decreases hi - lo
  {
    if lo == hi then 0
    else CountIn(plan, lo, hi - 1, ctx, kind) + if Counted(plan[hi - 1], hi - 1, ctx) && plan[hi - 1].kind == kind then 1 else 0
  }

  /** The counters after entries `lo` up to `hi`, starting from `st`. */
  function AddCounts(st: Stats, plan: seq<ActivitySpec>, lo: nat, hi: nat, ctx: Ctx): Stats
    requires lo <= hi <= |plan|
  {
    Stats(st.issues + CountIn(plan, lo, hi, ctx, ISSUE), st.prs + CountIn(plan, lo, hi, ctx, PR),
          st.commits + CountIn(plan, lo, hi, ctx, COMMIT), st.discussions)
  }

  /** The external calls entries `lo` up to `hi` make, in order. */
  function CallsIn(plan: seq<ActivitySpec>, lo: nat, hi: nat, ctx: Ctx): seq<Call>
    requires lo <= hi <= |plan|
    decreases hi - lo
  {
    if lo == hi then [] else CallsIn(plan, lo, hi - 1, ctx) + EntryCalls(plan[hi - 1], hi - 1, ctx)
  }

  /** The window the chart shows: the newest `ChartKeep + 1` samples. */
  function ChartWindow(samples: seq<nat>): seq<nat>
  {
    Seqs.SliceLast(samples, ChartKeep + 1)
  }

  /** The chart after samples `lo + 1, ..., hi` were pushed one by one. */
  function ChartAfter(chart: seq<nat>, lo: nat, hi: nat): seq<nat>
    decreases hi
  {
    if hi <= lo then chart else AddSample(ChartAfter(chart, lo, hi - 1), hi)
  }

  /** Pushing samples one by one with `slice(-19)` leaves the newest 20 of them all. */
  lemma {:induction false} ChartAfterWindow(chart: seq<nat>, lo: nat, hi: nat)
    requires lo < hi
    ensures ChartAfter(chart, lo, hi) == ChartWindow(chart + Seqs.Samples(lo, hi))
    decreases hi
  {
    if lo == hi - 1 {
      Seqs.PushAsSliceLast(chart, hi, ChartKeep);
      assert Seqs.Samples(lo, hi) == [hi];
    } else {
      ChartAfterWindow(chart, lo, hi - 1);
      Seqs.PushWindow(chart + Seqs.Samples(lo, hi - 1), hi, ChartKeep);
      Seqs.ConcatAssoc(chart, Seqs.Samples(lo, hi - 1), [hi]);
    }
  }

  // Proof helpers for the range lemmas below: each unfolds one entry of a range function.

  lemma AddCountsStep(st: Stats, plan: seq<ActivitySpec>, lo: nat, hi: nat, ctx: Ctx)
    requires lo < hi <= |plan|
    ensures AddCounts(st, plan, lo, hi, ctx)
         == Bump(AddCounts(st, plan, lo, hi - 1, ctx), plan[hi - 1].kind, Counted(plan[hi - 1], hi - 1, ctx))
  {
  }

  lemma ListingsStep(items: seq<GeneratedItem>, plan: seq<ActivitySpec>, lo: nat, hi: nat, ctx: Ctx)
    requires lo < hi <= |plan|
    ensures AsSeq(Listing(plan[hi - 1], hi - 1, ctx)) + (Listings(plan, lo, hi - 1, ctx) + items)
         == Listings(plan, lo, hi, ctx) + items
  {
    Seqs.ConcatAssoc(AsSeq(Listing(plan[hi - 1], hi - 1, ctx)), Listings(plan, lo, hi - 1, ctx), items);
  }

  lemma CallsStep(trace: seq<Call>, plan: seq<ActivitySpec>, lo: nat, hi: nat, ctx: Ctx)
    requires lo < hi <= |plan|
    ensures trace + CallsIn(plan, lo, hi - 1, ctx) + EntryCalls(plan[hi - 1], hi - 1, ctx) == trace + CallsIn(plan, lo, hi, ctx)
  {
    Seqs.ConcatAssoc(trace, CallsIn(plan, lo, hi - 1, ctx), EntryCalls(plan[hi - 1], hi - 1, ctx));
  }

  lemma {:induction false} RangeItems(w: World, plan: seq<ActivitySpec>, lo: nat, hi: nat, ctx: Ctx)
    requires lo <= hi <= |plan|
    ensures RunRange(w, plan, lo, hi, ctx).sim.items == Listings(plan, lo, hi, ctx) + w.sim.items
    decreases hi - lo
  {
    if lo < hi {
      var w1 := RunRange(w, plan, lo, hi - 1, ctx);
      var o := AsSeq(Listing(plan[hi - 1], hi - 1, ctx));
      calc {
        RunRange(w, plan, lo, hi, ctx).sim.items;
        ItemStep(w1, plan[hi - 1], hi - 1, ctx).sim.items;
        { ItemStepItems(w1, plan[hi - 1], hi - 1, ctx); }
        o + w1.sim.items;
        { RangeItems(w, plan, lo, hi - 1, ctx); }
        o + (Listings(plan, lo, hi - 1, ctx) + w.sim.items);
        { ListingsStep(w.sim.items, plan, lo, hi, ctx); }
        Listings(plan, lo, hi, ctx) + w.sim.items;
      }
    } else {
      assert Listings(plan, lo, hi, ctx) + w.sim.items == w.sim.items;
    }
  }

  lemma {:induction false} RangeStats(w: World, plan: seq<ActivitySpec>, lo: nat, hi: nat, ctx: Ctx)
    requires lo <= hi <= |plan|
    ensures RunRange(w, plan, lo, hi, ctx).sim.stats == AddCounts(w.sim.stats, plan, lo, hi, ctx)
    decreases hi - lo
  {
    if lo < hi {
      RangeStats(w, plan, lo, hi - 1, ctx);
      ItemStepStats(RunRange(w, plan, lo, hi - 1, ctx), plan[hi - 1], hi - 1, ctx);
      AddCountsStep(w.sim.stats, plan, lo, hi, ctx);
    }
  }

  lemma {:induction false} RangeTrace(w: World, plan: seq<ActivitySpec>, lo: nat, hi: nat, ctx: Ctx)
    requires lo <= hi <= |plan|
    ensures RunRange(w, plan, lo, hi, ctx).trace == w.trace + CallsIn(plan, lo, hi, ctx)
    decreases hi - lo
  {
    if lo < hi {
      RangeTrace(w, plan, lo, hi - 1, ctx);
      ItemStepTrace(RunRange(w, plan, lo, hi - 1, ctx), plan[hi - 1], hi - 1, ctx);
      CallsStep(w.trace, plan, lo, hi, ctx);
    } else {
      assert w.trace + CallsIn(plan, lo, hi, ctx) == w.trace;
    }
  }

  lemma {:induction false} RangeChart(w: World, plan: seq<ActivitySpec>, lo: nat, hi: nat, ctx: Ctx)
    requires lo <= hi <= |plan|
    ensures RunRange(w, plan, lo, hi, ctx).chart == ChartAfter(w.chart, lo, hi)
    decreases hi - lo
  {
    if lo < hi {
      RangeChart(w, plan, lo, hi - 1, ctx);
      ItemStepChart(RunRange(w, plan, lo, hi - 1, ctx), plan[hi - 1], hi - 1, ctx);
    }
  }

  lemma {:induction false} RangeRest(w: World, plan: seq<ActivitySpec>, lo: nat, hi: nat, ctx: Ctx)
    requires lo <= hi <= |plan|
    ensures var r := RunRange(w, plan, lo, hi, ctx);
      && r.sim.isRunning == w.sim.isRunning
      && r.sim.progress == (if lo == hi then w.sim.progress else Tally(hi, ctx.totalOps))
      && (LogBounded(w) ==> LogBounded(r))
    decreases hi - lo
  {
    if lo < hi {
      RangeRest(w, plan, lo, hi - 1, ctx);
      ItemStepRest(RunRange(w, plan, lo, hi - 1, ctx), plan[hi - 1], hi - 1, ctx);
    }
  }

  /** Entries `lo` up to `hi` run one after the other: their listings are prepended newest first, the counters
      grow by the entries counted, the calls are appended in plan order, the chart shows the newest samples
      among the old ones and `lo + 1, ..., hi`, and progress stands at `hi`. */
  lemma RunRangeEffect(w: World, plan: seq<ActivitySpec>, lo: nat, hi: nat, ctx: Ctx)
    requires lo <= hi <= |plan|
    ensures var r := RunRange(w, plan, lo, hi, ctx);
      && r.sim.isRunning == w.sim.isRunning
      && r.sim.items == Listings(plan, lo, hi, ctx) + w.sim.items
      && r.sim.stats == AddCounts(w.sim.stats, plan, lo, hi, ctx)
      && r.trace == w.trace + CallsIn(plan, lo, hi, ctx)
      && r.chart == (if lo == hi then w.chart else ChartWindow(w.chart + Seqs.Samples(lo, hi)))
      && r.sim.progress == (if lo == hi then w.sim.progress else Tally(hi, ctx.totalOps))
      && (LogBounded(w) ==> LogBounded(r))
  {
    RangeItems(w, plan, lo, hi, ctx);
    RangeStats(w, plan, lo, hi, ctx);
    RangeTrace(w, plan, lo, hi, ctx);
    RangeChart(w, plan, lo, hi, ctx);
    if lo < hi {
      ChartAfterWindow(w.chart, lo, hi);
    }
    RangeRest(w, plan, lo, hi, ctx);
  }

  lemma {:induction false} ListingsSplit(plan: seq<ActivitySpec>, lo: nat, mid: nat, hi: nat, ctx: Ctx)
    requires lo <= mid <= hi <= |plan|
    ensures Listings(plan, lo, hi, ctx) == Listings(plan, mid, hi, ctx) + Listings(plan, lo, mid, ctx)
    decreases hi - mid
  {
    if mid < hi {
      ListingsSplit(plan, lo, mid, hi - 1, ctx);
      Seqs.ConcatAssoc(AsSeq(Listing(plan[hi - 1], hi - 1, ctx)), Listings(plan, mid, hi - 1, ctx), Listings(plan, lo, mid, ctx));
    } else {
      assert Listings(plan, mid, hi, ctx) == [];
    }
  }

  lemma {:induction false} CountSplit(plan: seq<ActivitySpec>, lo: nat, mid: nat, hi: nat, ctx: Ctx, kind: ActivityType)
    requires lo <= mid <= hi <= |plan|
    ensures CountIn(plan, lo, hi, ctx, kind) == CountIn(plan, lo, mid, ctx, kind) + CountIn(plan, mid, hi, ctx, kind)
    decreases hi - mid
  {
    if mid < hi {
      CountSplit(plan, lo, mid, hi - 1, ctx, kind);
    }
  }

  lemma {:induction false} CallsSplit(plan: seq<ActivitySpec>, lo: nat, mid: nat, hi: nat, ctx: Ctx)
    requires lo <= mid <= hi <= |plan|
    ensures CallsIn(plan, lo, hi, ctx) == CallsIn(plan, lo, mid, ctx) + CallsIn(plan, mid, hi, ctx)
    decreases hi - mid
  {
    if mid < hi {
      CallsSplit(plan, lo, mid, hi - 1, ctx);
      Seqs.ConcatAssoc(CallsIn(plan, lo, mid, ctx), CallsIn(plan, mid, hi - 1, ctx), EntryCalls(plan[hi - 1], hi - 1, ctx));
    } else {
      assert CallsIn(plan, mid, hi, ctx) == [];
    }
  }

  // ---------------------------------------------------------------------------------------------------------
  // The chunk loop

  /** The trace the chunk loop adds from chunk start `i` on: each chunk's calls, a cooldown after every chunk
      but the last. */
  function PlanCalls(plan: seq<ActivitySpec>, i: nat, ctx: Ctx): seq<Call>
    requires i <= |plan|
    decreases |plan| - i
  {
    if i == |plan| then []
    else
      var hi := ChunkEnd(i, |plan|);
      CallsIn(plan, i, hi, ctx) + (if hi < |plan| then [Cooldown] else []) + PlanCalls(plan, hi, ctx)
  }

  lemma {:induction false} ChunksItems(w: World, plan: seq<ActivitySpec>, i: nat, ctx: Ctx)
    requires i <= |plan|
    ensures RunChunks(w, plan, i, ctx).sim.items == Listings(plan, i, |plan|, ctx) + w.sim.items
    decreases |plan| - i
  {
    if i < |plan| {
      var hi := ChunkEnd(i, |plan|);
      var w1 := ChunkTurn(w, plan, i, ctx);
      RangeItems(w, plan, i, hi, ctx);
      ChunksItems(w1, plan, hi, ctx);
      ListingsSplit(plan, i, hi, |plan|, ctx);
      Seqs.ConcatAssoc(Listings(plan, hi, |plan|, ctx), Listings(plan, i, hi, ctx), w.sim.items);
    } else {
      assert Listings(plan, i, |plan|, ctx) == [];
    }
  }

  lemma {:induction false} ChunksStats(w: World, plan: seq<ActivitySpec>, i: nat, ctx: Ctx)
    requires i <= |plan|
    ensures RunChunks(w, plan, i, ctx).sim.stats == AddCounts(w.sim.stats, plan, i, |plan|, ctx)
    decreases |plan| - i
  {
    if i < |plan| {
      var hi := ChunkEnd(i, |plan|);
      RangeStats(w, plan, i, hi, ctx);
      ChunksStats(ChunkTurn(w, plan, i, ctx), plan, hi, ctx);
      CountSplit(plan, i, hi, |plan|, ctx, ISSUE);
      CountSplit(plan, i, hi, |plan|, ctx, PR);
      CountSplit(plan, i, hi, |plan|, ctx, COMMIT);
    }
  }

  lemma {:induction false} ChunksTrace(w: World, plan: seq<ActivitySpec>, i: nat, ctx: Ctx)
    requires i <= |plan|
    ensures RunChunks(w, plan, i, ctx).trace == w.trace + PlanCalls(plan, i, ctx)
    decreases |plan| - i
  {
    if i < |plan| {
      var hi := ChunkEnd(i, |plan|);
      var w1 := ChunkTurn(w, plan, i, ctx);
      var cool: seq<Call> := if hi < |plan| then [Cooldown] else [];
      RangeTrace(w, plan, i, hi, ctx);
      assert w1.trace == w.trace + CallsIn(plan, i, hi, ctx) + cool;
      ChunksTrace(w1, plan, hi, ctx);
      Seqs.ConcatAssoc(w.trace + CallsIn(plan, i, hi, ctx), cool, PlanCalls(plan, hi, ctx));
      Seqs.ConcatAssoc(w.trace, CallsIn(plan, i, hi, ctx), cool);
      Seqs.ConcatAssoc(w.trace, CallsIn(plan, i, hi, ctx) + cool, PlanCalls(plan, hi, ctx));
    }
  }

  lemma {:induction false} ChunksChart(w: World, plan: seq<ActivitySpec>, i: nat, ctx: Ctx)
    requires i <= |plan|
    ensures RunChunks(w, plan, i, ctx).chart == if i == |plan| then w.chart else ChartWindow(w.chart + Seqs.Samples(i, |plan|))
    decreases |plan| - i
  {
    if i < |plan| {
      var hi := ChunkEnd(i, |plan|);
      var w1 := ChunkTurn(w, plan, i, ctx);
      RangeChart(w, plan, i, hi, ctx);
      ChartAfterWindow(w.chart, i, hi);
      assert w1.chart == ChartWindow(w.chart + Seqs.Samples(i, hi));
      ChunksChart(w1, plan, hi, ctx);
      if hi < |plan| {
        Seqs.SliceLastOfSliceLast(w.chart + Seqs.Samples(i, hi), Seqs.Samples(hi, |plan|), ChartKeep + 1);
        Seqs.ConcatAssoc(w.chart, Seqs.Samples(i, hi), Seqs.Samples(hi, |plan|));
        Seqs.SamplesSplit(i, hi, |plan|);
      }
    }
  }

  /** The chunk loop keeps `isRunning` and the log bound; progress stays as it was when no entry is left, and
      otherwise ends at `|plan|` of `totalOps`, the last entry's `finally` value (cooldowns leave it alone). */
  lemma {:induction false} ChunksRest(w: World, plan: seq<ActivitySpec>, i: nat, ctx: Ctx)
    requires i <= |plan|
    ensures var r := RunChunks(w, plan, i, ctx);
      && r.sim.isRunning == w.sim.isRunning
      && r.sim.progress == (if i == |plan| then w.sim.progress else Tally(|plan|, ctx.totalOps))
      && (LogBounded(w) ==> LogBounded(r))
    decreases |plan| - i
  {
    if i < |plan| {
      var hi := ChunkEnd(i, |plan|);
      var w1 := RunRange(w, plan, i, hi, ctx);
      RangeRest(w, plan, i, hi, ctx);
      LogIsBounded(w1, CooldownLine);
      ChunksRest(ChunkTurn(w, plan, i, ctx), plan, hi, ctx);
    }
  }

  /** The chunk loop from chunk start `i` on dispatches every remaining entry: the remaining listings go on
      top of the list, the counters grow by the remaining counted entries, the calls are appended chunk by
      chunk with a cooldown between chunks, and the chart shows the newest of its samples followed by
      `i + 1, ..., |plan|`; progress ends at `|plan|` of `totalOps` unless no entry was left. */
  lemma RunChunksEffect(w: World, plan: seq<ActivitySpec>, i: nat, ctx: Ctx)
    requires i <= |plan|
    ensures var r := RunChunks(w, plan, i, ctx);
      && r.sim.isRunning == w.sim.isRunning
      && r.sim.items == Listings(plan, i, |plan|, ctx) + w.sim.items
      && r.sim.stats == AddCounts(w.sim.stats, plan, i, |plan|, ctx)
      && r.trace == w.trace + PlanCalls(plan, i, ctx)
      && r.chart == (if i == |plan| then w.chart else ChartWindow(w.chart + Seqs.Samples(i, |plan|)))
      && r.sim.progress == (if i == |plan| then w.sim.progress else Tally(|plan|, ctx.totalOps))
      && (LogBounded(w) ==> LogBounded(r))
  {
    ChunksItems(w, plan, i, ctx);
    ChunksStats(w, plan, i, ctx);
    ChunksTrace(w, plan, i, ctx);
    ChunksChart(w, plan, i, ctx);
    ChunksRest(w, plan, i, ctx);
  }

  // ---------------------------------------------------------------------------------------------------------
  // Which calls a run makes

  /** The plan indices of the create calls in `calls`, in order. */
  function CreatedIndices(calls: seq<Call>): seq<nat>
  {
    if calls == [] then []
    else (if calls[0].CreateIssue? || calls[0].CreatePr? || calls[0].CreateCommit? then [calls[0].k] else [])
         + CreatedIndices(calls[1..])
  }

  /** How many cooldown pauses `calls` holds. */
  function Cooldowns(calls: seq<Call>): nat
  {
    if calls == [] then 0 else (if calls[0] == Cooldown then 1 else 0) + Cooldowns(calls[1..])
  }

  /** Whether `calls` holds no merge call. */
  predicate NoMerges(calls: seq<Call>)
  {
    forall j :: 0 <= j < |calls| ==> !calls[j].MergePr?
  }

  /** The indices of entries `lo` up to `hi` that have a create branch, in order. */
  function DispatchedIn(plan: seq<ActivitySpec>, lo: nat, hi: nat): seq<nat>
    requires lo <= hi <= |plan|
    decreases hi - lo
  {
    if lo == hi then [] else DispatchedIn(plan, lo, hi - 1) + if Dispatchable(plan[hi - 1].kind) then [hi - 1] else []
  }

  lemma {:induction false} CreatedConcat(a: seq<Call>, b: seq<Call>)
    ensures CreatedIndices(a + b) == CreatedIndices(a) + CreatedIndices(b)
    ensures Cooldowns(a + b) == Cooldowns(a) + Cooldowns(b)
    decreases |a|
  {
    if a == [] {
      assert a + b == b;
    } else {
      assert (a + b)[1..] == a[1..] + b;
      CreatedConcat(a[1..], b);
      var h: seq<nat> := if a[0].CreateIssue? || a[0].CreatePr? || a[0].CreateCommit? then [a[0].k] else [];
      Seqs.ConcatAssoc(h, CreatedIndices(a[1..]), CreatedIndices(b));
    }
  }

  lemma OneCall(c: Call)
    ensures CreatedIndices([c]) == if c.CreateIssue? || c.CreatePr? || c.CreateCommit? then [c.k] else []
    ensures Cooldowns([c]) == if c == Cooldown then 1 else 0
  {
    assert [c][1..] == [];
  }

  lemma EntryCallsShape(spec: ActivitySpec, k: nat, ctx: Ctx)
    ensures CreatedIndices(EntryCalls(spec, k, ctx)) == if Dispatchable(spec.kind) then [k] else []
    ensures Cooldowns(EntryCalls(spec, k, ctx)) == 0
    ensures !ctx.autoMerge ==> NoMerges(EntryCalls(spec, k, ctx))
  {
    if Dispatchable(spec.kind) {
      var create := CreateCall(spec.kind, k);
      OneCall(create);
      var r := ctx.env.create.At(k);
      if r.Returned? && r.result.Some? && spec.kind == PR && ctx.autoMerge {
        var merge := MergePr(k, r.result.value.id);
        assert EntryCalls(spec, k, ctx) == [create] + [merge];
        OneCall(merge);
        CreatedConcat([create], [merge]);
      } else {
        assert EntryCalls(spec, k, ctx) == [create];
      }
    }
  }

  lemma {:induction false} CallsInShape(plan: seq<ActivitySpec>, lo: nat, hi: nat, ctx: Ctx)
    requires lo <= hi <= |plan|
    ensures CreatedIndices(CallsIn(plan, lo, hi, ctx)) == DispatchedIn(plan, lo, hi)
    ensures Cooldowns(CallsIn(plan, lo, hi, ctx)) == 0
    ensures !ctx.autoMerge ==> NoMerges(CallsIn(plan, lo, hi, ctx))
    decreases hi - lo
  {
    if lo < hi {
      CallsInShape(plan, lo, hi - 1, ctx);
      EntryCallsShape(plan[hi - 1], hi - 1, ctx);
      CreatedConcat(CallsIn(plan, lo, hi - 1, ctx), EntryCalls(plan[hi - 1], hi - 1, ctx));
    }
  }

  lemma {:induction false} DispatchedSplit(plan: seq<ActivitySpec>, lo: nat, mid: nat, hi: nat)
    requires lo <= mid <= hi <= |plan|
    ensures DispatchedIn(plan, lo, hi) == DispatchedIn(plan, lo, mid) + DispatchedIn(plan, mid, hi)
    decreases hi - mid
  {
    if mid < hi {
      DispatchedSplit(plan, lo, mid, hi - 1);
      var last: seq<nat> := if Dispatchable(plan[hi - 1].kind) then [hi - 1] else [];
      Seqs.ConcatAssoc(DispatchedIn(plan, lo, mid), DispatchedIn(plan, mid, hi - 1), last);
    } else {
      assert DispatchedIn(plan, mid, hi) == [];
    }
  }

  /** From chunk start `i` on, the create calls go to the dispatchable entries in plan order, one call each. */
  lemma {:induction false} PlanCallsShape(plan: seq<ActivitySpec>, i: nat, ctx: Ctx)
    requires i <= |plan|
    ensures CreatedIndices(PlanCalls(plan, i, ctx)) == DispatchedIn(plan, i, |plan|)
    decreases |plan| - i
  {
    if i < |plan| {
      var hi := ChunkEnd(i, |plan|);
      var cool: seq<Call> := if hi < |plan| then [Cooldown] else [];
      var chunk := CallsIn(plan, i, hi, ctx);
      var rest := PlanCalls(plan, hi, ctx);
      calc {
        CreatedIndices(PlanCalls(plan, i, ctx));
        { CreatedConcat(chunk + cool, rest); }
        CreatedIndices(chunk + cool) + CreatedIndices(rest);
        { ChunkCreated(plan, i, hi, ctx, cool); }
        DispatchedIn(plan, i, hi) + CreatedIndices(rest);
        { PlanCallsShape(plan, hi, ctx); }
        DispatchedIn(plan, i, hi) + DispatchedIn(plan, hi, |plan|);
        { DispatchedSplit(plan, i, hi, |plan|); }
        DispatchedIn(plan, i, |plan|);
      }
    } else {
      assert DispatchedIn(plan, i, |plan|) == [];
    }
  }

  lemma ChunkCreated(plan: seq<ActivitySpec>, lo: nat, hi: nat, ctx: Ctx, cool: seq<Call>)
    requires lo <= hi <= |plan| && (cool == [] || cool == [Cooldown])
    ensures CreatedIndices(CallsIn(plan, lo, hi, ctx) + cool) == DispatchedIn(plan, lo, hi)
  {
    CallsInShape(plan, lo, hi, ctx);
    CreatedConcat(CallsIn(plan, lo, hi, ctx), cool);
    OneCall(Cooldown);
    assert DispatchedIn(plan, lo, hi) + [] == DispatchedIn(plan, lo, hi);
  }

  /** Without auto-merge no merge call is made. */
  lemma {:induction false} PlanNoMerges(plan: seq<ActivitySpec>, i: nat, ctx: Ctx)
    requires i <= |plan| && !ctx.autoMerge
    ensures NoMerges(PlanCalls(plan, i, ctx))
    decreases |plan| - i
  {
    if i < |plan| {
      var hi := ChunkEnd(i, |plan|);
      var cool: seq<Call> := if hi < |plan| then [Cooldown] else [];
      CallsInShape(plan, i, hi, ctx);
      PlanNoMerges(plan, hi, ctx);
      assert PlanCalls(plan, i, ctx) == CallsIn(plan, i, hi, ctx) + cool + PlanCalls(plan, hi, ctx);
    }
  }

  /** There is a cooldown between consecutive chunks and none after the last: a plan of `n > 0` entries
      pauses `ceil(n / 3) - 1` times. */
  lemma {:induction false} PlanCooldowns(plan: seq<ActivitySpec>, i: nat, ctx: Ctx)
    requires i <= |plan|
    ensures Cooldowns(PlanCalls(plan, i, ctx)) == if i == |plan| then 0 else (|plan| - i - 1) / ChunkSize
    decreases |plan| - i
  {
    if i < |plan| {
      var hi := ChunkEnd(i, |plan|);
      var cool: seq<Call> := if hi < |plan| then [Cooldown] else [];
      var chunk := CallsIn(plan, i, hi, ctx);
      CallsInShape(plan, i, hi, ctx);
      PlanCooldowns(plan, hi, ctx);
      OneCall(Cooldown);
      CreatedConcat(chunk, cool);
      CreatedConcat(chunk + cool, PlanCalls(plan, hi, ctx));
      if hi < |plan| {
        assert (|plan| - hi - 1) / ChunkSize + 1 == (|plan| - i - 1) / ChunkSize;
      }
    }
  }

  /** When every entry has a create branch, which is always so for the plans the generator returns, the
      create calls go to entries `0, 1, ..., |plan| - 1` in that order: each entry is created exactly once. */
  lemma {:induction false} AllDispatched(plan: seq<ActivitySpec>, lo: nat, hi: nat)
    requires lo <= hi <= |plan|
    requires forall k :: 0 <= k < |plan| ==> Dispatchable(plan[k].kind)
    ensures DispatchedIn(plan, lo, hi) == Seqs.Range(lo, hi)
    decreases hi - lo
  {
    if lo < hi {
      AllDispatched(plan, lo, hi - 1);
    }
  }
}
