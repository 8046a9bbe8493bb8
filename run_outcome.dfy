/** The states `executeRealSimulation` settles in, for each way a press of the deploy button can go: no
    token, a failed credential check, a failed plan, or a run to completion. */
module RunOutcome {
  import opened Types
  import opened AppState
  import opened AppRun
  import opened RunFacts
  import Seqs
  import Format
  import GeminiService
  import Constants
  import ConfigForm

  /** The last log line. */
  function LastLine(w: World): string
    requires |w.sim.logs| > 0
  {
    w.sim.logs[|w.sim.logs| - 1]
  }

  /** Without a token the press only logs one error line: no call is made, the view state is not forced
      back to IDLE, and the list, counters, progress and chart stay as they were. */
  lemma MissingToken(p: Page, env: Env)
    requires p.config.githubToken == ""
    ensures var q := Execute(p, env);
      && q.config == p.config && q.view == p.view
      && q.world.trace == p.world.trace && q.world.chart == p.world.chart
      && q.world.sim.isRunning == p.world.sim.isRunning && q.world.sim.progress == p.world.sim.progress
      && q.world.sim.items == p.world.sim.items && q.world.sim.stats == p.world.sim.stats
      && q.world.sim.logs == p.world.sim.logs[|p.world.sim.logs| - Seqs.Min(|p.world.sim.logs|, LogKeep)..] + [TokenMissingLine]
  {
    AddLogEffect(p.world.sim, TokenMissingLine);
  }

  /** The default configuration has no token, so pressing the button right away does nothing but log. */
  lemma DefaultConfigCannotStart(today: string, view: ViewState, w: World, env: Env)
    ensures var q := Execute(Page(Constants.DefaultConfig(today), view, w), env);
      && q.view == view && q.world.trace == w.trace && q.world.sim.items == w.sim.items
      && LastLine(q.world) == TokenMissingLine
  {
    var p := Page(Constants.DefaultConfig(today), view, w);
    MissingToken(p, env);
  }

  /** The reset at the start of a run clears the list, the counters and the progress and keeps the log. */
  lemma StartRunResets(s: SimulationState)
    ensures var r := StartRun(s);
      && r.isRunning && r.progress == Percent(0) && r.items == [] && r.stats == ZeroStats && r.logs == s.logs
  {
  }

  /** A run with a token starts by setting the view state to RUNNING, running, resetting progress, list and
      counters, and logging the authentication line; the configuration, chart and trace are untouched. */
  lemma StartSetsRunning(p: Page)
    ensures var s := Start(p);
      && s.config == p.config && s.view == RUNNING
      && s.world.sim.isRunning && s.world.sim.progress == Percent(0)
      && s.world.sim.items == [] && s.world.sim.stats == ZeroStats
      && s.world.trace == p.world.trace && s.world.chart == p.world.chart
      && s.world.sim.logs == p.world.sim.logs[|p.world.sim.logs| - Seqs.Min(|p.world.sim.logs|, LogKeep)..]
                             + [AuthLine]
  {
    AddLogEffect(StartRun(p.world.sim), AuthLine);
  }

  /** Once a run has started, the form is disabled: a click on a feature button makes no change call. */
  lemma FormDisabledDuringRun(p: Page, feature: string)
    ensures ConfigForm.OnFeatureClick(Start(p).config, feature, Start(p).view == RUNNING).None?
  {
  }

  /** A failed credential check: the run stops with view state IDLE and `isRunning` false; the list,
      counters and progress keep what the reset gave them, the only call made is the check, and the last log
      line reports the failure. */
  lemma VerifyFailure(p: Page, env: Env)
    requires p.config.githubToken != "" && env.verify.Err?
    ensures var q := Execute(p, env);
      && q.config == p.config && q.view == IDLE
      && !q.world.sim.isRunning && q.world.sim.progress == Percent(0)
      && q.world.sim.items == [] && q.world.sim.stats == ZeroStats
      && q.world.trace == p.world.trace + [VerifyRepo] && q.world.chart == p.world.chart
      && |q.world.sim.logs| > 0 && LastLine(q.world) == FailurePrefix + env.verify.message
      && LogBounded(q.world)
  {
    var w1 := Record(Start(p).world, VerifyRepo);
    AddLogEffect(w1.sim, FailurePrefix + env.verify.message);
  }

  /** The plan generator throws exactly when it falls back to the templates (no key, or a failed service
      call) for a total count of 2^32 or more. */
  lemma PlanFailsExactly(c: SimulationConfig, env: Env)
    ensures PlanFor(c, env).Err? <==> (env.apiKey == "" || env.gemini.Failed?) && TotalOps(c) >= GeminiService.ArrayLimit
    ensures PlanFor(c, env).Err? ==> PlanFor(c, env).message == GeminiService.InvalidArrayLength
  {
  }

  /** A plan generator that throws ends the run in the same `catch` block: view state IDLE, `isRunning`
      false, the list, counters and progress as the reset left them, the check as the only call, and the
      error as the last log line. */
  lemma PlanFailure(p: Page, env: Env)
    requires p.config.githubToken != "" && env.verify.Ok? && PlanFor(p.config, env).Err?
    ensures var q := Execute(p, env);
      && q.config == p.config && q.view == IDLE
      && !q.world.sim.isRunning && q.world.sim.progress == Percent(0)
      && q.world.sim.items == [] && q.world.sim.stats == ZeroStats
      && q.world.trace == p.world.trace + [VerifyRepo] && q.world.chart == p.world.chart
      && |q.world.sim.logs| > 0 && LastLine(q.world) == FailurePrefix + GeminiService.InvalidArrayLength
      && LogBounded(q.world)
  {
    var repo := env.verify.value;
    var w1 := Record(Start(p).world, VerifyRepo);
    var w := Log(Log(w1, ConnectedLine(repo)),
                 PlanLine);
    AddLogEffect(w.sim, FailurePrefix + GeminiService.InvalidArrayLength);
  }

  /** The run on a generated plan, from the world `w` the plan request left. */
  lemma DeployEffect(w: World, plan: seq<ActivitySpec>, ctx: Ctx)
    ensures var r := Deploy(w, plan, ctx);
      && !r.sim.isRunning && r.sim.progress == Percent(100)
      && r.sim.items == Listings(plan, 0, |plan|, ctx) + w.sim.items
      && r.sim.stats == AddCounts(w.sim.stats, plan, 0, |plan|, ctx)
      && r.trace == w.trace + PlanCalls(plan, 0, ctx)
      && r.chart == (if |plan| == 0 then w.chart else ChartWindow(w.chart + Seqs.Samples(0, |plan|)))
      && LogBounded(r) && |r.sim.logs| > 0 && LastLine(r) == CompletedLine
  {
    var w1 := Log(w, GeneratedPrefix + Format.NatToString(|plan|) + GeneratedSuffix);
    RunChunksEffect(w1, plan, 0, ctx);
    DeployTailEffect(RunChunks(w1, plan, 0, ctx));
  }

  lemma DeployTailEffect(w: World)
    ensures var r := DeployTail(w);
      && !r.sim.isRunning && r.sim.progress == Percent(100)
      && r.sim.items == w.sim.items && r.sim.stats == w.sim.stats && r.trace == w.trace && r.chart == w.chart
      && LogBounded(r) && |r.sim.logs| > 0 && LastLine(r) == CompletedLine
  {
    AddLogEffect(w.sim, CompletedLine);
  }

  /** A run whose credential check passes ends COMPLETE exactly when the plan generator returns a plan.
      It then ends with `isRunning` false and progress 100. The list holds exactly the listings of the
      plan's entries, newest first; the counters hold, per type, the entries whose create call returned; the
      trace is the check followed by the plan's calls; the chart shows the newest of its samples and
      `1, ..., |plan|`; the log holds at most 101 lines and ends with the completion line. */
  lemma CompletedRun(p: Page, env: Env)
    requires p.config.githubToken != "" && env.verify.Ok?
    ensures var q := Execute(p, env);
      q.config == p.config && (q.view == COMPLETE <==> PlanFor(p.config, env).Ok?)
    ensures var q := Execute(p, env); var r := PlanFor(p.config, env); var ctx := CtxFor(p.config, env);
      r.Ok? ==>
      && !q.world.sim.isRunning && q.world.sim.progress == Percent(100)
      && q.world.sim.items == Listings(r.value, 0, |r.value|, ctx)
      && q.world.sim.stats == AddCounts(ZeroStats, r.value, 0, |r.value|, ctx)
      && q.world.trace == p.world.trace + [VerifyRepo] + PlanCalls(r.value, 0, ctx)
      && q.world.chart == (if |r.value| == 0 then p.world.chart else ChartWindow(p.world.chart + Seqs.Samples(0, |r.value|)))
      && LogBounded(q.world) && |q.world.sim.logs| > 0 && LastLine(q.world) == CompletedLine
  {
    var r := PlanFor(p.config, env);
    if r.Ok? {
      var repo := env.verify.value;
      var w1 := Record(Start(p).world, VerifyRepo);
      var w := Log(Log(w1, ConnectedLine(repo)),
                   PlanLine);
      DeployEffect(w, r.value, CtxFor(p.config, env));
      assert Listings(r.value, 0, |r.value|, CtxFor(p.config, env)) + []
          == Listings(r.value, 0, |r.value|, CtxFor(p.config, env));
    } else {
      PlanFailure(p, env);
    }
  }

  /** In a completed run every plan entry gets exactly one create call, in plan order (the plan generator
      only returns dispatchable types), so the created indices strictly increase; a plan of `n > 0` entries pauses `ceil(n / 3) - 1` times; without
      auto-merge no merge call is made. */
  lemma EveryEntryCreatedOnce(c: SimulationConfig, env: Env)
    ensures var r := PlanFor(c, env);
      r.Ok? ==>
      var calls := PlanCalls(r.value, 0, CtxFor(c, env));
      && CreatedIndices(calls) == Seqs.Range(0, |r.value|)
      && |CreatedIndices(calls)| == |r.value| && Seqs.StrictlyIncreasing(CreatedIndices(calls))
      && Cooldowns(calls) == (if |r.value| == 0 then 0 else (|r.value| - 1) / ChunkSize)
      && (!c.autoMerge ==> NoMerges(calls))
  {
    var r := PlanFor(c, env);
    if r.Ok? {
      var plan := r.value;
      PlanCallsShape(plan, 0, CtxFor(c, env));
      PlanCooldowns(plan, 0, CtxFor(c, env));
      if !c.autoMerge {
        PlanNoMerges(plan, 0, CtxFor(c, env));
      }
      AllDispatched(plan, 0, |plan|);
      Seqs.RangeAt(0, |plan|);
    }
  }

  /** The progress the loop leaves for completion to overwrite: `|plan|` of `totalOps` for a non-empty plan,
      and the reset's value for an empty one. A parsed reply may be longer than `totalOps`: with
      `totalOps == 1` and a two-item reply the last progress stands for 200 percent. */
  lemma ProgressBeforeCompletion(c: SimulationConfig, env: Env, w: World)
    ensures var r := PlanFor(c, env);
      r.Ok? ==>
      RunChunks(w, r.value, 0, CtxFor(c, env)).sim.progress
        == (if |r.value| == 0 then w.sim.progress else Tally(|r.value|, TotalOps(c)))
    ensures var r := PlanFor(c, env);
      TotalOps(c) == 1 && env.apiKey != ""
      && env.gemini == GeminiService.Parsed([GeminiService.RawItem("ISSUE", "a", ""), GeminiService.RawItem("PR", "b", "")])
      ==> r.Ok? && RunChunks(w, r.value, 0, CtxFor(c, env)).sim.progress == Tally(2, 1)
  {
    var r := PlanFor(c, env);
    GeminiService.ParsedReplyLengthUnbounded(c.language, c.repoName);
    if r.Ok? {
      ChunksRest(w, r.value, 0, CtxFor(c, env));
    }
  }

  /** A plan of at least 20 entries leaves only this run's samples on the chart: the 20 values
      `|plan| - 19, ..., |plan|`, strictly increasing. */
  lemma ChartAfterLongRun(chart: seq<nat>, n: nat)
    requires n >= ChartKeep + 1
    ensures ChartWindow(chart + Seqs.Samples(0, n)) == Seqs.Samples(n - (ChartKeep + 1), n)
    ensures Seqs.StrictlyIncreasing(ChartWindow(chart + Seqs.Samples(0, n)))
  {
    Seqs.SamplesSplit(0, n - (ChartKeep + 1), n);
    Seqs.SamplesAt(n - (ChartKeep + 1), n);
    Seqs.SamplesAt(0, n);
    var tail := Seqs.Samples(n - (ChartKeep + 1), n);
    Seqs.ConcatAssoc(chart, Seqs.Samples(0, n - (ChartKeep + 1)), tail);
    assert (chart + Seqs.Samples(0, n))[|chart + Seqs.Samples(0, n)| - (ChartKeep + 1)..] == tail;
    assert ChartWindow(chart + Seqs.Samples(0, n)) == tail;
  }

  /** The chart never shows more than 20 samples once a run has added one. */
  lemma ChartBounded(chart: seq<nat>, n: nat)
    ensures |ChartWindow(chart + Seqs.Samples(0, n))| <= ChartKeep + 1
  {
    Seqs.SliceLastShape(chart + Seqs.Samples(0, n), ChartKeep + 1);
  }

  /** A create call that throws is caught by the entry's own `catch`: the entry logs the error with its title
      and the error's message as its last line, lists nothing, bumps no counter, and makes only that call. */
  lemma ThrewLogsError(w: World, spec: ActivitySpec, k: nat, ctx: Ctx)
    requires Dispatchable(spec.kind) && ctx.env.create.At(k).Threw?
    ensures var r := Attempt(w, spec, k, ctx);
      && |r.sim.logs| > 0
      && LastLine(r) == CreateError + spec.title + " - " + ctx.env.create.At(k).message
      && r.sim.items == w.sim.items && r.sim.stats == w.sim.stats
      && r.trace == w.trace + [CreateCall(spec.kind, k)]
  {
    var w1 := Record(Log(w, StartLine(spec)), CreateCall(spec.kind, k));
    AddLogEffect(w1.sim, CreateError + spec.title + " - " + ctx.env.create.At(k).message);
  }

  /** A failed auto-merge only logs a warning: the PR is still counted and listed, unmerged, and its
      listing line follows the warning. */
  lemma MergeFailLogsWarning(w: World, spec: ActivitySpec, item: GeneratedItem, k: nat, ctx: Ctx, m: string)
    requires spec.kind == PR && ctx.autoMerge
    requires ctx.env.create.At(k) == Returned(Some(item)) && ctx.env.merge.At(k) == Fail(m)
    ensures var r := Attempt(w, spec, k, ctx); var id := Format.IntToString(item.id);
      && |r.sim.logs| >= 2
      && r.sim.logs[|r.sim.logs| - 2] == MergeWarning + id + ": " + m
      && r.sim.logs[|r.sim.logs| - 1] == CreatedPrefix + TypeName(item.kind) + " #" + id
      && r.sim.items == [item] + w.sim.items
      && r.sim.stats == Bump(w.sim.stats, PR, true)
      && r.trace == w.trace + [CreatePr(k), MergePr(k, item.id)]
  {
    var id := Format.IntToString(item.id);
    var w1 := Record(Log(w, StartLine(spec)), CreatePr(k));
    var w2 := w1.(sim := BumpStat(w1.sim, PR));
    var w3 := Record(Log(w2, AutoMerging + id + "..."), MergePr(k, item.id));
    var w4 := Log(w3, MergeWarning + id + ": " + m);
    AddLogEffect(w3.sim, MergeWarning + id + ": " + m);
    AddLogEffect(w4.sim.(items := [item] + w4.sim.items), CreatedPrefix + TypeName(item.kind) + " #" + id);
  }

  /** A successful auto-merge logs its success line before the listing line, and the PR is listed merged. */
  lemma MergeSuccessLogged(w: World, spec: ActivitySpec, item: GeneratedItem, k: nat, ctx: Ctx)
    requires spec.kind == PR && ctx.autoMerge
    requires ctx.env.create.At(k) == Returned(Some(item)) && ctx.env.merge.At(k) == Pass
    ensures var r := Attempt(w, spec, k, ctx); var id := Format.IntToString(item.id);
      && |r.sim.logs| >= 2
      && r.sim.logs[|r.sim.logs| - 2] == MergedPrefix + id + MergedSuffix
      && r.sim.logs[|r.sim.logs| - 1] == CreatedPrefix + TypeName(item.kind) + " #" + id
      && r.sim.items == [item.(status := Merged)] + w.sim.items
      && r.sim.stats == Bump(w.sim.stats, PR, true)
      && r.trace == w.trace + [CreatePr(k), MergePr(k, item.id)]
  {
    var id := Format.IntToString(item.id);
    var w1 := Record(Log(w, StartLine(spec)), CreatePr(k));
    var w2 := w1.(sim := BumpStat(w1.sim, PR));
    var w3 := Record(Log(w2, AutoMerging + id + "..."), MergePr(k, item.id));
    var w4 := Log(w3, MergedPrefix + id + MergedSuffix);
    AddLogEffect(w3.sim, MergedPrefix + id + MergedSuffix);
    AddLogEffect(w4.sim.(items := [item.(status := Merged)] + w4.sim.items), CreatedPrefix + TypeName(item.kind) + " #" + id);
  }

  /** The counters count create calls that returned, including those that returned `null`, while only
      non-null results are listed: an entry with a create branch whose call returns `null` bumps its type's
      counter and adds nothing to the list, whatever the world before it. */
  lemma NullResultCountedNotListed(w: World, spec: ActivitySpec, k: nat, ctx: Ctx)
    requires Dispatchable(spec.kind) && ctx.env.create.At(k) == Returned(None)
    ensures var r := ItemStep(w, spec, k, ctx);
      && r.sim.items == w.sim.items
      && r.sim.stats == Bump(w.sim.stats, spec.kind, true) != w.sim.stats
  {
    ItemStepItems(w, spec, k, ctx);
    ItemStepStats(w, spec, k, ctx);
  }

  /** The sum of the three counters entries `lo` up to `hi` add. */
  function CountedIn(plan: seq<ActivitySpec>, lo: nat, hi: nat, ctx: Ctx): nat
    requires lo <= hi <= |plan|
  {
    CountIn(plan, lo, hi, ctx, ISSUE) + CountIn(plan, lo, hi, ctx, PR) + CountIn(plan, lo, hi, ctx, COMMIT)
  }

  /** Every listing goes with a counted entry: the list never holds more items than the counters add up to,
      and as many when no create call of an entry with a create branch returns `null`. */
  lemma {:induction false} ListingsWithinCounts(plan: seq<ActivitySpec>, lo: nat, hi: nat, ctx: Ctx)
    requires lo <= hi <= |plan|
    ensures |Listings(plan, lo, hi, ctx)| <= CountedIn(plan, lo, hi, ctx)
    ensures (forall k :: lo <= k < hi && Dispatchable(plan[k].kind) ==> ctx.env.create.At(k) != Returned(None)) ==>
      |Listings(plan, lo, hi, ctx)| == CountedIn(plan, lo, hi, ctx)
    decreases hi - lo
  {
    if lo < hi {
      ListingsWithinCounts(plan, lo, hi - 1, ctx);
    }
  }

  /** A single create call of an entry with a create branch that returns `null` leaves the list shorter
      than the counters' sum. */
  lemma {:induction false} NullResultShortensList(plan: seq<ActivitySpec>, lo: nat, hi: nat, ctx: Ctx, k: nat)
    requires lo <= k < hi <= |plan|
    requires Dispatchable(plan[k].kind) && ctx.env.create.At(k) == Returned(None)
    ensures |Listings(plan, lo, hi, ctx)| < CountedIn(plan, lo, hi, ctx)
    decreases hi - lo
  {
    if k == hi - 1 {
      ListingsWithinCounts(plan, lo, hi - 1, ctx);
    } else {
      NullResultShortensList(plan, lo, hi - 1, ctx, k);
    }
  }

  /** The list holds as many items as the counters add up to exactly when no entry with a create branch
      had its create call return `null`. */
  lemma ListingsMatchCounts(plan: seq<ActivitySpec>, lo: nat, hi: nat, ctx: Ctx)
    requires lo <= hi <= |plan|
    ensures |Listings(plan, lo, hi, ctx)| == CountedIn(plan, lo, hi, ctx)
        <==> forall k :: lo <= k < hi && Dispatchable(plan[k].kind) ==> ctx.env.create.At(k) != Returned(None)
  {
    ListingsWithinCounts(plan, lo, hi, ctx);
    if exists k :: lo <= k < hi && Dispatchable(plan[k].kind) && ctx.env.create.At(k) == Returned(None) {
      var k :| lo <= k < hi && Dispatchable(plan[k].kind) && ctx.env.create.At(k) == Returned(None);
      NullResultShortensList(plan, lo, hi, ctx, k);
    }
  }
}
