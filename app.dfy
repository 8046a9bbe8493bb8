/** The page component of App.tsx as an object: the state hooks are fields, and the handlers are methods
    that update them step by step. */
module App {
  import opened Types
  import opened AppState
  import AppRun
  import Constants
  import Format
  import ConfigForm

  class Simulator {
    var config: SimulationConfig
    var viewState: ViewState
    var simState: SimulationState
    var chartData: seq<nat>
    /** The external calls made and cooldown pauses taken so far, in order; a record for the proofs only. */
    ghost var trace: seq<AppRun.Call>

    ghost function World(): AppRun.World
      reads this
    {
      AppRun.World(simState, chartData, trace)
    }

    ghost function Page(): AppRun.Page
      reads this
    {
      AppRun.Page(config, viewState, World())
    }

    /** The initial hook values; `today` is the date the default configuration's start date is taken from. */
    constructor (today: string)
      ensures config == Constants.DefaultConfig(today) && viewState == IDLE
      ensures simState == InitialState() && chartData == [] && trace == []
    {
      config := Constants.DefaultConfig(today);
      viewState := IDLE;
      simState := InitialState();
      chartData := [];
      trace := [];
    }

    method HandleConfigChange(change: ConfigChange)
      modifies this`config
      ensures config == ApplyChange(old(config), change)
    {
      config := ApplyChange(config, change);
    }

    /** A click on a mega-feature button, with the form disabled while a run is in progress. */
    method ClickFeature(feature: string)
      modifies this`config
      ensures viewState == RUNNING ==> config == old(config)
      ensures viewState != RUNNING ==>
        config == old(config).(megaFeatures := ConfigForm.Toggle(old(config).megaFeatures, feature))
    {
      var call := ConfigForm.OnFeatureClick(config, feature, viewState == RUNNING);
      if call.Some? {
        HandleConfigChange(call.value);
      }
    }

    method AddLog(msg: string)
      modifies this`simState
      ensures simState == AppState.AddLog(old(simState), msg)
    {
      simState := AppState.AddLog(simState, msg);
    }

    // The external action service: each call is recorded, and answers as the environment says.

    method VerifyRepo(env: AppRun.Env) returns (r: Result<AppRun.Repo>)
      modifies this`trace
      ensures trace == old(trace) + [AppRun.VerifyRepo] && r == env.verify
    {
      trace := trace + [AppRun.VerifyRepo];
      r := env.verify;
    }

    method CreateRealIssue(env: AppRun.Env, k: nat) returns (r: AppRun.CreateResult)
      modifies this`trace
      ensures trace == old(trace) + [AppRun.CreateIssue(k)] && r == env.create.At(k)
    {
      trace := trace + [AppRun.CreateIssue(k)];
      r := env.create.At(k);
    }

    method CreateRealPR(env: AppRun.Env, k: nat) returns (r: AppRun.CreateResult)
      modifies this`trace
      ensures trace == old(trace) + [AppRun.CreatePr(k)] && r == env.create.At(k)
    {
      trace := trace + [AppRun.CreatePr(k)];
      r := env.create.At(k);
    }

    method CreateRealCommit(env: AppRun.Env, k: nat) returns (r: AppRun.CreateResult)
      modifies this`trace
      ensures trace == old(trace) + [AppRun.CreateCommit(k)] && r == env.create.At(k)
    {
      trace := trace + [AppRun.CreateCommit(k)];
      r := env.create.At(k);
    }

    method MergePR(env: AppRun.Env, k: nat, id: int) returns (r: Outcome)
      modifies this`trace
      ensures trace == old(trace) + [AppRun.MergePr(k, id)] && r == env.merge.At(k)
    {
      trace := trace + [AppRun.MergePr(k, id)];
      r := env.merge.At(k);
    }

    /** The 2000 ms pause between chunks, as a recorded event. */
    method Cooldown()
      modifies this`trace
      ensures trace == old(trace) + [AppRun.Cooldown]
    {
      trace := trace + [AppRun.Cooldown];
    }

    /** The `try`/`catch` part of the per-entry closure, for plan entry `k`. */
    method AttemptItem(spec: ActivitySpec, k: nat, ctx: AppRun.Ctx)
      modifies this`simState, this`trace
      ensures World() == AppRun.Attempt(old(World()), spec, k, ctx)
      ensures chartData == old(chartData)
    {
      var result: Option<GeneratedItem> := None;
      var failure: Option<string> := None;
      if spec.kind == ISSUE {
        AddLog(AppRun.CreatingIssue + spec.title + "...");
        var r := CreateRealIssue(ctx.env, k);
        if r.Threw? {
          failure := Some(r.message);
        } else {
          result := r.result;
          simState := BumpStat(simState, ISSUE);
        }
      } else if spec.kind == PR {
        AddLog(AppRun.CreatingPr + spec.title + "...");
        var r := CreateRealPR(ctx.env, k);
        if r.Threw? {
          failure := Some(r.message);
        } else {
          result := r.result;
          simState := BumpStat(simState, PR);
          if result.Some? && ctx.autoMerge {
            var id := Format.IntToString(result.value.id);
            AddLog(AppRun.AutoMerging + id + "...");
            var merged := MergePR(ctx.env, k, result.value.id);
            if merged.Pass? {
              AddLog(AppRun.MergedPrefix + id + AppRun.MergedSuffix);
              result := Some(result.value.(status := Merged));
            } else {
              AddLog(AppRun.MergeWarning + id + ": " + merged.message);
            }
          }
        }
      } else if spec.kind == COMMIT {
        AddLog(AppRun.PushingCommit + spec.title + "...");
        var r := CreateRealCommit(ctx.env, k);
        if r.Threw? {
          failure := Some(r.message);
        } else {
          result := r.result;
          simState := BumpStat(simState, COMMIT);
        }
      }
      if failure.Some? {
        AddLog(AppRun.CreateError + spec.title + " - " + failure.value);
      } else if result.Some? {
        simState := PrependItem(simState, result.value);
        AddLog(AppRun.CreatedPrefix + TypeName(result.value.kind) + " #" + Format.IntToString(result.value.id));
      }
    }

    /** The chunk loop of `executeRealSimulation`; it returns the final value of the shared `completed`
        counter. */
    method RunPlan(plan: seq<ActivitySpec>, ctx: AppRun.Ctx) returns (completed: nat)
      requires viewState == RUNNING
      modifies this`simState, this`trace, this`chartData
      ensures World() == AppRun.RunChunks(old(World()), plan, 0, ctx)
      ensures completed == |plan|
    {
      ghost var w0 := World();
      completed := 0;
      var i := 0;
      while i < |plan|
        invariant i % AppRun.ChunkSize == 0 && i < |plan| + AppRun.ChunkSize
        invariant completed == if i < |plan| then i else |plan|
        invariant World() == AppRun.ChunksBefore(w0, plan, i, ctx)
        decreases |plan| - i
      {
        AppRun.NextChunkStart(i);
        AppRun.ChunksBeforeNext(w0, plan, i, ctx);
        completed := RunTurn(plan, i, ctx);
        i := i + AppRun.ChunkSize;
      }
      AppRun.RunChunksAsLoop(w0, plan, i, ctx);
    }

    /** The body of the chunk loop for the chunk `plan.slice(i, i + CHUNK_SIZE)`. */
    method RunTurn(plan: seq<ActivitySpec>, i: nat, ctx: AppRun.Ctx) returns (completed: nat)
      requires i < |plan|
      modifies this`simState, this`trace, this`chartData
      ensures World() == AppRun.ChunkTurn(old(World()), plan, i, ctx)
      ensures completed == AppRun.ChunkEnd(i, |plan|)
    {
      var hi := AppRun.ChunkEnd(i, |plan|);
      completed := RunChunk(plan, i, hi, ctx);
      if i + AppRun.ChunkSize < |plan| {
        AddLog(AppRun.CooldownLine);
        Cooldown();
      }
    }

    /** `Promise.all(chunk.map(...))` for the chunk `plan[lo..hi]`, with its entries run one after the other;
        `completed` counts the entries finished so far, `lo` of them before the chunk. */
    method RunChunk(plan: seq<ActivitySpec>, lo: nat, hi: nat, ctx: AppRun.Ctx) returns (completed: nat)
      requires lo <= hi <= |plan|
      modifies this`simState, this`trace, this`chartData
      ensures World() == AppRun.RunRange(old(World()), plan, lo, hi, ctx)
      ensures completed == hi
    {
      ghost var w0 := World();
      completed := lo;
      while completed < hi
        invariant lo <= completed <= hi
        invariant World() == AppRun.RunRange(w0, plan, lo, completed, ctx)
        decreases hi - completed
      {
        AppRun.RunRangeNext(w0, plan, lo, completed, ctx);
        RunEntry(plan[completed], completed, ctx);
        completed := completed + 1;
      }
    }

    /** The per-entry closure for plan entry `k`: the attempt, then the `finally` block. */
    method RunEntry(spec: ActivitySpec, k: nat, ctx: AppRun.Ctx)
      modifies this`simState, this`trace, this`chartData
      ensures World() == AppRun.ItemStep(old(World()), spec, k, ctx)
    {
      AttemptItem(spec, k, ctx);
      simState := SetTally(simState, k + 1, ctx.totalOps);
      chartData := AddSample(chartData, k + 1);
    }

    /** `executeRealSimulation()`: the state it settles in is the one `AppRun.Execute` gives. */
    method ExecuteRealSimulation(env: AppRun.Env)
      modifies this
      ensures Page() == AppRun.Execute(old(Page()), env)
    {
      if config.githubToken == "" {
        AddLog(AppRun.TokenMissingLine);
        return;
      }
      Start();
      var verified := VerifyRepo(env);
      if verified.Err? {
        Abort(verified.message);
        return;
      }
      AfterCheck(verified.value, env);
    }

    /** The start of a run: view state RUNNING, the reset, and the authentication line. */
    method Start()
      modifies this`viewState, this`simState
      ensures Page() == AppRun.Start(old(Page()))
    {
      viewState := RUNNING;
      simState := StartRun(simState);
      AddLog(AppRun.AuthLine);
    }

    /** The `catch` block of `executeRealSimulation` for an error with message `message`. */
    method Abort(message: string)
      modifies this`viewState, this`simState
      ensures viewState == IDLE && World() == AppRun.Abort(old(World()), message)
    {
      AddLog(AppRun.FailurePrefix + message);
      viewState := IDLE;
      simState := AbortRun(simState);
    }

    /** The part of `executeRealSimulation` after the credentials were verified for `repo`, while the view
        state is RUNNING. */
    method AfterCheck(repo: AppRun.Repo, env: AppRun.Env)
      requires viewState == RUNNING
      modifies this`viewState, this`simState, this`trace, this`chartData
      ensures Page() == AppRun.AfterCheck(old(Page()), repo, env)
    {
      ghost var p0 := Page();
      AddLog(AppRun.ConnectedLine(repo));
      AddLog(AppRun.PlanLine);
      ghost var w := World();
      assert w == AppRun.Log(AppRun.Log(p0.world, AppRun.ConnectedLine(repo)), AppRun.PlanLine);
      var totalOps := config.issueCount + config.prCount + config.commitCount;
      // generateActivityPlan(language, repoName, totalOps), with the process-wide key and the service's reply
      var plan := AppRun.PlanFor(config, env);
      if plan.Err? {
        Abort(plan.message);
        assert Page() == AppRun.Page(p0.config, IDLE, AppRun.Abort(w, plan.message));
        return;
      }
      var ctx := AppRun.Ctx(totalOps, config.autoMerge, env);
      assert ctx == AppRun.CtxFor(p0.config, env);
      Deploy(plan.value, ctx);
      viewState := COMPLETE;
      assert Page() == AppRun.Page(p0.config, COMPLETE, AppRun.Deploy(w, plan.value, ctx));
    }

    /** The run on the generated plan, while the view state is RUNNING: the chunk loop and completion. */
    method Deploy(plan: seq<ActivitySpec>, ctx: AppRun.Ctx)
      requires viewState == RUNNING
      modifies this`simState, this`trace, this`chartData
      ensures World() == AppRun.Deploy(old(World()), plan, ctx)
    {
      AddLog(AppRun.GeneratedPrefix + Format.NatToString(|plan|) + AppRun.GeneratedSuffix);
      var completed := RunPlan(plan, ctx);
      AddLog(AppRun.CompletedLine);
      simState := FinishRun(simState);
    }
  }
}
