/** What one press of the deploy button does (`executeRealSimulation` in App.tsx), as a function of the page
    state before it and of what the external services answer; the class in module App runs the same steps
    imperatively and is proved to end in the state this function gives. */
module AppRun {
  import opened Types
  import opened AppState
  import Format
  import GeminiService

  /** `CHUNK_SIZE`: how many plan entries are dispatched together. */
  const ChunkSize: nat := 3

  /** The repository identity `verifyRepo` resolves. */
  datatype Repo = Repo(owner: string, repo: string)

  /** An external call, or a cooldown pause, as recorded in a run's trace; `k` is the plan index of the entry. */
  datatype Call = VerifyRepo | CreateIssue(k: nat) | CreatePr(k: nat) | MergePr(k: nat, id: int) | CreateCommit(k: nat) | Cooldown

  /** What a create call does: return an item (or `null`), or throw with a message. */
  datatype CreateResult = Returned(result: Option<GeneratedItem>) | Threw(message: string)

  /** A scripted answer for each plan position: `scripted[k]` for the first positions, `rest` after them. */
  datatype Answers<T> = Answers(scripted: seq<T>, rest: T)
  {
    function At(k: nat): T
    {
      if k < |scripted| then scripted[k] else rest
    }
  }

  /** The answers of the external collaborators: the credential check, the generative service (with the
      process-wide key), and the create and merge calls, indexed by the plan position of the entry. */
  datatype Env = Env(
    verify: Result<Repo>,
    apiKey: string,
    gemini: GeminiService.GeminiReply,
    create: Answers<CreateResult>,
    merge: Answers<Outcome>)

  /** What the per-entry closure captures: `totalOps`, the configuration's `autoMerge`, and the services. */
  datatype Ctx = Ctx(totalOps: int, autoMerge: bool, env: Env)

  /** The part of the page a run changes besides the view state: the simulation state, the chart samples
      (their values; timestamps are not modelled) and the trace of external calls. */
  datatype World = World(sim: SimulationState, chart: seq<nat>, trace: seq<Call>)

  /** The whole page state: configuration, view state and the rest. */
  datatype Page = Page(config: SimulationConfig, view: ViewState, world: World)

  function Log(w: World, msg: string): World
  {
    w.(sim := AddLog(w.sim, msg))
  }

  function Record(w: World, c: Call): World
  {
    w.(trace := w.trace + [c])
  }

  function CreateCall(kind: ActivityType, k: nat): Call
    requires Dispatchable(kind)
  {
    match kind
    case ISSUE => CreateIssue(k)
    case PR => CreatePr(k)
    case _ => CreateCommit(k)
  }

  function StartLine(spec: ActivitySpec): string
    requires Dispatchable(spec.kind)
  {
    match spec.kind
    case ISSUE => CreatingIssue + spec.title + "..."
    case PR => CreatingPr + spec.title + "..."
    case _ => PushingCommit + spec.title + "..."
  }

  /** The auto-merge of a created PR: the world after it and the item as it will be listed. */
  function MergeStep(w: World, item: GeneratedItem, k: nat, env: Env): (World, GeneratedItem)
  {
    var id := Format.IntToString(item.id);
    var w1 := Record(Log(w, AutoMerging + id + "..."), MergePr(k, item.id));
    match env.merge.At(k)
    case Pass => (Log(w1, MergedPrefix + id + MergedSuffix), item.(status := Merged))
    case Fail(m) => (Log(w1, MergeWarning + id + ": " + m), item)
  }

  /** Listing a non-null result: prepend it, then log it. */
  function Listed(w: World, item: GeneratedItem): World
  {
    Log(w.(sim := PrependItem(w.sim, item)), CreatedPrefix + TypeName(item.kind) + " #" + Format.IntToString(item.id))
  }

  /** The `try`/`catch` part of the per-entry closure for plan entry `k`. */
  function Attempt(w: World, spec: ActivitySpec, k: nat, ctx: Ctx): World
  {
    if !Dispatchable(spec.kind) then w
    else
      var w1 := Record(Log(w, StartLine(spec)), CreateCall(spec.kind, k));
      match ctx.env.create.At(k)
      case Threw(m) => Log(w1, CreateError + spec.title + " - " + m)
      case Returned(r) =>
        var w2 := w1.(sim := BumpStat(w1.sim, spec.kind));
        if r.None? then w2
        else if spec.kind == PR && ctx.autoMerge then
          var (w3, item) := MergeStep(w2, r.value, k, ctx.env);
          Listed(w3, item)
        else Listed(w2, r.value)
  }

  /** The whole per-entry closure: the attempt, then the `finally` block with `completed` now `k + 1`. */
  function ItemStep(w: World, spec: ActivitySpec, k: nat, ctx: Ctx): World
  {
    var w1 := Attempt(w, spec, k, ctx);
    w1.(sim := SetTally(w1.sim, k + 1, ctx.totalOps), chart := AddSample(w1.chart, k + 1))
  }

  /** Where the chunk starting at plan entry `i` ends: `plan.slice(i, i + CHUNK_SIZE)` has `hi - i` entries. */
  function ChunkEnd(i: nat, n: nat): (hi: nat)
    requires i < n
    ensures i < hi <= n && hi - i <= ChunkSize
    ensures hi < n <==> i + ChunkSize < n
  {
    if i + ChunkSize < n then i + ChunkSize else n
  }

  /** `plan.slice(i, i + CHUNK_SIZE)` is short only for the last chunk. */
  lemma OnlyLastChunkShort(i: nat, n: nat)
    requires i < n && ChunkEnd(i, n) - i < ChunkSize
    ensures ChunkEnd(i, n) == n
  {
  }

  /** Plan entries `lo` up to (not including) `hi`, run one after the other; plan entry `k` runs with `k`
      in the shared `completed` counter, since every entry before it has finished. */
  function RunRange(w: World, plan: seq<ActivitySpec>, lo: nat, hi: nat, ctx: Ctx): World
    requires lo <= hi <= |plan|
    decreases hi - lo
  {
    if lo == hi then w else ItemStep(RunRange(w, plan, lo, hi - 1, ctx), plan[hi - 1], hi - 1, ctx)
  }

  /** Proof helper for `App.Simulator.RunChunk`: one more entry unfolds `RunRange` once. */
  lemma RunRangeNext(w: World, plan: seq<ActivitySpec>, lo: nat, k: nat, ctx: Ctx)
    requires lo <= k < |plan|
    ensures RunRange(w, plan, lo, k + 1, ctx) == ItemStep(RunRange(w, plan, lo, k, ctx), plan[k], k, ctx)
  {
  }

  function CooldownStep(w: World): World
  {
    Record(Log(w, CooldownLine), Cooldown)
  }

  /** The chunk loop from plan entry `i` on: the chunk starting there, then a cooldown unless it was the last. */
  function RunChunks(w: World, plan: seq<ActivitySpec>, i: nat, ctx: Ctx): World
    requires i <= |plan|
    decreases |plan| - i
  {
    if i == |plan| then w else RunChunks(ChunkTurn(w, plan, i, ctx), plan, ChunkEnd(i, |plan|), ctx)
  }

  /** One turn of the chunk loop at plan entry `i`: the chunk starting there, then a cooldown unless it was
      the last one (`i + CHUNK_SIZE < plan.length`). */
  function ChunkTurn(w: World, plan: seq<ActivitySpec>, i: nat, ctx: Ctx): World
    requires i < |plan|
  {
    var hi := ChunkEnd(i, |plan|);
    var w1 := RunRange(w, plan, i, hi, ctx);
    if hi < |plan| then CooldownStep(w1) else w1
  }

  /** The world after the turns of the chunk loop that start below `i`, where `i` is a multiple of the chunk
      size: the value the loop's counter takes at the head of each turn. */
  function ChunksBefore(w: World, plan: seq<ActivitySpec>, i: nat, ctx: Ctx): World
    requires i % ChunkSize == 0
    decreases i
  {
    if i == 0 then w
    else
      var p := i - ChunkSize;
      var w1 := ChunksBefore(w, plan, p, ctx);
      if |plan| <= p then w1 else ChunkTurn(w1, plan, p, ctx)
  }

  /** Proof helper for `App.Simulator.RunPlan`: the loop counter stays a multiple of the chunk size. */
  lemma NextChunkStart(i: nat)
    requires i % ChunkSize == 0
    ensures (i + ChunkSize) % ChunkSize == 0
  {
  }

  /** Proof helper for `App.Simulator.RunPlan`: one more loop turn unfolds `ChunksBefore` once. */
  lemma ChunksBeforeNext(w: World, plan: seq<ActivitySpec>, i: nat, ctx: Ctx)
    requires i % ChunkSize == 0 && i < |plan|
    ensures ChunksBefore(w, plan, i + ChunkSize, ctx) == ChunkTurn(ChunksBefore(w, plan, i, ctx), plan, i, ctx)
  {
    NextChunkStart(i);
    assert i + ChunkSize - ChunkSize == i;
  }

  /** The value of the chunk loop's counter when the loop exits: the first multiple of the chunk size that is
      at least `n`. */
  function LoopExit(n: nat): (i: nat)
    ensures i % ChunkSize == 0 && n <= i < n + ChunkSize
  {
    if n % ChunkSize == 0 then n else n + (ChunkSize - n % ChunkSize)
  }

  /** The chunk loop run from a chunk start `i` continues the chunks before `i` to the loop's exit. */
  lemma {:induction false} RunChunksFrom(w: World, plan: seq<ActivitySpec>, i: nat, ctx: Ctx)
    requires i % ChunkSize == 0 && i <= |plan|
    ensures RunChunks(ChunksBefore(w, plan, i, ctx), plan, i, ctx) == ChunksBefore(w, plan, LoopExit(|plan|), ctx)
    decreases |plan| - i
  {
    if i < |plan| {
      var hi := ChunkEnd(i, |plan|);
      var before := ChunksBefore(w, plan, i, ctx);
      ChunksBeforeNext(w, plan, i, ctx);
      NextChunkStart(i);
      assert RunChunks(before, plan, i, ctx) == RunChunks(ChunkTurn(before, plan, i, ctx), plan, hi, ctx);
      if hi < |plan| {
        assert hi == i + ChunkSize;
        RunChunksFrom(w, plan, hi, ctx);
      } else {
        LoopExitUnique(|plan|, i + ChunkSize);
      }
    }
  }

  /** The chunk loop, as it unfolds turn by turn, ends in the world the chunks give: its counter leaves the
      loop at the first multiple of the chunk size that is at least the plan's length. */
  lemma RunChunksAsLoop(w: World, plan: seq<ActivitySpec>, i: nat, ctx: Ctx)
    requires i % ChunkSize == 0 && |plan| <= i < |plan| + ChunkSize
    ensures RunChunks(w, plan, 0, ctx) == ChunksBefore(w, plan, i, ctx)
  {
    RunChunksFrom(w, plan, 0, ctx);
    LoopExitUnique(|plan|, i);
  }

  lemma LoopExitUnique(n: nat, i: nat)
    requires i % ChunkSize == 0 && n <= i < n + ChunkSize
    ensures i == LoopExit(n)
  {
    var e := LoopExit(n);
    assert i == ChunkSize * (i / ChunkSize) && e == ChunkSize * (e / ChunkSize);
  }

  function TotalOps(c: SimulationConfig): int
  {
    c.issueCount + c.prCount + c.commitCount
  }

  /** The plan the run obtains from the plan generator, or the error it throws. */
  function PlanFor(c: SimulationConfig, env: Env): Result<seq<ActivitySpec>>
  {
    GeminiService.GenerateActivityPlan(c.language, c.repoName, TotalOps(c), env.apiKey, env.gemini)
  }

  function CtxFor(c: SimulationConfig, env: Env): Ctx
  {
    Ctx(TotalOps(c), c.autoMerge, env)
  }

  // The fixed log lines of the handler.
  const TokenMissingLine := "ERROR: GitHub Token is required for Real Mode."
  const AuthLine := "Authenticating with GitHub..."
  const PlanLine := "Initializing Gemini 2.5 Flash for content generation..."
  const CooldownLine := "Cooling down (Rate Limit Protection)..."
  const CompletedLine := "ALL OPERATIONS COMPLETED."
  const FailurePrefix := "CRITICAL FAILURE: "

  // The fixed parts of the per-entry and plan log lines.
  const CreatingIssue := "Creating Issue: "
  const CreatingPr := "Creating PR: "
  const PushingCommit := "Pushing Commit: "
  const AutoMerging := "Auto-Merging PR #"
  const MergedPrefix := "SUCCESS: PR #"
  const MergedSuffix := " Merged (Badge Progress +1)"
  const MergeWarning := "WARNING: Failed to auto-merge PR #"
  const CreateError := "ERROR: Failed to create "
  const CreatedPrefix := "SUCCESS: Created "
  const GeneratedPrefix := "Generated "
  const GeneratedSuffix := " activity templates."
  const ConnectedPrefix := "SUCCESS: Connected to "

  /** The log line of a passed credential check. */
  function ConnectedLine(repo: Repo): string
  {
    ConnectedPrefix + repo.owner + "/" + repo.repo
  }

  /** The start of a run with a token: view state RUNNING, the reset, and the authentication line. */
  function Start(p: Page): Page
  {
    var w := p.world.(sim := StartRun(p.world.sim));
    Page(p.config, RUNNING, Log(w, AuthLine))
  }

  /** The `catch` block of the handler for an error with message `m`. */
  function Abort(w: World, m: string): World
  {
    var w1 := Log(w, FailurePrefix + m);
    w1.(sim := AbortRun(w1.sim))
  }

  /** The end of a run after the loop: the completion line, then `isRunning` false and progress 100. */
  function DeployTail(w: World): World
  {
    var w1 := Log(w, CompletedLine);
    w1.(sim := FinishRun(w1.sim))
  }

  /** The run on the plan `plan`: its length logged, the chunk loop, completion. */
  function Deploy(w: World, plan: seq<ActivitySpec>, ctx: Ctx): World
  {
    var w1 := Log(w, GeneratedPrefix + Format.NatToString(|plan|) + GeneratedSuffix);
    DeployTail(RunChunks(w1, plan, 0, ctx))
  }

  /** The handler after the credentials were verified for `repo`: the plan is requested, and the run either
      proceeds on it or ends in the `catch` block when the plan generator throws. */
  function AfterCheck(p: Page, repo: Repo, env: Env): Page
  {
    var w := Log(Log(p.world, ConnectedLine(repo)),
                 PlanLine);
    match PlanFor(p.config, env)
    case Err(m) => p.(view := IDLE, world := Abort(w, m))
    case Ok(plan) => p.(view := COMPLETE, world := Deploy(w, plan, CtxFor(p.config, env)))
  }

  /** `executeRealSimulation()` from the page state `p`, up to the state it settles in. */
  function Execute(p: Page, env: Env): Page
  {
    if p.config.githubToken == "" then p.(world := Log(p.world, TokenMissingLine))
    else
      var s := Start(p);
      var s1 := s.(world := Record(s.world, VerifyRepo));
      match env.verify
      case Err(m) => s1.(view := IDLE, world := Abort(s1.world, m))
      case Ok(repo) => AfterCheck(s1, repo, env)
  }
}
