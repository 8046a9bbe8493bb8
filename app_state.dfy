/** The pure record updates of App.tsx: the functional `setSimState`/`setConfig`/`setChartData` updaters. */
module AppState {
  import opened Types
  import Seqs

  /** How many old log lines `addLog` keeps (`slice(-100)`). */
  const LogKeep: nat := 100

  /** How many old chart samples each progress update keeps (`slice(-19)`). */
  const ChartKeep: nat := 19

  /** The simulation state the page starts with. */
  function InitialState(): SimulationState
  {
    SimulationState(false, Percent(0), ["Waiting for credentials..."], [], ZeroStats)
  }

  /** `addLog(msg)`: keep the newest 100 lines, then append the message; nothing but the logs changes. */
  function AddLog(s: SimulationState, msg: string): SimulationState
  {
    s.(logs := Seqs.Push(s.logs, msg, LogKeep))
  }

  /** `addLog` appends the message after the newest `min(|logs|, 100)` old lines, in order: the log never
      holds more than 101 lines, no line is dropped while it holds at most 100, and nothing else changes. */
  lemma AddLogEffect(s: SimulationState, msg: string)
    ensures var r := AddLog(s, msg);
      && r.isRunning == s.isRunning && r.progress == s.progress && r.items == s.items && r.stats == s.stats
      && |r.logs| == Seqs.Min(|s.logs|, LogKeep) + 1 <= LogKeep + 1
      && r.logs == s.logs[|s.logs| - Seqs.Min(|s.logs|, LogKeep)..] + [msg]
      && (|s.logs| <= LogKeep ==> r.logs == s.logs + [msg])
  {
    Seqs.PushShape(s.logs, msg, LogKeep);
  }

  /** `handleConfigChange(key, value)`: the changed key reads back the new value, every other key its old one. */
  function ApplyChange(c: SimulationConfig, change: ConfigChange): (r: SimulationConfig)
    ensures Get(r, change.Key()) == change.Value()
    ensures forall key :: key != change.Key() ==> Get(r, key) == Get(c, key)
  {
    match change
    case SetGithubToken(v) => c.(githubToken := v)
    case SetRepoName(v) => c.(repoName := v)
    case SetLanguage(v) => c.(language := v)
    case SetIssueCount(v) => c.(issueCount := v)
    case SetPrCount(v) => c.(prCount := v)
    case SetCommitCount(v) => c.(commitCount := v)
    case SetDiscussionCount(v) => c.(discussionCount := v)
    case SetMegaFeatures(v) => c.(megaFeatures := v)
    case SetStartDate(v) => c.(startDate := v)
    case SetAutoMerge(v) => c.(autoMerge := v)
  }

  /** Of two changes to the same key, the later one wins. */
  lemma ApplyChangeLastWins(c: SimulationConfig, first: ConfigChange, second: ConfigChange)
    requires first.Key() == second.Key()
    ensures ApplyChange(ApplyChange(c, first), second) == ApplyChange(c, second)
  {
    var a, b := ApplyChange(ApplyChange(c, first), second), ApplyChange(c, second);
    forall key ensures Get(a, key) == Get(b, key) {
    }
    ConfigExtensionality(a, b);
  }

  /** Changes to different keys commute. */
  lemma ApplyChangeCommutes(c: SimulationConfig, x: ConfigChange, y: ConfigChange)
    requires x.Key() != y.Key()
    ensures ApplyChange(ApplyChange(c, x), y) == ApplyChange(ApplyChange(c, y), x)
  {
    var a, b := ApplyChange(ApplyChange(c, x), y), ApplyChange(ApplyChange(c, y), x);
    forall key ensures Get(a, key) == Get(b, key) {
    }
    ConfigExtensionality(a, b);
  }

  /** The reset at the start of a run (App.tsx line 68); the logs are kept. */
  function StartRun(s: SimulationState): SimulationState
  {
    s.(isRunning := true, progress := Percent(0), items := [], stats := ZeroStats)
  }

  /** The per-type counter updates after a create call returned. */
  function BumpStat(s: SimulationState, kind: ActivityType): SimulationState
  {
    match kind
    case ISSUE => s.(stats := s.stats.(issues := s.stats.issues + 1))
    case PR => s.(stats := s.stats.(prs := s.stats.prs + 1))
    case COMMIT => s.(stats := s.stats.(commits := s.stats.commits + 1))
    case _ => s
  }

  /** `items: [result, ...prev.items]`: newest first. */
  function PrependItem(s: SimulationState, item: GeneratedItem): SimulationState
  {
    s.(items := [item] + s.items)
  }

  /** The progress update in the `finally` block. */
  function SetTally(s: SimulationState, completed: nat, totalOps: int): SimulationState
  {
    s.(progress := Tally(completed, totalOps))
  }

  /** `setChartData(prev => [...prev.slice(-19), { value: completed }])`; the timestamp is not modelled. */
  function AddSample(chart: seq<nat>, completed: nat): seq<nat>
  {
    Seqs.Push(chart, completed, ChartKeep)
  }

  /** The state update at the end of the loop. */
  function FinishRun(s: SimulationState): SimulationState
  {
    s.(isRunning := false, progress := Percent(100))
  }

  /** The state update after a critical failure. */
  function AbortRun(s: SimulationState): SimulationState
  {
    s.(isRunning := false)
  }
}
