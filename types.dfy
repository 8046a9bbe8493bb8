/** The entities of the activity runner, as declared in types.ts. */
module Types {

  datatype Option<+T> = None | Some(value: T)

  /** The outcome of an external call that either returns a value or throws with a message. */
  datatype Result<+T> = Ok(value: T) | Err(message: string)

  /** The outcome of an external call that returns nothing or throws. */
  datatype Outcome = Pass | Fail(message: string)

  datatype ActivityType = ISSUE | PR | COMMIT | DISCUSSION | RELEASE

  /** The string value of each enum member, as it appears in interpolated log lines. */
  function TypeName(t: ActivityType): string
  {
    match t
    case ISSUE => "ISSUE"
    case PR => "PR"
    case COMMIT => "COMMIT"
    case DISCUSSION => "DISCUSSION"
    case RELEASE => "RELEASE"
  }

  /** The three activity types the run orchestrator has a create branch for. */
  predicate Dispatchable(t: ActivityType)
  {
    t == ISSUE || t == PR || t == COMMIT
  }

  datatype Status = Pending | Created | Merged | Failed

  /** A record returned by the external action service (the field `type` is called `kind` here). */
  datatype GeneratedItem = GeneratedItem(
    id: int,
    kind: ActivityType,
    title: string,
    description: string,
    status: Status,
    timestamp: string,
    author: string,
    url: Option<string>,
    coAuthors: Option<seq<string>>)

  /** A plan entry: the partial item the plan generator returns, with the three fields the run reads. */
  datatype ActivitySpec = ActivitySpec(kind: ActivityType, title: string, description: string)

  datatype Stats = Stats(issues: nat, prs: nat, commits: nat, discussions: nat)

  const ZeroStats := Stats(0, 0, 0, 0)

  /** `progress` is a float; it is kept unevaluated: a literal percentage, or `(completed / totalOps) * 100`. */
  datatype Progress = Percent(value: int) | Tally(completed: nat, totalOps: int)

  datatype SimulationState = SimulationState(
    isRunning: bool,
    progress: Progress,
    logs: seq<string>,
    items: seq<GeneratedItem>,
    stats: Stats)

  datatype SimulationConfig = SimulationConfig(
    githubToken: string,
    repoName: string,
    language: string,
    issueCount: int,
    prCount: int,
    commitCount: int,
    discussionCount: int,
    megaFeatures: seq<string>,
    startDate: string,
    autoMerge: bool)

  /** The view state the page keeps beside the simulation state. */
  datatype ViewState = IDLE | RUNNING | COMPLETE

  /** The keys of a configuration record (`keyof SimulationConfig`). */
  datatype ConfigKey =
    | GithubToken | RepoName | Language | IssueCount | PrCount | CommitCount
    | DiscussionCount | MegaFeatures | StartDate | AutoMerge

  /** A configuration field's value, whatever its key. */
  datatype ConfigValue = Text(s: string) | Number(n: int) | TextList(l: seq<string>) | Flag(b: bool)

  /** One `onChange(key, value)` call: a key together with a value of that key's type. */
  datatype ConfigChange =
    | SetGithubToken(token: string)
    | SetRepoName(repoName: string)
    | SetLanguage(language: string)
    | SetIssueCount(issueCount: int)
    | SetPrCount(prCount: int)
    | SetCommitCount(commitCount: int)
    | SetDiscussionCount(discussionCount: int)
    | SetMegaFeatures(megaFeatures: seq<string>)
    | SetStartDate(startDate: string)
    | SetAutoMerge(autoMerge: bool)
  {
    function Key(): ConfigKey
    {
      match this
      case SetGithubToken(_) => GithubToken
      case SetRepoName(_) => RepoName
      case SetLanguage(_) => Language
      case SetIssueCount(_) => IssueCount
      case SetPrCount(_) => PrCount
      case SetCommitCount(_) => CommitCount
      case SetDiscussionCount(_) => DiscussionCount
      case SetMegaFeatures(_) => MegaFeatures
      case SetStartDate(_) => StartDate
      case SetAutoMerge(_) => AutoMerge
    }

    function Value(): ConfigValue
    {
      match this
      case SetGithubToken(v) => Text(v)
      case SetRepoName(v) => Text(v)
      case SetLanguage(v) => Text(v)
      case SetIssueCount(v) => Number(v)
      case SetPrCount(v) => Number(v)
      case SetCommitCount(v) => Number(v)
      case SetDiscussionCount(v) => Number(v)
      case SetMegaFeatures(v) => TextList(v)
      case SetStartDate(v) => Text(v)
      case SetAutoMerge(v) => Flag(v)
    }
  }

  /** Reads one field of a configuration by its key (`config[key]`). */
  function Get(c: SimulationConfig, key: ConfigKey): ConfigValue
  {
    match key
    case GithubToken => Text(c.githubToken)
    case RepoName => Text(c.repoName)
    case Language => Text(c.language)
    case IssueCount => Number(c.issueCount)
    case PrCount => Number(c.prCount)
    case CommitCount => Number(c.commitCount)
    case DiscussionCount => Number(c.discussionCount)
    case MegaFeatures => TextList(c.megaFeatures)
    case StartDate => Text(c.startDate)
    case AutoMerge => Flag(c.autoMerge)
  }

  /** Two configurations that agree on every key are the same record. */
  lemma ConfigExtensionality(c: SimulationConfig, d: SimulationConfig)
    requires forall key :: Get(c, key) == Get(d, key)
    ensures c == d
  {
    assert Get(c, GithubToken) == Get(d, GithubToken);
    assert Get(c, RepoName) == Get(d, RepoName);
    assert Get(c, Language) == Get(d, Language);
    assert Get(c, IssueCount) == Get(d, IssueCount);
    assert Get(c, PrCount) == Get(d, PrCount);
    assert Get(c, CommitCount) == Get(d, CommitCount);
    assert Get(c, DiscussionCount) == Get(d, DiscussionCount);
    assert Get(c, MegaFeatures) == Get(d, MegaFeatures);
    assert Get(c, StartDate) == Get(d, StartDate);
    assert Get(c, AutoMerge) == Get(d, AutoMerge);
  }
}
