/** The plan generator of services/geminiService.ts: the fallback templates, the mapping of the
    generative service's parsed reply, and the choice between the two. */
module GeminiService {
  import opened Types
  import Format

  datatype Template = Template(kind: ActivityType, title: string, desc: string)

  /** The types of the six fallback templates, in order. */
  const KindCycle: seq<ActivityType> := [ISSUE, ISSUE, PR, COMMIT, PR, COMMIT]

  /** Template `j` of the six fallback templates: its type from `KindCycle`, its title and description from
      `TemplateText`. */
  function TemplateAt(j: nat, language: string): Template
    requires j < 6
  {
    var (title, desc) := TemplateText(j, language);
    Template(KindCycle[j], title, desc)
  }

  /** The title and description of template `j`; only the first title mentions the content language. */
  function TemplateText(j: nat, language: string): (string, string)
    requires j < 6
  {
    match j
    case 0 => ("Runtime error in " + language + " module",
               "Getting an undefined reference error when loading the core module on startup.")
    case 1 => ("Feature: Dark mode support", "Users are requesting a dark mode toggle for the main dashboard interface.")
    case 2 => ("Refactor auth middleware",
               "Cleaned up the authentication logic and added better error handling for 401 states.")
    case 3 => ("Update README badges", "Added new status badges for CI pipelines.")
    case 4 => ("Fix typos in documentation", "Corrected spelling mistakes in README and CONTRIBUTING.md.")
    case 5 => ("Bump version number", "Incremented package version to 1.0.4")
  }

  /** Entry `i` of a fallback plan. */
  function MockItem(i: nat, language: string): ActivitySpec
  {
    var t := TemplateAt(i % 6, language);
    ActivitySpec(t.kind, t.title + " (Batch " + Format.NatToString(i / 5) + ")", t.desc)
  }

  /** `Array.from({ length: count })` converts the length with ToLength: a negative count gives no entries. */
  function PlanLength(count: int): nat
  {
    if count <= 0 then 0 else count
  }

  /** The least length `Array.from` refuses: an array holds fewer than 2^32 elements. */
  const ArrayLimit: int := 0x1_0000_0000

  /** The message of the RangeError `Array.from` throws for a length it refuses, as V8 words it. */
  const InvalidArrayLength := "Invalid array length"

  /** The fallback plan of `count` entries, entry `i` built from template `i mod 6`. */
  function MockPlan(count: int, language: string): (plan: seq<ActivitySpec>)
    ensures |plan| == PlanLength(count)
    ensures forall i :: 0 <= i < |plan| ==> plan[i] == MockItem(i, language)
  {
    seq(PlanLength(count), i requires 0 <= i < PlanLength(count) => MockItem(i, language))
  }

  /** `generateMockData(count, language)`: the fallback plan, or the RangeError `Array.from` throws when the
      count is 2^32 or more. */
  function GenerateMockData(count: int, language: string): (r: Result<seq<ActivitySpec>>)
    ensures r.Err? <==> count >= ArrayLimit
    ensures r.Err? ==> r.message == InvalidArrayLength
    ensures r.Ok? ==> r.value == MockPlan(count, language) && |r.value| == PlanLength(count) < ArrayLimit
  {
    if count >= ArrayLimit then Err(InvalidArrayLength) else Ok(MockPlan(count, language))
  }

  /** Entry `i` takes its type and description from template `i mod 6` and its title from that template's
      title followed by the batch number `floor(i / 5)`. */
  lemma MockEntry(count: int, language: string, i: nat)
    requires i < PlanLength(count)
    ensures var e := MockPlan(count, language)[i];
      && e.kind == KindCycle[i % 6]
      && e.description == TemplateAt(i % 6, language).desc
      && e.title == TemplateAt(i % 6, language).title + " (Batch " + Format.NatToString(i / 5) + ")"
  {
    assert MockPlan(count, language)[i] == MockItem(i, language);
  }

  /** A longer fallback plan extends a shorter one: entry `i` depends on `i` alone, not on the count. */
  lemma MockPrefix(count: int, shorter: int, language: string)
    requires 0 <= shorter <= count
    ensures MockPlan(count, language)[..shorter] == MockPlan(shorter, language)
  {
  }

  /** The content language only reaches entries built from template 0 (indices `0, 6, 12, ...`). */
  lemma MockLanguageOnlyInFirstTemplate(count: int, l1: string, l2: string, i: nat)
    requires i < PlanLength(count) && i % 6 != 0
    ensures MockPlan(count, l1)[i] == MockPlan(count, l2)[i]
  {
  }

  /** Fallback plans only hold types the orchestrator dispatches. */
  lemma MockDispatchable(count: int, language: string, i: nat)
    requires i < PlanLength(count)
    ensures Dispatchable(MockPlan(count, language)[i].kind)
  {
    assert MockPlan(count, language)[i].kind == TemplateAt(i % 6, language).kind;
  }

  /** One element of the parsed JSON reply. */
  datatype RawItem = RawItem(typeTag: string, title: string, description: string)

  /** What the generative service call produced: a parsed JSON array, or a thrown error
      (the call failing, `JSON.parse` rejecting the text, or the parsed value not being an array). */
  datatype GeminiReply = Parsed(data: seq<RawItem>) | Failed(error: string)

  /** The reply's `type` string to an activity type: anything but `'ISSUE'` and `'COMMIT'` is a PR. */
  function MapType(tag: string): (t: ActivityType)
    ensures t == ISSUE <==> tag == "ISSUE"
    ensures t == COMMIT <==> tag == "COMMIT"
    ensures t == PR <==> tag != "ISSUE" && tag != "COMMIT"
    ensures Dispatchable(t)
  {
    if tag == "ISSUE" then ISSUE else if tag == "COMMIT" then COMMIT else PR
  }

  /** `data.map(item => ({ ...item, type: ... }))`. */
  function MapResponse(data: seq<RawItem>): (plan: seq<ActivitySpec>)
    ensures |plan| == |data|
    ensures forall i :: 0 <= i < |data| ==>
      plan[i].kind == MapType(data[i].typeTag)
      && plan[i].title == data[i].title && plan[i].description == data[i].description
  {
    seq(|data|, i requires 0 <= i < |data| => ActivitySpec(MapType(data[i].typeTag), data[i].title, data[i].description))
  }

  /** `generateActivityPlan(language, repoName, count)`; `apiKey` is the process-wide key (the empty string
      when it is unset), and `reply` is what the generative service call would give. The fallback calls are
      outside any `try`, so an error of `generateMockData` escapes to the caller. */
  function GenerateActivityPlan(language: string, repoName: string, count: int, apiKey: string, reply: GeminiReply)
    : (r: Result<seq<ActivitySpec>>)
    ensures apiKey == "" ==> r == GenerateMockData(count, language)
    ensures reply.Failed? ==> r == GenerateMockData(count, language)
    ensures apiKey != "" && reply.Parsed? ==> r == Ok(MapResponse(reply.data))
    ensures r.Err? <==> (apiKey == "" || reply.Failed?) && count >= ArrayLimit
    ensures r.Ok? ==> forall i :: 0 <= i < |r.value| ==> Dispatchable(r.value[i].kind)
  {
    if apiKey == "" then
      GenerateMockData(count, language)
    else
      match reply
      case Failed(_) => GenerateMockData(count, language)
      case Parsed(data) => Ok(MapResponse(data))
  }

  /** Without a key the service is never consulted: the plan is the same whatever it would have replied. */
  lemma NoKeyIgnoresService(language: string, repoName: string, count: int, r1: GeminiReply, r2: GeminiReply)
    ensures GenerateActivityPlan(language, repoName, count, "", r1)
         == GenerateActivityPlan(language, repoName, count, "", r2)
  {
  }

  /** The plan has exactly `count` entries when it is the fallback; a parsed reply may have any length:
      the `min(count, 20)` in the prompt bounds nothing. */
  lemma ParsedReplyLengthUnbounded(language: string, repoName: string)
    ensures GenerateActivityPlan(language, repoName, 5, "key", Parsed([])) == Ok([])
    ensures var r := GenerateActivityPlan(language, repoName, 1, "key", Parsed([RawItem("ISSUE", "a", ""), RawItem("PR", "b", "")]));
      r.Ok? && |r.value| == 2
  {
  }
}
