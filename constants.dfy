/** The fixed configuration values of constants.ts. */
module Constants {
  import opened Types

  /** `DEFAULT_CONFIG`; its `startDate` is the date part of the current clock reading, passed in as `today`. */
  function DefaultConfig(today: string): SimulationConfig
  {
    SimulationConfig(
      githubToken := "",
      repoName := "username/turbo-repo",
      language := "TypeScript",
      issueCount := 5,
      prCount := 5,
      commitCount := 5,
      discussionCount := 0,
      megaFeatures := ["GitHub Actions", "Wiki Pages"],
      startDate := today,
      autoMerge := true)
  }

  /** `AVAILABLE_FEATURES`: the feature buttons the configuration form offers. */
  const AvailableFeatures: seq<string> := [
    "GitHub Actions", "Code Reviews", "Releases", "Wiki Pages", "Projects", "Security Scans",
    "Dependabot Alerts", "Deployments", "Environments", "Package Registry", "Webhooks", "Issue Templates"
  ]

  /** The default selection only holds features the form offers, each once. */
  lemma DefaultFeaturesAvailable(today: string)
    ensures forall f :: f in DefaultConfig(today).megaFeatures ==> f in AvailableFeatures
    ensures multiset(DefaultConfig(today).megaFeatures)["GitHub Actions"] == 1
    ensures multiset(DefaultConfig(today).megaFeatures)["Wiki Pages"] == 1
  {
    assert AvailableFeatures[0] == "GitHub Actions";
    assert AvailableFeatures[3] == "Wiki Pages";
  }
}
