/** The data constants of constants.ts that the core reads: the incentive
    goal targets and the head of the seed topic catalog. */
module Constants {
  import opened Types

  const StreakGoal: nat := 7
  const ReadsGoal: nat := 20
  const ErrorsGoal: nat := 1
  const SuggestionsGoal: nat := 1
  const ReferralsGoal: nat := 3

  /** The first three entries of the seed catalog, with the fields the core
      interprets (the narrative payload is left out). */
  const MockTopicsHead: seq<Topic> := [
    Topic("1", map[
      "title" := Text("Global AI Regulation Summit 2024"),
      "category" := Text("Tech"),
      "isInternational" := Flag(true)]),
    Topic("11", map[
      "title" := Text("Brazil vs. Big Tech Sovereignty"),
      "category" := Text("International"),
      "isInternational" := Flag(true)]),
    Topic("12", map[
      "title" := Text("Japan's Depopulation Strategy Shift"),
      "category" := Text("Culture"),
      "isInternational" := Flag(true)])
  ]
}
