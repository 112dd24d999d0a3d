/** The configuration constants the pipeline's decision logic reads (config.py). */
module Config {
  /** Length cap of a ranked list. */
  const FinalK: nat := 20
  /** How many rows each retrieval tool is asked for. */
  const CfK: nat := 200
  const SemanticK: nat := 80

  /** Search intents must use both retrieval tools. */
  const EnforceHybridForSearch: bool := true
  /** Smallest collaborative-filtering share under hybrid enforcement. */
  const MinCfWeight: real := 0.20

  /** Advantage-weighted ranking: popularity penalty and novelty reward. */
  const AdvantageAlpha: real := 0.6
  const NoveltyLambda: real := 0.20

  /** Critic guardrails: window, popularity ceiling, minimum distinct genres. */
  const CriticTopN: nat := 10
  const PopularityMeanThreshold: real := 0.65
  const GenreDiversityMinUnique: nat := 4
}
