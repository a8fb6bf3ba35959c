/** The static tunables of the quote engine (`CONFIG` in script.js). */
module QuoteConfig {

  /** Base fee, per-difficulty adjustment, half-width of the fair range and
      the floor under its lower bound, all in percent. Difficulty tiers are
      keyed by the string the form's difficulty selector yields. */
  datatype Config = Config(
    baseFee: real,
    difficultyAdjust: map<string, real>,
    rangeOffset: real,
    minFloor: real)

  /** The adjustment used for a tier the table does not know. */
  const FallbackAdjust: real := 2.0

  /** The configuration the script ships with. */
  const Shipped: Config := Config(
    8.0,
    map["Low" := 0.0, "Medium" := 2.0, "High" := 4.0],
    2.0,
    6.0)

  /** A usable configuration: the range is widened, never narrowed, around
      the expected fee. */
  predicate Valid(cfg: Config) {
    cfg.rangeOffset >= 0.0
  }

  /** `CONFIG.difficultyAdjust[difficulty] ?? 2`: the tier's adjustment when
      the table has one (a stored 0 is kept, since `??` only replaces a
      missing value), and the fallback otherwise. */
  function DifficultyAdjust(cfg: Config, difficulty: string): (a: real)
    ensures difficulty in cfg.difficultyAdjust ==> a == cfg.difficultyAdjust[difficulty]
    ensures difficulty !in cfg.difficultyAdjust ==> a == FallbackAdjust
  {
    if difficulty in cfg.difficultyAdjust then cfg.difficultyAdjust[difficulty] else FallbackAdjust
  }

  /** The shipped table never lowers the expected fee, whatever the tier. */
  lemma ShippedAdjustBetween(difficulty: string)
    ensures 0.0 <= DifficultyAdjust(Shipped, difficulty) <= 4.0
  {
  }

  /** The shipped configuration is usable. */
  lemma ShippedValid()
    ensures Valid(Shipped)
  {
  }
}
