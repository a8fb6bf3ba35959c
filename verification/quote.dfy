/** The quote evaluator (`classifyQuote` and the computing part of
    `updateResult` in script.js): from the difficulty tier and the checklist
    it derives an expected fee and a fair range around it, sorts the quoted
    fee into one of three verdicts and builds the result snapshot that the
    feedback capture later reads. */
module Quote {
  import opened JsValues
  import opened QuoteConfig
  import opened Checklist
  import opened FeeBucket

  /** The three verdicts, shown to the user under their Korean labels. */
  datatype Verdict = Efficient | Typical | High
  {
    /** The label string the script stores as `verdictLabel`. */
    function Label(): string {
      match this
      case Efficient => "가성비 좋음"
      case Typical => "적정"
      case High => "과도"
    }

    /** Verdicts ordered from cheapest to dearest. */
    function Rank(): nat {
      match this
      case Efficient => 0
      case Typical => 1
      case High => 2
    }
  }

  /** The three labels are distinct, so `verdictLabel` identifies the
      verdict. */
  lemma LabelInjective(v: Verdict, w: Verdict)
    requires v.Label() == w.Label()
    ensures v == w
  {
  }

  /** `classifyQuote(fee, min, max)`. A fee that is not a finite number is
      given the neutral verdict; a finite fee is efficient exactly below
      `min` and excessive exactly when it is not below `min` and above
      `max`. */
  function Classify(fee: Num, min: real, max: real): (v: Verdict)
    ensures v == Efficient <==> fee.Finite? && fee.r < min
    ensures v == High <==> fee.Finite? && min <= fee.r && max < fee.r
    ensures fee.NonFinite? ==> v == Typical
  {
    match fee
    case NonFinite => Typical
    case Finite(f) =>
      if f < min then Efficient
      else if f <= max then Typical
      else High
  }

  /** On a well-formed range the verdicts partition the finite fees into
      three intervals: below the range, inside it (both ends included) and
      above it. */
  lemma ClassifyPartition(f: real, min: real, max: real)
    requires min <= max
    ensures Classify(Finite(f), min, max) == Efficient <==> f < min
    ensures Classify(Finite(f), min, max) == Typical <==> min <= f <= max
    ensures Classify(Finite(f), min, max) == High <==> max < f
  {
  }

  /** A fee that is not a number is judged typical whatever the range. */
  lemma ClassifyNonFiniteNeutral(min: real, max: real)
    ensures Classify(NonFinite, min, max) == Typical
  {
  }

  /** Whatever the range, inverted ones included, a higher fee never earns
      a cheaper verdict. */
  lemma ClassifyMonotone(a: real, b: real, min: real, max: real)
    requires a <= b
    ensures Classify(Finite(a), min, max).Rank() <= Classify(Finite(b), min, max).Rank()
  {
  }

  /** When the floor pushes the lower bound above the upper one, no finite
      fee is judged typical: the lower-bound test runs first, so every fee
      below `min`, including those above `max`, is judged efficient. */
  lemma InvertedRangeNeverTypical(f: real, min: real, max: real)
    requires max < min
    ensures Classify(Finite(f), min, max) != Typical
    ensures Classify(Finite(f), min, max) == Efficient <==> f < min
  {
  }

  /** Expected fee and fair range, in percent. */
  datatype FairRange = FairRange(expected: real, min: real, max: real)

  /** The pricing part of `updateResult`: the expected fee adds the tier's
      adjustment and the checklist sum to the base fee; the range reaches
      `rangeOffset` either side of it, with its lower end held at
      `minFloor` or above. */
  function ComputeRange(cfg: Config, difficulty: string, sum: real): (r: FairRange)
    ensures r.min >= cfg.minFloor
    ensures r.min >= r.expected - cfg.rangeOffset
    ensures r.min == cfg.minFloor || r.min == r.expected - cfg.rangeOffset
    ensures r.max - r.expected == cfg.rangeOffset
    ensures r.expected - sum == cfg.baseFee + DifficultyAdjust(cfg, difficulty)
  {
    var expected := cfg.baseFee + DifficultyAdjust(cfg, difficulty) + sum;
    var lower := expected - cfg.rangeOffset;
    FairRange(expected, if cfg.minFloor > lower then cfg.minFloor else lower, expected + cfg.rangeOffset)
  }

  /** The range is well formed exactly when the expected fee is no lower
      than `minFloor - rangeOffset`; below that the floor lifts `min` over
      `max`. */
  lemma RangeWellFormedIff(cfg: Config, difficulty: string, sum: real)
    requires Valid(cfg)
    ensures var r := ComputeRange(cfg, difficulty, sum);
      r.min <= r.max <==> r.expected >= cfg.minFloor - cfg.rangeOffset
  {
  }

  /** With the shipped configuration and a non-negative checklist sum the
      floor never binds: the range is exactly two points either side of the
      expected fee. */
  lemma ShippedRangeIsSymmetric(difficulty: string, sum: real)
    requires sum >= 0.0
    ensures var r := ComputeRange(Shipped, difficulty, sum);
      r.min == r.expected - 2.0 && r.max == r.expected + 2.0
  {
    ShippedAdjustBetween(difficulty);
  }

  /** With the shipped configuration the range is inverted only by a
      checklist sum below -(4 + adjustment): since every shipped adjustment
      is at least 0, that takes a negative checklist sum, which only
      negative declared weights can produce. */
  lemma ShippedRangeWellFormedIff(difficulty: string, sum: real)
    ensures var r := ComputeRange(Shipped, difficulty, sum);
      r.min <= r.max <==> sum >= -(4.0 + DifficultyAdjust(Shipped, difficulty))
    ensures var r := ComputeRange(Shipped, difficulty, sum);
      r.max < r.min ==> sum < 0.0
  {
    ShippedValid();
    RangeWellFormedIff(Shipped, difficulty, sum);
    ShippedAdjustBetween(difficulty);
  }

  /** With the shipped table, a tier it does not know is priced like
      "Medium", whose adjustment is also 2. */
  lemma UnknownDifficultyPricedAsMedium(difficulty: string, sum: real)
    requires difficulty !in Shipped.difficultyAdjust
    ensures ComputeRange(Shipped, difficulty, sum) == ComputeRange(Shipped, "Medium", sum)
  {
  }

  /** The figures kept after an evaluation (`window.__LAST_RESULT__`). */
  datatype Snapshot = Snapshot(
    verdict: Verdict,
    feePercent: Num,
    totalScore: real,
    monthlyBudget: Num,
    monthlyFee: real,
    selectedItemsCount: nat)

  /** The quote form as the script reads it. */
  datatype QuoteForm = QuoteForm(
    difficulty: string,
    budget: Num,
    fee: Num,
    checklist: seq<Item>)

  /** The form payload persisted after every evaluation. */
  datatype StoredInput = StoredInput(
    difficulty: string,
    budget: Num,
    fee: Num,
    checklist: seq<string>)

  /** Everything one run of `updateResult` computes. */
  datatype Evaluation = Evaluation(range: FairRange, snapshot: Snapshot, stored: StoredInput)

  /** Monthly fee in currency units: budget times fee percent, or 0 when
      either field is not a finite number. Equivalently, the product of the
      two figures once each non-finite one is read as 0. */
  function MonthlyFee(budget: Num, fee: Num): (m: real)
    ensures m == OrZero(budget) * OrZero(fee) / 100.0
  {
    if budget.Finite? && fee.Finite? then budget.r * fee.r / 100.0 else 0.0
  }

  /** `updateResult` without its rendering: evaluate the form against the
      configuration, build the snapshot and the payload to persist. */
  function UpdateResult(cfg: Config, form: QuoteForm): (e: Evaluation)
    // the range is priced from the finite weights of the checked items
    ensures e.range.expected == cfg.baseFee + DifficultyAdjust(cfg, form.difficulty) + CheckedTotal(form.checklist)
    ensures e.range.min == (if cfg.minFloor > e.range.expected - cfg.rangeOffset then cfg.minFloor else e.range.expected - cfg.rangeOffset)
    ensures e.range.max == e.range.expected + cfg.rangeOffset
    ensures e.snapshot.verdict == Classify(form.fee, e.range.min, e.range.max)
    ensures e.snapshot.totalScore == e.range.expected
    // non-finite fields are recorded as 0, so the snapshot only holds finite figures
    ensures e.snapshot.feePercent == Finite(OrZero(form.fee))
    ensures e.snapshot.monthlyBudget == Finite(OrZero(form.budget))
    ensures e.snapshot.monthlyFee == e.snapshot.monthlyBudget.r * e.snapshot.feePercent.r / 100.0
    ensures e.snapshot.selectedItemsCount == CheckedCount(form.checklist)
    ensures e.stored == StoredInput(form.difficulty, form.budget, form.fee, Summarize(form.checklist).items)
  {
    var summary := Summarize(form.checklist);
    var range := ComputeRange(cfg, form.difficulty, summary.sum);
    var snapshot := Snapshot(
      Classify(form.fee, range.min, range.max),
      Finite(OrZero(form.fee)),
      range.expected,
      Finite(OrZero(form.budget)),
      MonthlyFee(form.budget, form.fee),
      |summary.items|);
    Evaluation(range, snapshot, StoredInput(form.difficulty, form.budget, form.fee, summary.items))
  }

  /** With the shipped configuration and no negative weight declared, the
      fair range of any form is the expected fee plus or minus 2. */
  lemma ShippedFormRange(form: QuoteForm)
    requires forall i :: 0 <= i < |form.checklist| && form.checklist[i].weight.Finite? ==> form.checklist[i].weight.r >= 0.0
    ensures var r := UpdateResult(Shipped, form).range;
      r.min == r.expected - 2.0 && r.max == r.expected + 2.0
  {
    SumNonNegative(form.checklist);
    ShippedRangeIsSymmetric(form.difficulty, Summarize(form.checklist).sum);
  }

  /** "Medium" with checked weights summing to 5 gives the range 13..17
      around 15, and 10, 15 and 20 fall below, inside and above it. */
  lemma MediumTierExample()
    ensures var r := ComputeRange(Shipped, "Medium", 5.0);
      && r == FairRange(15.0, 13.0, 17.0)
      && Classify(Finite(10.0), r.min, r.max) == Efficient
      && Classify(Finite(15.0), r.min, r.max) == Typical
      && Classify(Finite(20.0), r.min, r.max) == High
  {
  }

  /** "Low" with nothing checked gives 6..10 around 8; a fee that is not a
      number (text `Number` cannot parse) is typical and costs nothing a
      month. */
  lemma NonNumericFeeExample(budget: Num)
    ensures var e := UpdateResult(Shipped, QuoteForm("Low", budget, NonFinite, []));
      && e.range == FairRange(8.0, 6.0, 10.0)
      && e.snapshot.verdict == Typical
      && e.snapshot.monthlyFee == 0.0
  {
  }

  /** A blank fee field reads as the number 0 (`Number("")`), so with "Low"
      and nothing checked it lies below the floor of 6: the quote is judged
      efficient, costs nothing a month and is reported in band "0-5". */
  lemma BlankFeeExample(budget: Num)
    ensures var e := UpdateResult(Shipped, QuoteForm("Low", budget, Finite(0.0), []));
      && e.snapshot.verdict == Efficient
      && e.snapshot.monthlyFee == 0.0
      && BucketOf(e.snapshot.feePercent) == Under5
  {
  }

  /** A budget of 1,000,000 at 15 percent is 150,000 a month. */
  lemma MonthlyFeeExample(difficulty: string, checklist: seq<Item>)
    ensures UpdateResult(Shipped, QuoteForm(difficulty, Finite(1000000.0), Finite(15.0), checklist)).snapshot.monthlyFee == 150000.0
  {
  }
}
