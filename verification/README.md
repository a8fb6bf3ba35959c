# Ad-fee quote check, modelled in Dafny

A model of the quote-evaluation core of the ad-management fee checker
(`script.js`). A user enters a difficulty tier, a monthly budget, a quoted
fee percentage and ticks the services included. The script prices an
expected fee from these inputs and puts a fair range around it. It then
judges the quote as 가성비 좋음 (efficient), 적정 (typical) or 과도
(excessive). The user may then leave micro-feedback: a sentiment and an
optional next action. That feedback is kept in a local history of at most
200 records, newest first.

The model is purely functional:

- `js_values.dfy` (`JsValues`): a JS number is `Finite(r: real) | NonFinite`,
  so `Number.isFinite` becomes a constructor test. `null`/`undefined`
  becomes `Option.None`.
- `config.dfy` (`QuoteConfig`): the shipped `CONFIG` and the tier lookup with
  its fallback adjustment of 2.
- `checklist.dfy` (`Checklist`): `getChecklistSummary` as filter, left fold
  and map, plus an independent right-recursive total (`CheckedTotal`) that
  the fold is proved equal to.
- `fee_bucket.dfy` (`FeeBucket`): `getFeeBucket`. It is proved equal to
  floor(fee / 5) clamped to five bands.
- `quote.dfy` (`Quote`): `classifyQuote`, the range computation, the monthly
  fee, and the snapshot and form payload that `updateResult` builds.
- `feedback.dfy` (`Feedback`): the sentiment buttons, the next-action radio
  buttons, `saveMicroFeedback` as a transition on the stored history value,
  and sessions of repeated saves.

Storage is the abstract outcome of reading one key. It is
`Absent | Malformed | Arr(records)`, and a save writes the whole value. The
record metadata (timestamp, page address, user agent) is an opaque `Meta`
parameter. The "last result" global is passed to the save explicitly as an
`Option<Snapshot>`.

Facts about `script.js` that shape the model:

- The snapshot holds `verdictLabel`, `feePercent`, `totalScore`,
  `monthlyBudget`, `monthlyFee` and `selectedItemsCount`. It holds no range
  and no label list.
- The save event is `mf_save`. It carries the sentiment, the action intent,
  the verdict label and the fee bucket.
- The script has no per-session gating of any prompt.
- A blank fee or budget field reads as the number 0, not as a non-finite
  value (`Number("")` is 0). Text that `Number` cannot parse gives NaN, and
  "Infinity" or a literal too large for a double gives an infinity.

When the floor lifts `min` above `max`, the `fee < min` test runs first. No
finite fee is then judged typical (`Quote.InvertedRangeNeverTypical`). With
the shipped configuration this happens only for a negative checklist sum
(`Quote.ShippedRangeWellFormedIff`).

## Model

| member | source | states |
|---|---|---|
| QuoteConfig.ShippedAdjustBetween | script.js:1-10 | every tier, known or not, adjusts the shipped base fee by between 0 and 4 points |
| QuoteConfig.ShippedValid | script.js:8 | the shipped range offset is non-negative |
| Checklist.Summarize | script.js:35-43 | the summary's sum equals the independent total in which only checked items with finite weights contribute, so unchecked items and non-finite weights add 0; one label is listed per checked item |
| Checklist.SumPermutationInvariant | script.js:37-40 | any permutation of the checkboxes gives the same sum |
| Checklist.SummaryItemsInDeclarationOrder | script.js:36-41 | the labels of a concatenation are the labels of each part in order, and a single box contributes its label exactly when checked: checked labels in declaration order |
| Checklist.SumNonNegative | script.js:37-40 | with no negative weight declared the sum is non-negative |
| FeeBucket.BucketOf | script.js:51-54 | the bucket is "unknown" exactly when the fee is not finite |
| FeeBucket.BucketIsClampedFifth | script.js:55-67 | a finite fee's band number is floor(fee / 5) clamped to 0..4 |
| FeeBucket.BucketBounds | script.js:55-67 | a finite fee in band i is at least 5i (for i > 0) and below 5(i+1) (for i < 4), so every band includes its lower bound |
| FeeBucket.BucketMonotone | script.js:55-67 | a larger finite fee never lands in a lower band |
| FeeBucket.NameInjective | script.js:53-67 | the six bucket strings are distinct |
| FeeBucket.BucketSamples | script.js:51-68 | 4 gives "0-5", 9.9 and 5 give "5-10", 20 gives "20+", a non-finite fee gives "unknown" |
| Quote.LabelInjective | script.js:72-80 | the three verdict labels are distinct, so a stored label identifies its verdict |
| Quote.Classify | script.js:70-81 | efficient iff the fee is finite and below min; excessive iff it is finite, not below min and above max (so a fee equal to min is excessive when min > max); a non-finite fee is typical |
| Quote.ClassifyPartition | script.js:74-80 | on a range with min <= max: efficient iff fee < min, typical iff min <= fee <= max, excessive iff fee > max |
| Quote.ClassifyNonFiniteNeutral | script.js:71-73 | a non-finite fee is typical whatever the range |
| Quote.ClassifyMonotone | script.js:74-80 | for any range, inverted ones included, a higher fee never gets a cheaper verdict |
| Quote.InvertedRangeNeverTypical | script.js:74-78 | when min > max no finite fee is typical, and efficient means exactly fee < min |
| Quote.ComputeRange | script.js:167-170 | min is at least minFloor and at least expected - rangeOffset, and equals one of them; max lies rangeOffset above expected; expected exceeds the checklist sum by base fee plus tier adjustment |
| Quote.RangeWellFormedIff | script.js:169-170 | for a non-negative offset, min <= max iff expected >= minFloor - rangeOffset |
| Quote.ShippedRangeWellFormedIff | script.js:1-10 | with the shipped configuration, min <= max iff the checklist sum is at least -(4 + tier adjustment), so an inverted range needs a negative checklist sum |
| Quote.ShippedRangeIsSymmetric | script.js:167-170 | with the shipped configuration and a non-negative sum, min = expected - 2 and max = expected + 2 |
| Quote.UnknownDifficultyPricedAsMedium | script.js:167 | with the shipped table an unknown tier gets the same range as "Medium" |
| QuoteConfig.DifficultyAdjust | script.js:167 | a tier the table knows gets its own entry, even when that entry is 0; any other tier gets 2 |
| Quote.MonthlyFee | script.js:173-175 | the monthly fee is the budget times the fee over 100 once each non-finite figure is read as 0, so it is 0 unless both are finite |
| JsValues.OrZero | script.js:191 | a finite number is kept and a non-finite one becomes 0 |
| Quote.UpdateResult | script.js:163-204 | expected is priced from the checked finite weights; the verdict classifies the fee against the computed range; the snapshot's fee and budget are always finite (a non-finite field becomes 0); monthlyFee = monthlyBudget * feePercent / 100, hence budget * fee / 100 when both are finite and 0 otherwise; the count is the number of checked items; the persisted payload lists the checked labels |
| Quote.ShippedFormRange | script.js:166-170 | with the shipped configuration and no negative weight, any form's range is expected +/- 2 |
| Quote.MediumTierExample | script.js:167-171 | Medium with sum 5 gives 13..17 around 15, and fees 10, 15, 20 are efficient, typical, excessive |
| Quote.NonNumericFeeExample | script.js:164-175 | Low with nothing checked gives 6..10 around 8, and a non-finite fee is typical with monthly fee 0 |
| Quote.BlankFeeExample | script.js:165-175 | a blank fee field, read as 0, with Low and nothing checked is efficient, costs 0 a month and falls in band "0-5" |
| Quote.MonthlyFeeExample | script.js:172-175 | a budget of 1,000,000 at 15 percent gives a monthly fee of 150,000 |
| Feedback.ActiveSentiment | script.js:108-112 | no sentiment is read exactly when neither button is active |
| Feedback.SetSentiment | script.js:98-101 | afterwards at most one button is active, and it is the one a save reads back |
| Feedback.SelectedAction | script.js:120-121 | no intent iff no radio is checked; otherwise the value of the first checked radio |
| Feedback.ReadHistory | script.js:135-146 | a stored array is read as it is; anything else reads as the empty history |
| Feedback.Bounded | script.js:148 | the cut keeps a prefix of exactly min(length, 200) records |
| Feedback.PushFront | script.js:147-148 | the new record is at index 0, the old records follow in order, and the length is min(old + 1, 200) |
| Feedback.SaveMicroFeedback | script.js:107-160 | the status is an error iff no sentiment is active, and then storage and events are untouched; otherwise an array of 1..200 records is written with the payload first, and an event is emitted |
| Feedback.SaveKeepsHistoryOrder | script.js:135-149 | a successful save keeps the surviving old records in order behind the new one; an absent or unusable stored value counts as empty |
| Feedback.SaveWithoutSentimentIsRejected | script.js:114-118 | saving with no sentiment reports an error, leaves the stored value unchanged and emits nothing |
| Feedback.SaveEventBucketKnownIffEvaluated | script.js:154 | the saved event's fee bucket is "unknown" iff no evaluation has produced a snapshot |
| Feedback.HistoryAfterSession | script.js:135-149 | after any sequence of clicks, from any stored value, the history is the accepted records, newest first, before the old history, cut to 200; if every click was rejected the stored history is unchanged, whatever its length |
| Feedback.OldestDroppedAfterCapacityExceeded | script.js:147-148 | after 201 accepted saves from empty, 200 records remain, the newest is first and the first record is gone |
| Feedback.ThreeSavesNewestFirst | script.js:147-149 | three saves made at distinct moments m1, m2, m3 leave exactly the records of m3, m2, m1 in that order, so the latest is first |

## Left out

- Rendering: the element lookups, `renderSelectedItems`, the label colours, and the range and explanation text (script.js:14-31, 83-96, 177-187). `setSentiment`'s class toggling is reduced to two flags.
- Analytics: `track`/`gtag`, the sentiment and action selection events, and the event-listener wiring (script.js:45-49, 234-273). Only the fields of the save event are modelled.
- `localStorage` and JSON mechanics. Reading the history is reduced to `Absent`/`Malformed`/`Arr`. An array is taken to hold records; the model does not check what its elements are. Writes are whole-value overwrites. The `console.warn` logged when the stored history fails to parse (script.js:143-145) is not modelled. JSON's conversion of non-finite numbers to `null` in the persisted form payload is not modelled.
- `loadStored` (script.js:207-232): it writes saved values back into the form fields. It only restores a truthy difficulty, finite budget and fee values, and the checked state of each checkbox.
- Record metadata (script.js:128-132): timestamp, URL and user agent come from the clock and the browser. They are an opaque parameter.
- The `window.__LAST_RESULT__` global (script.js:33, 103-105): the snapshot is passed explicitly. On page load `updateResult` runs before any click handler is attached, so in the page a snapshot always exists by the time of a save.
- IEEE-754 arithmetic: numbers are reals. Rounding, overflow to Infinity and the difference between NaN and the infinities are not modelled.
- QuoteConfig.DifficultyAdjust: models the lookup as map membership. An unknown tier falls back to 2. A tier string that names a property inherited by every JS object, such as "toString", is not modelled.
- Reading the form fields (script.js:165, 172): `Number(field.value)` is not modelled. Fields enter the model as `Num`, already converted. A blank field becomes the finite 0. Text `Number` cannot parse becomes NaN, and "Infinity" or a literal too large for a double becomes an infinity; both are non-finite.
