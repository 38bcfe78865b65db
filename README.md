# Student depression predictor: decision layer

A Dafny model of the decision logic inside the student depression predictor's
single Streamlit script (`app.py`). A student fills in a form of seventeen
attributes. The script encodes the categorical answers as numbers, builds a
one-row record in the column order the classifier was trained on, and asks a
pre-trained classifier for class probabilities. It scales the positive-class
probability to a percentage score, then sorts that score into one of five risk
bands. Each band has a fixed label, style class, emoji, message and four
recommendations. If anything in the prediction step raises, the script shows an
error line and a hint, and no result at all.

The model is purely functional, like the code it models: every step is a
function, and the properties are lemmas or `ensures` clauses.

- `encoding.dfy` (module `Encoding`): the four yes/no encoders and the
  sleep-duration table with its 7.5 fallback.
- `record.dfy` (module `Record`): the raw form, the seventeen attributes of the
  training schema (`Field`), each attribute's encoded value (`FormValue`), the
  column list, the one-row data frame (`Frame`), lookup by column name, and the
  record builder.
- `risk.dfy` (module `RiskBands`): the five bands with their copy, the
  `if/elif` bucketing chain, and an independent description of the partition:
  the half-open interval of each band (`InBand`) and the count of thresholds
  reached (`Reached`).
- `prediction.dfy` (module `Prediction`): the classifier as a parameter, the
  score, the `[0][1]` indexing, the result panel, the `try/except` outcome, the
  whole submission pipeline, and the three worked examples (very high risk,
  very low risk, failing classifier).

The classifier is a total function `Frame -> Result<seq<seq<real>>>`. An
`Err` stands for any exception it raises. Scores and probabilities are Dafny
`real`s.

The bands follow the code's `if/elif` chain exactly. The top band has no upper
bound: the `else` branch takes every score of 80 or more, and the first test
takes every score below 20, negative ones included. `TopBandByProbability`
shows that for a probability in [0, 1] the top band is in effect [80, 100].

## Model

| member | source | states |
|---|---|---|
| Encoding.Flag | app.py:363-366 | each binary encoder's shape: 1 exactly when the answer equals the designated literal and 0 for every other string, so the code is always 0 or 1 |
| Encoding.EncodeGender | app.py:363 | 1 if and only if the answer is `Male`, otherwise 0 |
| Encoding.EncodeDiet | app.py:364 | 1 if and only if the answer is `Healthy`, otherwise 0 |
| Encoding.EncodeSuicidalThoughts | app.py:365 | 1 if and only if the answer is `Yes`, otherwise 0 |
| Encoding.EncodeFamilyHistory | app.py:366 | 1 if and only if the answer is `Yes`, otherwise 0 |
| Encoding.BinaryOptionsSeparated | app.py:296-366 | on the two options each radio button offers, the encoding is one to one: the first option gives 1 and the second gives 0 |
| Encoding.DecodeSleep | app.py:368-374 | a label in the table decodes to its entry; any other label decodes to the 7.5 fallback instead of failing; the result is always 4, 5.5, 7.5 or 9 |
| Encoding.SleepTableEntries | app.py:368-372 | the four table entries: 4, 5.5, 7.5 and 9 hours |
| Encoding.SleepDecodingOrdinal | app.py:346-372 | the table's keys are exactly the select box's options, and the decoded hours rise strictly with the option's position, so decoding is one to one and keeps the order |
| Encoding.SleepFallbackIsDefaultOption | app.py:346-374 | an unrecognised label decodes to the same 7.5 as the select box's default option (index 2) |
| Record.IndexOf | app.py:385-389 | finding a column by name in the frame: None exactly when the name is absent; otherwise the position of its first occurrence |
| Record.Lookup | app.py:385-389 | data-frame column access: a cell is found only under a name in the column list, and in a frame with one value per column every listed name finds a cell |
| Record.LookupAtPosition | app.py:385-389 | in a frame with distinct column names, the cell at position i is the one found under column i's name |
| Record.ColumnsDistinct | app.py:379-383 | the column list has 17 entries and no name occurs twice |
| Record.BuildRecord | app.py:379-389 | the record has the fixed column list and exactly 17 values, one per column |
| Record.Position | app.py:379-383 | every attribute of the schema has a position within the column list whose name is that attribute's header |
| Record.RecordLookupByName | app.py:379-389 | the column list and the value list line up: looking any attribute up by its header gives exactly the encoded value the form supplies for it |
| Record.RecordFollowsSchema | app.py:379-389 | position by position, the cell at an attribute's position is that attribute's value; position 10 holds the sleep hours and position 13 the suicidal-thoughts flag |
| Record.PositionsCoverColumns | app.py:379-383 | every position of the column list belongs to some attribute, so the record has no cell outside the schema |
| Record.RecordEncodedCells | app.py:363-388 | whatever the answers, the four flag cells are 0 or 1 and the sleep cell is one of the four table values |
| RiskBands.Band.Rank | app.py:401-455 | the bands are ordered 0 to 4, from Very Low (0) to Very High (4) |
| RiskBands.Band.Recommendations | app.py:406-455 | every band has exactly four recommendations, and no two of them are the same |
| RiskBands.Bucket | app.py:401-455 | the chosen band's half-open interval contains the score |
| RiskBands.BucketExact | app.py:401-455 | bucketing is total and exclusive: a score gets band b if and only if it lies in b's interval (below 20; [20,40); [40,60); [60,80); 80 and above) |
| RiskBands.BucketCountsThresholds | app.py:401-455 | the band's rank equals the number of thresholds 20, 40, 60, 80 that the score is at least, so a score equal to a boundary goes to the higher band |
| RiskBands.ReachedMonotone | app.py:401-445 | a higher score reaches at least as many thresholds |
| RiskBands.BucketMonotone | app.py:401-455 | bucketing is monotone: if s <= t then the rank of s's band is at most the rank of t's band |
| RiskBands.BucketBoundaries | app.py:401-455 | each boundary value (20, 40, 60, 80) goes to the band above it, a value just under a boundary stays below it, 0 is Very Low and 100 is Very High |
| RiskBands.BandCopyDistinct | app.py:401-455 | the fixed copy of each band (`Band.Label`, `Band.CssClass`, `Band.Emoji`, `Band.Message`, set at app.py:402-449): no two bands share a rank, label, style class, emoji or message |
| Prediction.Score | app.py:398 | a probability in [0,1] gives a score in [0,100], and the score divided by 100 is the probability |
| Prediction.PositiveProbability | app.py:397-398 | entry [0][1] of the probability matrix, or an error exactly when row 0 or its second entry is missing |
| Prediction.Assess | app.py:401-455 | the result panel carries the score, a band whose interval contains the score, and that band's label, class, emoji, message and four recommendations |
| Prediction.Predict | app.py:396-493 | a result panel appears if and only if the classifier succeeds and returns a row 0 with a second entry; the panel is then exactly `Assess` of that entry times 100: the score, the band whose interval holds it, and that band's label, class, emoji, message and four recommendations; a classifier error gives only the prefixed error line and the hint, and every failure starts with the prefix and carries the hint |
| Prediction.Submit | app.py:363-493 | for a submitted form, the same outcome as `Predict` on the built record: a panel exactly when the classifier accepts that record and returns a row 0 with a second entry, equal to `Assess` of its score; the classifier's error text behind the prefix, with the hint, otherwise |
| Prediction.TopBandByProbability | app.py:398-455 | for a probability in [0,1], the score lies in [0,100] and the band is Very High exactly when the probability is at least 0.8 |
| Prediction.BandMonotoneInProbability | app.py:398-455 | a higher positive-class probability never gives a lower band |
| Prediction.HighRiskScenario | app.py:363-455 | a form with academic pressure 5, sleep "Less than 5 hours", financial stress 5 and Yes to both yes/no questions gives record cells 5.0, 4, 5, 1 and 1; with a classifier returning 0.85 it gives "Very High Risk" at 85 |
| Prediction.LowRiskScenario | app.py:396-455 | with a classifier returning 0.15, any form gives "Very Low Risk" at 15 with four recommendations |
| Prediction.FailingClassifierScenario | app.py:396-493 | with a classifier that raises, any form gives only the error line built from the exception's text and the hint |

## Left out

- Streamlit rendering, namely the CSS, sidebar, header, instruction card, form widgets, spinner and the HTML of the result, recommendations and resources (app.py:18-202, 214-358, 458-489). This is presentation. The loop at app.py:474-479 only renders the recommendation list.
- The widgets' min/max/step bounds (app.py:295-357). The UI library enforces them, not this code. So `StudentForm` accepts any numbers, and `BuildRecord` requires nothing of them.
- Loading the banner image and its bare `except` (app.py:260-266). This is file I/O and only decorative.
- `joblib.load`, the cached model instance and the model itself (app.py:205-209). The classifier is a parameter of `Predict` and `Submit`.
- A failure to load the model file. The load at app.py:209 runs outside the `try`, so a missing or corrupt file stops the script before the form is shown; it is not an `Err` of the classifier.
- Floating point. Scores and probabilities are exact reals. So a NaN probability, which would fail every `<` test and land in Very High Risk, is not modelled. IEEE rounding of `p1 * 100` is not modelled either.
- The `:.1f` formatting of the score (app.py:462). The model keeps the score as a number.
- Pandas' dtype inference. The table's 4 and 9 are Python integers while 5.5 and 7.5 are floats. The model stores all four as `real`.
- Exceptions raised by the rendering calls inside the same `try` (app.py:458-489). Only failures of the classifier call and of the `[0][1]` indexing reach the error outcome.
- The data-frame constructor's length check (app.py:385-389). It sits outside the `try`, and with two fixed 17-entry lists it cannot fail (`BuildRecord` proves the lengths equal).
- Prediction.PositiveProbability: the error text of the IndexError is a fixed placeholder (`IndexErrorText`), not numpy's exact message.
