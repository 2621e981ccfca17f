# AirIndex: the AQI prediction page, modelled in Dafny

AirIndex is a Streamlit page. It feeds four pollutant sub-index values (CO, Ozone,
NO2, PM2.5, in that column order) to a pre-trained regression model. It then shows
the predicted Air Quality Index as a whole number, together with a severity
category. Finally it streams an explanatory description word by word.

This project models the page's deterministic logic:

- `Classifier` (`classifier.dfy`) holds the category match chain. It tests six
  closed ranges, first match wins, on the model's raw prediction. When no range
  matches, the variable keeps its sentinel `0`, modelled as `NoCategory`. The
  module also has the range table (`Lower`, `UpperOf`, `InBand`), which serves as
  an independent reference: `Classify` is proved to return exactly the one
  category whose range holds the score. Further lemmas cover the boundaries, the
  gaps, disjointness, severity order, and independence from the order of the guards.
- `Display` (`display.dfy`) holds the displayed value `int(pred[0])`, which
  truncates toward zero. It also holds `Present`, the pair of values the page shows.
  The lemmas show that classification uses the untruncated score.
- `Stream` (`stream.dfy`) holds `stream_data`. `Split` models Python's
  `str.split(" ")` and `Join` its inverse, with round-trip lemmas in both
  directions. `StreamData` is the `for` loop that emits `word + " "` for each
  piece. It is proved to emit one chunk per space plus one, each chunk a
  space-free piece followed by a space, and chunks that concatenate to the
  description plus one trailing space.

The prediction is a Dafny `real`. Where the design description and the code
disagree, the model follows the code:

- In the design description, the six ranges partition [0, ∞). The code uses
  closed integer bounds on a real-valued prediction, so the scores strictly
  inside (50,51), (100,101), (150,151), (200,201) and (300,301) match no case.
  The page then shows the sentinel `0` as the category (`NoCategory`,
  `Classifier.NoCategoryExactly`).
- In the design description, a negative score is rejected with an error. The
  code has no such check: a negative prediction also leaves the sentinel `0`.
- The design description spells the third label "Unhealthy for Sensitive Groups".
  The code writes "Unhealthy for Sensitive groups", and `Classifier.Label` uses the code's text.

## Model

| member | source | states |
|---|---|---|
| Classifier.Classify | app.py:32-45 | the result is the one category whose range in the table holds the score; it is NoCategory (the sentinel 0) exactly when no range holds it |
| Classifier.ClassifyRanges | app.py:34-45 | for every real score, each of the six labels is returned if and only if the score lies in that label's closed range |
| Classifier.Boundaries | app.py:34-45 | 0 and 50 are Good, 51 and 100 Moderate, 101 and 150 Unhealthy for Sensitive groups, 151 and 200 Unhealthy, 201 and 300 Very Unhealthy, 301 Hazardous |
| Classifier.BandsDisjoint | app.py:33-45 | no score lies in two ranges, so at most one guard of the chain can hold |
| Classifier.NoCategoryExactly | app.py:32-45 | the sentinel survives if and only if the score is negative or strictly inside one of the five gaps between ranges |
| Classifier.WholeScoresLabelled | app.py:34-45 | every non-negative whole-number score receives one of the six labels |
| Classifier.SeverityMonotone | app.py:34-45 | among labelled scores, a larger score never gets a lower severity rank (Good=0 … Hazardous=5) |
| Classifier.FirstMatchAnyOrder | app.py:33-45 | a first-match chain testing the ranges in any order returns Classify's category when that category is among those tested, and the sentinel otherwise |
| Classifier.OrderIrrelevant | app.py:33-45 | the chain in the source order, and in any permutation of it, returns exactly Classify's result |
| Classifier.Label | app.py:32-49 | the page writes "0" for the sentinel set before the chain and for nothing else; each labelled category is written as the text the chain assigns it (the body holds the six texts, lower-case "groups" included), which is non-empty and starts with a capital letter |
| Classifier.LabelInjective | app.py:35-45 | the texts written for distinct categories, the sentinel 0 included, are distinct |
| Display.TruncateTowardZero | app.py:31 | the displayed value lies between 0 and the prediction inclusive, and is less than 1 away from it |
| Display.TruncationUnique | app.py:31 | any integer with those two properties is the displayed value, so they determine it |
| Display.DisplayIsFloor | app.py:31 | for a non-negative prediction the displayed value is its floor |
| Display.NegativeIsNotFloor | app.py:31 | for negative predictions truncation and floor differ: -0.5 displays 0 while its floor is -1 |
| Display.Present | app.py:31-45 | the page shows the truncated prediction and the category whose range holds the raw prediction |
| Display.PresentExamples | app.py:31-45 | a prediction of 42.9 shows 42 and Good; 75.0 shows 75 and Moderate |
| Display.RawScoreClassified | app.py:31-45 | 50.5 shows 50 with no category, although 50 itself would be Good; 50.0 shows 50 and Good |
| Display.RawAgreesWithDisplayedOutsideGaps | app.py:31-45 | for a non-negative prediction the displayed integer always has a label; the raw score has the same label unless it lies in a gap, where it has none |
| Stream.Split | app.py:70 | splitting always yields at least one piece |
| Stream.SplitSpaceFree | app.py:70 | no piece of the split contains a space |
| Stream.SplitCount | app.py:70 | the number of pieces is the number of spaces plus one |
| Stream.JoinSplit | app.py:70 | joining the pieces with single spaces gives back the description |
| Stream.SplitJoin | app.py:70 | splitting a space-joined list of space-free words gives back the words |
| Stream.ConcatChunksOfSplit | app.py:69-72 | every piece followed by a space, concatenated in order, is the description plus one trailing space |
| Stream.StreamData | app.py:69-72 | the loop emits one chunk per space plus one; chunk k is piece k of the split followed by a space, and that piece has no space; the chunks concatenate to the description plus a trailing space |

## Left out

- Loading `model.pkl` and calling `model.predict` (app.py:9-10, 26) are foreign code. The prediction is an arbitrary real input to `Display.Present`.
- Floating point: the prediction is a `real`, so there are no NaN, infinities or rounding. A NaN or infinite prediction makes `int(pred[0])` (app.py:31) raise before the category chain runs; this error path is not modelled.
- Streamlit widgets, columns and `st.write`/`st.write_stream` (app.py:12-23, 29-31, 47-50, 74) are UI plumbing. The `min_value=0` input bounds are enforced by the widget library, and the model does not rely on them.
- The pandas DataFrame construction (app.py:24) is a library call. Its only content is the feature order CO, Ozone, NO2, PM2.5.
- Timing (`time.time`, the elapsed difference, its `:.5f` formatting, `time.sleep(0.005)`; app.py:25-28, 50, 72) depends on the wall clock and float formatting.
- The literal description text (app.py:53-67): `Stream.StreamData` takes any string.
- `Stream.StreamData` collects the chunks into a sequence. It does not model the generator's laziness or the delay between yields.
- Input validation with an invalid-input error, and the login/predict/describe/logout session state machine, do not appear in the code. There is nothing of either to model.
