# Quiz recommendation analytics, modelled in Dafny

The repository turns a student's current quiz, their submission and their quiz
history into insights and recommendations. It does this twice.

- `rec.py` is the console pipeline. It inner-joins the quiz's questions with the
  submission and flags each row correct or not. It walks every response of every
  past attempt, accumulating `{correct, total, time_spent}` counters per topic and
  per difficulty. From these it derives the current score, the weak areas (topics
  of incorrect answers ranked by frequency), the per-level accuracy and a trend
  label from a least-squares fit of score against days-ago. Finally it builds an
  ordered list of recommendations: a regression message, reviews of weak areas,
  practice on the lowest-accuracy topics, drops per difficulty level, and one
  closing trend remark.
- `app.py` is the dashboard pipeline. It turns the current quiz and the history
  into frames and degrades to an empty frame on missing data. It then emits up to
  four insight messages and up to three recommendation messages, driven by
  counts, means and fixed thresholds.

The project has five modules:

- `Wrappers` (`wrappers.dfy`): `Option` for JSON keys that may be absent and
  `Result` for the exceptions the console pipeline raises.
- `Ranking` (`ranking.dfy`): pandas' `value_counts().index`, i.e. each distinct
  value once, most frequent first, plus the `[:3]` cut.
- `Stats` (`stats.dfy`): sums and means over exact reals, and the least-squares
  slope with the lemmas that fix its sign. It also holds the telescoping of
  consecutive differences behind `diff().mean()`.
- `Rec` (`rec.dfy`): `rec.py`. The nested loop of `analyze_historical_data` and
  the appends of `create_recommendations` are methods with loop invariants. Each
  is proved against a specification function: `Tally`/`Summary` and `Planned`.
- `App` (`app.dfy`): `app.py`. `process_historical_quizzes`, `generate_insights`
  and `generate_recommendations` are methods. Frame processing and message
  selection are functions.

JSON records are datatypes. A key absent from a record is `None`, and a pandas
column exists exactly when some record has that key. A Python dict that the code
iterates (`responseMap`) is a sequence in insertion order. The `defaultdict`
counters are `map<string, Counter>`. Messages are constructors of a datatype, not
formatted strings.

The code also fails in these cases, and the model fails with it:

- `analyze_current_quiz` also fails when either list is empty. A frame built from
  an empty list has no `id`/`questionId` column, so the merge raises `KeyError`.
  This is `MissingJoinColumn`.
- `analyze_historical_data` fails on a missing `date`/`score` key only when no
  attempt has the key, because one attempt with the key creates the column.
- The fit in `generate_insights` rejects any attempt that lacks its date or
  score, and rejects an empty history (`UnfittableHistory`).
- When the quiz's questions also carry `timeSpent`, the merge renames the
  column on both sides, so reading `timeSpent` afterwards raises `KeyError`
  (`AmbiguousTimeColumn`).

## Model

| member | source | states |
|---|---|---|
| Ranking.Count | rec.py:78 | the number of occurrences is at most the length and is positive exactly for members |
| Ranking.Distinct | rec.py:78 | the result holds no duplicates and has exactly the members of the input |
| Ranking.InsertByCount | rec.py:78 | insertion adds exactly one element, keeps the membership of the old list plus the new element, and keeps a duplicate-free list duplicate-free |
| Ranking.InsertByCountOrdered | rec.py:78 | inserting into a list in non-increasing count order keeps it in that order |
| Ranking.SortByCount | rec.py:78 | the sort permutes membership, keeps length and distinctness, and yields non-increasing counts |
| Ranking.RankByFrequency | rec.py:78 | `value_counts().index`: every distinct value exactly once, in non-increasing order of occurrence |
| Ranking.Take | rec.py:110 | `s[:n]`: a prefix of length min(n, \|s\|) |
| Ranking.TakeKeepsTop | app.py:63-64 | the first n of a distinct list ranked by count stay distinct and ranked, and no value left out occurs more often than any value kept |
| Stats.MeanWithin | app.py:70 | the mean of values all in [lo, hi] lies in [lo, hi] |
| Stats.SumWithin | app.py:70 | the sum of n values in [lo, hi] lies in [n·lo, n·hi] |
| Stats.PairSumNonNegative | rec.py:84 | a pairwise cross sum whose every term is non-negative is non-negative |
| Stats.PairSumPositive | rec.py:84 | with one strictly positive pair term, the pairwise cross sum is strictly positive |
| Stats.PairSumConcordant | rec.py:84 | concordant data with some spread in x has a positive cross sum (so the spread Σ(xᵢ−xⱼ)² of non-constant x is positive) |
| Stats.PairSumNegated | rec.py:84 | negating every y negates the cross sum |
| Stats.Slope | rec.py:84 | `coef_[0]` of the fit: for non-constant x the spread is positive and the slope solves the normal equation slope · Σᵢⱼ(xᵢ−xⱼ)² = Σᵢⱼ(xᵢ−xⱼ)(yᵢ−yⱼ) |
| Stats.SpreadPositive | rec.py:84 | non-constant x has a strictly positive spread Σᵢⱼ(xᵢ−xⱼ)² |
| Stats.SlopeOfConcordant | rec.py:84 | when larger x always carry larger y and x is not constant, the least-squares slope is positive |
| Stats.SlopeOfDiscordant | rec.py:84 | when larger x always carry smaller y and x is not constant, the least-squares slope is negative |
| Stats.Differences | app.py:73 | `diff()` after its leading NaN: one value fewer than the input, the i-th being s[i+1] − s[i] |
| Stats.DifferencesTelescope | app.py:73 | the consecutive differences sum to last minus first |
| Stats.MeanDifferenceSign | app.py:73-74 | for two or more scores, the mean difference is positive exactly when the last score exceeds the first |
| Rec.RowsFor | rec.py:29 | one row per submission entry answering the question, each pairing that question with that entry, and every such entry yields a row |
| Rec.Join | rec.py:29-30 | the merged rows number the sum over questions of their matching entries; every row pairs a question and an entry with equal ids, `correct` iff the options agree, and every matching pair yields a row |
| Rec.AnalyzeCurrentQuiz | rec.py:20-33 | fails exactly when 'questions' or 'submission' is absent (KeyError), when either list is empty (no join column), or when the questions also carry 'timeSpent' (the merge suffixes both columns, so the lookup raises); otherwise returns the join |
| Rec.CorrectCount | rec.py:77 | at most the row count; equals it iff all rows are correct; zero iff none is |
| Rec.CurrentScore | rec.py:77 | NaN (None) exactly for no rows; otherwise in [0, 100], 100 iff every row is correct and 0 iff none is |
| Rec.IncorrectTopics | rec.py:78 | one topic per incorrect row, and a topic appears iff some row of that topic is incorrect |
| Rec.WeakAreas | rec.py:78 | `value_counts().index` of the incorrect rows' topics: each topic having an incorrect row exactly once (as many entries as distinct weak topics), in non-increasing order of incorrect-row count |
| Rec.FirstMatch | rec.py:54 | `next(...)`: None iff no question has the id, otherwise the first question with that id |
| Rec.HitsFor | rec.py:54-55 | a response contributes at most one hit |
| Rec.ResponseHits | rec.py:53-59 | the hits of an attempt number exactly the responses that resolve to a question |
| Rec.HitsCount | rec.py:52-55 | across all attempts, the hits number exactly the resolved responses |
| Rec.Credit | rec.py:61-67 | crediting a key adds that key, raises its correct count by one exactly for a correct hit, its total by one and its time by the hit's time, and leaves every other counter unchanged |
| Rec.Tally | rec.py:49-67 | every counter built by the loop has total ≥ 1 and correct ≤ total |
| Rec.TallyKeys | rec.py:49-67 | the counters have a key exactly for the topics (difficulties) some hit carries |
| Rec.TallyValues | rec.py:61-67 | each key's counter holds the number of hits with that key, how many of them are correct, and their summed time |
| Rec.TallyConserves | rec.py:61-67 | summed over all keys, each counter field equals the sum of what the hits brought, whichever axis keys them |
| Rec.CountersConserve | rec.py:52-67 | topic and difficulty counters agree in every summed field, and the summed topic totals equal the number of resolved responses |
| Rec.Accuracy | rec.py:69-70 | `correct / total` per key: same keys as the counters, every accuracy in [0, 1] |
| Rec.PresentScores | rec.py:46 | the scores `mean()` averages; empty exactly when no attempt has a score |
| Rec.AnalyzeHistoricalData | rec.py:36-72 | fails iff 'quizzes' is absent (MissingQuizzes) or no attempt has a date or a score (MissingDateOrScore); otherwise the mean score and the accuracies of the counters tallied over all resolved responses |
| Rec.TimeOrZero | rec.py:59 | `question.get('timeSpent', 0)`: the question's time when present, 0 when the key is absent |
| Rec.CreditResponses | rec.py:53-67 | the inner loop leaves the counters equal to the tally of the earlier hits followed by this attempt's hits |
| Rec.TrendAsWritten | rec.py:84-85 | the label as written: "improving" iff the slope of score against days-ago is positive |
| Rec.AsWrittenTrendInverted | rec.py:81-85 | as written, scores that rise strictly over time (fall with days-ago) are labelled "declining" |
| Rec.AsWrittenTrendExample | rec.py:81-85 | as written, scores 60, 70, 80 taken 10, 5 and 1 days ago are labelled "declining" |
| Rec.TrendFollowsScores | rec.py:81-85 | the corrected label is "improving" for scores rising strictly over time and "declining" for scores falling strictly |
| Rec.TrendAsWrittenLabels | rec.py:81-85 | as written, non-constant days-ago with scores always falling as days-ago grows give "declining", and scores always rising with days-ago give "improving" |
| Rec.RowHitsAmounts | rec.py:88 | the per-difficulty hit count and correct count of the current rows are the number of rows at that difficulty and how many of them are correct |
| Rec.CurrentDifficultyPerformance | rec.py:88 | `groupby('difficulty')['correct'].mean()`: a key for exactly the difficulties of the current rows, each mapped to the fraction of that difficulty's rows answered correctly |
| Rec.GenerateInsights | rec.py:75-100 | fails iff the history cannot be fitted; otherwise the current score `CurrentScore(rows)` (so in [0, 100], 100 iff all rows are correct, 0 iff none), the average scaled by 100, the ranked weak areas, the historical accuracies passed through, the per-difficulty fraction correct, and the trend label as written, `TrendAsWritten` of days-ago and scores ("declining" when scores fall as days-ago grows, "improving" when they rise) |
| Rec.Reviews | rec.py:110-111 | one review per topic, in order |
| Rec.Drops | rec.py:118-125 | at most as many messages as levels, and a drop message exactly for the levels present in both maps with current below historical |
| Rec.DropsInOrder | rec.py:122-125 | each drop message names a level, and the messages follow the order of the levels (easy, medium, hard) |
| Rec.DropsDistinct | rec.py:122-125 | distinct levels give distinct drop messages, so each level has at most one |
| Rec.LeastAccuracyExists | rec.py:113 | a non-empty set of topics has one of least accuracy |
| Rec.SelectionDone | rec.py:113 | once three topics are taken or none remains, the practice block is the min(3, n) lowest-accuracy topics in ascending order |
| Rec.LowAccuracyTopics | rec.py:113-115 | `sorted(..., key=accuracy)[:3]`: min(3, n) distinct topics with their accuracies, ascending, none above any topic left out |
| Rec.AppendReviews | rec.py:110-111 | appends one review per topic, in order |
| Rec.AppendAll | rec.py:114-115 | appends the practice messages in order |
| Rec.AppendDrops | rec.py:122-125 | appends the drop messages for easy, medium and hard in that order |
| Rec.CreateRecommendations | rec.py:103-131 | the list is the regression message (if any), the reviews of up to three weak areas, the practice block, the drops, then the trend remark |
| Rec.PracticeBlock | rec.py:113-115 | the practice block holds at most three practice messages |
| Rec.RecommendationShape | rec.py:103-131 | a planned list has 1 to 11 entries, opens with the regression message iff the current score is below the average, never goes back to an earlier category, and ends with the trend remark |
| App.SameAnswer | app.py:29 | element-wise `==` of two columns: true iff both values are present and equal |
| App.ProcessCurrentQuiz | app.py:22-35 | empty iff 'questions' is absent or empty or a compared column is missing; otherwise one row per question, in order, `correct` iff both answers are present and equal |
| App.CountOnes | app.py:49 | between 0 and the map size; 0 iff no value is 1; the size iff every value is 1 |
| App.RowOf | app.py:45-50 | a quiz's row counts no more correct answers than its response map holds |
| App.ProcessHistoricalQuizzes | app.py:38-57 | empty when 'quizzes' is absent or any quiz lacks a key; otherwise one row per quiz, in order |
| App.CorrectCount | app.py:66 | at most the row count; equals it iff every row is correct; zero iff none is |
| App.AccuracyPercent | app.py:66 | the current accuracy lies in [0, 100]; it is 100 iff every row is correct and 0 iff none is |
| App.IncorrectTopics | app.py:63 | one topic per incorrect row, and a topic is listed iff some row of that topic is incorrect |
| App.FocusTopics | app.py:63-64 | `[:3]` of the ranked weak topics: min(3, number of distinct weak topics) topics, distinct, each with an incorrect row, in non-increasing order of incorrect-row count, none occurring less often than a weak topic left out |
| App.HistScores | app.py:70 | the score column, row by row |
| App.DashTrend | app.py:73-74 | with one score the label is "declining" (NaN mean); with two or more it is "improving" iff the last score exceeds the first |
| App.GenerateInsights | app.py:60-77 | 0, 2 or 4 messages: weak areas and accuracy for a non-empty quiz, then average and direction for a non-empty history |
| App.InsightsMeaning | app.py:60-77 | at most three weak topics, an accuracy in [0, 100], an average between the lowest and highest score, and a direction that follows the first and last scores |
| App.DifficultyAdvice | app.py:86-90 | "harder" iff the mean difficulty is below 2, "easier" iff above 4, at most one of them |
| App.TimeAdvice | app.py:92-93 | the time-management message iff the mean time exceeds 90 seconds |
| App.AddThresholdAdvice | app.py:86-93 | appends the difficulty advice and then the time advice |
| App.GenerateRecommendations | app.py:80-95 | nothing for an empty quiz; otherwise the focus message, then the threshold advice |
| App.AdviceThresholds | app.py:80-95 | empty iff the quiz is empty; otherwise 1 to 3 messages, focus first naming at most three topics, "harder" iff below 2, "easier" iff above 4, never both, time management iff above 90 and then last |

## Left out

- `fetch_data` in both files: HTTP requests and JSON decoding. The payloads are parameters.
- Both `main` functions, console printing, Streamlit widgets and the matplotlib chart: presentation only.
- `pd.to_timedelta(...).dt.total_seconds()`: duration parsing is library code, so a submission entry carries its time in seconds.
- `datetime.now()` and `pd.to_datetime`: the clock is the day-number parameter `today`, and dates are day numbers.
- Float formatting (`:.2%`, `:.2f`) and message wording: messages are datatype constructors.
- Tie order: the order pandas' `value_counts` and Python's `sorted` give equal counts or accuracies is not modelled. Equal-count values keep first-occurrence order here, and the practice selection picks any one of several equally low topics.
- Payload shapes other than the typed records: a non-dict payload or a `responseMap` that is not a dict would raise in Python and cannot be expressed here. A historical question without `topic`, `difficulty` or `id` raises `KeyError` at rec.py:54-57 and cannot be expressed either.
- Rec.Question: `topic` and `difficulty` are required on current-quiz questions. In the code, a current question lacking one of them while others carry it gets NaN there, and `value_counts` (rec.py:78) and `groupby` (rec.py:88) silently drop that row's key. When no question carries the key, rec.py:78 or rec.py:88 raises `KeyError`. Neither case is modelled.
- App.QuizItem: `topic`, `difficulty` and `time_taken` are required on every dashboard item. In the code, when every item lacks one of them, app.py:63, app.py:86 or app.py:92 raises an uncaught `KeyError` (those lines are outside the `try` of `process_current_quiz`), so the page fails rather than degrading. When only some items lack it, `value_counts` drops the missing topics (app.py:63) and `mean()` skips the missing values (app.py:86, app.py:92), changing the inputs of the thresholds without raising. Neither behaviour is modelled.
- A duplicate key in a `responseMap`: a Python dict keeps only one, while the sequence here keeps both.
- A submission whose entries lack `timeSpent` cannot be expressed: the entry field `Rec.SubmissionEntry.timeSpent` is required. In the code such a submission succeeds when the questions carry `timeSpent` (the merged column is then unsuffixed) and raises `KeyError` at rec.py:31 when they do not.
- Missing values inside a present column of the current quiz or submission (NaN in `correctOptionId`, `selectedOptionId` or `time_spent`): every such field is required.
- Rec.GenerateInsights: the contract characterises the trend only for scores that move monotonically with days-ago. For other data the label is still computed from the sign of `Stats.Slope`, but no property of it is stated. The label is the one the code computes (see Findings); `Rec.TrendOverTime` is the corrected label.
- Stats.Slope: the least-squares coefficient is taken over exact reals, not sklearn's floating point. It is written in its pairwise closed form, Σᵢⱼ(xᵢ−xⱼ)(yᵢ−yⱼ) / Σᵢⱼ(xᵢ−xⱼ)², whose pairwise sums are each 2n times the corresponding centred sums Σ(x−x̄)(y−ȳ) and Σ(x−x̄)², so the ratio is the same. That identity is standard algebra and is not proved here.
- App.ProcessHistoricalQuizzes: `response_map` values are integers. A JSON `true`, which Python counts as equal to 1, is not modelled.
- App.ProcessCurrentQuiz: errors other than the missing-column `KeyError`, caught by the generic handler, do not arise on the typed records.
- The time-spent counters are accumulated and conserved (`Rec.TallyConserves`), as the source accumulates them, but the source never reads them afterwards.

## Findings

| source | as written | input that shows it | evidently intended | confidence | as-written member | corrected member |
|---|---|---|---|---|---|---|
| rec.py:81-85 | the label is "improving" when the slope of score against days-ago is positive | scores 60, 70, 80 taken 10, 5 and 1 days ago: the slope is negative and the label is "declining" although the scores rise | scores rising over time (a negative slope against days-ago) are "improving" | not executed | Rec.AsWrittenTrendInverted | Rec.TrendFollowsScores |
