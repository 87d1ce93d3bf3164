/** The dashboard pipeline: turns the current quiz and the quiz history into
    frames, degrading to an empty frame on missing data, and derives insight and
    recommendation messages from counts, means and fixed thresholds. */
module App {
  import opened Wrappers
  import opened Ranking
  import opened Stats

  // ---------------------------------------------------------------------------
  // Current quiz.
  // ---------------------------------------------------------------------------

  /** A question of the current quiz; an absent answer field is `None`. */
  datatype QuizItem = QuizItem(
    topic: string,
    difficulty: int,
    timeTaken: int,
    correctAnswer: Option<string>,
    selectedOption: Option<string>)

  datatype CurrentPayload = CurrentPayload(questions: Option<seq<QuizItem>>)

  /** A row of the current-quiz frame, with its `correct` column. */
  datatype QuizRow = QuizRow(item: QuizItem, correct: bool)

  /** Whether the frame has a 'correct_answer' / 'selected_option' column. */
  predicate AnyCorrectAnswer(items: seq<QuizItem>)
  {
    exists i :: 0 <= i < |items| && items[i].correctAnswer.Some?
  }

  predicate AnySelectedOption(items: seq<QuizItem>)
  {
    exists i :: 0 <= i < |items| && items[i].selectedOption.Some?
  }

  /** Element-wise `==` of two columns: a missing value equals nothing. */
  function SameAnswer(a: Option<string>, b: Option<string>): (r: bool)
    ensures r <==> a.Some? && b.Some? && a.value == b.value
  {
    match (a, b)
    case (Some(x), Some(y)) => x == y
    case _ => false
  }

  /** `process_current_quiz`: empty when 'questions' is absent or empty, or when a
      column the comparison needs is missing (the KeyError is caught); otherwise
      one row per question, in order. */
  function ProcessCurrentQuiz(data: CurrentPayload): (rows: seq<QuizRow>)
    ensures rows == [] <==>
      || data.questions.None? || data.questions.value == []
      || !AnyCorrectAnswer(data.questions.value) || !AnySelectedOption(data.questions.value)
    ensures rows != [] ==> var items := data.questions.value;
      && |rows| == |items|
      && forall i :: 0 <= i < |rows| ==>
           && rows[i].item == items[i]
           && (rows[i].correct <==>
                 items[i].correctAnswer.Some? && items[i].selectedOption.Some?
                 && items[i].correctAnswer.value == items[i].selectedOption.value)
  {
    if data.questions.None? || data.questions.value == [] then []
    else
      var items := data.questions.value;
      if !AnyCorrectAnswer(items) || !AnySelectedOption(items) then []
      else seq(|items|, i requires 0 <= i < |items| =>
                 QuizRow(items[i], SameAnswer(items[i].correctAnswer, items[i].selectedOption)))
  }

  // ---------------------------------------------------------------------------
  // Quiz history.
  // ---------------------------------------------------------------------------

  /** One item of a quiz's `response_map`. */
  datatype MapEntry = MapEntry(questionId: string, value: int)

  /** A past quiz; keys absent from the record are `None`. */
  datatype HistQuiz = HistQuiz(
    quizId: Option<string>,
    score: Option<real>,
    totalQuestions: Option<int>,
    responseMap: Option<seq<MapEntry>>)

  datatype HistPayload = HistPayload(quizzes: Option<seq<HistQuiz>>)

  /** A row of the history frame. */
  datatype HistRow = HistRow(quizId: string, score: real, totalQuestions: int, correctAnswers: nat)

  /** Number of `response_map` values equal to 1. */
  function CountOnes(entries: seq<MapEntry>): (n: nat)
    ensures n <= |entries|
    ensures n == 0 <==> forall i :: 0 <= i < |entries| ==> entries[i].value != 1
    ensures n == |entries| <==> forall i :: 0 <= i < |entries| ==> entries[i].value == 1
  {
    if entries == [] then 0
    else
      var rest := CountOnes(entries[1..]);
      assert forall i :: 1 <= i < |entries| ==> entries[i] == entries[1..][i - 1];
      (if entries[0].value == 1 then 1 else 0) + rest
  }

  /** The quiz has every key its row reads. */
  predicate Complete(q: HistQuiz)
  {
    q.quizId.Some? && q.score.Some? && q.totalQuestions.Some? && q.responseMap.Some?
  }

  function RowOf(q: HistQuiz): (row: HistRow)
    requires Complete(q)
    ensures row.correctAnswers <= |q.responseMap.value|
  {
    HistRow(q.quizId.value, q.score.value, q.totalQuestions.value, CountOnes(q.responseMap.value))
  }

  /** `process_historical_quizzes`: empty when 'quizzes' is absent, and empty as a
      whole when any quiz lacks a key (the KeyError is caught); otherwise one row
      per quiz, in order. */
  method ProcessHistoricalQuizzes(data: HistPayload) returns (rows: seq<HistRow>)
    ensures data.quizzes.None? ==> rows == []
    ensures data.quizzes.Some? ==> var quizzes := data.quizzes.value;
      && ((exists i :: 0 <= i < |quizzes| && !Complete(quizzes[i])) ==> rows == [])
      && ((forall i :: 0 <= i < |quizzes| ==> Complete(quizzes[i])) ==>
            |rows| == |quizzes| && forall i :: 0 <= i < |rows| ==> rows[i] == RowOf(quizzes[i]))
  {
    if data.quizzes.None? {
      return [];
    }
    var quizzes := data.quizzes.value;
    var historical: seq<HistRow> := [];
    var i := 0;
    while i < |quizzes|
      invariant 0 <= i <= |quizzes|
      invariant forall k :: 0 <= k < i ==> Complete(quizzes[k])
      invariant |historical| == i
      invariant forall k :: 0 <= k < i ==> historical[k] == RowOf(quizzes[k])
    {
      var quiz := quizzes[i];
      if !Complete(quiz) {
        return [];
      }
      historical := historical + [RowOf(quiz)];
      i := i + 1;
    }
    return historical;
  }

  // ---------------------------------------------------------------------------
  // Insights.
  // ---------------------------------------------------------------------------

  function CorrectCount(rows: seq<QuizRow>): (n: nat)
    ensures n <= |rows|
    ensures n == |rows| <==> forall i :: 0 <= i < |rows| ==> rows[i].correct
    ensures n == 0 <==> forall i :: 0 <= i < |rows| ==> !rows[i].correct
  {
    if rows == [] then 0
    else
      var rest := CorrectCount(rows[1..]);
      assert forall i :: 1 <= i < |rows| ==> rows[i] == rows[1..][i - 1];
      (if rows[0].correct then 1 else 0) + rest
  }

  /** `correct.mean() * 100` of a non-empty frame. */
  function AccuracyPercent(rows: seq<QuizRow>): (p: real)
    requires rows != []
    ensures 0.0 <= p <= 100.0
    ensures p == 100.0 <==> forall i :: 0 <= i < |rows| ==> rows[i].correct
    ensures p == 0.0 <==> forall i :: 0 <= i < |rows| ==> !rows[i].correct
  {
    var c, n := CorrectCount(rows) as real, |rows| as real;
    ScaledRatio(c, n);
    100.0 * (c / n)
  }

  /** Some row answering a question of topic `t` is incorrect. */
  ghost predicate HasIncorrect(rows: seq<QuizRow>, t: string)
  {
    exists i :: 0 <= i < |rows| && !rows[i].correct && rows[i].item.topic == t
  }

  lemma HasIncorrectFirst(rows: seq<QuizRow>, t: string)
    requires rows != []
    ensures HasIncorrect(rows, t) <==>
      (!rows[0].correct && rows[0].item.topic == t) || HasIncorrect(rows[1..], t)
  {
    if HasIncorrect(rows, t) {
      var i :| 0 <= i < |rows| && !rows[i].correct && rows[i].item.topic == t;
      if i > 0 {
        assert rows[1..][i - 1] == rows[i];
      }
    }
    if HasIncorrect(rows[1..], t) {
      var i :| 0 <= i < |rows[1..]| && !rows[1..][i].correct && rows[1..][i].item.topic == t;
      assert rows[i + 1] == rows[1..][i];
    }
  }

  /** Topics of the incorrectly answered questions, one per row. */
  function IncorrectTopics(rows: seq<QuizRow>): (ts: seq<string>)
    ensures |ts| == |rows| - CorrectCount(rows)
    ensures forall t :: t in ts <==> HasIncorrect(rows, t)
  {
    if rows == [] then []
    else
      var rest := IncorrectTopics(rows[1..]);
      assert forall t :: HasIncorrect(rows, t) <==>
        (!rows[0].correct && rows[0].item.topic == t) || HasIncorrect(rows[1..], t)
      by {
        forall t {
          HasIncorrectFirst(rows, t);
        }
      }
      if rows[0].correct then rest else [rows[0].item.topic] + rest
  }

  /** `value_counts().index` of the incorrect rows' topics, cut to three: the
      min(3, n) most frequent of the n distinct topics, each once, and none left
      out that is more frequent than one kept. */
  function FocusTopics(rows: seq<QuizRow>): (ts: seq<string>)
    ensures var n := |Distinct(IncorrectTopics(rows))|;
      |ts| == if n < 3 then n else 3
    ensures NoDuplicates(ts)
    ensures ByCountDesc(ts, IncorrectTopics(rows))
    ensures forall t :: t in ts ==> HasIncorrect(rows, t)
    ensures forall i, t :: 0 <= i < |ts| && t in IncorrectTopics(rows) && t !in ts ==>
              Count(IncorrectTopics(rows), ts[i]) >= Count(IncorrectTopics(rows), t)
  {
    var ranked := RankByFrequency(IncorrectTopics(rows));
    TakeKeepsTop(ranked, IncorrectTopics(rows), 3);
    Take(ranked, 3)
  }

  function HistScores(rows: seq<HistRow>): (s: seq<real>)
    ensures |s| == |rows|
    ensures forall i :: 0 <= i < |rows| ==> s[i] == rows[i].score
  {
    seq(|rows|, i requires 0 <= i < |rows| => rows[i].score)
  }

  /** `"improving" if score.diff().mean() > 0 else "declining"`. With one score the
      mean of no differences is NaN, which is not positive. */
  function DashTrend(scores: seq<real>): (t: Trend)
    requires scores != []
    ensures |scores| == 1 ==> t == Declining
    ensures |scores| >= 2 ==> (t == Improving <==> scores[|scores| - 1] > scores[0])
  {
    if |scores| < 2 then Declining
    else
      MeanDifferenceSign(scores);
      if Mean(Differences(scores)) > 0.0 then Improving else Declining
  }

  /** One insight message, by the rule that produced it. */
  datatype DashInsight =
    | WeakAreas(topics: seq<string>)
    | CurrentAccuracy(percent: real)
    | AverageScore(score: real)
    | Direction(trend: Trend)

  /** `generate_insights`: two messages about a non-empty current quiz, then two
      about a non-empty history. */
  method GenerateInsights(current: seq<QuizRow>, history: seq<HistRow>) returns (insights: seq<DashInsight>)
    ensures |insights| == (if current != [] then 2 else 0) + (if history != [] then 2 else 0)
    ensures current != [] ==>
      && insights[0] == WeakAreas(FocusTopics(current))
      && insights[1] == CurrentAccuracy(AccuracyPercent(current))
    ensures history != [] ==> var scores := HistScores(history);
      && insights[|insights| - 2] == AverageScore(Mean(scores))
      && insights[|insights| - 1] == Direction(DashTrend(scores))
  {
    insights := [];
    if current != [] {
      insights := insights + [WeakAreas(FocusTopics(current))];
      insights := insights + [CurrentAccuracy(AccuracyPercent(current))];
    }
    if history != [] {
      var scores := HistScores(history);
      insights := insights + [AverageScore(Mean(scores))];
      insights := insights + [Direction(DashTrend(scores))];
    }
  }

  /** What the insight messages say: at most three weak topics, an accuracy
      between 0 and 100, an average between the lowest and highest score, and a
      direction that follows the first and last scores. */
  lemma InsightsMeaning(current: seq<QuizRow>, history: seq<HistRow>, lo: real, hi: real)
    requires history != [] ==> forall i :: 0 <= i < |history| ==> lo <= history[i].score <= hi
    ensures current != [] ==> |FocusTopics(current)| <= 3 && 0.0 <= AccuracyPercent(current) <= 100.0
    ensures history != [] ==> lo <= Mean(HistScores(history)) <= hi
    ensures |history| >= 2 ==>
      (DashTrend(HistScores(history)) == Improving <==> history[|history| - 1].score > history[0].score)
  {
    if history != [] {
      MeanWithin(HistScores(history), lo, hi);
    }
  }

  // ---------------------------------------------------------------------------
  // Recommendations.
  // ---------------------------------------------------------------------------

  /** One recommendation message, by the rule that produced it. */
  datatype DashRecommendation =
    | Focus(topics: seq<string>)
    | Harder
    | Easier
    | TimeManagement

  function Difficulties(rows: seq<QuizRow>): (s: seq<real>)
    ensures |s| == |rows|
  {
    seq(|rows|, i requires 0 <= i < |rows| => rows[i].item.difficulty as real)
  }

  function TimesTaken(rows: seq<QuizRow>): (s: seq<real>)
    ensures |s| == |rows|
  {
    seq(|rows|, i requires 0 <= i < |rows| => rows[i].item.timeTaken as real)
  }

  /** At most one difficulty message: harder below a mean of 2, easier above 4. */
  function DifficultyAdvice(avgDifficulty: real): (rs: seq<DashRecommendation>)
    ensures Harder in rs <==> avgDifficulty < 2.0
    ensures Easier in rs <==> avgDifficulty > 4.0
    ensures |rs| <= 1 && TimeManagement !in rs && forall r :: r in rs ==> !r.Focus?
  {
    if avgDifficulty < 2.0 then [Harder] else if avgDifficulty > 4.0 then [Easier] else []
  }

  /** The time-management message, for a mean time above 90 seconds. */
  function TimeAdvice(avgTime: real): (rs: seq<DashRecommendation>)
    ensures TimeManagement in rs <==> avgTime > 90.0
    ensures rs == [] || rs == [TimeManagement]
  {
    if avgTime > 90.0 then [TimeManagement] else []
  }

  /** The messages for a non-empty quiz with the given weak topics, mean
      difficulty and mean time, in order. */
  function Plan(topics: seq<string>, avgDifficulty: real, avgTime: real): seq<DashRecommendation>
  {
    [Focus(topics)] + DifficultyAdvice(avgDifficulty) + TimeAdvice(avgTime)
  }

  /** The messages `generate_recommendations` produces, in order. */
  function Advice(current: seq<QuizRow>): seq<DashRecommendation>
  {
    if current == [] then []
    else Plan(FocusTopics(current), Mean(Difficulties(current)), Mean(TimesTaken(current)))
  }

  /** `generate_recommendations`: nothing for an empty current quiz; otherwise the
      focus message, then at most one difficulty message, then the
      time-management message when it applies. */
  method GenerateRecommendations(current: seq<QuizRow>, history: seq<HistRow>) returns (recs: seq<DashRecommendation>)
    ensures recs == Advice(current)
  {
    if current == [] {
      return [];
    }
    recs := AddThresholdAdvice([Focus(FocusTopics(current))], Mean(Difficulties(current)), Mean(TimesTaken(current)));
  }

  method AddThresholdAdvice(recs: seq<DashRecommendation>, avgDifficulty: real, avgTime: real)
    returns (out: seq<DashRecommendation>)
    ensures out == recs + DifficultyAdvice(avgDifficulty) + TimeAdvice(avgTime)
  {
    out := recs;
    if avgDifficulty < 2.0 {
      out := out + [Harder];
    } else if avgDifficulty > 4.0 {
      out := out + [Easier];
    }
    if avgTime > 90.0 {
      out := out + [TimeManagement];
    }
  }

  /** The list is empty exactly for an empty current quiz; otherwise it has one to
      three entries, opens with the focus message naming at most three topics,
      holds "harder" iff the mean difficulty is below 2, "easier" iff it is above
      4 (never both), and the time-management message, last, iff the mean time
      exceeds 90 seconds. */
  lemma AdviceThresholds(current: seq<QuizRow>)
    ensures Advice(current) == [] <==> current == []
    ensures current != [] ==> var recs := Advice(current);
      var difficulty, time := Mean(Difficulties(current)), Mean(TimesTaken(current));
      && 1 <= |recs| <= 3
      && recs[0] == Focus(FocusTopics(current)) && |recs[0].topics| <= 3
      && (Harder in recs <==> difficulty < 2.0)
      && (Easier in recs <==> difficulty > 4.0)
      && !(Harder in recs && Easier in recs)
      && (TimeManagement in recs <==> time > 90.0)
      && (TimeManagement in recs ==> recs[|recs| - 1] == TimeManagement)
  {
    if current != [] {
      var focus := [Focus(FocusTopics(current))];
      var d := DifficultyAdvice(Mean(Difficulties(current)));
      var t := TimeAdvice(Mean(TimesTaken(current)));
      assert Advice(current) == focus + d + t;
      assert forall r :: r in focus + d + t <==> r in focus || r in d || r in t;
    }
  }
}
