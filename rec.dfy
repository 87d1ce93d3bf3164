/** The console pipeline: joins a quiz's questions with a submission, tallies a
    history of attempts per topic and per difficulty, derives insights and turns
    them into an ordered list of recommendations. */
module Rec {
  import opened Wrappers
  import opened Ranking
  import opened Stats

  type QuestionId = string
  type OptionId = string

  /** A question record. `timeSpent` is optional in the historical payload. */
  datatype Question = Question(
    id: QuestionId,
    topic: string,
    difficulty: string,
    correctOptionId: OptionId,
    timeSpent: Option<int>)

  /** One answer of the submission; `timeSpent` is already in seconds. */
  datatype SubmissionEntry = SubmissionEntry(questionId: QuestionId, selectedOptionId: OptionId, timeSpent: int)

  /** The quiz and submission payloads; a key absent from the JSON object is `None`. */
  datatype QuizPayload = QuizPayload(questions: Option<seq<Question>>)
  datatype SubmissionPayload = SubmissionPayload(submission: Option<seq<SubmissionEntry>>)

  /** One row of the merged frame, with its `correct` and `time_spent` columns. */
  datatype Row = Row(question: Question, entry: SubmissionEntry, correct: bool, timeSpent: int)

  /** The exceptions the analysis raises. */
  datatype AnalysisError =
    | MissingQuestionsOrSubmission  // KeyError for 'questions' / 'submission'
    | MissingJoinColumn             // a frame built from an empty list has no 'id' / 'questionId' column
    | AmbiguousTimeColumn           // both frames carry 'timeSpent', which the merge renames on each side
    | MissingQuizzes                // KeyError for 'quizzes'
    | MissingDateOrScore            // KeyError when no attempt carries 'date' or 'score'
    | UnfittableHistory             // the regression rejects missing values or zero samples

  // ---------------------------------------------------------------------------
  // Current quiz: inner join of questions and submission entries.
  // ---------------------------------------------------------------------------

  function JoinedRow(q: Question, e: SubmissionEntry): Row
  {
    Row(q, e, q.correctOptionId == e.selectedOptionId, e.timeSpent)
  }

  /** Number of entries answering question `id`. */
  function MatchCount(es: seq<SubmissionEntry>, id: QuestionId): (n: nat)
    ensures n <= |es|
  {
    if es == [] then 0
    else (if es[0].questionId == id then 1 else 0) + MatchCount(es[1..], id)
  }

  /** The rows one question contributes, in submission order. */
  function RowsFor(q: Question, es: seq<SubmissionEntry>): (rows: seq<Row>)
    ensures |rows| == MatchCount(es, q.id)
    ensures forall r :: r in rows ==> r == JoinedRow(q, r.entry) && r.entry in es && r.entry.questionId == q.id
    ensures forall e :: e in es && e.questionId == q.id ==> JoinedRow(q, e) in rows
  {
    if es == [] then []
    else
      var rest := RowsFor(q, es[1..]);
      assert forall e :: e in es && e != es[0] ==> e in es[1..];
      if es[0].questionId == q.id then [JoinedRow(q, es[0])] + rest else rest
  }

  /** Sum over the questions of the entries answering each. */
  function JoinSize(qs: seq<Question>, es: seq<SubmissionEntry>): nat
  {
    if qs == [] then 0 else MatchCount(es, qs[0].id) + JoinSize(qs[1..], es)
  }

  /** `questions.merge(submission, left_on='id', right_on='questionId')`, with the
      `correct` and `time_spent` columns added: rows in question order, and for
      one question in submission order. */
  function Join(qs: seq<Question>, es: seq<SubmissionEntry>): (rows: seq<Row>)
    ensures |rows| == JoinSize(qs, es)
    ensures forall r :: r in rows ==>
      && r.question in qs && r.entry in es
      && r.entry.questionId == r.question.id
      && r == JoinedRow(r.question, r.entry)
      && (r.correct <==> r.question.correctOptionId == r.entry.selectedOptionId)
    ensures forall q, e :: q in qs && e in es && e.questionId == q.id ==> JoinedRow(q, e) in rows
  {
    if qs == [] then []
    else
      var first, rest := RowsFor(qs[0], es), Join(qs[1..], es);
      assert forall q :: q in qs && q != qs[0] ==> q in qs[1..];
      assert forall q :: q in qs[1..] ==> q in qs;
      first + rest
  }

  /** Whether the questions frame has a 'timeSpent' column. */
  predicate AnyQuestionTime(qs: seq<Question>)
  {
    exists i :: 0 <= i < |qs| && qs[i].timeSpent.Some?
  }

  /** `analyze_current_quiz`: fails when either key is absent, when either list is
      empty (the frame then lacks its join column), or when the questions carry a
      'timeSpent' column too (the merge then keeps only 'timeSpent_x' and
      'timeSpent_y'); otherwise the merged rows. */
  function AnalyzeCurrentQuiz(quiz: QuizPayload, sub: SubmissionPayload): (r: Result<seq<Row>, AnalysisError>)
    ensures r.Failure? <==>
      || quiz.questions.None? || sub.submission.None? || quiz.questions.value == [] || sub.submission.value == []
      || AnyQuestionTime(quiz.questions.value)
    ensures r.Failure? && (quiz.questions.None? || sub.submission.None?) ==> r.error == MissingQuestionsOrSubmission
    ensures r.Success? ==> r.value == Join(quiz.questions.value, sub.submission.value)
  {
    if quiz.questions.None? || sub.submission.None? then Failure(MissingQuestionsOrSubmission)
    else if quiz.questions.value == [] || sub.submission.value == [] then Failure(MissingJoinColumn)
    else if AnyQuestionTime(quiz.questions.value) then Failure(AmbiguousTimeColumn)
    else Success(Join(quiz.questions.value, sub.submission.value))
  }

  // ---------------------------------------------------------------------------
  // Current score and weak areas.
  // ---------------------------------------------------------------------------

  function CorrectCount(rows: seq<Row>): (n: nat)
    ensures n <= |rows|
    ensures n == |rows| <==> forall i :: 0 <= i < |rows| ==> rows[i].correct
    ensures n == 0 <==> forall i :: 0 <= i < |rows| ==> !rows[i].correct
  {
    if rows == [] then 0
    else
      var rest := CorrectCount(rows[1..]);
      assert forall i :: 1 <= i < |rows| ==> rows[i] == rows[1..][i - 1];
      (if rows[0].correct then 1 else 0) + rest
  }

  /** `correct.mean() * 100`; the mean of no rows is NaN, modelled as `None`. */
  function CurrentScore(rows: seq<Row>): (score: Option<real>)
    ensures score.None? <==> rows == []
    ensures score.Some? ==> 0.0 <= score.value <= 100.0
    ensures score.Some? ==> (score.value == 100.0 <==> forall i :: 0 <= i < |rows| ==> rows[i].correct)
    ensures score.Some? ==> (score.value == 0.0 <==> forall i :: 0 <= i < |rows| ==> !rows[i].correct)
  {
    if rows == [] then None
    else
      var c, n := CorrectCount(rows) as real, |rows| as real;
      ScaledRatio(c, n);
      Some(100.0 * (c / n))
  }

  /** Some row answering a question of topic `t` is incorrect. */
  ghost predicate HasIncorrect(rows: seq<Row>, t: string)
  {
    exists i :: 0 <= i < |rows| && !rows[i].correct && rows[i].question.topic == t
  }

  lemma HasIncorrectFirst(rows: seq<Row>, t: string)
    requires rows != []
    ensures HasIncorrect(rows, t) <==>
      (!rows[0].correct && rows[0].question.topic == t) || HasIncorrect(rows[1..], t)
  {
    if HasIncorrect(rows, t) {
      var i :| 0 <= i < |rows| && !rows[i].correct && rows[i].question.topic == t;
      if i > 0 {
        assert rows[1..][i - 1] == rows[i];
      }
    }
    if HasIncorrect(rows[1..], t) {
      var i :| 0 <= i < |rows[1..]| && !rows[1..][i].correct && rows[1..][i].question.topic == t;
      assert rows[i + 1] == rows[1..][i];
    }
  }

  /** Topics of the incorrectly answered rows, one per row. */
  function IncorrectTopics(rows: seq<Row>): (ts: seq<string>)
    ensures |ts| == |rows| - CorrectCount(rows)
    ensures forall t :: t in ts <==> HasIncorrect(rows, t)
  {
    if rows == [] then []
    else
      var rest := IncorrectTopics(rows[1..]);
      assert forall t :: HasIncorrect(rows, t) <==>
        (!rows[0].correct && rows[0].question.topic == t) || HasIncorrect(rows[1..], t)
      by {
        forall t {
          HasIncorrectFirst(rows, t);
        }
      }
      if rows[0].correct then rest else [rows[0].question.topic] + rest
  }

  /** `value_counts().index` of the incorrect rows' topics: every topic with an
      incorrect row appears exactly once, in non-increasing order of
      incorrect-row count. */
  function WeakAreas(rows: seq<Row>): (ts: seq<string>)
    ensures |ts| == |Distinct(IncorrectTopics(rows))|
    ensures NoDuplicates(ts)
    ensures forall t :: t in ts <==> HasIncorrect(rows, t)
    ensures ByCountDesc(ts, IncorrectTopics(rows))
  {
    RankByFrequency(IncorrectTopics(rows))
  }

  // ---------------------------------------------------------------------------
  // Historical attempts: per-topic and per-difficulty counters.
  // ---------------------------------------------------------------------------

  /** One item of an attempt's `responseMap`: question id and selected option. */
  datatype Response = Response(questionId: QuestionId, selectedOptionId: OptionId)

  /** A past attempt. `date` is a day number; keys absent from the record are `None`. */
  datatype Attempt = Attempt(
    date: Option<int>,
    score: Option<real>,
    responseMap: seq<Response>,
    questions: seq<Question>)

  datatype HistoryPayload = HistoryPayload(quizzes: Option<seq<Attempt>>)

  /** The first question with the given id, as the `next(...)` over the
      attempt's questions finds it. */
  function FirstMatch(qs: seq<Question>, id: QuestionId): (r: Option<Question>)
    ensures r.None? <==> forall i :: 0 <= i < |qs| ==> qs[i].id != id
    ensures r.Some? ==> exists i :: 0 <= i < |qs| && qs[i] == r.value && r.value.id == id
                                     && forall j :: 0 <= j < i ==> qs[j].id != id
  {
    if qs == [] then None
    else if qs[0].id == id then Some(qs[0])
    else
      var r := FirstMatch(qs[1..], id);
      FirstMatchShift(qs, id, r);
      r
  }

  lemma FirstMatchShift(qs: seq<Question>, id: QuestionId, r: Option<Question>)
    requires qs != [] && qs[0].id != id
    requires r.None? <==> forall i :: 0 <= i < |qs[1..]| ==> qs[1..][i].id != id
    requires r.Some? ==> exists i :: 0 <= i < |qs[1..]| && qs[1..][i] == r.value && r.value.id == id
                                       && forall j :: 0 <= j < i ==> qs[1..][j].id != id
    ensures r.None? <==> forall i :: 0 <= i < |qs| ==> qs[i].id != id
    ensures r.Some? ==> exists i :: 0 <= i < |qs| && qs[i] == r.value && r.value.id == id
                                     && forall j :: 0 <= j < i ==> qs[j].id != id
  {
    assert forall i :: 1 <= i < |qs| ==> qs[i] == qs[1..][i - 1];
    if r.Some? {
      var i :| 0 <= i < |qs[1..]| && qs[1..][i] == r.value && r.value.id == id
               && forall j :: 0 <= j < i ==> qs[1..][j].id != id;
      assert qs[i + 1] == r.value;
      forall j | 0 <= j < i + 1 ensures qs[j].id != id {
        if j > 0 { assert qs[j] == qs[1..][j - 1]; }
      }
    }
  }

  /** `question.get('timeSpent', 0)`. */
  function TimeOrZero(t: Option<int>): (seconds: int)
    ensures t.Some? ==> seconds == t.value
    ensures t.None? ==> seconds == 0
  {
    if t.Some? then t.value else 0
  }

  /** What one resolved response adds to the counters of its topic and difficulty. */
  datatype Hit = Hit(topic: string, difficulty: string, correct: bool, timeSpent: int)

  function HitOf(q: Question, selected: OptionId): Hit
  {
    Hit(q.topic, q.difficulty, q.correctOptionId == selected, TimeOrZero(q.timeSpent))
  }

  /** The hit of one response: none when no question of the attempt has its id. */
  function HitsFor(qs: seq<Question>, r: Response): (hs: seq<Hit>)
    ensures |hs| <= 1
  {
    match FirstMatch(qs, r.questionId)
    case None => []
    case Some(q) => [HitOf(q, r.selectedOptionId)]
  }

  /** Number of responses whose id matches a question of the same attempt. */
  function Answered(qs: seq<Question>, rs: seq<Response>): (n: nat)
    ensures n <= |rs|
  {
    if rs == [] then 0
    else
      var q := FirstMatch(qs, rs[|rs| - 1].questionId);
      Answered(qs, rs[..|rs| - 1]) + (if q.Some? then 1 else 0)
  }

  /** The hits of an attempt's responses, in response order. */
  function ResponseHits(qs: seq<Question>, rs: seq<Response>): (hs: seq<Hit>)
    ensures |hs| == Answered(qs, rs)
  {
    if rs == [] then [] else ResponseHits(qs, rs[..|rs| - 1]) + HitsFor(qs, rs[|rs| - 1])
  }

  /** The hits of all attempts, in attempt order. */
  function Hits(attempts: seq<Attempt>): seq<Hit>
  {
    if attempts == [] then []
    else
      var a := attempts[|attempts| - 1];
      Hits(attempts[..|attempts| - 1]) + ResponseHits(a.questions, a.responseMap)
  }

  /** Responses of all attempts that resolve to a question. */
  function AnsweredAll(attempts: seq<Attempt>): (n: nat)
  {
    if attempts == [] then 0
    else
      var a := attempts[|attempts| - 1];
      AnsweredAll(attempts[..|attempts| - 1]) + Answered(a.questions, a.responseMap)
  }

  lemma {:induction false} HitsCount(attempts: seq<Attempt>)
    ensures |Hits(attempts)| == AnsweredAll(attempts)
  {
    if attempts != [] {
      HitsCount(attempts[..|attempts| - 1]);
    }
  }

  /** The `{'correct', 'total', 'time_spent'}` record of one key. */
  datatype Counter = Counter(correct: nat, total: nat, timeSpent: int)

  datatype Axis = ByTopic | ByDifficulty

  function KeyOf(h: Hit, axis: Axis): string
  {
    match axis
    case ByTopic => h.topic
    case ByDifficulty => h.difficulty
  }

  /** A `defaultdict` lookup: the counter of `k`, or a fresh zero counter. */
  function CounterOf(m: map<string, Counter>, k: string): Counter
  {
    if k in m then m[k] else Counter(0, 0, 0)
  }

  /** The three `+=` updates of one key of a `defaultdict` of counters. */
  function Credit(m: map<string, Counter>, key: string, h: Hit): (m': map<string, Counter>)
    ensures m'.Keys == m.Keys + {key}
    ensures forall k :: k in m && k != key ==> m'[k] == m[k]
    ensures forall f :: Get(m'[key], f) == Get(CounterOf(m, key), f) + Amount(h, f)
  {
    var c := CounterOf(m, key);
    m[key := Counter(c.correct + (if h.correct then 1 else 0), c.total + 1, c.timeSpent + h.timeSpent)]
  }

  /** Every counter was touched at least once and counts no more correct
      answers than answers. */
  predicate CountersValid(m: map<string, Counter>)
  {
    forall k :: k in m ==> 1 <= m[k].total && m[k].correct <= m[k].total
  }

  /** The counters after crediting `hs` one by one to an empty `defaultdict`. */
  function Tally(hs: seq<Hit>, axis: Axis): (m: map<string, Counter>)
    ensures CountersValid(m)
  {
    if hs == [] then map[]
    else
      var n := |hs| - 1;
      Credit(Tally(hs[..n], axis), KeyOf(hs[n], axis), hs[n])
  }

  /** The counters have a key for exactly the keys the hits carry. */
  lemma {:induction false} TallyKeys(hs: seq<Hit>, axis: Axis)
    ensures forall k :: k in Tally(hs, axis) <==> exists i :: 0 <= i < |hs| && KeyOf(hs[i], axis) == k
  {
    if hs != [] {
      var n := |hs| - 1;
      TallyKeys(hs[..n], axis);
      assert forall i :: 0 <= i < n ==> hs[..n][i] == hs[i];
    }
  }

  /** A field summed over the hits keyed `k`. */
  function KeyAmount(hs: seq<Hit>, axis: Axis, k: string, f: Field): int
  {
    if hs == [] then 0
    else
      var n := |hs| - 1;
      KeyAmount(hs[..n], axis, k, f) + (if KeyOf(hs[n], axis) == k then Amount(hs[n], f) else 0)
  }

  /** Each counter holds, field by field, the sum over the hits of its key: the
      number of them, the number answered correctly, and their time. */
  lemma {:induction false} TallyValues(hs: seq<Hit>, axis: Axis)
    ensures forall k, f :: Get(CounterOf(Tally(hs, axis), k), f) == KeyAmount(hs, axis, k, f)
  {
    if hs != [] {
      var n := |hs| - 1;
      TallyValues(hs[..n], axis);
      var m := Tally(hs[..n], axis);
      var key := KeyOf(hs[n], axis);
      forall k, f ensures Get(CounterOf(Tally(hs, axis), k), f) == KeyAmount(hs, axis, k, f) {
        if k != key {
          assert CounterOf(Credit(m, key, hs[n]), k) == CounterOf(m, k);
        }
      }
    }
  }

  lemma TallyAppend(hs: seq<Hit>, extra: seq<Hit>, axis: Axis)
    requires |extra| <= 1
    ensures Tally(hs + extra, axis) ==
      if extra == [] then Tally(hs, axis) else Credit(Tally(hs, axis), KeyOf(extra[0], axis), extra[0])
  {
    if extra == [] {
      assert hs + extra == hs;
    } else {
      assert (hs + extra)[..|hs|] == hs;
    }
  }

  /** One of the three numbers a counter holds. */
  datatype Field = Correct | Total | Time

  function Get(c: Counter, f: Field): int
  {
    match f
    case Correct => c.correct
    case Total => c.total
    case Time => c.timeSpent
  }

  /** What one hit adds to a field. */
  function Amount(h: Hit, f: Field): int
  {
    match f
    case Correct => if h.correct then 1 else 0
    case Total => 1
    case Time => h.timeSpent
  }

  function SumAmount(hs: seq<Hit>, f: Field): int
  {
    if hs == [] then 0 else SumAmount(hs[..|hs| - 1], f) + Amount(hs[|hs| - 1], f)
  }

  /** A field summed over every key of the counters. */
  ghost function Aggregate(m: map<string, Counter>, f: Field): int
    decreases |m|
  {
    if m == map[] then 0
    else
      var k :| k in m;
      Get(m[k], f) + Aggregate(m - {k}, f)
  }

  /** The sum over the keys does not depend on which key is taken out first. */
  lemma {:induction false} AggregateRemove(m: map<string, Counter>, k: string, f: Field)
    requires k in m
    ensures Aggregate(m, f) == Get(m[k], f) + Aggregate(m - {k}, f)
    decreases |m|
  {
    var j :| j in m && Aggregate(m, f) == Get(m[j], f) + Aggregate(m - {j}, f);
    if j != k {
      assert k in m - {j};
      AggregateRemove(m - {j}, k, f);
      assert j in m - {k};
      AggregateRemove(m - {k}, j, f);
      assert m - {j} - {k} == m - {k} - {j};
    }
  }

  lemma AggregateCredit(m: map<string, Counter>, key: string, h: Hit, f: Field)
    ensures Aggregate(Credit(m, key, h), f) == Aggregate(m, f) + Amount(h, f)
  {
    var m' := Credit(m, key, h);
    AggregateRemove(m', key, f);
    if key in m {
      AggregateRemove(m, key, f);
      assert m' - {key} == m - {key};
    } else {
      assert m' - {key} == m;
    }
  }

  /** Summed over all keys, the counters hold exactly what the hits brought,
      whichever axis keys them. */
  lemma {:induction false} TallyConserves(hs: seq<Hit>, axis: Axis, f: Field)
    ensures Aggregate(Tally(hs, axis), f) == SumAmount(hs, f)
  {
    if hs != [] {
      var n := |hs| - 1;
      TallyConserves(hs[..n], axis, f);
      AggregateCredit(Tally(hs[..n], axis), KeyOf(hs[n], axis), hs[n], f);
    }
  }

  lemma {:induction false} SumTotals(hs: seq<Hit>)
    ensures SumAmount(hs, Total) == |hs|
  {
    if hs != [] {
      SumTotals(hs[..|hs| - 1]);
    }
  }

  /** `correct / total` per key. */
  function Accuracy(m: map<string, Counter>): (acc: map<string, real>)
    requires CountersValid(m)
    ensures acc.Keys == m.Keys
    ensures forall k :: k in acc ==> 0.0 <= acc[k] <= 1.0
  {
    map k | k in m :: m[k].correct as real / m[k].total as real
  }

  /** The result of `analyze_historical_data` when it does not raise. */
  datatype History = History(
    avgScore: real,
    topicAccuracy: map<string, real>,
    difficultyAccuracy: map<string, real>,
    attempts: seq<Attempt>)

  /** Whether the frame of the attempts has a 'date' / 'score' column. */
  predicate AnyDate(attempts: seq<Attempt>)
  {
    exists i :: 0 <= i < |attempts| && attempts[i].date.Some?
  }

  predicate AnyScore(attempts: seq<Attempt>)
  {
    exists i :: 0 <= i < |attempts| && attempts[i].score.Some?
  }

  /** The non-missing scores, which `mean()` averages. */
  function PresentScores(attempts: seq<Attempt>): (s: seq<real>)
    ensures |s| <= |attempts|
    ensures s == [] <==> !AnyScore(attempts)
  {
    if attempts == [] then []
    else
      var n := |attempts| - 1;
      var rest := PresentScores(attempts[..n]);
      assert forall i :: 0 <= i < n ==> attempts[..n][i] == attempts[i];
      if attempts[n].score.Some? then rest + [attempts[n].score.value] else rest
  }

  /** What `analyze_historical_data` computes from attempts that have both columns. */
  function Summary(attempts: seq<Attempt>): History
    requires AnyScore(attempts)
  {
    var hs := Hits(attempts);
    History(Mean(PresentScores(attempts)), Accuracy(Tally(hs, ByTopic)), Accuracy(Tally(hs, ByDifficulty)), attempts)
  }

  /** `analyze_historical_data`: fails when 'quizzes' is absent or no attempt has a
      date or a score; otherwise walks every response of every attempt, crediting
      the counters of the resolved question's topic and difficulty. */
  method AnalyzeHistoricalData(h: HistoryPayload) returns (r: Result<History, AnalysisError>)
    ensures r.Failure? <==> h.quizzes.None? || !AnyDate(h.quizzes.value) || !AnyScore(h.quizzes.value)
    ensures r.Failure? ==> r.error == (if h.quizzes.None? then MissingQuizzes else MissingDateOrScore)
    ensures r.Success? ==> r.value == Summary(h.quizzes.value)
  {
    if h.quizzes.None? {
      return Failure(MissingQuizzes);
    }
    var attempts := h.quizzes.value;
    if !AnyDate(attempts) || !AnyScore(attempts) {
      return Failure(MissingDateOrScore);
    }
    var avgScore := Mean(PresentScores(attempts));
    var topicPerformance: map<string, Counter> := map[];
    var difficultyPerformance: map<string, Counter> := map[];
    var i := 0;
    while i < |attempts|
      invariant 0 <= i <= |attempts|
      invariant topicPerformance == Tally(Hits(attempts[..i]), ByTopic)
      invariant difficultyPerformance == Tally(Hits(attempts[..i]), ByDifficulty)
    {
      topicPerformance, difficultyPerformance :=
        CreditResponses(attempts[i], topicPerformance, difficultyPerformance, Hits(attempts[..i]));
      HitsStep(attempts, i);
      i := i + 1;
    }
    assert attempts[..i] == attempts;
    return Success(History(avgScore, Accuracy(topicPerformance), Accuracy(difficultyPerformance), attempts));
  }

  /** The inner loop of `analyze_historical_data`: credits the responses of one
      attempt, in order, to the counters that so far hold the hits `earlier`. */
  method CreditResponses(a: Attempt, topics: map<string, Counter>, difficulties: map<string, Counter>, ghost earlier: seq<Hit>)
    returns (topics': map<string, Counter>, difficulties': map<string, Counter>)
    requires topics == Tally(earlier, ByTopic) && difficulties == Tally(earlier, ByDifficulty)
    ensures topics' == Tally(earlier + ResponseHits(a.questions, a.responseMap), ByTopic)
    ensures difficulties' == Tally(earlier + ResponseHits(a.questions, a.responseMap), ByDifficulty)
  {
    topics', difficulties' := topics, difficulties;
    ghost var done := earlier;
    assert a.responseMap[..0] == [];
    var j := 0;
    while j < |a.responseMap|
      invariant 0 <= j <= |a.responseMap|
      invariant done == earlier + ResponseHits(a.questions, a.responseMap[..j])
      invariant topics' == Tally(done, ByTopic)
      invariant difficulties' == Tally(done, ByDifficulty)
    {
      var response := a.responseMap[j];
      ghost var extra := HitsFor(a.questions, response);
      TallyAppend(done, extra, ByTopic);
      TallyAppend(done, extra, ByDifficulty);
      ResponseHitsStep(earlier, a.questions, a.responseMap, j);
      var question := FirstMatch(a.questions, response.questionId);
      if question.Some? {
        var q := question.value;
        var hit := HitOf(q, response.selectedOptionId);
        topics' := Credit(topics', q.topic, hit);
        difficulties' := Credit(difficulties', q.difficulty, hit);
      }
      done := done + extra;
      j := j + 1;
    }
    assert a.responseMap[..j] == a.responseMap;
  }

  lemma ResponseHitsStep(earlier: seq<Hit>, qs: seq<Question>, rs: seq<Response>, j: nat)
    requires j < |rs|
    ensures earlier + ResponseHits(qs, rs[..j + 1]) == (earlier + ResponseHits(qs, rs[..j])) + HitsFor(qs, rs[j])
  {
    assert rs[..j + 1][..j] == rs[..j];
  }

  lemma HitsStep(attempts: seq<Attempt>, i: nat)
    requires i < |attempts|
    ensures Hits(attempts[..i + 1]) == Hits(attempts[..i]) + ResponseHits(attempts[i].questions, attempts[i].responseMap)
  {
    assert attempts[..i + 1][..i] == attempts[..i];
  }

  /** Conservation: summed over topics and summed over difficulties, the counters
      agree, and the totals equal the number of responses that resolved to a
      question of their own attempt. */
  lemma CountersConserve(attempts: seq<Attempt>, f: Field)
    ensures Aggregate(Tally(Hits(attempts), ByTopic), f) == Aggregate(Tally(Hits(attempts), ByDifficulty), f)
    ensures Aggregate(Tally(Hits(attempts), ByTopic), Total) == AnsweredAll(attempts)
  {
    var hs := Hits(attempts);
    TallyConserves(hs, ByTopic, f);
    TallyConserves(hs, ByDifficulty, f);
    TallyConserves(hs, ByTopic, Total);
    SumTotals(hs);
    HitsCount(attempts);
  }

  // ---------------------------------------------------------------------------
  // Insights: scores, weak areas, trend and per-difficulty performance.
  // ---------------------------------------------------------------------------

  /** The regression accepts the attempts only when there is at least one and
      none lacks its date or its score. */
  predicate Fittable(attempts: seq<Attempt>)
  {
    attempts != [] && forall i :: 0 <= i < |attempts| ==> attempts[i].date.Some? && attempts[i].score.Some?
  }

  /** Days between each attempt's date and the day number `today`. */
  function DaysAgo(attempts: seq<Attempt>, today: int): seq<real>
    requires Fittable(attempts)
  {
    seq(|attempts|, i requires 0 <= i < |attempts| => (today - attempts[i].date.value) as real)
  }

  function Scores(attempts: seq<Attempt>): seq<real>
    requires Fittable(attempts)
  {
    seq(|attempts|, i requires 0 <= i < |attempts| => attempts[i].score.value)
  }

  /** The label as written: "improving" when the slope of score against
      days-ago is positive. */
  function TrendAsWritten(daysAgo: seq<real>, scores: seq<real>): (t: Trend)
    requires |daysAgo| == |scores|
    ensures t == Improving <==> Slope(daysAgo, scores) > 0.0
  {
    if Slope(daysAgo, scores) > 0.0 then Improving else Declining
  }

  /** The label with the sign the regression against days-ago calls for: scores
      that rise as days-ago shrinks give a negative slope. */
  function TrendOverTime(daysAgo: seq<real>, scores: seq<real>): Trend
    requires |daysAgo| == |scores|
  {
    if Slope(daysAgo, scores) < 0.0 then Improving else Declining
  }

  /** Scores that rise strictly over time (fall strictly with days-ago) are
      labelled "declining" as written. */
  lemma AsWrittenTrendInverted(daysAgo: seq<real>, scores: seq<real>)
    requires |daysAgo| == |scores| && Discordant(daysAgo, scores) && NotConstant(daysAgo)
    ensures TrendAsWritten(daysAgo, scores) == Declining
  {
    SlopeOfDiscordant(daysAgo, scores);
  }

  /** Scores 60, 70, 80 taken 10, 5 and 1 days ago are labelled "declining" as written. */
  lemma AsWrittenTrendExample()
    ensures TrendAsWritten([10.0, 5.0, 1.0], [60.0, 70.0, 80.0]) == Declining
  {
    var d, s := [10.0, 5.0, 1.0], [60.0, 70.0, 80.0];
    assert d[0] != d[1];
    AsWrittenTrendInverted(d, s);
  }

  /** As written, the label is "declining" for scores rising strictly over time
      and "improving" for scores falling strictly. */
  lemma TrendAsWrittenLabels(daysAgo: seq<real>, scores: seq<real>)
    requires |daysAgo| == |scores|
    ensures NotConstant(daysAgo) && Discordant(daysAgo, scores) ==> TrendAsWritten(daysAgo, scores) == Declining
    ensures NotConstant(daysAgo) && Concordant(daysAgo, scores) ==> TrendAsWritten(daysAgo, scores) == Improving
  {
    if NotConstant(daysAgo) && Discordant(daysAgo, scores) {
      SlopeOfDiscordant(daysAgo, scores);
    }
    if NotConstant(daysAgo) && Concordant(daysAgo, scores) {
      SlopeOfConcordant(daysAgo, scores);
    }
  }

  /** The corrected label follows the scores: strictly rising over time gives
      "improving", strictly falling gives "declining". */
  lemma TrendFollowsScores(daysAgo: seq<real>, scores: seq<real>)
    requires |daysAgo| == |scores|
    ensures NotConstant(daysAgo) && Discordant(daysAgo, scores) ==> TrendOverTime(daysAgo, scores) == Improving
    ensures NotConstant(daysAgo) && Concordant(daysAgo, scores) ==> TrendOverTime(daysAgo, scores) == Declining
  {
    if NotConstant(daysAgo) && Discordant(daysAgo, scores) {
      SlopeOfDiscordant(daysAgo, scores);
    }
    if NotConstant(daysAgo) && Concordant(daysAgo, scores) {
      SlopeOfConcordant(daysAgo, scores);
    }
  }

  function RowHit(r: Row): Hit
  {
    Hit(r.question.topic, r.question.difficulty, r.correct, r.timeSpent)
  }

  function RowHits(rows: seq<Row>): seq<Hit>
  {
    seq(|rows|, i requires 0 <= i < |rows| => RowHit(rows[i]))
  }

  /** Number of current rows at difficulty `d`, and of those answered correctly. */
  function RowsAt(rows: seq<Row>, d: string): nat
  {
    if rows == [] then 0
    else RowsAt(rows[..|rows| - 1], d) + (if rows[|rows| - 1].question.difficulty == d then 1 else 0)
  }

  function CorrectAt(rows: seq<Row>, d: string): nat
  {
    if rows == [] then 0
    else
      var r := rows[|rows| - 1];
      CorrectAt(rows[..|rows| - 1], d) + (if r.question.difficulty == d && r.correct then 1 else 0)
  }

  lemma {:induction false} RowHitsAmounts(rows: seq<Row>, d: string)
    ensures KeyAmount(RowHits(rows), ByDifficulty, d, Total) == RowsAt(rows, d)
    ensures KeyAmount(RowHits(rows), ByDifficulty, d, Correct) == CorrectAt(rows, d)
  {
    if rows != [] {
      var n := |rows| - 1;
      assert RowHits(rows)[..n] == RowHits(rows[..n]);
      RowHitsAmounts(rows[..n], d);
    }
  }

  /** `groupby('difficulty')['correct'].mean()`: per difficulty of the current
      rows, the fraction answered correctly. */
  function CurrentDifficultyPerformance(rows: seq<Row>): (perf: map<string, real>)
    ensures forall d :: d in perf <==> exists i :: 0 <= i < |rows| && rows[i].question.difficulty == d
    ensures forall d :: d in perf ==> 0.0 <= perf[d] <= 1.0
    ensures forall d :: d in perf ==> RowsAt(rows, d) > 0 && perf[d] == CorrectAt(rows, d) as real / RowsAt(rows, d) as real
  {
    var hs := RowHits(rows);
    assert forall i :: 0 <= i < |rows| ==> KeyOf(hs[i], ByDifficulty) == rows[i].question.difficulty;
    TallyKeys(hs, ByDifficulty);
    TallyValues(hs, ByDifficulty);
    var m := Tally(hs, ByDifficulty);
    assert forall d :: d in m ==> m[d].total == RowsAt(rows, d) && m[d].correct == CorrectAt(rows, d) by {
      forall d | d in m ensures m[d].total == RowsAt(rows, d) && m[d].correct == CorrectAt(rows, d) {
        RowHitsAmounts(rows, d);
        assert Get(CounterOf(m, d), Total) == KeyAmount(hs, ByDifficulty, d, Total);
        assert Get(CounterOf(m, d), Correct) == KeyAmount(hs, ByDifficulty, d, Correct);
      }
    }
    Accuracy(m)
  }

  /** The insight record. */
  datatype Insights = Insights(
    currentScore: Option<real>,
    averageScore: real,
    weakAreas: seq<string>,
    topicAccuracy: map<string, real>,
    difficultyAccuracy: map<string, real>,
    currentDifficultyPerformance: map<string, real>,
    trend: Trend)

  /** `generate_insights`, with the clock as the day number `today`. */
  function GenerateInsights(rows: seq<Row>, hist: History, today: int): (r: Result<Insights, AnalysisError>)
    ensures r.Failure? <==> !Fittable(hist.attempts)
    ensures r.Success? ==> var ins := r.value;
      && (ins.currentScore.None? <==> rows == [])
      && (ins.currentScore.Some? ==> 0.0 <= ins.currentScore.value <= 100.0)
      && ins.currentScore == CurrentScore(rows)
      && ins.averageScore == 100.0 * hist.avgScore
      && NoDuplicates(ins.weakAreas)
      && (forall t :: t in ins.weakAreas <==> HasIncorrect(rows, t))
      && ByCountDesc(ins.weakAreas, IncorrectTopics(rows))
      && ins.topicAccuracy == hist.topicAccuracy
      && ins.difficultyAccuracy == hist.difficultyAccuracy
      && (forall d :: d in ins.currentDifficultyPerformance <==>
            exists i :: 0 <= i < |rows| && rows[i].question.difficulty == d)
      && (forall d :: d in ins.currentDifficultyPerformance ==>
            RowsAt(rows, d) > 0
            && ins.currentDifficultyPerformance[d] == CorrectAt(rows, d) as real / RowsAt(rows, d) as real)
    ensures r.Success? ==> var d, s := DaysAgo(hist.attempts, today), Scores(hist.attempts);
      && r.value.trend == TrendAsWritten(d, s)
      && (NotConstant(d) ==>
        && (Discordant(d, s) ==> r.value.trend == Declining)
        && (Concordant(d, s) ==> r.value.trend == Improving))
  {
    if !Fittable(hist.attempts) then Failure(UnfittableHistory)
    else
      var d, s := DaysAgo(hist.attempts, today), Scores(hist.attempts);
      TrendAsWrittenLabels(d, s);
      InsightsOf(rows, hist, d, s)
  }

  function InsightsOf(rows: seq<Row>, hist: History, daysAgo: seq<real>, scores: seq<real>): Result<Insights, AnalysisError>
    requires |daysAgo| == |scores|
  {
    Success(Insights(
      CurrentScore(rows),
      100.0 * hist.avgScore,
      WeakAreas(rows),
      hist.topicAccuracy,
      hist.difficultyAccuracy,
      CurrentDifficultyPerformance(rows),
      TrendAsWritten(daysAgo, scores)))
  }

  // ---------------------------------------------------------------------------
  // Recommendations.
  // ---------------------------------------------------------------------------

  /** One recommendation message, by the rule that produced it. */
  datatype Recommendation =
    | Regression                               // current score below the average
    | Review(topic: string)                    // weak area of the current quiz
    | Practice(topic: string, accuracy: real)  // low historical accuracy
    | DifficultyDrop(level: string)            // current accuracy below historical at a level
    | TrendRemark(trend: Trend)                // the closing trend message

  /** The difficulty levels compared, in order. */
  const Levels: seq<string> := ["easy", "medium", "hard"]

  /** The category of a recommendation, in the order the list keeps. */
  function Category(r: Recommendation): nat
  {
    match r
    case Regression => 0
    case Review(_) => 1
    case Practice(_, _) => 2
    case DifficultyDrop(_) => 3
    case TrendRemark(_) => 4
  }

  /** A missing current score (NaN) never compares below the average. */
  function Opening(ins: Insights): seq<Recommendation>
  {
    if ins.currentScore.Some? && ins.currentScore.value < ins.averageScore then [Regression] else []
  }

  function Reviews(topics: seq<string>): (rs: seq<Recommendation>)
    ensures |rs| == |topics|
    ensures forall i :: 0 <= i < |rs| ==> rs[i] == Review(topics[i])
  {
    seq(|topics|, i requires 0 <= i < |topics| => Review(topics[i]))
  }

  /** Whether the level is in both maps with the current value below the historical one. */
  predicate Dropped(current: map<string, real>, historical: map<string, real>, level: string)
  {
    level in current && level in historical && current[level] < historical[level]
  }

  /** The difficulty-drop messages for `levels`, in order. */
  function Drops(current: map<string, real>, historical: map<string, real>, levels: seq<string>): (rs: seq<Recommendation>)
    ensures |rs| <= |levels|
    ensures forall r :: r in rs <==> exists l :: l in levels && Dropped(current, historical, l) && r == DifficultyDrop(l)
  {
    if levels == [] then []
    else
      var n := |levels| - 1;
      var rest := Drops(current, historical, levels[..n]);
      assert forall l :: l in levels <==> l in levels[..n] || l == levels[n] by {
        assert levels == levels[..n] + [levels[n]];
      }
      if Dropped(current, historical, levels[n]) then rest + [DifficultyDrop(levels[n])] else rest
  }

  /** The drop messages follow the order of `levels`: message `i` is about level
      `at[i]`, and the positions `at` strictly increase. */
  lemma {:induction false} DropsInOrder(current: map<string, real>, historical: map<string, real>, levels: seq<string>)
    returns (at: seq<nat>)
    ensures var rs := Drops(current, historical, levels);
      && |at| == |rs|
      && (forall i :: 0 <= i < |at| ==> at[i] < |levels| && rs[i] == DifficultyDrop(levels[at[i]]))
      && (forall i, j :: 0 <= i < j < |at| ==> at[i] < at[j])
  {
    if levels == [] {
      at := [];
    } else {
      var n := |levels| - 1;
      var prefix := levels[..n];
      var rest := Drops(current, historical, prefix);
      at := DropsInOrder(current, historical, prefix);
      assert forall i :: 0 <= i < |at| ==> levels[at[i]] == prefix[at[i]];
      if Dropped(current, historical, levels[n]) {
        at := at + [n];
      }
    }
  }

  /** Distinct levels give distinct drop messages. */
  lemma DropsDistinct(current: map<string, real>, historical: map<string, real>, levels: seq<string>)
    requires NoDuplicates(levels)
    ensures NoDuplicates(Drops(current, historical, levels))
  {
    var rs := Drops(current, historical, levels);
    var at := DropsInOrder(current, historical, levels);
    forall i, j | 0 <= i < j < |rs| ensures rs[i] != rs[j] {
      assert levels[at[i]] != levels[at[j]];
    }
  }

  /** The topics `ps` names. */
  ghost predicate Names(ps: seq<Recommendation>, t: string)
  {
    exists i :: 0 <= i < |ps| && ps[i].Practice? && ps[i].topic == t
  }

  /** `ps` holds the min(3, n) topics of lowest accuracy, each once, with its
      accuracy, in ascending order of accuracy. */
  ghost predicate LowestPractice(ps: seq<Recommendation>, acc: map<string, real>)
  {
    && |ps| == PracticeCount(acc)
    && (forall i :: 0 <= i < |ps| ==> ps[i].Practice? && ps[i].topic in acc && ps[i].accuracy == acc[ps[i].topic])
    && (forall i, j :: 0 <= i < j < |ps| ==> ps[i].topic != ps[j].topic && ps[i].accuracy <= ps[j].accuracy)
    && (forall i, t :: 0 <= i < |ps| && t in acc && !Names(ps, t) ==> ps[i].accuracy <= acc[t])
  }

  /** How many practice messages there are for `acc`: min(3, number of topics). */
  function PracticeCount(acc: map<string, real>): nat
  {
    if |acc| < 3 then |acc| else 3
  }

  /** The list `create_recommendations` builds, category by category. */
  ghost predicate Planned(ins: Insights, recs: seq<Recommendation>)
  {
    var head := Opening(ins) + Reviews(Take(ins.weakAreas, 3));
    var tail := Drops(ins.currentDifficultyPerformance, ins.difficultyAccuracy, Levels) + [TrendRemark(ins.trend)];
    var n := PracticeCount(ins.topicAccuracy);
    && |recs| == |head| + n + |tail|
    && recs[..|head|] == head
    && LowestPractice(recs[|head|..|head| + n], ins.topicAccuracy)
    && recs[|head| + n..] == tail
  }

  /** A finite non-empty set of topics has one of least accuracy. */
  lemma {:induction false} LeastAccuracyExists(ts: set<string>, acc: map<string, real>)
    requires ts != {} && ts <= acc.Keys
    ensures exists t :: t in ts && forall u :: u in ts ==> acc[t] <= acc[u]
    decreases |ts|
  {
    var t :| t in ts;
    if ts != {t} {
      LeastAccuracyExists(ts - {t}, acc);
      var m :| m in ts - {t} && forall u :: u in ts - {t} ==> acc[m] <= acc[u];
      if acc[t] <= acc[m] {
        assert forall u :: u in ts ==> acc[t] <= acc[u];
      } else {
        assert forall u :: u in ts ==> acc[m] <= acc[u];
      }
    } else {
      assert forall u :: u in ts ==> acc[t] <= acc[u];
    }
  }

  /** Loop state of the selection: `ps` holds, in ascending order of accuracy,
      topics of least accuracy taken out of `remaining`, the topics not yet taken,
      and names every topic taken. */
  ghost predicate Selection(ps: seq<Recommendation>, remaining: set<string>, acc: map<string, real>)
  {
    SelectedInOrder(ps, remaining, acc) && TakenNamed(ps, remaining, acc)
  }

  ghost predicate SelectedInOrder(ps: seq<Recommendation>, remaining: set<string>, acc: map<string, real>)
  {
    && remaining <= acc.Keys
    && |ps| <= 3 && |remaining| == |acc.Keys| - |ps|
    && (forall i :: 0 <= i < |ps| ==>
          ps[i].Practice? && ps[i].topic in acc && ps[i].topic !in remaining && ps[i].accuracy == acc[ps[i].topic])
    && (forall i, j :: 0 <= i < j < |ps| ==> ps[i].topic != ps[j].topic && ps[i].accuracy <= ps[j].accuracy)
    && (forall i, t :: 0 <= i < |ps| && t in remaining ==> ps[i].accuracy <= acc[t])
  }

  ghost predicate TakenNamed(ps: seq<Recommendation>, remaining: set<string>, acc: map<string, real>)
  {
    forall t :: t in acc && t !in remaining ==> Names(ps, t)
  }

  /** Taking a remaining topic of least accuracy keeps the selection state. */
  lemma SelectionStep(ps: seq<Recommendation>, remaining: set<string>, acc: map<string, real>, t: string)
    requires Selection(ps, remaining, acc) && |ps| < 3
    requires t in remaining && forall u :: u in remaining ==> acc[t] <= acc[u]
    ensures Selection(ps + [Practice(t, acc[t])], remaining - {t}, acc)
  {
    SelectedInOrderStep(ps, remaining, acc, t);
    TakenNamedStep(ps, remaining, acc, t);
  }

  lemma SelectedInOrderStep(ps: seq<Recommendation>, remaining: set<string>, acc: map<string, real>, t: string)
    requires SelectedInOrder(ps, remaining, acc) && |ps| < 3
    requires t in remaining && forall u :: u in remaining ==> acc[t] <= acc[u]
    ensures SelectedInOrder(ps + [Practice(t, acc[t])], remaining - {t}, acc)
  {
    var ps' := ps + [Practice(t, acc[t])];
    assert forall i :: 0 <= i < |ps| ==> ps'[i] == ps[i];
  }

  lemma TakenNamedStep(ps: seq<Recommendation>, remaining: set<string>, acc: map<string, real>, t: string)
    requires TakenNamed(ps, remaining, acc) && t in acc
    ensures TakenNamed(ps + [Practice(t, acc[t])], remaining - {t}, acc)
  {
    var ps' := ps + [Practice(t, acc[t])];
    forall u | u in acc && u !in remaining - {t} ensures Names(ps', u) {
      if u == t {
        assert ps'[|ps|].topic == t;
      } else {
        var i :| 0 <= i < |ps| && ps[i].Practice? && ps[i].topic == u;
        assert ps'[i].topic == u;
      }
    }
  }

  /** When three topics are taken or none remains, the selection is complete. */
  lemma SelectionDone(ps: seq<Recommendation>, remaining: set<string>, acc: map<string, real>)
    requires Selection(ps, remaining, acc) && (|ps| == 3 || remaining == {})
    ensures LowestPractice(ps, acc)
  {
    assert |acc| == |acc.Keys|;
    forall i, t | 0 <= i < |ps| && t in acc && !Names(ps, t) ensures ps[i].accuracy <= acc[t] {
      assert t in remaining;
    }
  }

  /** `sorted(topic_accuracy.items(), key=accuracy)[:3]`, as Practice messages. */
  method LowAccuracyTopics(acc: map<string, real>) returns (ps: seq<Recommendation>)
    ensures LowestPractice(ps, acc)
  {
    ps := [];
    var remaining := acc.Keys;
    while |ps| < 3 && remaining != {}
      invariant Selection(ps, remaining, acc)
      decreases remaining
    {
      LeastAccuracyExists(remaining, acc);
      var t :| t in remaining && forall u :: u in remaining ==> acc[t] <= acc[u];
      SelectionStep(ps, remaining, acc, t);
      ps := ps + [Practice(t, acc[t])];
      remaining := remaining - {t};
    }
    SelectionDone(ps, remaining, acc);
  }

  /** `create_recommendations`: a regression message when the current score is
      below the average, reviews of up to three weak areas, practice on up to
      three lowest-accuracy topics, the difficulty levels whose accuracy dropped,
      and the trend remark last. */
  method CreateRecommendations(ins: Insights) returns (recs: seq<Recommendation>)
    ensures Planned(ins, recs)
  {
    recs := [];
    if ins.currentScore.Some? && ins.currentScore.value < ins.averageScore {
      recs := recs + [Regression];
    }
    recs := AppendReviews(recs, Take(ins.weakAreas, 3));
    var head := recs;
    var low := LowAccuracyTopics(ins.topicAccuracy);
    recs := AppendAll(recs, low);
    recs := AppendDrops(recs, ins.currentDifficultyPerformance, ins.difficultyAccuracy);
    recs := recs + [TrendRemark(ins.trend)];
    PlannedParts(ins, head, low, recs);
  }

  /** One review message per topic, appended in order. */
  method AppendReviews(recs: seq<Recommendation>, topics: seq<string>) returns (out: seq<Recommendation>)
    ensures out == recs + Reviews(topics)
  {
    out := recs;
    for k := 0 to |topics|
      invariant out == recs + Reviews(topics[..k])
    {
      assert Reviews(topics[..k + 1]) == Reviews(topics[..k]) + [Review(topics[k])];
      out := out + [Review(topics[k])];
    }
    assert topics[..|topics|] == topics;
  }

  method AppendAll(recs: seq<Recommendation>, more: seq<Recommendation>) returns (out: seq<Recommendation>)
    ensures out == recs + more
  {
    out := recs;
    for k := 0 to |more|
      invariant out == recs + more[..k]
    {
      assert more[..k + 1] == more[..k] + [more[k]];
      out := out + [more[k]];
    }
    assert more[..|more|] == more;
  }

  /** A drop message for each level, in `Levels` order, whose current accuracy is
      below its historical accuracy. */
  method AppendDrops(recs: seq<Recommendation>, current: map<string, real>, historical: map<string, real>)
    returns (out: seq<Recommendation>)
    ensures out == recs + Drops(current, historical, Levels)
  {
    out := recs;
    for k := 0 to |Levels|
      invariant out == recs + Drops(current, historical, Levels[..k])
    {
      assert Levels[..k + 1][..k] == Levels[..k];
      if Dropped(current, historical, Levels[k]) {
        out := out + [DifficultyDrop(Levels[k])];
      }
    }
    assert Levels[..|Levels|] == Levels;
  }

  lemma PlannedParts(ins: Insights, head: seq<Recommendation>, low: seq<Recommendation>, recs: seq<Recommendation>)
    requires head == Opening(ins) + Reviews(Take(ins.weakAreas, 3))
    requires LowestPractice(low, ins.topicAccuracy)
    requires recs == head + low + Drops(ins.currentDifficultyPerformance, ins.difficultyAccuracy, Levels)
                       + [TrendRemark(ins.trend)]
    ensures Planned(ins, recs)
  {
    var tail := Drops(ins.currentDifficultyPerformance, ins.difficultyAccuracy, Levels) + [TrendRemark(ins.trend)];
    assert recs == head + low + tail;
    assert recs[..|head|] == head;
    assert recs[|head|..|head| + |low|] == low;
    assert recs[|head| + |low|..] == tail;
  }

  /** Categories never decrease along `s`, and all lie between `lo` and `hi`. */
  ghost predicate OrderedWithin(s: seq<Recommendation>, lo: nat, hi: nat)
  {
    && (forall i, j :: 0 <= i < j < |s| ==> Category(s[i]) <= Category(s[j]))
    && (forall i :: 0 <= i < |s| ==> lo <= Category(s[i]) <= hi)
  }

  lemma ExtendOrdered(s: seq<Recommendation>, lo: nat, c: nat, t: seq<Recommendation>, d: nat)
    requires OrderedWithin(s, lo, c) && c <= d && (t == [] || lo <= d)
    requires forall i :: 0 <= i < |t| ==> Category(t[i]) == d
    ensures OrderedWithin(s + t, lo, d)
  {
    assert forall i :: 0 <= i < |s| ==> (s + t)[i] == s[i];
    assert forall i :: |s| <= i < |s + t| ==> (s + t)[i] == t[i - |s|];
  }

  /** The practice block holds at most three Practice messages. */
  lemma PracticeBlock(ps: seq<Recommendation>, acc: map<string, real>)
    requires LowestPractice(ps, acc)
    ensures |ps| <= 3 && forall i :: 0 <= i < |ps| ==> Category(ps[i]) == 2
  {
  }

  /** The three parts of a planned list: the messages before the practice block,
      the practice block `mid`, and the messages after it. */
  lemma PlannedPieces(ins: Insights, recs: seq<Recommendation>) returns (mid: seq<Recommendation>)
    requires Planned(ins, recs)
    ensures recs == Opening(ins) + Reviews(Take(ins.weakAreas, 3)) + mid
                    + Drops(ins.currentDifficultyPerformance, ins.difficultyAccuracy, Levels) + [TrendRemark(ins.trend)]
    ensures LowestPractice(mid, ins.topicAccuracy)
  {
    var head := Opening(ins) + Reviews(Take(ins.weakAreas, 3));
    var n := PracticeCount(ins.topicAccuracy);
    mid := recs[|head|..|head| + n];
    var drops := Drops(ins.currentDifficultyPerformance, ins.difficultyAccuracy, Levels);
    assert recs == recs[..|head|] + mid + recs[|head| + n..];
    assert head + mid + (drops + [TrendRemark(ins.trend)]) == head + mid + drops + [TrendRemark(ins.trend)];
  }

  lemma DropsAreDrops(current: map<string, real>, historical: map<string, real>)
    ensures var drops := Drops(current, historical, Levels);
      |drops| <= 3 && forall i :: 0 <= i < |drops| ==> Category(drops[i]) == 3
  {
    var drops := Drops(current, historical, Levels);
    forall i | 0 <= i < |drops| ensures Category(drops[i]) == 3 {
      assert drops[i] in drops;
    }
  }

  /** Five blocks of fixed categories 0 to 4, concatenated, keep that order. */
  lemma BlocksInOrder(opening: seq<Recommendation>, reviews: seq<Recommendation>, mid: seq<Recommendation>,
                      drops: seq<Recommendation>, last: Recommendation, recs: seq<Recommendation>)
    requires opening == [] || opening == [Regression]
    requires |reviews| <= 3 && forall i :: 0 <= i < |reviews| ==> Category(reviews[i]) == 1
    requires |mid| <= 3 && forall i :: 0 <= i < |mid| ==> Category(mid[i]) == 2
    requires |drops| <= 3 && forall i :: 0 <= i < |drops| ==> Category(drops[i]) == 3
    requires Category(last) == 4
    requires recs == opening + reviews + mid + drops + [last]
    ensures 1 <= |recs| <= 11
    ensures recs[0] == Regression <==> opening != []
    ensures forall i, j :: 0 <= i < j < |recs| ==> Category(recs[i]) <= Category(recs[j])
    ensures recs[|recs| - 1] == last
  {
    var lo := if opening == [] then 1 else 0;
    var s1 := opening + reviews;
    var s2 := s1 + mid;
    var s3 := s2 + drops;
    assert OrderedWithin(opening, lo, 0);
    ExtendOrdered(opening, lo, 0, reviews, 1);
    ExtendOrdered(s1, lo, 1, mid, 2);
    ExtendOrdered(s2, lo, 2, drops, 3);
    ExtendOrdered(s3, lo, 3, [last], 4);
    assert recs == s3 + [last];
    if opening != [] {
      assert recs[0] == opening[0];
    } else {
      assert Category(recs[0]) >= 1;
    }
  }

  /** The list has between 1 and 11 entries, opens with the regression message
      exactly when the current score is below the average, keeps the category
      order, and ends with the trend remark. */
  lemma RecommendationShape(ins: Insights, recs: seq<Recommendation>)
    requires Planned(ins, recs)
    ensures 1 <= |recs| <= 11
    ensures recs[0] == Regression <==> ins.currentScore.Some? && ins.currentScore.value < ins.averageScore
    ensures forall i, j :: 0 <= i < j < |recs| ==> Category(recs[i]) <= Category(recs[j])
    ensures recs[|recs| - 1] == TrendRemark(ins.trend)
  {
    var mid := PlannedPieces(ins, recs);
    PracticeBlock(mid, ins.topicAccuracy);
    ShapeOfPieces(ins, mid, recs);
  }

  lemma ShapeOfPieces(ins: Insights, mid: seq<Recommendation>, recs: seq<Recommendation>)
    requires |mid| <= 3 && forall i :: 0 <= i < |mid| ==> Category(mid[i]) == 2
    requires recs == Opening(ins) + Reviews(Take(ins.weakAreas, 3)) + mid
                     + Drops(ins.currentDifficultyPerformance, ins.difficultyAccuracy, Levels) + [TrendRemark(ins.trend)]
    ensures 1 <= |recs| <= 11
    ensures recs[0] == Regression <==> ins.currentScore.Some? && ins.currentScore.value < ins.averageScore
    ensures forall i, j :: 0 <= i < j < |recs| ==> Category(recs[i]) <= Category(recs[j])
    ensures recs[|recs| - 1] == TrendRemark(ins.trend)
  {
    DropsAreDrops(ins.currentDifficultyPerformance, ins.difficultyAccuracy);
    BlocksInOrder(Opening(ins), Reviews(Take(ins.weakAreas, 3)), mid,
                  Drops(ins.currentDifficultyPerformance, ins.difficultyAccuracy, Levels), TrendRemark(ins.trend), recs);
  }
}
