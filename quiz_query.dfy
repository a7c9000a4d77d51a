/** `QuizQueries` (app/queries/quiz_query.go): inserting a generated quiz. The bulk inserts
    build one multi-row statement with numbered placeholders and a flat argument list; the
    database is a collaborator that answers a statement, and each method returns the
    statement it sent (`None` when it sends nothing). */
module QuizQuery {
  import opened Wrappers
  import opened Text
  import opened Numbers
  import opened Models

  // ------------------------------------------------------------ statements

  /** An argument bound to a placeholder. */
  datatype Arg = TextArg(text: string) | BoolArg(flag: bool)

  /** A statement with its positional arguments (`$1` binds `args[0]`, ...). */
  datatype Statement = Statement(sql: string, args: seq<Arg>)

  /** `fmt.Sprintf("($%d,$%d,...)", first, first + 1, ...)` with `width` placeholders. */
  function Placeholders(first: nat, width: nat): string {
    "(" + Join(seq(width, k => "$" + Decimal(first + k)), ",") + ")"
  }

  // ------------------------------------------------------------ InsertQuiz

  /** The row `InsertQuiz` sends; `timeLimit` is the `time_limit` column. */
  datatype QuizRow = QuizRow(
    title: string, description: string, difficulty: string, timeLimit: Option<int>, createdBy: Uuid)

  /** The id `InsertQuiz` answers with: the parse error of a creator that is not a UUID, else
      what the insert of the quiz's row answers. */
  function InsertedId(
    quiz: Quiz, createdBy: string, description: string,
    parseUuid: string -> Result<Uuid>, insert: QuizRow -> Result<string>): Result<string>
  {
    match parseUuid(createdBy)
    case Err(e) => Err(e)
    case Ok(u) => insert(QuizRow(quiz.title, description, quiz.difficulty, None, u))
  }

  /** Lines 17-29. `parseUuid` is `uuid.Parse`; `insert` runs the statement and scans the id. */
  method InsertQuiz(
    quiz: Quiz, createdBy: string, description: string,
    parseUuid: string -> Result<Uuid>, insert: QuizRow -> Result<string>)
    returns (r: Result<string>, sent: Option<QuizRow>)
    ensures parseUuid(createdBy).Err? ==> sent == None && r == Err(parseUuid(createdBy).error)
    ensures parseUuid(createdBy).Ok? ==>
      && sent == Some(QuizRow(quiz.title, description, quiz.difficulty, None, parseUuid(createdBy).value))
      && r == insert(sent.value)
    ensures r == InsertedId(quiz, createdBy, description, parseUuid, insert)
  {
    var userId := parseUuid(createdBy);
    if userId.Err? {
      return Err(userId.error), None;
    }
    var row := QuizRow(quiz.title, description, quiz.difficulty, None, userId.value);
    sent := Some(row);
    r := insert(row);
  }

  // ------------------------------------------------------------ InsertQuestionsBulk

  /** One scanned row of `RETURNING id`. */
  datatype Scan = Scanned(id: string) | ScanFailed(error: string)

  /** The answer to a query: an error, or the rows and the error `rows.Err()` reports. */
  datatype QueryOutcome = QueryFailed(error: string) | Rows(rows: seq<Scan>, iterError: Option<string>)

  function QuestionsSql(vals: seq<string>): string {
    "INSERT INTO quiz_questions (quiz_id, question_text) VALUES " + Join(vals, ",") + " RETURNING id"
  }

  /** The value rows of `n` questions: row `i` is `($2i+1,$2i+2)`. */
  function QuestionRows(n: nat): (vals: seq<string>)
    ensures |vals| == n
  {
    seq(n, i requires 0 <= i < n => Placeholders(2 * i + 1, 2))
  }

  /** The arguments of the questions' statement: the quiz id and each question's text, in
      question order. */
  function QuestionArgs(quizId: string, questions: seq<Question>): (args: seq<Arg>)
    ensures |args| == 2 * |questions|
  {
    seq(2 * |questions|, k requires 0 <= k < 2 * |questions| =>
      if k % 2 == 0 then TextArg(quizId) else TextArg(questions[k / 2].question))
  }

  /** The statement sent for a non-empty list of questions. */
  function QuestionsStatement(quizId: string, questions: seq<Question>): Statement {
    Statement(QuestionsSql(QuestionRows(|questions|)), QuestionArgs(quizId, questions))
  }

  /** What `InsertQuestionsBulk` answers: no ids for no questions; otherwise the query's error,
      the first scan error, the iteration error, or the scanned ids in row order. */
  function QuestionIds(quizId: string, questions: seq<Question>, query: Statement -> QueryOutcome): Result<seq<string>> {
    if questions == [] then Ok([])
    else match query(QuestionsStatement(quizId, questions))
      case QueryFailed(e) => Err(e)
      case Rows(rows, iterError) =>
        if ScanAll(rows).Err? then ScanAll(rows)
        else if iterError.Some? then Err(iterError.value)
        else ScanAll(rows)
  }

  /** The ids of the scanned rows in order, or the first scan error. */
  function ScanAll(rows: seq<Scan>): Result<seq<string>> {
    if rows == [] then Ok([])
    else match ScanAll(rows[..|rows| - 1])
      case Err(e) => Err(e)
      case Ok(ids) =>
        match rows[|rows| - 1]
        case ScanFailed(e) => Err(e)
        case Scanned(id) => Ok(ids + [id])
  }

  /** Every row scans iff the scan succeeds, and then the ids are the rows' ids in order. */
  lemma {:induction false} ScanAllOk(rows: seq<Scan>)
    ensures ScanAll(rows).Ok? <==> forall k :: 0 <= k < |rows| ==> rows[k].Scanned?
    ensures ScanAll(rows).Ok? ==>
      |ScanAll(rows).value| == |rows| && forall k :: 0 <= k < |rows| ==> ScanAll(rows).value[k] == rows[k].id
  {
    if rows != [] {
      var init := rows[..|rows| - 1];
      ScanAllOk(init);
      assert forall k :: 0 <= k < |init| ==> init[k] == rows[k];
    }
  }

  /** A scan error in a prefix is the error of the whole scan. */
  lemma {:induction false} ScanAllErrExtends(rows: seq<Scan>, i: nat)
    requires i <= |rows| && ScanAll(rows[..i]).Err?
    ensures ScanAll(rows) == ScanAll(rows[..i])
    decreases |rows| - i
  {
    if i < |rows| {
      assert rows[..i + 1][..i] == rows[..i];
      ScanAllErrExtends(rows, i + 1);
    } else {
      assert rows[..i] == rows;
    }
  }

  /** Lines 31-65. */
  method InsertQuestionsBulk(quizId: string, questions: seq<Question>, query: Statement -> QueryOutcome)
    returns (r: Result<seq<string>>, sent: Option<Statement>)
    ensures questions == [] ==> sent == None && r == Ok([])
    ensures questions != [] ==> sent.Some?
    ensures sent.Some? ==>
      && sent.value.sql == QuestionsSql(QuestionRows(|questions|))
      && |sent.value.args| == 2 * |questions|
      && forall i :: 0 <= i < |questions| ==>
           sent.value.args[2 * i] == TextArg(quizId) && sent.value.args[2 * i + 1] == TextArg(questions[i].question)
    ensures sent.Some? ==> sent.value == QuestionsStatement(quizId, questions)
    ensures r == QuestionIds(quizId, questions, query)
  {
    if |questions| == 0 {
      return Ok([]), None;
    }
    var args: seq<Arg> := [];
    var vals: seq<string> := [];
    var idx := 1;
    var i := 0;
    while i < |questions|
      invariant 0 <= i <= |questions|
      invariant idx == 2 * i + 1
      invariant vals == QuestionRows(i)
      invariant |args| == 2 * i
      invariant forall k :: 0 <= k < i ==>
        args[2 * k] == TextArg(quizId) && args[2 * k + 1] == TextArg(questions[k].question)
    {
      vals := vals + [Placeholders(idx, 2)];
      args := args + [TextArg(quizId), TextArg(questions[i].question)];
      idx := idx + 2;
      i := i + 1;
    }
    assert args == QuestionArgs(quizId, questions) by {
      forall k | 0 <= k < 2 * |questions|
        ensures args[k] == QuestionArgs(quizId, questions)[k]
      {
        var h := k / 2;
        assert k == 2 * h || k == 2 * h + 1;
      }
    }
    var stmt := Statement(QuestionsSql(vals), args);
    sent := Some(stmt);
    match query(stmt) {
      case QueryFailed(e) =>
        return Err(e), sent;
      case Rows(rows, iterError) =>
        var ids: seq<string> := [];
        var j := 0;
        while j < |rows|
          invariant 0 <= j <= |rows|
          invariant ScanAll(rows[..j]) == Ok(ids)
        {
          assert rows[..j + 1][..j] == rows[..j];
          match rows[j] {
            case ScanFailed(e) =>
              ScanAllErrExtends(rows, j + 1);
              return Err(e), sent;
            case Scanned(id) =>
              ids := ids + [id];
          }
          j := j + 1;
        }
        assert rows[..j] == rows;
        if iterError.Some? {
          return Err(iterError.value), sent;
        }
        r := Ok(ids);
    }
  }

  // ------------------------------------------------------------ InsertOptionsBulk

  /** One option row: the id of its question and the option. */
  datatype OptionRow = OptionRow(questionId: string, option: QuizOption)

  /** The options of the first `|questions|` questions, in question-then-option order, each
      with the id at its question's position. */
  function OptionRows(ids: seq<string>, questions: seq<Question>): seq<OptionRow>
    requires |questions| <= |ids|
  {
    if questions == [] then []
    else
      var n := |questions| - 1;
      OptionRows(ids, questions[..n]) + RowsOf(ids[n], questions[n].options)
  }

  function RowsOf(id: string, options: seq<QuizOption>): (rows: seq<OptionRow>)
    ensures |rows| == |options|
  {
    seq(|options|, j requires 0 <= j < |options| => OptionRow(id, options[j]))
  }

  /** The number of options of the first `i` questions. */
  function OptionsBefore(questions: seq<Question>, i: nat): nat
    requires i <= |questions|
  {
    if i == 0 then 0 else OptionsBefore(questions, i - 1) + |questions[i - 1].options|
  }

  /** Option `j` of question `i` is row `OptionsBefore(questions, i) + j`, carrying the id at
      position `i`; there are as many rows as options in all. */
  lemma {:induction false} OptionRowAt(ids: seq<string>, questions: seq<Question>, i: nat, j: nat)
    requires |questions| <= |ids| && i < |questions| && j < |questions[i].options|
    ensures |OptionRows(ids, questions)| == OptionsBefore(questions, |questions|)
    ensures OptionsBefore(questions, i) + j < |OptionRows(ids, questions)|
    ensures OptionRows(ids, questions)[OptionsBefore(questions, i) + j] == OptionRow(ids[i], questions[i].options[j])
  {
    var n := |questions| - 1;
    var init := questions[..n];
    OptionRowsLength(ids, questions);
    OptionRowsLength(ids, init);
    OptionsBeforePrefix(questions, n);
    var a, b := OptionRows(ids, init), RowsOf(ids[n], questions[n].options);
    assert OptionRows(ids, questions) == a + b;
    if i < n {
      OptionRowAt(ids, init, i, j);
      assert init[..i] == questions[..i];
      OptionsBeforeAgree(init, questions, i);
      assert init[i] == questions[i];
      assert (a + b)[OptionsBefore(questions, i) + j] == a[OptionsBefore(questions, i) + j];
    } else {
      assert (a + b)[|a| + j] == b[j];
    }
  }

  lemma {:induction false} OptionRowsLength(ids: seq<string>, questions: seq<Question>)
    requires |questions| <= |ids|
    ensures |OptionRows(ids, questions)| == OptionsBefore(questions, |questions|)
  {
    if questions != [] {
      var n := |questions| - 1;
      OptionRowsLength(ids, questions[..n]);
      OptionsBeforePrefix(questions, n);
    }
  }

  /** Counting options depends only on the questions counted. */
  lemma {:induction false} OptionsBeforeAgree(a: seq<Question>, b: seq<Question>, i: nat)
    requires i <= |a| && i <= |b| && a[..i] == b[..i]
    ensures OptionsBefore(a, i) == OptionsBefore(b, i)
  {
    if i > 0 {
      assert a[..i - 1] == a[..i][..i - 1] && b[..i - 1] == b[..i][..i - 1];
      assert a[i - 1] == a[..i][i - 1] && b[i - 1] == b[..i][i - 1];
      OptionsBeforeAgree(a, b, i - 1);
    }
  }

  lemma OptionsBeforePrefix(questions: seq<Question>, i: nat)
    requires i <= |questions|
    ensures OptionsBefore(questions[..i], i) == OptionsBefore(questions, i)
  {
    assert questions[..i][..i] == questions[..i];
    OptionsBeforeAgree(questions[..i], questions, i);
  }

  lemma {:induction false} OptionsBeforeMonotone(questions: seq<Question>, i: nat, k: nat)
    requires i <= k <= |questions|
    ensures OptionsBefore(questions, i) <= OptionsBefore(questions, k)
    decreases k - i
  {
    if i < k {
      OptionsBeforeMonotone(questions, i, k - 1);
    }
  }

  /** Ids beyond the questions are ignored. */
  lemma {:induction false} ExtraIdsIgnored(ids: seq<string>, more: seq<string>, questions: seq<Question>)
    requires |questions| <= |ids|
    ensures OptionRows(ids + more, questions) == OptionRows(ids, questions)
  {
    if questions != [] {
      var n := |questions| - 1;
      ExtraIdsIgnored(ids, more, questions[..n]);
      assert (ids + more)[n] == ids[n];
    }
  }

  /** The arguments of the option rows: question id, content and flag of each, in order. */
  function OptionArgs(rows: seq<OptionRow>): (args: seq<Arg>)
    ensures |args| == 3 * |rows|
  {
    if rows == [] then []
    else
      var last := rows[|rows| - 1];
      OptionArgs(rows[..|rows| - 1])
      + [TextArg(last.questionId), TextArg(last.option.content), BoolArg(last.option.isCorrect)]
  }

  /** Row `k` binds `$3k+1`, `$3k+2`, `$3k+3` to its question id, content and flag. */
  lemma {:induction false} OptionArgsAt(rows: seq<OptionRow>, k: nat)
    requires k < |rows|
    ensures OptionArgs(rows)[3 * k] == TextArg(rows[k].questionId)
    ensures OptionArgs(rows)[3 * k + 1] == TextArg(rows[k].option.content)
    ensures OptionArgs(rows)[3 * k + 2] == BoolArg(rows[k].option.isCorrect)
  {
    var init := rows[..|rows| - 1];
    var a := OptionArgs(init);
    var last := rows[|rows| - 1];
    var b := [TextArg(last.questionId), TextArg(last.option.content), BoolArg(last.option.isCorrect)];
    assert OptionArgs(rows) == a + b;
    if k < |init| {
      OptionArgsAt(init, k);
      assert init[k] == rows[k];
    } else {
      assert (a + b)[3 * k + 2] == b[2];
    }
  }

  /** One more row adds its three arguments at the end. */
  lemma OptionArgsSnoc(rows: seq<OptionRow>, row: OptionRow)
    ensures OptionArgs(rows + [row])
         == OptionArgs(rows) + [TextArg(row.questionId), TextArg(row.option.content), BoolArg(row.option.isCorrect)]
  {
    assert (rows + [row])[..|rows|] == rows;
  }

  /** The value rows of `n` options: row `k` is `($3k+1,$3k+2,$3k+3)`. */
  function OptionPlaceholders(n: nat): (vals: seq<string>)
    ensures |vals| == n
  {
    seq(n, k requires 0 <= k < n => Placeholders(3 * k + 1, 3))
  }

  lemma OptionPlaceholdersSnoc(n: nat)
    ensures OptionPlaceholders(n + 1) == OptionPlaceholders(n) + [Placeholders(3 * n + 1, 3)]
  {
  }

  lemma RowsOfSnoc(id: string, options: seq<QuizOption>, j: nat)
    requires j < |options|
    ensures RowsOf(id, options[..j + 1]) == RowsOf(id, options[..j]) + [OptionRow(id, options[j])]
  {
  }

  function OptionsSql(vals: seq<string>): string {
    "INSERT INTO quiz_options (question_id, content, is_correct) VALUES " + Join(vals, ",")
  }

  const LengthMismatch := "questionIDs length mismatch"

  /** Lines 87-91: the rows of one question's options, appended with the running index. */
  method AppendOptionRows(
    qId: string, options: seq<QuizOption>, vals0: seq<string>, args0: seq<Arg>, idx0: int,
    ghost done: seq<OptionRow>)
    returns (vals: seq<string>, args: seq<Arg>, idx: int)
    requires idx0 == 3 * |done| + 1 && vals0 == OptionPlaceholders(|done|) && args0 == OptionArgs(done)
    ensures var after := done + RowsOf(qId, options);
      idx == 3 * |after| + 1 && vals == OptionPlaceholders(|after|) && args == OptionArgs(after)
  {
    vals, args, idx := vals0, args0, idx0;
    ghost var rows := done;
    var j := 0;
    while j < |options|
      invariant 0 <= j <= |options|
      invariant rows == done + RowsOf(qId, options[..j])
      invariant idx == 3 * |rows| + 1
      invariant vals == OptionPlaceholders(|rows|)
      invariant args == OptionArgs(rows)
    {
      var row := OptionRow(qId, options[j]);
      vals := vals + [Placeholders(idx, 3)];
      args := args + [TextArg(qId), TextArg(options[j].content), BoolArg(options[j].isCorrect)];
      OptionArgsSnoc(rows, row);
      OptionPlaceholdersSnoc(|rows|);
      RowsOfSnoc(qId, options, j);
      rows := rows + [row];
      idx := idx + 3;
      j := j + 1;
    }
    assert options[..j] == options;
  }

  /** What `InsertOptionsBulk` answers: the length mismatch, nothing when there are no
      option rows, else what executing the one statement answers. */
  function OptionsError(questionIds: seq<string>, questions: seq<Question>, exec: Statement -> Option<string>): Option<string> {
    if |questions| > |questionIds| then Some(LengthMismatch)
    else
      var rows := OptionRows(questionIds, questions);
      if rows == [] then None
      else exec(Statement(OptionsSql(OptionPlaceholders(|rows|)), OptionArgs(rows)))
  }

  /** Lines 76-103. `exec` runs the statement and reports its error, if any. */
  method InsertOptionsBulk(questionIds: seq<string>, questions: seq<Question>, exec: Statement -> Option<string>)
    returns (err: Option<string>, sent: Option<Statement>)
    ensures |questions| > |questionIds| ==> err == Some(LengthMismatch) && sent == None
    ensures |questions| <= |questionIds| ==>
      var rows := OptionRows(questionIds, questions);
      if rows == [] then err == None && sent == None
      else
        && sent == Some(Statement(OptionsSql(OptionPlaceholders(|rows|)), OptionArgs(rows)))
        && err == exec(sent.value)
    ensures err == OptionsError(questionIds, questions, exec)
  {
    var args: seq<Arg> := [];
    var vals: seq<string> := [];
    var idx := 1;
    ghost var done: seq<OptionRow> := [];
    var qi := 0;
    while qi < |questions|
      invariant 0 <= qi <= |questions|
      invariant qi <= |questionIds| && done == OptionRows(questionIds, questions[..qi])
      invariant idx == 3 * |done| + 1
      invariant vals == OptionPlaceholders(|done|)
      invariant args == OptionArgs(done)
    {
      if qi >= |questionIds| {
        return Some(LengthMismatch), None;
      }
      var qId := questionIds[qi];
      var options := questions[qi].options;
      vals, args, idx := AppendOptionRows(qId, options, vals, args, idx, done);
      done := done + RowsOf(qId, options);
      assert questions[..qi + 1][..qi] == questions[..qi];
      qi := qi + 1;
    }
    assert questions[..qi] == questions;
    if |vals| == 0 {
      return None, None;
    }
    var stmt := Statement(OptionsSql(vals), args);
    sent := Some(stmt);
    err := exec(stmt);
  }
}
