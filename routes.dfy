/** The HTTP routes that create and update challenges and grade a submission,
    over an in-memory picture of the two tables they touch. */
module Routes {
  import opened Js
  import Gemini
  import opened Completions

  /** An HTTP status with its JSON body. */
  datatype Response = Response(status: int, body: Value)

  function MessageBody(text: string): Value {
    Obj(map["message" := Str(text)])
  }

  function ErrorBody(text: string): Value {
    Obj(map["error" := Str(text)])
  }

  const TitleRequired := "Title and description are required"
  const ChallengeCreated := "Challenge Created Successfully"
  const ChallengeUpdated := "Challenge Updated Successfully"
  const MissingFields := "Missing fields"
  const TaskNotFound := "Task not found"
  const EvaluationFailed := "AI Evaluation Failed"
  const DefaultMaxMarks := 100
  const DefaultLanguage := "javascript"

  // ---------------------------------------------------------------------
  // Adding and updating a challenge

  /** The values bound to the title, description, sample_code and max_marks
      placeholders of the task INSERT and UPDATE. */
  datatype TaskFields = TaskFields(title: Value, description: Value, sampleCode: Value, maxMarks: Value)

  /** A row of `coding_tasks`. */
  datatype TaskRow = TaskRow(id: nat, fields: TaskFields)

  datatype Checked = Rejected(response: Response) | Accepted(fields: TaskFields)

  /** The check shared by add-task and update-task, and the defaults
      `sample_code || ""` and `max_marks || 100`. */
  function ValidateTask(body: map<string, Value>): (r: Checked)
    ensures r.Rejected? <==> !Truthy(Field(body, "title")) || !Truthy(Field(body, "description"))
    ensures r.Rejected? ==> r.response == Response(400, MessageBody(TitleRequired))
    ensures r.Accepted? ==>
      && r.fields.title == Field(body, "title")
      && r.fields.description == Field(body, "description")
      && r.fields.sampleCode == (if Truthy(Field(body, "sample_code")) then Field(body, "sample_code") else Str(""))
      && r.fields.maxMarks == (if Truthy(Field(body, "max_marks")) then Field(body, "max_marks") else Num(DefaultMaxMarks))
  {
    var title, description := Field(body, "title"), Field(body, "description");
    if !Truthy(title) || !Truthy(description) then Rejected(Response(400, MessageBody(TitleRequired)))
    else Accepted(TaskFields(title, description,
                             Or(Field(body, "sample_code"), Str("")),
                             Or(Field(body, "max_marks"), Num(DefaultMaxMarks))))
  }

  /** What the routes ever write into a task: a truthy title, description
      and maximum, and a sample code that is truthy or "". */
  predicate StoredFields(f: TaskFields) {
    Truthy(f.title) && Truthy(f.description) && Truthy(f.maxMarks)
    && (Truthy(f.sampleCode) || f.sampleCode == Str(""))
  }

  lemma AcceptedFieldsStored(body: map<string, Value>)
    requires ValidateTask(body).Accepted?
    ensures StoredFields(ValidateTask(body).fields)
  {
  }

  /** A maximum of 0 (or any other falsy value) is stored as 100. */
  lemma FalsyMaxMarksDefaulted(body: map<string, Value>)
    requires Truthy(Field(body, "title")) && Truthy(Field(body, "description"))
    requires !Truthy(Field(body, "max_marks"))
    ensures ValidateTask(body).Accepted? && ValidateTask(body).fields.maxMarks == Num(100)
  {
  }

  /** The response to add-task or update-task, given the error the query
      reports (if the body passed the check, so that the query ran). */
  function WriteResponse(body: map<string, Value>, failure: Option<string>, success: string): (r: Response)
    ensures ValidateTask(body).Rejected? ==> r == ValidateTask(body).response
    ensures ValidateTask(body).Accepted? && failure.Some? ==> r == Response(500, ErrorBody(failure.value))
    ensures ValidateTask(body).Accepted? && failure.None? ==> r == Response(200, MessageBody(success))
  {
    match ValidateTask(body)
    case Rejected(response) => response
    case Accepted(_) =>
      match failure
      case Some(message) => Response(500, ErrorBody(message))
      case None => Response(200, MessageBody(success))
  }

  /** A rejected body is answered without the query: its error cannot
      matter. */
  lemma RejectedBeforeQuery(body: map<string, Value>, f1: Option<string>, f2: Option<string>, success: string)
    requires !Truthy(Field(body, "title")) || !Truthy(Field(body, "description"))
    ensures WriteResponse(body, f1, success) == WriteResponse(body, f2, success) == Response(400, MessageBody(TitleRequired))
  {
  }

  // ---------------------------------------------------------------------
  // Grading a submission

  /** How an integer key column compares with a request value: a number, or
      a string of digits. Anything else matches no row. */
  function KeyOf(v: Value): (r: Option<nat>)
    ensures v.Num? && v.n >= 0 ==> r == Some(v.n)
    ensures v.Num? && v.n < 0 ==> r.None?
    ensures v.Str? ==> r == ParseDecimal(v.s)
    ensures !v.Num? && !v.Str? ==> r.None?
  {
    match v
    case Num(n) => if n >= 0 then Some(n) else None
    case Str(s) => ParseDecimal(s)
    case _ => None
  }

  /** The rows of `SELECT * FROM coding_tasks WHERE id=?`. */
  function LookupRows(tasks: map<nat, TaskRow>, key: Value): (rows: seq<TaskRow>)
    ensures |rows| <= 1
    ensures |rows| == 1 <==> KeyOf(key).Some? && KeyOf(key).value in tasks
    ensures |rows| == 1 ==> rows[0] == tasks[KeyOf(key).value]
  {
    match KeyOf(key)
    case Some(k) => if k in tasks then [tasks[k]] else []
    case None => []
  }

  /** The arguments of the one `evaluateAnswer` call. */
  datatype Evaluation = Evaluation(question: Value, studentCode: Value, language: Value, maxMarks: Value)

  /** `JSON.stringify(v)`, left to the encoder. */
  datatype Stringified = Stringified(source: Value)

  /** The values bound to the `student_submissions` INSERT. */
  datatype SubmissionRow = SubmissionRow(taskId: Value, userId: Value, codeContent: Value, feedback: Value,
                                         improvements: Stringified, grade: Value, scoredMarks: Value)

  /** What a submit-code request does: the response, the evaluation it asks
      for (if any), and the submission INSERT it issues (if any). */
  datatype SubmitOutcome = SubmitOutcome(response: Response, evaluated: Option<Evaluation>, insert: Option<SubmissionRow>)

  /** The submission recorded for a successful evaluation; reading the
      fields of a `null` result throws. */
  function SubmissionFor(body: map<string, Value>, aiResult: Value): (r: Result<SubmissionRow>)
    ensures r.Fail? <==> Nullish(aiResult)
  {
    if Nullish(aiResult) then Fail(TypeErrorMessage)
    else Ok(SubmissionRow(Field(body, "task_id"), Or(Field(body, "user_id"), Null), Field(body, "student_code"),
                          Member(aiResult, "feedback"), Stringified(Member(aiResult, "improvements")),
                          Member(aiResult, "grade"), Member(aiResult, "score")))
  }

  /** `/submit-code`, given what the task lookup returned and what the
      evaluation gives for any arguments. */
  function Submit(body: map<string, Value>, lookup: Result<seq<TaskRow>>,
                  evaluate: Evaluation -> Result<Value>): (o: SubmitOutcome)
    ensures o.response.status in {200, 400, 404, 500}
    ensures o.insert.Some? <==> o.response.status == 200
    ensures o.evaluated.Some? ==> o.response.status in {200, 500}
    ensures o.insert.Some? ==>
      && o.evaluated.Some? && evaluate(o.evaluated.value) == Ok(o.response.body)
      && lookup.Ok? && |lookup.value| > 0
      && o.insert.value.taskId == Field(body, "task_id")
      && o.insert.value.codeContent == Field(body, "student_code")
  {
    var taskId, studentCode := Field(body, "task_id"), Field(body, "student_code");
    if !Truthy(taskId) || !Truthy(studentCode) then
      SubmitOutcome(Response(400, MessageBody(MissingFields)), None, None)
    else
      match lookup
      case Fail(message) => SubmitOutcome(Response(500, ErrorBody(message)), None, None)
      case Ok(rows) =>
        if |rows| == 0 then SubmitOutcome(Response(404, MessageBody(TaskNotFound)), None, None)
        else
          var task := rows[0];
          var ev := Evaluation(task.fields.description, studentCode,
                               Or(Field(body, "language"), Str(DefaultLanguage)), task.fields.maxMarks);
          match evaluate(ev)
          case Fail(_) => SubmitOutcome(Response(500, ErrorBody(EvaluationFailed)), Some(ev), None)
          case Ok(aiResult) =>
            match SubmissionFor(body, aiResult)
            case Fail(_) => SubmitOutcome(Response(500, ErrorBody(EvaluationFailed)), Some(ev), None)
            case Ok(row) => SubmitOutcome(Response(200, aiResult), Some(ev), Some(row))
  }

  /** A missing task id or code is a 400 with no lookup and no evaluation. */
  lemma MissingFieldsRejected(body: map<string, Value>, lookup: Result<seq<TaskRow>>,
                              evaluate: Evaluation -> Result<Value>)
    requires !Truthy(Field(body, "task_id")) || !Truthy(Field(body, "student_code"))
    ensures Submit(body, lookup, evaluate) == SubmitOutcome(Response(400, MessageBody(MissingFields)), None, None)
  {
  }

  /** A failed lookup is a 500 carrying the database's message. */
  lemma LookupErrorIs500(body: map<string, Value>, message: string, evaluate: Evaluation -> Result<Value>)
    requires Truthy(Field(body, "task_id")) && Truthy(Field(body, "student_code"))
    ensures Submit(body, Fail(message), evaluate) == SubmitOutcome(Response(500, ErrorBody(message)), None, None)
  {
  }

  /** No row is a 404 with no evaluation. */
  lemma UnknownTaskIs404(body: map<string, Value>, evaluate: Evaluation -> Result<Value>)
    requires Truthy(Field(body, "task_id")) && Truthy(Field(body, "student_code"))
    ensures Submit(body, Ok([]), evaluate) == SubmitOutcome(Response(404, MessageBody(TaskNotFound)), None, None)
  {
  }

  /** When no evaluation is asked for, the evaluator cannot influence the
      outcome: the 400, 404 and lookup-500 answers never reach it. */
  lemma EvaluatorNotConsulted(body: map<string, Value>, lookup: Result<seq<TaskRow>>,
                              e1: Evaluation -> Result<Value>, e2: Evaluation -> Result<Value>)
    requires Submit(body, lookup, e1).evaluated.None?
    ensures Submit(body, lookup, e1) == Submit(body, lookup, e2)
    ensures Submit(body, lookup, e1).response.status in {400, 404, 500}
  {
  }

  /** A found task is graded with its description, the submitted code, the
      requested language (default "javascript") and the task's maximum. */
  lemma EvaluationArguments(body: map<string, Value>, rows: seq<TaskRow>, evaluate: Evaluation -> Result<Value>)
    requires Truthy(Field(body, "task_id")) && Truthy(Field(body, "student_code"))
    requires |rows| > 0
    ensures Submit(body, Ok(rows), evaluate).evaluated
         == Some(Evaluation(rows[0].fields.description, Field(body, "student_code"),
                            Or(Field(body, "language"), Str(DefaultLanguage)), rows[0].fields.maxMarks))
  {
  }

  /** A successful evaluation is answered with the result unchanged, and
      exactly one submission INSERT is issued for it, with the user id
      defaulting to null and the improvements stringified. */
  lemma SuccessReturnsResult(body: map<string, Value>, rows: seq<TaskRow>, evaluate: Evaluation -> Result<Value>,
                             aiResult: Value)
    requires Truthy(Field(body, "task_id")) && Truthy(Field(body, "student_code"))
    requires |rows| > 0
    requires evaluate(Submit(body, Ok(rows), evaluate).evaluated.value) == Ok(aiResult)
    requires !Nullish(aiResult)
    ensures var o := Submit(body, Ok(rows), evaluate);
      && o.response == Response(200, aiResult)
      && o.insert == Some(SubmissionRow(Field(body, "task_id"), Or(Field(body, "user_id"), Null),
                                        Field(body, "student_code"), Member(aiResult, "feedback"),
                                        Stringified(Member(aiResult, "improvements")),
                                        Member(aiResult, "grade"), Member(aiResult, "score")))
  {
    EvaluationArguments(body, rows, evaluate);
  }

  /** A failed evaluation, or a `null` result, is a 500 with no INSERT. */
  lemma EvaluationFailureIs500(body: map<string, Value>, rows: seq<TaskRow>, evaluate: Evaluation -> Result<Value>)
    requires Truthy(Field(body, "task_id")) && Truthy(Field(body, "student_code"))
    requires |rows| > 0
    requires var r := evaluate(Submit(body, Ok(rows), evaluate).evaluated.value); r.Fail? || Nullish(r.value)
    ensures Submit(body, Ok(rows), evaluate) == SubmitOutcome(Response(500, ErrorBody(EvaluationFailed)),
                                                              Submit(body, Ok(rows), evaluate).evaluated, None)
  {
    EvaluationArguments(body, rows, evaluate);
  }

  /** The score is never checked against the task's maximum: a result whose
      score exceeds it is passed back and recorded unchanged. */
  lemma OutOfRangeScorePassesThrough(body: map<string, Value>, rows: seq<TaskRow>,
                                     evaluate: Evaluation -> Result<Value>, aiResult: Value, m: int, s: int)
    requires Truthy(Field(body, "task_id")) && Truthy(Field(body, "student_code"))
    requires |rows| > 0 && rows[0].fields.maxMarks == Num(m)
    requires evaluate(Submit(body, Ok(rows), evaluate).evaluated.value) == Ok(aiResult)
    requires aiResult.Obj? && Member(aiResult, "score") == Num(s) && s > m
    ensures var o := Submit(body, Ok(rows), evaluate);
      && o.evaluated.Some? && o.evaluated.value.maxMarks == Num(m)
      && o.response == Response(200, aiResult)
      && o.insert.Some? && o.insert.value.scoredMarks == Num(s)
  {
    SuccessReturnsResult(body, rows, evaluate, aiResult);
  }

  /** The evaluation `/submit-code` runs: `evaluateAnswer` over the given reply and
      JSON parser. */
  function AiEvaluator(endpoint: ChatRequest -> Completion, parse: string -> Result<Value>): Evaluation -> Result<Value> {
    (ev: Evaluation) => Gemini.EvaluateAnswer(ev.question, ev.studentCode, ev.language, ev.maxMarks, endpoint, parse)
  }

  /** A grading reply without `}` ends in a 500 and no submission. */
  lemma ReplyWithoutCloseIs500(body: map<string, Value>, rows: seq<TaskRow>,
                               endpoint: ChatRequest -> Completion, parse: string -> Result<Value>)
    requires Truthy(Field(body, "task_id")) && Truthy(Field(body, "student_code"))
    requires |rows| > 0
    requires parse("").Fail?
    requires var reply := endpoint(Gemini.EvaluationRequest(rows[0].fields.description, Field(body, "student_code"),
                                                            Or(Field(body, "language"), Str(DefaultLanguage)),
                                                            rows[0].fields.maxMarks));
      reply.Answered? && reply.content.Str? && '}' !in reply.content.s
    ensures var o := Submit(body, Ok(rows), AiEvaluator(endpoint, parse));
      o.response == Response(500, ErrorBody(EvaluationFailed)) && o.insert.None?
  {
    var o := Submit(body, Ok(rows), AiEvaluator(endpoint, parse));
    EvaluationArguments(body, rows, AiEvaluator(endpoint, parse));
    var ev := o.evaluated.value;
    var request := Gemini.EvaluationRequest(ev.question, ev.studentCode, ev.language, ev.maxMarks);
    Gemini.ReplyWithoutCloseFails(ev.question, ev.studentCode, ev.language, ev.maxMarks, endpoint, parse,
                                  endpoint(request).content.s);
  }

  // ---------------------------------------------------------------------
  // The tables

  /** The two tables the routes use: `coding_tasks` as a map from id to row
      (with the next AUTO_INCREMENT id), and `student_submissions` as the
      sequence of rows inserted. */
  class Database {
    var tasks: map<nat, TaskRow>
    var nextId: nat
    var submissions: seq<SubmissionRow>

    /** Ids are keys and below the next id; tasks hold what the routes
        write; every submission names a task that exists. */
    ghost predicate Valid()
      reads this
    {
      && (forall id :: id in tasks ==> tasks[id].id == id && id < nextId && StoredFields(tasks[id].fields))
      && (forall i :: 0 <= i < |submissions| ==>
            KeyOf(submissions[i].taskId).Some? && KeyOf(submissions[i].taskId).value in tasks)
    }

    constructor ()
      ensures Valid() && tasks == map[] && nextId == 1 && submissions == []
    {
      tasks, nextId, submissions := map[], 1, [];
    }

    /** `POST /add-task`; `failure` is the error the INSERT reports, if any. */
    method AddTask(body: map<string, Value>, failure: Option<string>) returns (response: Response)
      requires Valid()
      modifies this
      ensures Valid()
      ensures response == WriteResponse(body, failure, ChallengeCreated)
      ensures submissions == old(submissions)
      ensures match ValidateTask(body)
        case Accepted(fields) =>
          if failure.None?
          then tasks == old(tasks)[old(nextId) := TaskRow(old(nextId), fields)] && nextId == old(nextId) + 1
          else tasks == old(tasks) && nextId == old(nextId)
        case Rejected(_) => tasks == old(tasks) && nextId == old(nextId)
    {
      response := WriteResponse(body, failure, ChallengeCreated);
      match ValidateTask(body)
      case Rejected(_) =>
      case Accepted(fields) =>
        if failure.None? {
          AcceptedFieldsStored(body);
          tasks := tasks[nextId := TaskRow(nextId, fields)];
          nextId := nextId + 1;
        }
    }

    /** `PUT /update-task/:id`. Every row the id matches is overwritten; the
        answer is a success even when it matches none. */
    method UpdateTask(id: string, body: map<string, Value>, failure: Option<string>) returns (response: Response)
      requires Valid()
      modifies this`tasks
      ensures Valid()
      ensures response == WriteResponse(body, failure, ChallengeUpdated)
      ensures match ValidateTask(body)
        case Accepted(fields) =>
          tasks == (if failure.None? && ParseDecimal(id).Some? && ParseDecimal(id).value in old(tasks)
                    then old(tasks)[ParseDecimal(id).value := TaskRow(ParseDecimal(id).value, fields)]
                    else old(tasks))
        case Rejected(_) => tasks == old(tasks)
    {
      response := WriteResponse(body, failure, ChallengeUpdated);
      match ValidateTask(body)
      case Rejected(_) =>
      case Accepted(fields) =>
        if failure.None? {
          match ParseDecimal(id)
          case Some(k) =>
            if k in tasks {
              AcceptedFieldsStored(body);
              tasks := tasks[k := TaskRow(k, fields)];
            }
          case None =>
        }
    }

    /** `POST /submit-code`. `lookupFailure` is the error the SELECT reports,
        `insertFailure` the error the INSERT reports; the second is only
        logged, so the response does not depend on it, and a row is kept
        exactly when an INSERT was issued and succeeded. */
    method SubmitCode(body: map<string, Value>, lookupFailure: Option<string>,
                      evaluate: Evaluation -> Result<Value>, insertFailure: Option<string>)
      returns (response: Response)
      requires Valid()
      modifies this`submissions
      ensures Valid()
      ensures var lookup := if lookupFailure.Some? then Fail(lookupFailure.value)
                            else Ok(LookupRows(tasks, Field(body, "task_id")));
        var o := Submit(body, lookup, evaluate);
        && response == o.response
        && submissions == old(submissions) + (if o.insert.Some? && insertFailure.None? then [o.insert.value] else [])
    {
      var lookup := if lookupFailure.Some? then Fail(lookupFailure.value)
                    else Ok(LookupRows(tasks, Field(body, "task_id")));
      var o := Submit(body, lookup, evaluate);
      response := o.response;
      if o.insert.Some? && insertFailure.None? {
        submissions := submissions + [o.insert.value];
      }
    }
  }
}
