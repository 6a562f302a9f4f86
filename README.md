# AI-powered grading and feedback backend, modelled in Dafny

The backend of the grading system lets an instructor create and edit coding
challenges and lets a student submit code for a challenge. The code is graded by
a hosted language model: the backend sends it the question, the language, the
code and the maximum marks, and returns the JSON object it answers with. A
WebSocket assistant answers a student's doubts, with the current challenge and
code as context.

This project models the following pieces of that backend:

- **`Js`** (`js.dfy`) holds the part of JavaScript the backend relies on:
  - JSON-like values plus `undefined`, with truthiness, `||`, and property reads (which throw on `null` and `undefined`);
  - template-literal string conversion, with numbers as exact integers printed digit by digit;
  - `indexOf`, `lastIndexOf` and `slice` for one-character search strings.
- **`Completions`** (`completions.dfy`) is the chat-completion request and reply.
  - The hosted endpoint is a parameter: a function from request to reply.
- **`Gemini`** (`gemini.dfy`) is `evaluateAnswer`:
  - the defaults for the language and the maximum marks;
  - the grading prompt;
  - the single request it sends;
  - the text between the first `{` and the last `}` of the reply, handed to `JSON.parse`;
  - the mapping of every failure to one error.
- **`Chat`** (`chat.dfy`) is `getChatResponse`: the system prompt, built step by step, and the apology it answers with when the call fails.
- **`Server`** (`server.dfy`) is the WebSocket message handler: ping/pong, doubts answered by the chat, and every exception swallowed.
- **`Routes`** (`routes.dfy`) covers the add-task, update-task and submit-code routes. It has:
  - the pure decision logic (`ValidateTask`, `WriteResponse`, `Submit`);
  - a `Database` class holding the `coding_tasks` and `student_submissions` tables, whose methods apply that logic and update the tables.

Outside facts are parameters:
- the reply of the hosted model;
- what `JSON.parse` makes of a text;
- the error a database query reports.

The code never checks the score against the maximum marks, and the model
follows the code: `Routes.OutOfRangeScorePassesThrough` shows that any score
above the task's maximum is passed back and recorded unchanged.

## Model

| member | source | states |
|---|---|---|
| Js.Or | backend/routes/testroutes.js:24 | `a \|\| b` is `a` when `a` is truthy and `b` otherwise, so it is truthy exactly when one operand is |
| Js.Truthy | backend/routes/testroutes.js:17 | ToBoolean as `!title`, `!task_id`, `if (currentTask)` and `if (studentCode)` use it: `undefined`, `null`, `false`, 0 and "" are falsy, everything else truthy; `Js.Or`, `Routes.ValidateTask` and `Chat.FalsyContextIgnored` are stated in its terms |
| Js.Get | backend/server.js:45 | reading a property throws exactly on `null`/`undefined`, and otherwise gives the own property or `undefined` |
| Js.Field | backend/routes/testroutes.js:15 | the destructuring of `req.body` (also lines 35 and 63): the field when present, `undefined` when not; `Routes.ValidateTask` and `Routes.Submit` are stated in its terms |
| Js.NatDecimalRoundTrip | backend/gemini.js:13 | the numeral the model prints for a non-negative integer reads back as that integer (see the exact-integer line under Left out) |
| Js.ToStr | backend/gemini.js:7-13 | `${…}` interpolation (also chat.js lines 9 and 13): strings as they are, numbers as decimal numerals, `undefined`/`null`/booleans by name, arrays joined with "," and objects as "[object Object]"; `Js.NatDecimalRoundTrip` characterises the numerals |
| Js.ParseDecimal | backend/routes/testroutes.js:69-71 | a string key is numeric exactly when it is a non-empty run of digits |
| Js.DecimalRoundTrip | backend/routes/testroutes.js:69-71 | the numeral of a number, used as a key, selects that number's row |
| Js.LeadingZeroKey | backend/routes/testroutes.js:69-71 | a digit-string key with a leading zero selects the same row as without it, so "007" selects row 7 |
| Js.IndexOf | backend/gemini.js:46 | the result is -1 exactly when the character is absent; otherwise it is an index holding it with no earlier occurrence |
| Js.LastIndexOf | backend/gemini.js:47 | the result is -1 exactly when the character is absent; otherwise it is an index holding it with no later occurrence |
| Js.RelativeIndex | backend/gemini.js:48 | a slice index counts from the end when negative and is clamped to the string |
| Js.Slice | backend/gemini.js:48 | the slice is the substring between the resolved indices, empty when they do not ascend |
| Js.SliceContents | backend/gemini.js:48 | the slice has length to − from of the resolved indices (0 when they do not ascend), and its k-th character is the source's character at from + k |
| Js.SliceInRange | backend/gemini.js:48 | within bounds, a slice is the plain substring |
| Gemini.LanguageOrDefault | backend/gemini.js:3 | "javascript" replaces only an `undefined` language |
| Gemini.MaxMarksOrDefault | backend/gemini.js:3 | 100 replaces only an `undefined` maximum |
| Gemini.DefaultArguments | backend/gemini.js:3 | omitting language and maximum is the same as passing "javascript" and 100 |
| Gemini.NullMaxMarksKept | backend/gemini.js:3 | a `null` maximum is printed into the prompt, not defaulted |
| Gemini.PromptParts | backend/gemini.js:4-26 | the template cut into its 19 literal and interpolated pieces, whitespace included; `Gemini.PromptMentions` states what they put in the prompt |
| Gemini.EvaluationPrompt | backend/gemini.js:4-26 | the prompt text: the pieces joined, with the question, code, language and maximum interpolated; characterised by `Gemini.PromptMentions` |
| Gemini.PromptMentions | backend/gemini.js:4-26 | the prompt contains the question line, the language line, the code fenced and tagged with the language, and the marks line, and it ends with the required JSON shape |
| Gemini.EvaluationRequest | backend/gemini.js:29-36 | one request to llama-3.1-8b-instant with a single user message holding the prompt, defaults applied |
| Gemini.JsonSpan | backend/gemini.js:46-48 | the slice from `indexOf("{")` to `lastIndexOf("}") + 1`; characterised by `Gemini.SpanOfObject`, `Gemini.SpanWithoutOpen`, `Gemini.SpanWithoutClose`, `Gemini.SpanCloseBeforeOpen` and `Gemini.SpanShape` |
| Gemini.SpanOfObject | backend/gemini.js:46-48 | with a `{` at or before the last `}`, the parsed text runs from the first `{` to the last `}` inclusive, and nothing cut away holds an earlier `{` or a later `}` |
| Gemini.SpanWithoutClose | backend/gemini.js:47-48 | a reply without `}` gives the empty text |
| Gemini.SpanWithoutOpen | backend/gemini.js:46-48 | a reply without `{` gives "" or "}"; it gives "}" exactly when the reply ends with `}` |
| Gemini.SpanCloseBeforeOpen | backend/gemini.js:46-48 | when the last `}` precedes the first `{`, the text is empty |
| Gemini.SpanShape | backend/gemini.js:46-48 | the parsed text is "", "}" or a brace-delimited span |
| Gemini.EvaluateAnswer | backend/gemini.js:28-52 | the call succeeds exactly when the reply arrives with string content whose span parses, and then it returns the parse unvalidated; every failure is "Failed to evaluate code with AI." |
| Gemini.OneRequest | backend/gemini.js:29-48 | the outcome depends only on the reply to the evaluation request |
| Gemini.ReplyWithoutCloseFails | backend/gemini.js:47-51 | a reply without `}` fails the evaluation when the empty text does not parse |
| Gemini.ReplyWithoutOpenFails | backend/gemini.js:46-51 | a reply without `{` fails when neither "" nor "}" parses |
| Gemini.ParsedObjectReturnedAsIs | backend/gemini.js:45-48 | a parsable brace span is returned exactly as `JSON.parse` gives it |
| Chat.BuildSystemPrompt | backend/chat.js:6-16 | the step-by-step `+=` assembly gives the specified system prompt |
| Chat.SystemPrompt | backend/chat.js:6-16 | the system prompt the appends produce; characterised by `Chat.Middle`, `Chat.PromptFrame`, `Chat.TaskBlockFollowsPersona`, `Chat.CodeBlockPrecedesClosing` and `Chat.PromptGrowsIffContext` |
| Chat.TaskBlock | backend/chat.js:9 | the non-empty task block: "Challenge Title: " and "Challenge Description: " lines with the task's title and description interpolated |
| Chat.CodeBlock | backend/chat.js:13 | the non-empty block "Student's Current Code:" with the code in a fence |
| Chat.Middle | backend/chat.js:6-16 | the system prompt is the persona, then the task block exactly when the task is truthy, then the code block exactly when the code is truthy, then the closing instruction, with nothing else between |
| Chat.PromptFrame | backend/chat.js:6-16 | the prompt starts with the persona and ends with the closing instruction |
| Chat.TaskBlockFollowsPersona | backend/chat.js:8-10 | a truthy task puts its title and description block right after the persona |
| Chat.CodeBlockPrecedesClosing | backend/chat.js:12-14 | truthy code puts the fenced code block right before the closing instruction |
| Chat.FalsyContextIgnored | backend/chat.js:8-14 | a falsy task or code contributes nothing, as if absent |
| Chat.PromptGrowsIffContext | backend/chat.js:8-16 | the prompt is longer than persona plus closing exactly when a truthy task or code is given |
| Chat.EmptyContextPrompt | backend/chat.js:3-16 | the default context `{}` gives persona plus closing instruction |
| Chat.ChatRequestFor | backend/chat.js:22-27 | the request holds the system prompt first and the student's message second, unchanged |
| Chat.GetChatResponse | backend/chat.js:3-44 | the call fails exactly on a `null` context; a failed reply gives the apology, and an answer is returned as is |
| Chat.FailureGivesApology | backend/chat.js:41-43 | when the one request the call sends fails, the answer is the apology |
| Server.HandleMessage | backend/server.js:42-60 | at most one frame is sent per message, and only for data that parses to a non-null value |
| Server.Frame | backend/server.js:49-55 | a frame `{ type, payload: { message } }` as sent for the pong and the chat answer; `Server.PingGetsPong` and `Server.AskGetsAnswer` are stated with it |
| Server.PingGetsPong | backend/server.js:47-50 | `ping-socket` gets exactly one `pong-socket` frame saying "Connection Alive!" |
| Server.AskGetsAnswer | backend/server.js:52-56 | `ask-doubt` with a payload gets exactly one `receive-response` frame carrying the chat answer |
| Server.AskWithoutPayloadSilent | backend/server.js:53-59 | `ask-doubt` with a missing payload or a `null` context throws and is swallowed: nothing is sent |
| Server.OtherTypesSilent | backend/server.js:47-56 | a message of any other type is ignored |
| Server.UnparseableSilent | backend/server.js:44-59 | data that does not parse sends nothing |
| Server.EndpointOnlyForDoubts | backend/server.js:47-56 | only `ask-doubt` consults the endpoint |
| Routes.ValidateTask | backend/routes/testroutes.js:17-24 | a 400 exactly when the title or the description is falsy; otherwise the fields, with sample code defaulting to "" and maximum marks to 100 |
| Routes.AcceptedFieldsStored | backend/routes/testroutes.js:17-24 | accepted fields have a truthy title, description and maximum, and a truthy or empty sample code |
| Routes.FalsyMaxMarksDefaulted | backend/routes/testroutes.js:24 | a maximum of 0 or any other falsy value becomes 100 |
| Routes.WriteResponse | backend/routes/testroutes.js:17-27 | a rejected body gets its 400; otherwise a query error is a 500 carrying its message, and success is a 200 with the route's message |
| Routes.RejectedBeforeQuery | backend/routes/testroutes.js:37-39 | a rejected body is answered the same whatever the query would report |
| Routes.KeyOf | backend/routes/testroutes.js:69-71 | a non-negative number or a digit string selects a task id; a negative number and anything else select none |
| Routes.LookupRows | backend/routes/testroutes.js:69-74 | the lookup returns at most one row, and exactly one when the key names a stored task; that row is the task |
| Routes.SubmissionFor | backend/routes/testroutes.js:87-97 | reading the result's fields fails exactly on a `null` result |
| Routes.Submit | backend/routes/testroutes.js:62-110 | the status is 200, 400, 404 or 500; an insert is issued exactly on 200, and then it carries the request's task id and code and the evaluator's result is the response body |
| Routes.MissingFieldsRejected | backend/routes/testroutes.js:65-67 | a falsy task id or code is a 400, with no lookup or evaluation |
| Routes.LookupErrorIs500 | backend/routes/testroutes.js:73 | a lookup error is a 500 carrying its message |
| Routes.UnknownTaskIs404 | backend/routes/testroutes.js:74-75 | no matching row is a 404 "Task not found" |
| Routes.EvaluatorNotConsulted | backend/routes/testroutes.js:65-75 | the 400, 404 and lookup-500 answers do not depend on the evaluator |
| Routes.EvaluationArguments | backend/routes/testroutes.js:80-85 | the evaluation gets the task's description, the code, the language or "javascript", and the task's maximum |
| Routes.SuccessReturnsResult | backend/routes/testroutes.js:87-103 | a result is returned unchanged with one insert: user id defaulting to null, improvements stringified, grade and score copied |
| Routes.EvaluationFailureIs500 | backend/routes/testroutes.js:104-107 | a failed evaluation or a `null` result is a 500 "AI Evaluation Failed" with no insert |
| Routes.OutOfRangeScorePassesThrough | backend/routes/testroutes.js:80-103 | for any task maximum m and any result whose score s exceeds m, the evaluation gets m, the result is returned unchanged and s is recorded as the scored marks |
| Routes.ReplyWithoutCloseIs500 | backend/routes/testroutes.js:80-107 | when the reply to the one evaluation request has no `}`, the route ends in a 500 and no submission |
| Routes.AiEvaluator | backend/routes/testroutes.js:80-85 | the evaluation the route runs: `evaluateAnswer` over the given endpoint and parser; `Routes.ReplyWithoutCloseIs500` connects it to `Gemini.ReplyWithoutCloseFails` |
| Routes.Database.AddTask | backend/routes/testroutes.js:14-29 | the response is the write response; a valid body whose insert succeeds adds a row under the next id, and nothing else changes |
| Routes.Database.UpdateTask | backend/routes/testroutes.js:33-49 | the response is the write response, a success even when no row matches; a valid body overwrites the row its id names, if any |
| Routes.Database.SubmitCode | backend/routes/testroutes.js:62-110 | the response is the submit outcome's; a submission is appended exactly when an insert is issued and succeeds, and every submission names an existing task |
| Routes.Database.Valid | backend/routes/testroutes.js:14-110 | the table invariant the three routes keep: each task is stored under its own id below the next id, with the fields the routes write, and every submission names a stored task; `AddTask`, `UpdateTask` and `SubmitCode` preserve it |

## Left out

- The HTTP transport to the hosted model is not modelled: the URL, the headers, the bearer token from the environment, the 30-second timeout of the chat call, and the temperatures 0.1 and 0.7. A request is reduced to its model name and messages, and the reply is a parameter.
- `JSON.parse` and `JSON.stringify` are not modelled internally. Parsing is a parameter from text to value. A stringified value is kept symbolically as `Routes.Stringified`.
- Numbers are exact, unbounded integers. There is no NaN, no -0 and no fractional value. A JavaScript number is a double: from 10^21 on, a template literal prints it in exponent notation (`1e+21`), and integers above 2^53 are rounded. Neither is modelled, so `Js.NatDecimalRoundTrip` holds of the model's numerals, not of JavaScript's for such values.
- `Js.ToStr` and `Js.Member` see only own properties of plain objects. Inherited properties (such as a string's `length`) and objects with their own `toString` are not modelled, so string conversion never throws in the model.
- `Gemini.EvaluateAnswer`: every reply whose content is not a string is a failure. In the source, array content has `indexOf` and `slice` methods of its own, and this is not modelled.
- Strings are sequences of Dafny characters, not UTF-16 code units.
- `Routes.KeyOf` and `Routes.Database.UpdateTask` cover only what MySQL does with non-negative integers and digit strings. Signs, surrounding whitespace, trailing text after digits (MySQL matches `"7abc"` and `" 7"` to row 7), booleans, arrays and objects as keys all match no row here, and an update with such a URL id changes nothing. Conversions of stored values to the column types are not modelled either.
- `Routes.Database.AddTask`: a failed INSERT leaves the next id unchanged. InnoDB may use up an AUTO_INCREMENT value on an INSERT that fails, so later ids can skip numbers in the real table.
- The callback order of the database driver, and the fire-and-forget timing of the submission insert, are not modelled. The insert's error is only logged, and the model keeps it only to decide whether a row is stored. Console logging is left out.
- The `GET /tasks` and `GET /test` routes, the database seeding, the frontend, the chat test script, the WebSocket connection and close events, the server start-up and CORS are not modelled. They are outside the graded core.
- Concurrent requests and the order in which chat replies are delivered are not modelled. Each handler call is one step.
- A request body is a map of fields. A body that is a JSON array, or that is missing altogether, is not modelled.
- `Gemini.OneRequest`: the number of calls cannot be observed in a function model. The lemma states only that the outcome depends on the reply to the one evaluation request.
- `Server.HandleMessage` returns the frames as values, before `JSON.stringify` and `ws.send`.
- The assistant keeps no state between messages. This holds by construction in the model and is not stated as a lemma.
