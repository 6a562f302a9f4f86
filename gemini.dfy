/** Code evaluation: `evaluateAnswer` builds a grading prompt, posts it once to the
    completion endpoint, cuts the JSON object out of the reply and parses it. */
module Gemini {
  import opened Js
  import opened Completions

  const DefaultLanguage := "javascript"
  const DefaultMaxMarks := 100

  /** The one error every failure of an evaluation is turned into. */
  const EvaluationFailure := "Failed to evaluate code with AI."

  /** The default parameters: each applies only when the argument is
      `undefined` (a `null` is kept). */
  function LanguageOrDefault(language: Value): (r: Value)
    ensures language.Undefined? ==> r == Str(DefaultLanguage)
    ensures !language.Undefined? ==> r == language
  {
    if language.Undefined? then Str(DefaultLanguage) else language
  }

  function MaxMarksOrDefault(maxMarks: Value): (r: Value)
    ensures maxMarks.Undefined? ==> r == Num(DefaultMaxMarks)
    ensures !maxMarks.Undefined? ==> r == maxMarks
  {
    if maxMarks.Undefined? then Num(DefaultMaxMarks) else maxMarks
  }

  // The fixed parts of the grading prompt, in order.
  const Intro := "\n    You are an expert software engineer and teacher. Your task is to evaluate a student's code submission.\n    \n    "
  const QuestionLabel := "Question: "
  const LanguageLabel := "Language: "
  const CodeLabel := "Student Code: \n    "
  const Fence := "```"
  const Indent := "\n    "
  const MarksLabel := "Max Marks: "
  const ResponseShape := "\n    Return ONLY a JSON object with this exact structure:\n    {\n      \"score\": <calculated_score_out_of_max_marks>,\n      \"grade\": \"<grade_letter_e.g_A_B_C_D_F>\",\n      \"feedback\": \"<concise_summary_of_strengths_and_weaknesses>\",\n      \"improvements\": [\n        \"<suggestion_1>\",\n        \"<suggestion_2>\",\n        ...\n      ]\n    }\n  "

  /** The pieces of the grading prompt, in order, given the interpolated
      question, code, language and maximum marks. */
  function PromptParts(q: string, c: string, l: string, m: string): seq<string> {
    [ Intro, QuestionLabel, q,
      Indent, LanguageLabel, l,
      Indent, CodeLabel, Fence, l,
      Indent, c,
      Indent, Fence,
      Indent, MarksLabel, m,
      "\n", ResponseShape ]
  }

  /** The grading prompt, each argument interpolated as a template literal
      does. */
  function EvaluationPrompt(question: Value, studentCode: Value, language: Value, maxMarks: Value): string {
    PromptText(ToStr(question), ToStr(studentCode), ToStr(language), ToStr(maxMarks))
  }

  function PromptText(q: string, c: string, l: string, m: string): string {
    Concat(PromptParts(q, c, l, m))
  }

  /** The prompt names the question, the language, the student code inside a
      fence tagged with the language, and the maximum marks, and it ends by
      asking for a JSON object with exactly the four result fields. */
  lemma PromptMentions(question: Value, studentCode: Value, language: Value, maxMarks: Value)
    ensures var p := EvaluationPrompt(question, studentCode, language, maxMarks);
      && Occurs(QuestionLabel + ToStr(question) + Indent, p)
      && Occurs(LanguageLabel + ToStr(language) + Indent, p)
      && Occurs(Fence + ToStr(language) + Indent + ToStr(studentCode) + Indent + Fence, p)
      && Occurs(MarksLabel + ToStr(maxMarks) + "\n", p)
      && EndsWith(p, ResponseShape)
  {
    TextMentions(ToStr(question), ToStr(studentCode), ToStr(language), ToStr(maxMarks));
  }

  lemma TextMentions(q: string, c: string, l: string, m: string)
    ensures var p := PromptText(q, c, l, m);
      && Occurs(QuestionLabel + q + Indent, p)
      && Occurs(LanguageLabel + l + Indent, p)
      && Occurs(Fence + l + Indent + c + Indent + Fence, p)
      && Occurs(MarksLabel + m + "\n", p)
      && EndsWith(p, ResponseShape)
  {
    var ps := PromptParts(q, c, l, m);
    QuestionMentioned(ps, q);
    LanguageMentioned(ps, l);
    CodeFenced(ps, c, l);
    MarksMentioned(ps, m);
    EndsWithLastPart(ps);
  }

  lemma QuestionMentioned(ps: seq<string>, q: string)
    requires |ps| == 19 && ps[1] == QuestionLabel && ps[2] == q && ps[3] == Indent
    ensures Occurs(QuestionLabel + q + Indent, Concat(ps))
  {
    assert ps[1..4] == [QuestionLabel, q, Indent];
    PartsOccur(ps, 1, [QuestionLabel, q, Indent]);
    ConcatThree(QuestionLabel, q, Indent);
  }

  lemma LanguageMentioned(ps: seq<string>, l: string)
    requires |ps| == 19 && ps[4] == LanguageLabel && ps[5] == l && ps[6] == Indent
    ensures Occurs(LanguageLabel + l + Indent, Concat(ps))
  {
    assert ps[4..7] == [LanguageLabel, l, Indent];
    PartsOccur(ps, 4, [LanguageLabel, l, Indent]);
    ConcatThree(LanguageLabel, l, Indent);
  }

  lemma CodeFenced(ps: seq<string>, c: string, l: string)
    requires |ps| == 19
    requires ps[8] == Fence && ps[9] == l && ps[10] == Indent && ps[11] == c && ps[12] == Indent && ps[13] == Fence
    ensures Occurs(Fence + l + Indent + c + Indent + Fence, Concat(ps))
  {
    var run := [Fence, l, Indent] + [c, Indent, Fence];
    assert ps[8..14] == run;
    PartsOccur(ps, 8, run);
    ConcatAppend([Fence, l, Indent], [c, Indent, Fence]);
    ConcatThree(Fence, l, Indent);
    ConcatThree(c, Indent, Fence);
    assert Concat(run) == (Fence + l + Indent) + (c + Indent + Fence);
    assert (Fence + l + Indent) + (c + Indent + Fence) == Fence + l + Indent + c + Indent + Fence;
  }

  lemma MarksMentioned(ps: seq<string>, m: string)
    requires |ps| == 19 && ps[15] == MarksLabel && ps[16] == m && ps[17] == "\n"
    ensures Occurs(MarksLabel + m + "\n", Concat(ps))
  {
    assert ps[15..18] == [MarksLabel, m, "\n"];
    PartsOccur(ps, 15, [MarksLabel, m, "\n"]);
    ConcatThree(MarksLabel, m, "\n");
  }

  lemma EndsWithLastPart(ps: seq<string>)
    requires |ps| > 0
    ensures EndsWith(Concat(ps), ps[|ps| - 1])
  {
    var n := |ps| - 1;
    assert ps == ps[..n] + [ps[n]];
    ConcatAppend(ps[..n], [ps[n]]);
    assert Concat([ps[n]]) == ps[n] + "";
  }

  lemma PartsOccur(ps: seq<string>, i: nat, run: seq<string>)
    requires i + |run| <= |ps| && ps[i..i + |run|] == run
    ensures Occurs(Concat(run), Concat(ps))
  {
    OccursPart(ps, i, i + |run|);
  }

  /** The single request of an evaluation: one user message holding the
      prompt, defaults applied. */
  function EvaluationRequest(question: Value, studentCode: Value, language: Value, maxMarks: Value): (r: ChatRequest)
    ensures r.model == ModelName && |r.messages| == 1 && r.messages[0].role == "user"
    ensures r.messages[0].content
      == Str(EvaluationPrompt(question, studentCode, LanguageOrDefault(language), MaxMarksOrDefault(maxMarks)))
  {
    ChatRequest(ModelName, [Message("user",
      Str(EvaluationPrompt(question, studentCode, LanguageOrDefault(language), MaxMarksOrDefault(maxMarks))))])
  }

  /** The text handed to JSON.parse: from the first `{` up to and including
      the last `}`, with `slice`'s treatment of a missing brace (-1 as a
      start counts from the end; 0 as an end empties the slice). */
  function JsonSpan(content: string): string {
    Slice(content, IndexOf(content, '{'), LastIndexOf(content, '}') + 1)
  }

  /** When the last `}` is at or after the first `{`, the span is exactly the
      text between them inclusive: it starts with `{`, ends with `}`, and
      what is cut away holds no `{` before and no `}` after. */
  lemma SpanOfObject(content: string)
    requires '{' in content
    requires LastIndexOf(content, '}') >= IndexOf(content, '{')
    ensures var i, k := IndexOf(content, '{'), LastIndexOf(content, '}');
      var span := JsonSpan(content);
      && span == content[i..k + 1]
      && |span| > 0 && span[0] == '{' && span[|span| - 1] == '}'
      && '{' !in content[..i] && '}' !in content[k + 1..]
      && content == content[..i] + span + content[k + 1..]
  {
    var i, k := IndexOf(content, '{'), LastIndexOf(content, '}');
    assert '{' !in content[..i] && content[i] == '{';
    assert '}' !in content[k + 1..] && content[k] == '}';
    assert JsonSpan(content) == Slice(content, i, k + 1);
    BracedSlice(content, i, k);
  }

  /** The slice from a `{` at i to a `}` at k, inclusive, is the substring
      between them, and with what lies before and after makes up the text. */
  lemma BracedSlice(s: string, i: int, k: int)
    requires 0 <= i <= k < |s| && s[i] == '{' && s[k] == '}'
    ensures var r := Slice(s, i, k + 1);
      && r == s[i..k + 1] && |r| > 0 && r[0] == '{' && r[|r| - 1] == '}'
      && s == s[..i] + r + s[k + 1..]
  {
    SliceEnds(s, i, k);
    ThreeWay(s, i, k + 1);
  }

  /** With no `}` the end is 0, so the span is empty. */
  lemma SpanWithoutClose(content: string)
    requires '}' !in content
    ensures JsonSpan(content) == ""
  {
  }

  /** With no `{` the start is -1, i.e. the last character: the span is empty
      unless the content ends with `}`, and then it is just "}". */
  lemma SpanWithoutOpen(content: string)
    requires '{' !in content
    ensures JsonSpan(content) == "" || JsonSpan(content) == "}"
    ensures JsonSpan(content) == "}" <==> |content| > 0 && content[|content| - 1] == '}'
  {
    if |content| > 0 && content[|content| - 1] == '}' {
      assert LastIndexOf(content, '}') == |content| - 1;
    }
  }

  /** When every `}` comes before the first `{`, the span is empty. */
  lemma SpanCloseBeforeOpen(content: string)
    requires '{' in content && '}' in content
    requires LastIndexOf(content, '}') < IndexOf(content, '{')
    ensures JsonSpan(content) == ""
  {
  }

  /** Every span is empty, "}", or a braced text from the content. */
  lemma SpanShape(content: string)
    ensures var span := JsonSpan(content);
      || span == ""
      || span == "}"
      || (|span| >= 2 && span[0] == '{' && span[|span| - 1] == '}')
  {
    if '{' !in content {
      SpanWithoutOpen(content);
    } else if '}' !in content {
      SpanWithoutClose(content);
    } else if LastIndexOf(content, '}') < IndexOf(content, '{') {
      SpanCloseBeforeOpen(content);
    } else {
      SpanOfObject(content);
      assert IndexOf(content, '{') != LastIndexOf(content, '}');
    }
  }

  /** `evaluateAnswer(question, studentCode, language, maxMarks)`, given how
      the endpoint replies and how JSON.parse treats a text. Whatever
      JSON.parse returns is the result, unvalidated. Every failure is
      `EvaluationFailure`: the call failing, a reply whose content is not a
      string (it has no `indexOf`), or a span JSON.parse rejects. */
  function EvaluateAnswer(question: Value, studentCode: Value, language: Value, maxMarks: Value,
                          endpoint: ChatRequest -> Completion, parse: string -> Result<Value>): (r: Result<Value>)
    ensures r.Fail? ==> r.message == EvaluationFailure
    ensures var reply := endpoint(EvaluationRequest(question, studentCode, language, maxMarks));
      && (r.Ok? <==> reply.Answered? && reply.content.Str? && parse(JsonSpan(reply.content.s)).Ok?)
      && (r.Ok? ==> r == parse(JsonSpan(reply.content.s)))
  {
    match endpoint(EvaluationRequest(question, studentCode, language, maxMarks))
    case Failed => Fail(EvaluationFailure)
    case Answered(content) =>
      if !content.Str? then Fail(EvaluationFailure)
      else
        match parse(JsonSpan(content.s))
        case Ok(v) => Ok(v)
        case Fail(_) => Fail(EvaluationFailure)
  }

  /** Omitting the language and the maximum marks is the same as passing
      "javascript" and 100. */
  lemma DefaultArguments(question: Value, studentCode: Value,
                         endpoint: ChatRequest -> Completion, parse: string -> Result<Value>)
    ensures EvaluateAnswer(question, studentCode, Undefined, Undefined, endpoint, parse)
         == EvaluateAnswer(question, studentCode, Str(DefaultLanguage), Num(DefaultMaxMarks), endpoint, parse)
  {
  }

  /** A `null` maximum is not replaced by the default: it is printed. */
  lemma NullMaxMarksKept(question: Value, studentCode: Value, language: Value)
    ensures EvaluationRequest(question, studentCode, language, Null).messages[0].content
         == Str(EvaluationPrompt(question, studentCode, LanguageOrDefault(language), Null))
  {
  }

  /** The outcome depends on the reply to the one evaluation request only:
      two endpoints that answer that request alike give the same outcome. */
  lemma OneRequest(question: Value, studentCode: Value, language: Value, maxMarks: Value,
                   e1: ChatRequest -> Completion, e2: ChatRequest -> Completion, parse: string -> Result<Value>)
    requires e1(EvaluationRequest(question, studentCode, language, maxMarks))
          == e2(EvaluationRequest(question, studentCode, language, maxMarks))
    ensures EvaluateAnswer(question, studentCode, language, maxMarks, e1, parse)
         == EvaluateAnswer(question, studentCode, language, maxMarks, e2, parse)
  {
  }

  /** A reply without `}` always fails, because JSON.parse rejects the empty
      text that is then sliced out. */
  lemma ReplyWithoutCloseFails(question: Value, studentCode: Value, language: Value, maxMarks: Value,
                               endpoint: ChatRequest -> Completion, parse: string -> Result<Value>, content: string)
    requires endpoint(EvaluationRequest(question, studentCode, language, maxMarks)) == Answered(Str(content))
    requires '}' !in content
    requires parse("").Fail?
    ensures EvaluateAnswer(question, studentCode, language, maxMarks, endpoint, parse) == Fail(EvaluationFailure)
  {
    SpanWithoutClose(content);
  }

  /** A reply without `{` fails whenever JSON.parse rejects "" and "}". */
  lemma ReplyWithoutOpenFails(question: Value, studentCode: Value, language: Value, maxMarks: Value,
                              endpoint: ChatRequest -> Completion, parse: string -> Result<Value>, content: string)
    requires endpoint(EvaluationRequest(question, studentCode, language, maxMarks)) == Answered(Str(content))
    requires '{' !in content
    requires parse("").Fail? && parse("}").Fail?
    ensures EvaluateAnswer(question, studentCode, language, maxMarks, endpoint, parse) == Fail(EvaluationFailure)
  {
    SpanWithoutOpen(content);
  }

  /** The object parsed from the braced span is returned unchanged, whatever
      its fields say: a score above the maximum, or missing fields, pass
      through. */
  lemma ParsedObjectReturnedAsIs(question: Value, studentCode: Value, language: Value, maxMarks: Value,
                                 endpoint: ChatRequest -> Completion, parse: string -> Result<Value>,
                                 content: string, parsed: Value)
    requires endpoint(EvaluationRequest(question, studentCode, language, maxMarks)) == Answered(Str(content))
    requires '{' in content && LastIndexOf(content, '}') >= IndexOf(content, '{')
    requires parse(content[IndexOf(content, '{')..LastIndexOf(content, '}') + 1]) == Ok(parsed)
    ensures EvaluateAnswer(question, studentCode, language, maxMarks, endpoint, parse) == Ok(parsed)
  {
    SpanOfObject(content);
  }
}
