/**
 `evaluate_answer`: build the evaluation prompt from the interview question,
 the candidate's answer, the role and the level; send it to the model through
 `run_prompt`; cut the first JSON object out of the reply; parse it; and repair
 it. Each stage that can fail ends the evaluation with its own result shape.
 */
module Evaluator {
  import opened Wrappers
  import opened Template
  import opened Json
  import opened Extractor
  import opened Normalizer
  import opened PyValue
  import opened LlmClient

  /**
   The prompt text up to the `$question` placeholder, in short pieces.
   */
  const PREAMBLE :=
      "\nYou are an expert technical "
    + "interview evaluator.\nQuestion: "

  /** The prompt text after the `$level` placeholder: the schema the reply must follow. */
  const SCHEMA: string := SCHEMA_SCORES + SCHEMA_JUSTIFICATIONS + SCHEMA_CLOSING

  const SCHEMA_SCORES: string :=
    ASK
    + ASK_END
    + SCORE_RELEVANCE
    + SCORE_STRUCTURE
    + SCORE_DEPTH
    + SCORE_ACCURACY
    + SCORE_COMMUNICATION
    + SCORE_TOTAL

  const SCHEMA_JUSTIFICATIONS: string :=
    JUSTIFY_OPEN
    + JUSTIFY_RELEVANCE
    + JUSTIFY_STRUCTURE
    + JUSTIFY_DEPTH
    + JUSTIFY_ACCURACY
    + JUSTIFY_COMMUNICATION

  const SCHEMA_CLOSING: string :=
    TIPS
    + MODEL_ANSWER
    + NOTE
    + NOTE_END

  // The request.
  const ASK :=
      "\n\nEvaluate the candidate's answer "
    + "and return a JSON object ONLY with "
  const ASK_END :=
      "this schema:\n\n{\n"
    + "  \"scores\": {\n"
  // The five rubric scores and the total.
  const SCORE_RELEVANCE :=
      "    \"relevance_and_correctness\": "
    + "int,\n"
  const SCORE_STRUCTURE :=
      "    \"structure_and_clarity\": int,\n"
  const SCORE_DEPTH :=
      "    \"depth_and_examples\": int,\n"
  const SCORE_ACCURACY :=
      "    \"technical_accuracy\": int,\n"
  const SCORE_COMMUNICATION :=
      "    \"communication_and_"
    + "conciseness\": int\n"
  const SCORE_TOTAL :=
      "  },\n"
    + "  \"total_score_out_of_10\": float,\n"
  // The five justifications.
  const JUSTIFY_OPEN :=
      "  \"justifications\": {\n"
  const JUSTIFY_RELEVANCE :=
      "    \"relevance_and_correctness\": "
    + "\"short justification\",\n"
  const JUSTIFY_STRUCTURE :=
      "    \"structure_and_clarity\": \"short "
    + "justification\",\n"
  const JUSTIFY_DEPTH :=
      "    \"depth_and_examples\": \"short "
    + "justification\",\n"
  const JUSTIFY_ACCURACY :=
      "    \"technical_accuracy\": \"short "
    + "justification\",\n"
  const JUSTIFY_COMMUNICATION :=
      "    \"communication_and_conciseness\": "
    + "\"short justification\"\n"
  // Tips, the model answer and the closing instruction.
  const TIPS :=
      "  },\n  \"improvement_tips\": "
    + "[\"tip1\", \"tip2\"],\n"
  const MODEL_ANSWER :=
      "  \"model_answer\": \"concise model "
    + "answer\"\n}\n\n"
  const NOTE :=
      "Return JSON only \U{2014} no extra "
    + "commentary. If you cannot follow "
  const NOTE_END :=
      "the schema exactly, still output a "
    + "JSON object (best-effort).\n"

  /** No piece of literal prompt text holds a `$`. */
  lemma PreambleHasNoDollar() ensures '$' !in PREAMBLE { }
  lemma AskHasNoDollar() ensures '$' !in ASK && ASK[0] == '\n' { }
  lemma AskEndHasNoDollar() ensures '$' !in ASK_END { }
  lemma ScoreRelevanceHasNoDollar() ensures '$' !in SCORE_RELEVANCE { }
  lemma ScoreStructureHasNoDollar() ensures '$' !in SCORE_STRUCTURE { }
  lemma ScoreDepthHasNoDollar() ensures '$' !in SCORE_DEPTH { }
  lemma ScoreAccuracyHasNoDollar() ensures '$' !in SCORE_ACCURACY { }
  lemma ScoreCommunicationHasNoDollar() ensures '$' !in SCORE_COMMUNICATION { }
  lemma ScoreTotalHasNoDollar() ensures '$' !in SCORE_TOTAL { }
  lemma JustifyOpenHasNoDollar() ensures '$' !in JUSTIFY_OPEN { }
  lemma JustifyRelevanceHasNoDollar() ensures '$' !in JUSTIFY_RELEVANCE { }
  lemma JustifyStructureHasNoDollar() ensures '$' !in JUSTIFY_STRUCTURE { }
  lemma JustifyDepthHasNoDollar() ensures '$' !in JUSTIFY_DEPTH { }
  lemma JustifyAccuracyHasNoDollar() ensures '$' !in JUSTIFY_ACCURACY { }
  lemma JustifyCommunicationHasNoDollar() ensures '$' !in JUSTIFY_COMMUNICATION { }
  lemma TipsHasNoDollar() ensures '$' !in TIPS { }
  lemma ModelAnswerHasNoDollar() ensures '$' !in MODEL_ANSWER { }
  lemma NoteHasNoDollar() ensures '$' !in NOTE { }
  lemma NoteEndHasNoDollar() ensures '$' !in NOTE_END { }

  lemma SchemaScoresHasNoDollar()
    ensures '$' !in SCHEMA_SCORES
  {
    AskHasNoDollar();
    AskEndHasNoDollar();
    ScoreRelevanceHasNoDollar();
    ScoreStructureHasNoDollar();
    ScoreDepthHasNoDollar();
    ScoreAccuracyHasNoDollar();
    ScoreCommunicationHasNoDollar();
    ScoreTotalHasNoDollar();
  }

  lemma SchemaJustificationsHasNoDollar()
    ensures '$' !in SCHEMA_JUSTIFICATIONS
  {
    JustifyOpenHasNoDollar();
    JustifyRelevanceHasNoDollar();
    JustifyStructureHasNoDollar();
    JustifyDepthHasNoDollar();
    JustifyAccuracyHasNoDollar();
    JustifyCommunicationHasNoDollar();
  }

  lemma SchemaClosingHasNoDollar()
    ensures '$' !in SCHEMA_CLOSING
  {
    TipsHasNoDollar();
    ModelAnswerHasNoDollar();
    NoteHasNoDollar();
    NoteEndHasNoDollar();
  }

  lemma SchemaHasNoDollar()
    ensures '$' !in SCHEMA
  {
    SchemaScoresHasNoDollar();
    SchemaJustificationsHasNoDollar();
    SchemaClosingHasNoDollar();
  }

  lemma SchemaStartsWithNewline()
    ensures |SCHEMA| > 0 && SCHEMA[0] == '\n'
  {
    AskHasNoDollar();
  }

  /** `EVAL_PROMPT`, as literal text and placeholders. */
  const PROMPT_SEGMENTS: seq<Segment> :=
    FourSlots(PREAMBLE, "question", "\nCandidate Answer: ", "answer", "\nRole: ", "role",
              "\nLevel: ", "level", SCHEMA)

  /** The template string of `EVAL_PROMPT`. */
  const EVAL_PROMPT := Source(PROMPT_SEGMENTS)

  /** The `max_output_tokens` the evaluation asks for. */
  const MAX_OUTPUT_TOKENS := 700

  /** The keyword arguments of the `substitute` call. */
  function PromptValues(question: string, answer: string, role: string, level: string): map<string, string> {
    map["question" := question, "answer" := answer, "role" := role, "level" := level]
  }

  /** The short literal pieces around the placeholders. */
  lemma ShortPiecesOk()
    ensures IsIdentifier("question") && IsIdentifier("answer") && IsIdentifier("role") && IsIdentifier("level")
    ensures '$' !in "\nCandidate Answer: " && '$' !in "\nRole: " && '$' !in "\nLevel: "
    ensures "\nCandidate Answer: "[0] == '\n' && "\nRole: "[0] == '\n' && "\nLevel: "[0] == '\n'
  {
  }

  lemma PromptSegmentsWellFormed()
    ensures WellFormed(PROMPT_SEGMENTS)
  {
    ShortPiecesOk();
    PreambleHasNoDollar();
    SchemaHasNoDollar();
    SchemaStartsWithNewline();
    FourSlotsWellFormed(PREAMBLE, "question", "\nCandidate Answer: ", "answer", "\nRole: ", "role",
                        "\nLevel: ", "level", SCHEMA);
  }

  /** `EVAL_PROMPT.substitute(question=..., answer=..., role=..., level=...)`. */
  function BuildPrompt(question: string, answer: string, role: string, level: string): string {
    match Substitute(EVAL_PROMPT, PromptValues(question, answer, role, level))
    case Ok(p) => p
    case Err(_) => ""
  }

  /**
   The prompt: every placeholder replaced by its value verbatim, so that a `$`
   inside the question or the answer is never expanded again and substitution
   never fails.
   */
  lemma PromptSubstitutes(question: string, answer: string, role: string, level: string)
    ensures Substitute(EVAL_PROMPT, PromptValues(question, answer, role, level))
            == Ok(BuildPrompt(question, answer, role, level))
    ensures BuildPrompt(question, answer, role, level)
            == PREAMBLE + question + "\nCandidate Answer: " + answer
               + "\nRole: " + role + "\nLevel: " + level + SCHEMA
  {
    PromptSegmentsWellFormed();
    SubstituteFourSlots(PREAMBLE, "question", "\nCandidate Answer: ", "answer", "\nRole: ", "role",
                        "\nLevel: ", "level", SCHEMA, PromptValues(question, answer, role, level));
  }

  /** The dict `evaluate_answer` returns. */
  datatype Evaluation =
      /** `{"error": ...}`: the model call produced no text */
    | GenerationFailed(error: string)
      /** `{"raw_text": ...}`: the reply holds no balanced object */
    | Unparsed(rawText: string)
      /** `{"raw_text": ..., "parse_error": ...}`: the object found is not valid JSON */
    | ParseFailed(rawText: string, parseError: string)
      /** the repaired evaluation object */
    | Evaluated(data: seq<Field>)

  /**
   `evaluate_answer` once the prompt is built: call the model, cut out the first
   balanced object, parse it and repair it. The model is `generate`; `parse` is
   `json.loads` on a text that starts with `{`, so it yields an object or the
   text of its error.
   */
  method EvaluatePrompt(generate: (string, int) -> CallOutcome, parse: string -> Result<seq<Field>, string>,
                        nums: Numerics, prompt: string)
    returns (r: Evaluation)
    ensures var resp := RunPrompt(generate, prompt, MAX_OUTPUT_TOKENS);
      && (r.GenerationFailed? <==> ErrorOf(resp).Some?)
      && (r.GenerationFailed? ==> r.error == ErrorOf(resp).value)
      && (resp.Generated? && !HasJsonSpan(resp.text) ==> r == Unparsed(resp.text))
      && (resp.Generated? && HasJsonSpan(resp.text) ==>
            exists span :: IsFirstJsonSpan(resp.text, span) &&
              r == match parse(span)
                   case Err(e) => ParseFailed(resp.text, e)
                   case Ok(data) => Evaluated(Normalize(data, nums)))
  {
    var resp := RunPrompt(generate, prompt, MAX_OUTPUT_TOKENS);
    if ErrorOf(resp).Some? {
      return GenerationFailed(ErrorOf(resp).value);
    }
    var text := resp.text;
    var jtxt := ExtractFirstJson(text);
    if jtxt.None? {
      return Unparsed(text);
    }
    var span := jtxt.value;
    match parse(span)
    case Err(e) =>
      r := ParseFailed(text, e);
    case Ok(data) =>
      r := Evaluated(Normalize(data, nums));
    assert IsFirstJsonSpan(text, span);
  }

  /** `evaluate_answer`: the prompt is `EVAL_PROMPT` filled in with the four values. */
  method EvaluateAnswer(generate: (string, int) -> CallOutcome, parse: string -> Result<seq<Field>, string>,
                        nums: Numerics, question: string, answer: string, role: string, level: string)
    returns (r: Evaluation)
    ensures var resp := RunPrompt(generate, BuildPrompt(question, answer, role, level), MAX_OUTPUT_TOKENS);
      && (r.GenerationFailed? <==> ErrorOf(resp).Some?)
      && (r.GenerationFailed? ==> r.error == ErrorOf(resp).value)
      && (resp.Generated? && !HasJsonSpan(resp.text) ==> r == Unparsed(resp.text))
      && (resp.Generated? && HasJsonSpan(resp.text) ==>
            exists span :: IsFirstJsonSpan(resp.text, span) &&
              r == match parse(span)
                   case Err(e) => ParseFailed(resp.text, e)
                   case Ok(data) => Evaluated(Normalize(data, nums)))
  {
    var prompt := BuildPrompt(question, answer, role, level);
    r := EvaluatePrompt(generate, parse, nums, prompt);
  }

  /**
   A reply made of prose without a `{`, a balanced object and anything after it
   is evaluated from that object: parsed, then repaired.
   */
  lemma ReplyWithEmbeddedObject(prose: string, obj: string, rest: string, span: string)
    requires '{' !in prose && MinimalBalanced(obj)
    requires IsFirstJsonSpan(prose + obj + rest, span)
    ensures span == obj
  {
    EmbeddedObjectIsFound(prose, obj, rest);
    FirstJsonSpanUnique(prose + obj + rest, span, obj);
  }
}
