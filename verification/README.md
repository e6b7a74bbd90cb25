# Interview answer evaluator — a Dafny model of its core

The interview assistant asks a generative model to score a candidate's answer
to an interview question. Its core is the evaluation pipeline:

1. `EVAL_PROMPT.substitute(...)` fills the question, the answer, the role and
   the level into a fixed prompt that asks for a JSON object with per-rubric
   `scores`, a `total_score_out_of_10`, justifications, tips and a model answer.
2. `run_prompt` calls the model once and classifies the response. It returns
   the text, or an error dict: no candidates, no text, or an exception.
   `safe_extract_text_from_candidate` finds the text of the first candidate by
   trying eight shape hypotheses in a fixed order.
3. `extract_first_json` cuts the first brace-balanced `{...}` span out of the
   reply.
4. `json.loads` parses that span. `repair_and_normalize` then turns every
   score into an integer and fills in a missing total.
5. `evaluate_answer` returns one of four shapes: `{"error"}`, `{"raw_text"}`,
   `{"raw_text", "parse_error"}`, or the repaired evaluation object.

Modules:

| file | module | models |
|---|---|---|
| `wrappers.dfy` | `Wrappers` | `Option` and `Result` |
| `template.dfy` | `Template` | Python's `string.Template.substitute` |
| `json.dfy` | `Json` | Parsed JSON values and the dict operations the normalizer uses: `k in d`, `d.get(k)`, `d[k] = v`. Also `float()` and `int()` on JSON values. |
| `extractor.dfy` | `Extractor` | `extract_first_json` |
| `normalizer.dfy` | `Normalizer` | `repair_and_normalize` |
| `pyvalue.dfy` | `PyValue` | The Python values the SDK hands back, with the built-ins the client applies to them: `getattr`, `bool`, `str`, `repr`, `[0]`, iteration and `join`. |
| `llm_client.dfy` | `LlmClient` | `safe_extract_text_from_candidate`, and the classification in `run_prompt` |
| `evaluator.dfy` | `Evaluator` | `EVAL_PROMPT` and `evaluate_answer` |

Things outside the model are parameters:

- The model call is a function `generate` from the prompt and the token limit
  to a returned response or a raised exception message.
- `json.loads` is a function `parse` from the extracted text to the parsed
  object or an error message. The text always starts with `{`, so a successful
  parse is an object.
- `float(s)` and `int(s)` on strings are the two partial functions of a
  `Numerics` record.

A Python dict is a sequence of fields in insertion order. Lookup finds the
first field with the key. Assigning a present key replaces that field's value
in place, and assigning a new key appends a field.

A JSON float is a finite real number. `int()` of a float truncates toward
zero.

Three facts about the code worth stating plainly:

- The code joins the content's parts before reading the content's `text`
  (`src/llm_client.py:74-100`). The content's `text` is read only when no
  part has text.
- The result shapes of `evaluate_answer` are not exclusive by key. A parsed
  object that carries its own `error` or `raw_text` field is returned with
  that field: `Normalize` keeps every key other than `scores` and
  `total_score_out_of_10` unchanged.
- The last-resort `str(cand)` text is accepted only when it is not empty and
  differs from `object.__str__(cand)`. That call is `repr(cand)`, so the
  fallback never accepts `None`, a list, a dict, or a scalar whose `str` is
  its `repr` (an int, a float or a bool). It accepts a non-empty string, and
  a scalar or object whose `str` and `repr` differ.

## Model

| member | source | states |
|---|---|---|
| `Template.SubstituteRendersSegments` | src/evaluator.py:102 | A template whose literal text holds no `$` and whose placeholders are identifiers, each followed by a non-identifier character, substitutes without error. The result is the template with each placeholder replaced by its value verbatim. |
| `Evaluator.PromptSubstitutes` | src/evaluator.py:21-51 | `substitute` never fails on the fixed template. The prompt is the fixed preamble, question, "Candidate Answer", answer, "Role", role, "Level", level, then the schema text, concatenated exactly, so a `$` inside a value is never expanded. |
| `Evaluator.EvaluatePrompt` | src/evaluator.py:105-124 | The result is an error exactly when `run_prompt` reported one, and it carries the same error text. A reply with no balanced span gives `raw_text`. Otherwise the first balanced span is parsed: a parse error gives `raw_text` and `parse_error`, and a parsed object gives that object repaired by `Normalize`. |
| `Evaluator.EvaluateAnswer` | src/evaluator.py:101-124 | The same four outcomes, for the prompt built from the question, the answer, the role and the level, with a limit of 700 output tokens. |
| `Evaluator.ReplyWithEmbeddedObject` | src/evaluator.py:112-118 | For prose with no `{`, then a balanced object, then any text, the span that gets parsed is exactly that object. |
| `Extractor.ExtractFirstJson` | src/evaluator.py:53-72 | The result is `None` when the text has no `{`. There is a result exactly when the depth count from the first `{` returns to zero. That result is the shortest balanced span starting at the first `{`: it ends at depth zero, and every proper prefix is deeper. |
| `Extractor.RegexFallbackNeverMatches` | src/evaluator.py:56-61 | The regular-expression fallback is dead code. The scan starts at the first `{` when there is one; otherwise nothing is found, because a match would need a `{`. |
| `Extractor.FirstJsonSpanUnique` | src/evaluator.py:64-71 | At most one span is the first balanced span of a text, so the extractor's answer is determined. |
| `Extractor.MinimalBalancedShape` | src/evaluator.py:64-71 | A returned span opens with `{`, closes with `}`, has as many `{` as `}`, and its depth never goes below zero. |
| `Extractor.BalanceIsCountDifference` | src/evaluator.py:65-69 | The depth counter after any text equals the number of `{` minus the number of `}`. |
| `Extractor.EmbeddedObjectIsFound` | src/evaluator.py:56-71 | Prose without a `{`, then a balanced object, then anything: the object is found. |
| `Extractor.BraceInsideStringEndsSpan` | src/evaluator.py:65-71 | Braces inside JSON strings are counted. For `{"a": "}"}` the span found is `{"a": "}`. |
| `Normalizer.CoerceScore` | src/evaluator.py:79-86 | A score is `int(float(v))` when `float` succeeds (truncated toward zero), else `int(v)` when that succeeds, else 0. An integer score is kept; null, arrays and objects become 0. |
| `Normalizer.CoerceScores` | src/evaluator.py:77-86 | Every score keeps its key and position and becomes an integer equal to its coerced value. Integer scores are unchanged. |
| `Normalizer.CoerceStep` | src/evaluator.py:77-86 | When `scores` is an object, it is replaced by its coerced copy. Otherwise the object is unchanged. No other key's value changes, and the key order stays the same. |
| `Normalizer.TotalFromScores` | src/evaluator.py:88-92 | A missing total, with an object `scores` of integers, becomes the float of their sum and is appended as the last key. Otherwise the object is unchanged. No other key's value changes. |
| `Normalizer.TotalFromLegacyScore` | src/evaluator.py:94-98 | A still missing total becomes `float(score)` when the legacy `score` converts, and stays absent otherwise. An existing total is kept, and no other key's value changes. |
| `Normalizer.Normalize` | src/evaluator.py:74-99 | The repaired object has the same keys in the same order, except that a missing total may be appended. |
| `Normalizer.NormalizeRepairs` | src/evaluator.py:74-99 | An object `scores` gets coerced scores. An existing total is kept. A missing total becomes the sum of the coerced scores as a float when `scores` is an object. Failing that, it becomes `float(score)` when the legacy `score` converts, and stays absent otherwise. Every other key is unchanged. |
| `Normalizer.SumOfCoerced` | src/evaluator.py:88-90 | The filled-in total is the sum of the scores as coerced one by one. |
| `Normalizer.NormalizeIdempotent` | src/evaluator.py:74-99 | Repairing an already repaired object changes nothing. |
| `Json.Put` | src/evaluator.py:80 | `d[k] = v` makes `k` read `v` and leaves every other key's value unchanged. It keeps the key order, and appends `k` when it was absent. |
| `Json.Trunc` | src/evaluator.py:80 | `int()` of a float truncates toward zero. |
| `LlmClient.PartTexts` | src/llm_client.py:80-91 | The texts joined are at most one per part. There are none exactly when no part has a truthy text. |
| `LlmClient.PartTextsOne` | src/llm_client.py:80-91 | One part contributes `str()` of its text when that text is truthy, and nothing otherwise. Its text is its `text` attribute, else for a dict part its `text` or `content`. |
| `LlmClient.PartTextsAppend` | src/llm_client.py:80-91 | The texts of a run of parts are the texts of its first part followed by those of the rest. With `PartTextsOne`, this fixes the result: one `str()` per part with a truthy text, in part order, with the other parts skipped. |
| `LlmClient.SafeExtract` | src/llm_client.py:41-137 | There is no text exactly when the strategy recorded is `none`. The diagnostics record the candidate's type name and whether it has a `content` attribute. A string `content` is returned verbatim. The `str` fallback returns `str(cand)` only when it differs from `repr(cand)`, and no text means `str(cand)` is empty or equals `repr(cand)`. A dict candidate never gets its text from the fallback. `None`, a list, or a scalar whose `str` is its `repr` gets no text. A string candidate yields itself when it is not empty. |
| `LlmClient.SafeExtractIsFirstHit` | src/llm_client.py:41-137 | The nested probing returns the text and strategy of the first hypothesis that holds. The order is: the candidate's own `text`, a string content, the join of the parts, the content's `text`, the dict candidate's `text`, its content's `text`, its content's parts, then the `str` fallback. There is no text exactly when no hypothesis holds. |
| `LlmClient.FirstHitAppend` | src/llm_client.py:41-137 | Trying two lists of hypotheses in turn is the same as trying their concatenation. |
| `PyValue.StrAgainstObjectStr` | src/llm_client.py:128-132 | `object.__str__` is `repr`. It equals `str` for `None`, lists and dicts, and for a scalar or object exactly when its `str` and `repr` texts agree. It is never `str` for a string. |
| `LlmClient.BareDictCandidateGivesNoText` | src/llm_client.py:102-137 | A dict candidate with neither `text` nor `content` gets no text, and the call ends as "No text returned by model". |
| `LlmClient.ErrorOf` | src/llm_client.py:198-205 | A `run_prompt` result has an `error` key exactly when it is not a text result. |
| `LlmClient.ClassifyCandidates` | src/llm_client.py:216-271 | Falsy candidates give "No candidates returned" with the response repr. Otherwise `cands[0]` decides; when indexing it raises, the result is the exception result with that message. A non-empty extracted text gives the text result with the extraction's diagnostics. Anything else gives "No text returned by model", carrying the candidate's `finish_reason`, `safety_ratings`, diagnostics and the response repr. |
| `LlmClient.RunPrompt` | src/llm_client.py:198-281 | An exception from the model call gives the `exception` result with its message. A response without candidates gives exactly the no-candidates result. Every text and no-text result carries the repr of the response. |
| `LlmClient.OnlyFirstCandidateMatters` | src/llm_client.py:235-236 | Candidates after the first never change the outcome. |

## Left out

- Logging, the debug prints and `pprint` dumps in `run_prompt`, and the prompt and text truncations that only feed the log.
- `debug_run`, `debug_run_verbose`, `get_model` and `get_llm`, the `.env` and API-key configuration, and the model name. They are I/O and configuration. An exception raised by `get_model` is outside the model's `try` and is not modelled.
- The traceback texts. `parts_exception` and `cand_dict_exception` in the diagnostics are flags, and the `trace` of the exception result is dropped. `content_attr_error`, `cand_type = 'unknown'` and `str_fallback_error` are not modelled: here reading an attribute, taking a type name and calling `str` never raise.
- `json.loads`, `float(str)` and `int(str)` are parameters and are not modelled. NaN, infinities, float rounding and the overflow of `float(sum(...))` are not modelled: floats are finite reals and integers are unbounded.
- `Json.Put`: does not model a parsed object with repeated keys. `json.loads` keeps the last value, whereas the model reads and replaces the first.
- SDK sequences (the `candidates` and `parts` containers) are Python lists in the model. Objects with their own `__iter__`, `__getitem__` or `get` are not modelled. An object's truthiness is given with it, which covers `__bool__` and `__len__`. Iterating or indexing any other object raises, as it does for a plain object.
- `repr` of strings uses plain single quotes without escapes. The `str` and `repr` texts of SDK objects and scalars are given, not computed.
- The `ValueError` that `string.Template.substitute` raises for an invalid placeholder carries a line and column. The model keeps only the error kind. The fixed prompt never raises it, as `Evaluator.PromptSubstitutes` shows.
- `app.py`, `src/storage.py`, `src/prompts.py`, `src/utils.py` and `list_gemini_models.py` are not part of this model.
