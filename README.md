# Prompt shield and ScanCare tools, modelled in Dafny

This project models the deterministic core of a small Flask application.
The application has two services and a set of agent tools:

- **The prompt firewall** (`app.py`). `POST /shield_prompt` runs an inbound
  prompt through four stages: a harmful-content check, a prompt-injection
  check, PII redaction, and the Gemini model. When the policy asks for it,
  the model's answer is then screened for harmful content and PII. Every
  stage appends one step to a trace. Blocks, redactions and successes are
  written to a structured audit log. `GET /api/logs` reads that log back.
- **The agent tools** (`agents.py`). `check_normal_ranges` classifies lab
  values against a table of normal ranges. `calculate_health_metrics`
  derives risk ladders (cholesterol/HDL ratio, HbA1c, anemia, blood
  pressure). `search_medical_guidelines` looks a condition up in a small
  knowledge base.
- **The earlier ScanCare service** (`app_backup.py`). This covers the upload
  whitelist (`allowed_file`), its audit record (`log_event`), the choice of
  text in `POST /analyze`, and the same `GET /api/logs`.

Modules:

| file | module | what it holds |
|---|---|---|
| `wrappers.dfy` | `Wrappers` | `Option`, Python's `None`-or-value |
| `text.dfy` | `Text` | the Python `str` built-ins the code uses: `find`, `in`, `strip`, `lower`, `split`, `int()` |
| `json.dfy` | `Json` | a decoded JSON value, plus Python truthiness, `key in doc`, `doc[key]` and bool-as-number |
| `audit.dfy` | `Audit` | the log excerpt rules and the `/api/logs` tail scan shared by both services |
| `shield.dfy` | `Shield` | the policy document, the collaborators' shapes, and `shield_prompt` |
| `medical.dfy` | `Medical` | the three agent tools |
| `scancare.dfy` | `ScanCare` | `allowed_file`, ScanCare's `log_event`, and the input choice of `/analyze` |

The collaborators are the detectors of `detectors.py` and the Gemini model.
They are function-typed fields of a `Collaborators` value, so every property
holds for every detector and every model reply. A model call can fail, and
`LlmReply.Failure` carries the exception message. Besides the HTTP reply,
`ShieldPrompt` returns two lists:

- the audit events the request writes, in order;
- the collaborator calls it makes, in order.

That makes "which collaborator saw which text" a property one can state.

Each imperative handler is a method proved equal to a specification
function: `ShieldPrompt` to `Shielded`, `GetLogs` to `Events`/`Tail`,
`CheckNormalRanges` to `RangeReport`, `CalculateHealthMetrics` to
`HealthMetrics`, and `SearchGuidelines` to `Guideline`. The lemmas state what
the source promises about those functions.

A few behaviours of the code are worth stating plainly:

- A harmful prompt is blocked after one trace step; the injection check does
  not run (app.py:127-146).
- Only the LLM response is cut to an excerpt in the audit record; both
  prompts are logged in full (app.py:69-72).
- A response blocked by response screening gets status 403, with status
  `blocked_response` (app.py:233-239).
- `/api/logs` scans the last `limit` *lines* of the file, not the last
  `limit` events. Python's `lines[-limit:]` rules apply: a zero limit scans
  the whole file, and a negative one drops lines from the front
  (app.py:302).
- An LLM failure does not end the request. The error text is carried on as
  the response and screened like any other response. The request then ends
  in a SUCCESS event, or in a BLOCK event when response screening blocks the
  text; no separate error event is written (app.py:199-268).
- `calculate_health_metrics` grades blood pressure with the ladder as
  written at agents.py:191, which the model follows; see "## Findings".

## Model

| member | source | states |
|---|---|---|
| Shield.RequestPolicy | app.py:120-123 | A detector listed under `enabled_detectors` gets its own entry. An unlisted one gets the default entry: enabled, no strategy, no entity types, and threshold 0.5 for harmful content and none for the others. |
| Shield.ScreeningEnabled | app.py:210-213 | Response screening runs exactly when `response_screening.enabled` is explicitly true; a missing section leaves it off. |
| Shield.ResponsePolicy | app.py:214-216 | A listed response detector gets its own entry. One the policy does not list is handed exactly `{"enabled": False}`: no strategy, threshold or entity types. |
| Shield.LogEvent | app.py:54-78 | Both prompts are recorded unchanged. The response preview is `Audit.Preview` of the response: absent exactly for a missing or empty response, and at most 201 characters. Missing metadata becomes `{}`. |
| Shield.LlmText | app.py:190-207 | The model's text, or `"Error communicating with LLM: "` followed by the exception message. |
| Shield.ShieldPrompt | app.py:108-275 | The step-by-step handler's reply, audit events and collaborator calls are exactly those of the stage-by-stage definition `Shielded`, about which the lemmas below speak. |
| Shield.Answer | app.py:209-275 | The final stage as executed (optional screening, then the SUCCESS event) yields what `Answered` defines. |
| Shield.MissingPromptRejected | app.py:111-112 | A request without a prompt is answered 400 exactly then, with nothing logged and no collaborator called. |
| Shield.OneStepPerCall | app.py:117-257 | Every collaborator call leaves one trace step. The first call is always the harmful check of the prompt as sent. Every outcome logs at least one event. |
| Shield.HarmfulPromptBlocked | app.py:125-146 | A harmful prompt gives 403 `blocked` with a one-step `block` trace and exactly one BLOCK event. Only the harmful detector is called: no injection check, no redaction, no LLM. |
| Shield.InjectionBlocked | app.py:148-169 | An injection gives 403 with the trace `[harmful_content/allow, prompt_injection/block]` and one BLOCK event. The calls are the two checks on the original prompt, and the LLM is not called. |
| Shield.LlmOnlyWhenChecksPass | app.py:125-192 | The LLM is invoked if and only if neither request-side check flags the prompt. |
| Shield.PassingPrompt | app.py:171-207 | Both checks and the redactor get the original prompt, and the LLM gets exactly the redactor's output. The PII step says `redacted` iff the redactor reported a change, and a REDACT event comes first exactly then. An LLM failure is an `error` step, not an abort. A successful outcome logs SUCCESS last. |
| Shield.UnscreenedAnswer | app.py:258-275 | With screening off the reply is 200 with the LLM text as it came. The trace has four steps and there are four calls. One event is logged, or two when the prompt was redacted. |
| Shield.ScreenedAnswer | app.py:213-257 | With screening on, the LLM text goes to the response harmful check. A flag gives 403 `blocked_response` carrying the raw output, with a BLOCK event last. Otherwise the reply is the response redactor's output, and a `response_pii_redaction` REDACT event is logged iff it changed something. |
| Shield.EventsRecordPrompt | app.py:134-268 | Every event a request writes carries the prompt exactly as sent, and any response excerpt in it is at most 201 characters. |
| Audit.Preview | app.py:72 | None for a missing or empty text. Otherwise the text itself when it is at most 200 characters. Otherwise its first 200 characters followed by `…`. |
| Audit.Truncate | app_backup.py:61 | `query[:200]`: None for a missing or empty query. Otherwise the whole query when it fits in 200 characters, and exactly its first 200 characters when it does not. |
| Audit.Tail | app.py:296-302 | Python's `lines[-limit:]`: a suffix of the lines. A positive limit keeps the last `limit` lines (all of them when there are fewer). Zero keeps the whole file. A negative limit drops `-limit` lines from the front. |
| Audit.Payload | app.py:303-305 | A line yields a payload exactly when it contains the `EVENT_JSON ` marker. The payload is the text after the marker's first occurrence (`Find`, see `Text.FindIsFirst`), stripped. |
| Audit.EventsConcat | app.py:302-311 | Scanning two stretches of the log gives their events one after the other, so the result keeps file order. |
| Audit.EventsComeFromLines | app.py:303-308 | Every returned event was decoded from the payload of one of the scanned lines. |
| Audit.SkipsMalformedLine | app.py:306-311 | A line without the marker, or whose JSON does not decode, contributes nothing and does not disturb its neighbours' events. |
| Audit.GetLogs | app.py:288-318 | A missing log gives an empty list and an unreadable one gives 500. Otherwise the reply is the decodable events of the last `limit` lines (default 500), in file order, and, for a positive `limit`, never more than `limit` of them. The ScanCare copy (app_backup.py:246-275) is the same handler over `scancare.log`. |
| Text.FindIsFirst | app.py:303 | `str.find` returns an occurrence of the pattern with none before it, and -1 exactly when there is none. |
| Text.ContainsIff | agents.py:270 | `needle in hay` on strings holds exactly when the needle occurs at some index. |
| Text.StripEdges | app.py:305 | `strip()` leaves a text that starts and ends with a non-whitespace character. |
| Text.StripIsInfix | app.py:305 | `strip()` returns the stretch of the input that follows its leading whitespace. |
| Text.StripIdempotent | app.py:305 | Stripping twice strips nothing more. |
| Text.StripRemovesOnlySpaces | app.py:305 | Only whitespace is removed: the input is its leading whitespace, the stripped text, and whitespace after it. |
| Text.StripEmptyIff | app.py:305 | A text strips to the empty string exactly when it is all whitespace. |
| Text.Split | agents.py:94 | `split('/')` gives separator-free pieces that join back to the input. |
| Text.SplitFirst | agents.py:94 | Splitting at the first separator peels off the piece before it. |
| Text.ParseIntOfNat | agents.py:94 | `int(str(n)) == n` for every natural number. |
| Json.Truthy | app_backup.py:172 | A string is truthy iff it is non-empty; `None` is falsy. |
| Json.AsNumber | agents.py:140 | A number is its own value and a bool counts as 1 or 0 in arithmetic and comparison; anything else raises. |
| Json.In | agents.py:139 | `key in doc` tests a dict's keys, a list's elements and a str's substrings. |
| Json.Get | agents.py:140 | `doc[key]` gives a value exactly for a dict holding the key. |
| Medical.SelectedBand | agents.py:106-107 | The range used is one of the test's own bands: the `normal` band when the test has one, otherwise the first listed. A test listing only its unit has none. |
| Medical.HemoglobinBand | agents.py:73 | Hemoglobin is judged by the male range 13.5-17.5. |
| Medical.GlucoseBand | agents.py:74 | Glucose is judged by the fasting range 70-100. |
| Medical.HdlBand | agents.py:76 | HDL is judged by 40 and up, with no upper limit. |
| Medical.NormalBandWins | agents.py:82 | HbA1c is judged by its `normal` band 0-5.7. |
| Medical.Classify | agents.py:110 | The status is `normal` iff lo <= v <= hi, bounds included. |
| Medical.ClassifyOrderedBand | agents.py:110 | On an ordered band the status is `high` iff v > hi and `low` iff v < lo. |
| Medical.PressureReadingNormal | agents.py:93-97 | A blood pressure reading is `normal` iff systolic is in 90..120 and diastolic in 60..80. |
| Medical.ParsePressureOfReading | agents.py:94 | A reading written `sys/dia` parses back to those two numbers. |
| Medical.Collect | agents.py:86-116 | The loop over the input's items, in any order, gives what `Collected` defines: an exception if any item raises, else one entry per emitting item. |
| Medical.CollectedIgnoresSkipped | agents.py:87-89 | An item the loop skips changes nothing in the result. |
| Medical.CheckNormalRanges | agents.py:56-118 | Unparseable JSON gives the single error object, a non-dict raises, and a dict gives `RangeReport`. |
| Medical.UnknownKeyIgnored | agents.py:87-89 | A key the range table does not list does not affect the result. |
| Medical.ResultKeysListed | agents.py:86-116 | Every key of the result is an input key the range table lists. |
| Medical.RatioRisk | agents.py:141 | The ratio's risk is low iff below 3.5 and high iff 5.0 or more. |
| Medical.RatioRiskMonotone | agents.py:141 | A higher ratio never gives a lower risk. |
| Medical.GlycemiaCategory | agents.py:149-159 | HbA1c below 5.7 is normal, 5.7 up to but excluding 6.5 is prediabetes, and 6.5 or more is diabetes. |
| Medical.AnemiaSeverity | agents.py:171 | Severe iff below 8.0, moderate iff 8.0 up to 10.0, mild iff 10.0 or more. |
| Medical.BpCategoryAsWritten | agents.py:186-194 | The ladder as the source writes it, in closed form. Normal iff sys < 120 and dia < 80. Elevated iff 120 <= sys < 130 and dia < 80. Stage 2 only when both sys >= 140 and dia >= 90. Stage 1 otherwise. |
| Medical.BpCategory | agents.py:186-194 | The corrected ladder of "## Findings", in closed form. It is a reference definition; the handler uses the ladder as written. Normal iff sys < 120 and dia < 80. Elevated iff 120 <= sys < 130 and dia < 80. Stage 2 iff sys >= 140 or dia >= 90. Stage 1 otherwise. |
| Medical.AsWrittenLabelsStage2AsStage1 | agents.py:191 | With `or` on the third rung, 180/85 and 110/95 come out as Stage 1. |
| Medical.BpLaddersDisagree | agents.py:191 | The ladder as written and the corrected one differ exactly when one number is in the Stage 2 range and the other is not. |
| Medical.BpCategoryMonotone | agents.py:186-194 | A higher reading on either number never lowers the category. |
| Medical.CalculateHealthMetrics | agents.py:121-203 | Unparseable JSON gives the error object. A value that is not a dict, list or str raises at the first `in`. Otherwise the result is the metrics of `HealthMetrics`: one entry per rule that emits, given by `RatioStep`, `DiabetesStep`, `AnemiaStep` and `PressureStep`, and a rule that raises ends the call. Blood pressure is graded by the ladder as written. |
| Medical.RatioStep | agents.py:138-146 | Skipped iff the data lacks `cholesterol` or `hdl` (`in`). Emitted iff the data is a dict whose two values are numbers with a non-zero HDL; the entry's value times HDL is the cholesterol, and its risk is `RatioRisk` of it. Anything else raises. |
| Medical.DiabetesStep | agents.py:148-165 | Skipped iff `hba1c` is not `in` the data. Emitted iff the data is a dict with a numeric `hba1c`; the entry echoes the value, and its category is `GlycemiaCategory` of it. Anything else raises. |
| Medical.AnemiaStep | agents.py:167-182 | Skipped iff `hemoglobin` is not `in` the data. Emitted iff the data is a dict with a numeric `hemoglobin`; anemia is detected iff the value is below 12.0, with severity `AnemiaSeverity`, and the value is echoed. Anything else raises. |
| Medical.PressureStep | agents.py:184-201 | Skipped iff `blood_pressure` is not `in` the data. Emitted iff the data is a dict whose reading is a string that parses as `sys/dia`. The entry carries both numbers, the category of the ladder as written, and action needed iff not below 120/80. Anything else raises. |
| Medical.PressureCategoryAgainstCorrected | agents.py:186-194 | The category reported equals the corrected one except on readings where exactly one number is in the Stage 2 range. |
| Medical.ActionNeededUnlessNormal | agents.py:187-200 | `action_needed` holds iff the reading is not below 120/80. |
| Medical.AnemiaBelowTwelve | agents.py:168-182 | Anemia is reported as detected iff the hemoglobin value is below 12.0. |
| Medical.ZeroHdlRaises | agents.py:139-140 | A zero HDL divides by zero, and the whole call raises. |
| Medical.Hba1cBoundary | agents.py:82 | At exactly 5.7 the two tools disagree: the range table says normal and the metric says prediabetes. |
| Medical.Normalize | agents.py:267 | `lower().replace(' ', '_')`: same length, no spaces and no upper-case ASCII letters. Spaces become `_`, and every other character is lowered. |
| Medical.FirstMatch | agents.py:269-271 | The index of a matching key with no matching key before it, or -1 exactly when no key matches. |
| Medical.FirstMatchIsFirst | agents.py:269-271 | A key that matches with none matching before it is the one found. |
| Medical.FindGuide | agents.py:269-271 | The loop with an early return finds `FirstMatch`. |
| Medical.SearchGuidelines | agents.py:206-273 | The lookup returns `Guideline`: the first matching entry's text, or the general recommendation. |
| Medical.EmptyConditionGetsFirstEntry | agents.py:267-271 | The empty condition is contained in every key, so it gets the first entry. |
| Medical.SpelledOutCondition | agents.py:267-271 | "High Cholesterol" gets the cholesterol entry: case and spaces do not matter. |
| Medical.UnmatchedConditionFallsBack | agents.py:273 | A condition no key matches gets the general recommendation, which names the condition as it was asked. |
| ScanCare.LastDot | app_backup.py:49 | The index found holds a `.`. |
| ScanCare.LastDotIsLast | app_backup.py:49 | No `.` follows the one found, and there is none at all when -1 comes back. |
| ScanCare.HasExtensionInIff | app_backup.py:47-49 | A name is accepted iff it is some `stem.ext` whose `ext` has no dot and, lower-cased, is in the whitelist. |
| ScanCare.JudgedByExtension | app_backup.py:49 | `stem.ext` with a dot-free `ext` is judged by `ext` alone, whatever the stem. |
| ScanCare.AcceptedNames | app_backup.py:49 | `R.TXT` (upper-case extension) and `a.b.pdf` (dotted stem) are accepted. |
| ScanCare.JudgesLastExtension | app_backup.py:49 | `a.txt.exe` is refused. |
| ScanCare.RefusesMissingExtension | app_backup.py:49 | `txt` and `report.` are refused. |
| ScanCare.LogEvent | app_backup.py:51-70 | The query is `Audit.Truncate` of it: exactly its first 200 characters when longer. The response preview is the 200-character excerpt with `…` only when cut. Both are absent for missing or empty text. Missing metadata becomes `{}`. |
| ScanCare.SelectReportInput | app_backup.py:162-173 | With no or falsy JSON the reply is 400. A present `report_text` key wins over `query`, and the choice is made on the key alone, so an empty `report_text` gives 400 even when a query is given. A body that `in` cannot search raises (500). A truthy list or string body raises (500) when it contains `report_text` or `query`, because indexing it by a key fails, and gives 400 otherwise. The kind is text_report or health_query. |

## Left out

- Flask routing, templates, static files and `request.json` parsing are left out. The handlers take the decoded body, or None.
- The internals of `detectors.py` and the Gemini SDK are not part of this model. They appear only as the function-typed fields of `Collaborators`, which are total. An exception raised inside a detector therefore has no counterpart; Flask would turn it into a 500 reply.
- Detector configurations are typed records. A policy entry that is not a JSON object, or a field of the wrong type, is not modelled.
- Shield.ShieldPrompt: the prompt is a string. A non-string `prompt` value and a body that is not a dict are not modelled.
- Timestamps (`datetime.utcnow()`), `json.dumps` formatting, and the logger's own line prefix and I/O are left out. The log file is an input `LogFile` and `json.loads` is a parameter `decode`.
- Audit.GetLogs: `request.args.get(..., type=int)` is an input `Option<int>`. None stands for a missing or non-integer limit.
- Medical.CalculateHealthMetrics: `round(ratio, 2)` is not modelled. The ratio is kept exact.
- Medical.CalculateHealthMetrics: the fixed strings of the metric entries (the ratio's `description`, the diabetes `message`, the anemia `recommendation`) and the text of the category labels are not modelled. Categories are enumerations.
- Medical: JSON numbers are exact reals. Floating-point rounding, NaN and infinities in the input are not modelled; HDL's `float('inf')` bound is the `Infinity` limit.
- Medical: which exception is raised (TypeError, KeyError, ValueError, ZeroDivisionError) is not distinguished. Every one of them is `Raised`.
- Medical: the input is the decoded JSON document, with None for unparseable text. `extract_medical_values`, `ScanCareWorkflow` and `_init_agents` are foreign-call and regular-expression glue and are left out.
- Medical.CheckNormalRanges: a dict's items are visited in any order. The result is the same in every order, except for which exception is raised.
- Text.Lower: only ASCII letters are lowered. Python's `lower()` also maps non-ASCII letters. Only the Kelvin sign and U+0130 lower to ASCII characters, and neither can complete a match against the ASCII guideline keys or extensions, so the outcomes of those two checks are the same.
- Text.ParseInt: `int()` also accepts `_` digit separators and non-ASCII decimal digits; these are not modelled.
- ScanCare.SelectReportInput: the file-upload branch of `/analyze` is left out (file saving, reading and deletion, and the Gemini image call). `allowed_file` itself is modelled.
- The Gemini analysis and the reply building after the text has been chosen in `/analyze` are left out.

## Findings

| source | as written | input that shows it | evidently intended | confidence | as-written member | corrected member |
|---|---|---|---|---|---|---|
| agents.py:191 | `elif sys < 140 or dia < 90:` labels a reading Stage 1 when either number is below the Stage 2 threshold | 180/85 (and 110/95) is reported as "Stage 1 Hypertension" | `sys < 140 and dia < 90`, so that either number reaching Stage 2 makes the reading Stage 2. That matches the `and` on the rungs above it and the usual AHA reading. The handler keeps the code's ladder (`BpCategoryAsWritten`); `BpCategory` is the corrected reference, and `BpLaddersDisagree` says where the two part. | not executed | Medical.AsWrittenLabelsStage2AsStage1 | Medical.BpCategory |
