/** The prompt firewall behind POST /shield_prompt: an inbound prompt goes
    through a harmful-content check, an injection check and PII redaction, the
    redacted prompt goes to the LLM, and, when the policy asks for it, the
    LLM's answer is screened for harmful content and PII before it is returned.
    Each step appends one record to the request's trace; blocking, redacting
    and successful outcomes are written to the audit log. */
module Shield {
  import opened Wrappers
  import opened Json
  import Audit

  // ---------------------------------------------------------------------------
  // Policy document (policy.json)
  // ---------------------------------------------------------------------------

  /** One detector's entry: `{"enabled", "strategy", "threshold", "entity_types"}`,
      each key optional. */
  datatype DetectorConfig = DetectorConfig(
    enabled: Option<bool>,
    strategy: Option<string>,
    threshold: Option<real>,
    entityTypes: Option<seq<string>>)

  /** `"response_screening": {"enabled", "detectors": {...}}`; a missing
      `detectors` object is the empty map. */
  datatype ResponseScreening = ResponseScreening(enabled: Option<bool>, detectors: map<string, DetectorConfig>)

  /** The whole document; a missing section is the empty one, so a missing
      policy file is `EmptyPolicy`. */
  datatype Policy = Policy(enabledDetectors: map<string, DetectorConfig>, responseScreening: ResponseScreening)

  const EmptyPolicy := Policy(map[], ResponseScreening(None, map[]))

  const HarmfulContent := "harmful_content"
  const PiiRedaction := "pii_redaction"
  const PromptInjection := "prompt_injection"

  /** The request-side setting of one detector. A detector the policy does not
      mention runs anyway: enabled, and for harmful content with threshold 0.5. */
  function RequestPolicy(p: Policy, detector: string): (c: DetectorConfig)
    ensures detector in p.enabledDetectors ==> c == p.enabledDetectors[detector]
    ensures detector !in p.enabledDetectors ==> c.enabled == Some(true) && c.strategy.None? && c.entityTypes.None?
    ensures detector !in p.enabledDetectors ==> c.threshold == if detector == HarmfulContent then Some(0.5) else None
  {
    if detector in p.enabledDetectors then p.enabledDetectors[detector]
    else if detector == HarmfulContent then DetectorConfig(Some(true), None, Some(0.5), None)
    else DetectorConfig(Some(true), None, None, None)
  }

  /** Response screening runs only when the policy switches it on explicitly. */
  function ScreeningEnabled(p: Policy): (on: bool)
    ensures on <==> p.responseScreening.enabled == Some(true)
  {
    p.responseScreening.enabled.GetOr(false)
  }

  /** The response-side setting of one detector: one the policy does not
      mention is handed `{"enabled": False}`. */
  function ResponsePolicy(p: Policy, detector: string): (c: DetectorConfig)
    ensures detector in p.responseScreening.detectors ==> c == p.responseScreening.detectors[detector]
    ensures detector !in p.responseScreening.detectors ==>
              c.enabled == Some(false) && c.strategy.None? && c.threshold.None? && c.entityTypes.None?
  {
    var dets := p.responseScreening.detectors;
    if detector in dets then dets[detector] else DetectorConfig(Some(false), None, None, None)
  }

  // ---------------------------------------------------------------------------
  // Collaborators: detectors.py and the Gemini model, seen only through their shapes
  // ---------------------------------------------------------------------------

  /** `(is_harmful, reason)` / `(is_injection, reason)`. */
  datatype Verdict = Verdict(flagged: bool, reason: Option<string>)

  /** `(processed_text, redacted)`. */
  datatype PiiResult = PiiResult(text: string, redacted: bool)

  /** `generate_content(...).text`, or the exception it raised. */
  datatype LlmReply = Reply(text: string) | Failure(message: string)

  datatype Collaborators = Collaborators(
    detectHarmful: (string, DetectorConfig) -> Verdict,
    detectInjection: (string, DetectorConfig) -> Verdict,
    redactPii: (string, DetectorConfig) -> PiiResult,
    generate: string -> LlmReply)

  /** A record of one collaborator invocation and the text it was handed. */
  datatype Call =
    | HarmfulCall(text: string, config: DetectorConfig)
    | InjectionCall(text: string, config: DetectorConfig)
    | RedactCall(text: string, config: DetectorConfig)
    | LlmCall(text: string)

  predicate InvokesLlm(calls: seq<Call>) {
    exists i :: 0 <= i < |calls| && calls[i].LlmCall?
  }

  // ---------------------------------------------------------------------------
  // Trace, audit events and the reply
  // ---------------------------------------------------------------------------

  datatype Decision = Allow | Block | Redacted | Unchanged | Ok | Error

  /** One trace record. `meta` is absent (None) on the response-side redaction
      step and `{"entity_types": ...}` (Some) on the request side. */
  datatype TraceStep =
    | CheckStep(step: string, strategy: string, decision: Decision, reason: Option<string>)
    | RedactStep(step: string, strategy: string, decision: Decision, meta: Option<Option<seq<string>>>)
    | LlmStep(step: string, model: string, decision: Decision, reason: Option<string>)

  const Model := "gemini-2.5-flash"
  const LlmErrorPrefix := "Error communicating with LLM: "

  function CheckDecision(flagged: bool): Decision { if flagged then Block else Allow }
  function RedactDecision(redacted: bool): Decision { if redacted then Redacted else Unchanged }

  /** The structured audit record (its timestamp is not modelled). */
  datatype Event = Event(
    event: string,
    detector: Option<string>,
    status: Option<string>,
    reason: Option<string>,
    originalPrompt: Option<string>,
    processedPrompt: Option<string>,
    llmResponsePreview: Option<string>,
    metadata: map<string, Value>)

  /** `log_event`: prompts are recorded in full, the LLM response only as a
      preview of at most 200 characters plus an ellipsis, and missing
      metadata as the empty object. */
  function LogEvent(eventType: string, detector: Option<string>, status: Option<string>,
                    reason: Option<string>, originalPrompt: Option<string>,
                    processedPrompt: Option<string>, llmResponse: Option<string>,
                    metadata: Option<map<string, Value>>): (e: Event)
    ensures e.event == eventType && e.detector == detector && e.status == status && e.reason == reason
    ensures e.originalPrompt == originalPrompt && e.processedPrompt == processedPrompt
    ensures e.llmResponsePreview.None? <==> llmResponse.None? || llmResponse.value == ""
    ensures e.llmResponsePreview.Some? ==> |e.llmResponsePreview.value| <= Audit.PreviewLimit + 1
    ensures e.llmResponsePreview == Audit.Preview(llmResponse)
    ensures e.metadata == if metadata.Some? then metadata.value else map[]
  {
    Event(eventType, detector, status, reason, originalPrompt, processedPrompt,
          Audit.Preview(llmResponse), metadata.GetOr(map[]))
  }

  function BlockEvent(detector: string, status: string, reason: Option<string>, prompt: string,
                      processed: Option<string>, response: Option<string>): Event
  {
    LogEvent("BLOCK", Some(detector), Some(status), reason, Some(prompt), processed, response, None)
  }

  function RedactEvent(detector: string, status: string, prompt: string, processed: string,
                       response: Option<string>): Event
  {
    LogEvent("REDACT", Some(detector), Some(status), None, Some(prompt), Some(processed), response, None)
  }

  function SuccessEvent(prompt: string, processed: string, response: string): Event {
    LogEvent("SUCCESS", None, Some("success"), None, Some(prompt), Some(processed), Some(response), None)
  }

  /** What the LLM step hands on: the model's text, or the error folded into text. */
  function LlmText(reply: LlmReply): (text: string)
    ensures reply.Reply? ==> text == reply.text
    ensures reply.Failure? ==> text == LlmErrorPrefix + reply.message
  {
    match reply
    case Reply(t) => t
    case Failure(m) => LlmErrorPrefix + m
  }

  const MissingPromptError := "Please provide a 'prompt' in the request body."

  datatype Response =
    | BadRequest(error: string)
    | Blocked(reason: Option<string>, originalPrompt: string, trace: seq<TraceStep>)
    | BlockedResponse(reason: Option<string>, originalPrompt: string, llmOutputBlocked: string, trace: seq<TraceStep>)
    | Success(originalPrompt: string, processedPrompt: string, llmResponse: string, trace: seq<TraceStep>)
  {
    function Code(): int {
      match this
      case BadRequest(_) => 400
      case Blocked(_, _, _) => 403
      case BlockedResponse(_, _, _, _) => 403
      case Success(_, _, _, _) => 200
    }

    function Steps(): seq<TraceStep> {
      if BadRequest? then [] else trace
    }
  }

  // ---------------------------------------------------------------------------
  // POST /shield_prompt
  // ---------------------------------------------------------------------------

  /** What one request produces: the reply, the audit events it writes, in
      order, and the collaborator calls it makes, in order. */
  datatype Outcome = Outcome(resp: Response, events: seq<Event>, calls: seq<Call>)

  /** The firewall on one request, stage by stage: each stage either stops the
      request with a reply or hands the next stage its input. */
  function Shielded(policy: Policy, prompt: Option<string>, c: Collaborators): Outcome {
    if prompt.None? then Outcome(BadRequest(MissingPromptError), [], [])
    else
      var p := prompt.value;
      var hp, pp, ip := RequestPolicy(policy, HarmfulContent), RequestPolicy(policy, PiiRedaction),
                        RequestPolicy(policy, PromptInjection);
      var h := c.detectHarmful(p, hp);
      var s1 := CheckStep(HarmfulContent, hp.strategy.GetOr("ml"), CheckDecision(h.flagged), h.reason);
      if h.flagged then
        Outcome(Blocked(h.reason, p, [s1]), [BlockEvent(HarmfulContent, "blocked", h.reason, p, None, None)],
                [HarmfulCall(p, hp)])
      else
      var inj := c.detectInjection(p, ip);
      var s2 := CheckStep(PromptInjection, ip.strategy.GetOr("heuristic"), CheckDecision(inj.flagged), inj.reason);
      if inj.flagged then
        Outcome(Blocked(inj.reason, p, [s1, s2]), [BlockEvent(PromptInjection, "blocked", inj.reason, p, None, None)],
                [HarmfulCall(p, hp), InjectionCall(p, ip)])
      else
      var pii := c.redactPii(p, pp);
      var redactEvents := if pii.redacted then [RedactEvent(PiiRedaction, "redacted", p, pii.text, None)] else [];
      var s3 := RedactStep(PiiRedaction, pp.strategy.GetOr("ml"), RedactDecision(pii.redacted), Some(pp.entityTypes));
      var reply := c.generate(pii.text);
      var out := LlmText(reply);
      var s4 := LlmStep("llm_generation", Model, if reply.Reply? then Ok else Error,
                        if reply.Failure? then Some(reply.message) else None);
      var trace := [s1, s2, s3, s4];
      var calls := [HarmfulCall(p, hp), InjectionCall(p, ip), RedactCall(p, pp), LlmCall(pii.text)];
      Answered(policy, c, p, pii.text, out, trace, redactEvents, calls)
  }

  /** The last stage: with response screening off, the LLM's text is the
      answer; with it on, the text is checked for harmful content (which
      blocks it) and then redacted. Either way a successful answer is logged. */
  function Answered(policy: Policy, c: Collaborators, p: string, processed: string, out: string,
                    trace: seq<TraceStep>, events: seq<Event>, calls: seq<Call>): Outcome
  {
    if !ScreeningEnabled(policy) then
      Outcome(Success(p, processed, out, trace), events + [SuccessEvent(p, processed, out)], calls)
    else
    var rhp, rpp := ResponsePolicy(policy, HarmfulContent), ResponsePolicy(policy, PiiRedaction);
    var rh := c.detectHarmful(out, rhp);
    var s5 := CheckStep("response_harmful_content", rhp.strategy.GetOr("ml"), CheckDecision(rh.flagged), rh.reason);
    if rh.flagged then
      Outcome(BlockedResponse(rh.reason, p, out, trace + [s5]),
              events + [BlockEvent("response_harmful_content", "blocked_response", rh.reason, p, Some(processed), Some(out))],
              calls + [HarmfulCall(out, rhp)])
    else
    var rp := c.redactPii(out, rpp);
    var s6 := RedactStep("response_pii_redaction", rpp.strategy.GetOr("ml"), RedactDecision(rp.redacted), None);
    var responseEvents := if rp.redacted then [RedactEvent("response_pii_redaction", "redacted_response", p, processed, Some(rp.text))] else [];
    Outcome(Success(p, processed, rp.text, trace + [s5, s6]),
            events + responseEvents + [SuccessEvent(p, processed, rp.text)],
            calls + [HarmfulCall(out, rhp), RedactCall(out, rpp)])
  }

  /** Runs the firewall on one request. Besides the reply, returns the audit
      events the request writes, in order, and the collaborator calls it makes,
      in order. */
  method ShieldPrompt(policy: Policy, prompt: Option<string>, c: Collaborators)
    returns (resp: Response, events: seq<Event>, calls: seq<Call>)
    ensures Outcome(resp, events, calls) == Shielded(policy, prompt, c)
  {
    if prompt.None? {
      return BadRequest(MissingPromptError), [], [];
    }
    var userPrompt := prompt.value;
    var trace: seq<TraceStep> := [];
    events, calls := [], [];

    var harmfulPolicy := RequestPolicy(policy, HarmfulContent);
    var piiPolicy := RequestPolicy(policy, PiiRedaction);
    var injectionPolicy := RequestPolicy(policy, PromptInjection);

    // 1. Harmful content
    var harmful := c.detectHarmful(userPrompt, harmfulPolicy);
    calls := calls + [HarmfulCall(userPrompt, harmfulPolicy)];
    trace := trace + [CheckStep(HarmfulContent, harmfulPolicy.strategy.GetOr("ml"),
                                CheckDecision(harmful.flagged), harmful.reason)];
    if harmful.flagged {
      events := events + [BlockEvent(HarmfulContent, "blocked", harmful.reason, userPrompt, None, None)];
      assert trace == [trace[0]] && calls == [calls[0]] && events == [events[0]];
      return Blocked(harmful.reason, userPrompt, trace), events, calls;
    }

    // 2. Prompt injection
    var injection := c.detectInjection(userPrompt, injectionPolicy);
    calls := calls + [InjectionCall(userPrompt, injectionPolicy)];
    trace := trace + [CheckStep(PromptInjection, injectionPolicy.strategy.GetOr("heuristic"),
                                CheckDecision(injection.flagged), injection.reason)];
    if injection.flagged {
      events := events + [BlockEvent(PromptInjection, "blocked", injection.reason, userPrompt, None, None)];
      assert events == [events[0]] && calls == [calls[0], calls[1]] && trace == [trace[0], trace[1]];
      return Blocked(injection.reason, userPrompt, trace), events, calls;
    }

    // 3. PII redaction
    var pii := c.redactPii(userPrompt, piiPolicy);
    calls := calls + [RedactCall(userPrompt, piiPolicy)];
    var processedPrompt := pii.text;
    if pii.redacted {
      events := events + [RedactEvent(PiiRedaction, "redacted", userPrompt, processedPrompt, None)];
      assert events == [events[0]];
    }
    trace := trace + [RedactStep(PiiRedaction, piiPolicy.strategy.GetOr("ml"),
                                 RedactDecision(pii.redacted), Some(piiPolicy.entityTypes))];

    // 4. LLM generation; a failure becomes the response text
    var reply := c.generate(processedPrompt);
    calls := calls + [LlmCall(processedPrompt)];
    var llmResponse: string;
    match reply {
      case Reply(text) =>
        llmResponse := text;
        trace := trace + [LlmStep("llm_generation", Model, Ok, None)];
      case Failure(message) =>
        llmResponse := LlmErrorPrefix + message;
        trace := trace + [LlmStep("llm_generation", Model, Error, Some(message))];
    }

    assert calls == [calls[0], calls[1], calls[2], calls[3]] && trace == [trace[0], trace[1], trace[2], trace[3]];

    resp, events, calls := Answer(policy, c, userPrompt, processedPrompt, llmResponse, trace, events, calls);
  }

  /** Stage 5 and the final reply, continuing the trace, events and calls the
      request stages left. */
  method Answer(policy: Policy, c: Collaborators, userPrompt: string, processedPrompt: string,
                llmResponse: string, trace0: seq<TraceStep>, events0: seq<Event>, calls0: seq<Call>)
    returns (resp: Response, events: seq<Event>, calls: seq<Call>)
    ensures Outcome(resp, events, calls) == Answered(policy, c, userPrompt, processedPrompt, llmResponse, trace0, events0, calls0)
  {
    var trace := trace0;
    events, calls := events0, calls0;
    var finalResponse := llmResponse;
    if ScreeningEnabled(policy) {
      var respHarmfulPolicy := ResponsePolicy(policy, HarmfulContent);
      var respPiiPolicy := ResponsePolicy(policy, PiiRedaction);
      var respHarmful := c.detectHarmful(llmResponse, respHarmfulPolicy);
      calls := calls + [HarmfulCall(llmResponse, respHarmfulPolicy)];
      trace := trace + [CheckStep("response_harmful_content", respHarmfulPolicy.strategy.GetOr("ml"),
                                  CheckDecision(respHarmful.flagged), respHarmful.reason)];
      if respHarmful.flagged {
        events := events + [BlockEvent("response_harmful_content", "blocked_response", respHarmful.reason,
                                       userPrompt, Some(processedPrompt), Some(llmResponse))];
        return BlockedResponse(respHarmful.reason, userPrompt, llmResponse, trace), events, calls;
      }
      var respPii := c.redactPii(llmResponse, respPiiPolicy);
      calls := calls + [RedactCall(llmResponse, respPiiPolicy)];
      finalResponse := respPii.text;
      if respPii.redacted {
        events := events + [RedactEvent("response_pii_redaction", "redacted_response", userPrompt,
                                        processedPrompt, Some(finalResponse))];
      } else {
        assert events + [] == events;
      }
      trace := trace + [RedactStep("response_pii_redaction", respPiiPolicy.strategy.GetOr("ml"),
                                   RedactDecision(respPii.redacted), None)];
      assert trace == trace0 + [trace[|trace0|], trace[|trace0| + 1]];
      assert calls == calls0 + [calls[|calls0|], calls[|calls0| + 1]];
    }
    events := events + [SuccessEvent(userPrompt, processedPrompt, finalResponse)];
    return Success(userPrompt, processedPrompt, finalResponse, trace), events, calls;
  }

  // ---------------------------------------------------------------------------
  // What one request does, stated over `Shielded`
  // ---------------------------------------------------------------------------

  /** No prompt: rejected with 400 before anything runs or is logged. */
  lemma MissingPromptRejected(policy: Policy, prompt: Option<string>, c: Collaborators)
    ensures var o := Shielded(policy, prompt, c);
            (prompt.None? <==> o.resp.BadRequest?)
            && (prompt.None? ==> o.resp.Code() == 400 && o.events == [] && o.calls == [])
  {
  }

  /** Each collaborator call leaves exactly one trace step, the first call is
      always the harmful-content check of the prompt as sent, and every
      outcome writes at least one audit event. */
  lemma OneStepPerCall(policy: Policy, p: string, c: Collaborators)
    ensures var o := Shielded(policy, Some(p), c);
            && |o.resp.Steps()| == |o.calls|
            && 1 <= |o.events|
            && o.calls[0] == HarmfulCall(p, RequestPolicy(policy, HarmfulContent))
  {
  }

  /** A harmful prompt is blocked at the first step, with 403. */
  lemma HarmfulPromptBlocked(policy: Policy, p: string, c: Collaborators)
    requires c.detectHarmful(p, RequestPolicy(policy, HarmfulContent)).flagged
    ensures var o := Shielded(policy, Some(p), c);
            var hp := RequestPolicy(policy, HarmfulContent);
            var h := c.detectHarmful(p, hp);
            && o.resp == Blocked(h.reason, p, [CheckStep(HarmfulContent, hp.strategy.GetOr("ml"), Block, h.reason)])
            && o.resp.Code() == 403
            && o.events == [BlockEvent(HarmfulContent, "blocked", h.reason, p, None, None)]
            && o.calls == [HarmfulCall(p, hp)]
  {
  }

  /** An injection attempt that passed the harmful check is blocked at the
      second step, with 403. */
  lemma InjectionBlocked(policy: Policy, p: string, c: Collaborators)
    requires !c.detectHarmful(p, RequestPolicy(policy, HarmfulContent)).flagged
    requires c.detectInjection(p, RequestPolicy(policy, PromptInjection)).flagged
    ensures var o := Shielded(policy, Some(p), c);
            var hp, ip := RequestPolicy(policy, HarmfulContent), RequestPolicy(policy, PromptInjection);
            var h, inj := c.detectHarmful(p, hp), c.detectInjection(p, ip);
            && o.resp == Blocked(inj.reason, p, [CheckStep(HarmfulContent, hp.strategy.GetOr("ml"), Allow, h.reason),
                                                CheckStep(PromptInjection, ip.strategy.GetOr("heuristic"), Block, inj.reason)])
            && o.resp.Code() == 403
            && o.events == [BlockEvent(PromptInjection, "blocked", inj.reason, p, None, None)]
            && o.calls == [HarmfulCall(p, hp), InjectionCall(p, ip)]
  {
  }

  /** The LLM is reached exactly when neither request-side check blocks. */
  lemma LlmOnlyWhenChecksPass(policy: Policy, p: string, c: Collaborators)
    ensures var o := Shielded(policy, Some(p), c);
            var h := c.detectHarmful(p, RequestPolicy(policy, HarmfulContent));
            var inj := c.detectInjection(p, RequestPolicy(policy, PromptInjection));
            InvokesLlm(o.calls) <==> !h.flagged && !inj.flagged
  {
    var o := Shielded(policy, Some(p), c);
    if |o.calls| >= 4 {
      assert o.calls[3].LlmCall?;
    }
  }

  /** A prompt that passes both checks: the checks and the redactor see the
      prompt as sent, the LLM sees the redactor's output, an LLM failure is
      carried on as text, a request-side redaction is logged first, and a
      successful reply is logged last. */
  lemma PassingPrompt(policy: Policy, p: string, c: Collaborators)
    requires !c.detectHarmful(p, RequestPolicy(policy, HarmfulContent)).flagged
    requires !c.detectInjection(p, RequestPolicy(policy, PromptInjection)).flagged
    ensures var o := Shielded(policy, Some(p), c);
            var hp, ip, pp := RequestPolicy(policy, HarmfulContent), RequestPolicy(policy, PromptInjection),
                              RequestPolicy(policy, PiiRedaction);
            var h, inj, pii := c.detectHarmful(p, hp), c.detectInjection(p, ip), c.redactPii(p, pp);
            var reply := c.generate(pii.text);
            && 4 <= |o.calls| && 4 <= |o.resp.Steps()|
            && o.calls[..4] == [HarmfulCall(p, hp), InjectionCall(p, ip), RedactCall(p, pp), LlmCall(pii.text)]
            && o.resp.Steps()[..4] == [
                 CheckStep(HarmfulContent, hp.strategy.GetOr("ml"), Allow, h.reason),
                 CheckStep(PromptInjection, ip.strategy.GetOr("heuristic"), Allow, inj.reason),
                 RedactStep(PiiRedaction, pp.strategy.GetOr("ml"), RedactDecision(pii.redacted), Some(pp.entityTypes)),
                 LlmStep("llm_generation", Model, if reply.Reply? then Ok else Error,
                         if reply.Failure? then Some(reply.message) else None)]
            && (o.events[0] == RedactEvent(PiiRedaction, "redacted", p, pii.text, None) <==> pii.redacted)
            && (o.resp.Success? || o.resp.BlockedResponse?)
            && (o.resp.Success? ==>
                  && o.resp.originalPrompt == p && o.resp.processedPrompt == pii.text
                  && o.events[|o.events| - 1] == SuccessEvent(p, pii.text, o.resp.llmResponse))
  {
    var pii := c.redactPii(p, RequestPolicy(policy, PiiRedaction));
    ReachesAnswer(policy, p, c);
    AnsweredExtends(policy, c, p, pii.text, LlmText(c.generate(pii.text)),
                    RequestSteps(policy, p, c), RequestEvents(policy, p, c), RequestCalls(policy, p, c));
  }

  /** Without response screening the reply is the LLM's text as it came, after
      four steps. */
  lemma UnscreenedAnswer(policy: Policy, p: string, c: Collaborators)
    requires !c.detectHarmful(p, RequestPolicy(policy, HarmfulContent)).flagged
    requires !c.detectInjection(p, RequestPolicy(policy, PromptInjection)).flagged
    requires !ScreeningEnabled(policy)
    ensures var o := Shielded(policy, Some(p), c);
            var pii := c.redactPii(p, RequestPolicy(policy, PiiRedaction));
            && o.resp.Success? && o.resp.Code() == 200
            && o.resp.llmResponse == LlmText(c.generate(pii.text))
            && |o.resp.trace| == 4 && |o.calls| == 4
            && |o.events| == (if pii.redacted then 2 else 1)
  {
  }

  /** With response screening the LLM's text is checked for harmful content,
      which blocks it with 403, and otherwise redacted before it is returned. */
  lemma ScreenedAnswer(policy: Policy, p: string, c: Collaborators)
    requires !c.detectHarmful(p, RequestPolicy(policy, HarmfulContent)).flagged
    requires !c.detectInjection(p, RequestPolicy(policy, PromptInjection)).flagged
    requires ScreeningEnabled(policy)
    ensures var o := Shielded(policy, Some(p), c);
            var pii := c.redactPii(p, RequestPolicy(policy, PiiRedaction));
            var out := LlmText(c.generate(pii.text));
            var rhp, rpp := ResponsePolicy(policy, HarmfulContent), ResponsePolicy(policy, PiiRedaction);
            var rh, rp := c.detectHarmful(out, rhp), c.redactPii(out, rpp);
            && 5 <= |o.calls| && o.calls[4] == HarmfulCall(out, rhp)
            && o.resp.trace[4] == CheckStep("response_harmful_content", rhp.strategy.GetOr("ml"),
                                            CheckDecision(rh.flagged), rh.reason)
            && (rh.flagged ==>
                  && o.resp == BlockedResponse(rh.reason, p, out, o.resp.trace)
                  && o.resp.Code() == 403 && |o.calls| == 5
                  && o.events[|o.events| - 1] == BlockEvent("response_harmful_content", "blocked_response",
                                                            rh.reason, p, Some(pii.text), Some(out))
                  && |o.events| == (if pii.redacted then 2 else 1))
            && (!rh.flagged ==>
                  && o.resp.Success? && o.resp.Code() == 200 && o.resp.llmResponse == rp.text
                  && o.calls[4..] == [HarmfulCall(out, rhp), RedactCall(out, rpp)]
                  && o.resp.trace[5] == RedactStep("response_pii_redaction", rpp.strategy.GetOr("ml"),
                                                   RedactDecision(rp.redacted), None)
                  && |o.events| == (if pii.redacted then 1 else 0) + (if rp.redacted then 1 else 0) + 1
                  && (rp.redacted <==>
                        2 <= |o.events|
                        && o.events[|o.events| - 2] == RedactEvent("response_pii_redaction", "redacted_response",
                                                                   p, pii.text, Some(rp.text))))
  {
    var pii := c.redactPii(p, RequestPolicy(policy, PiiRedaction));
    ReachesAnswer(policy, p, c);
    ScreenedStage(policy, c, p, pii.text, LlmText(c.generate(pii.text)),
                  RequestSteps(policy, p, c), RequestEvents(policy, p, c), RequestCalls(policy, p, c));
  }

  /** Every event a request writes records the prompt exactly as sent, and
      any response excerpt in it is at most 200 characters plus an ellipsis. */
  lemma EventsRecordPrompt(policy: Policy, p: string, c: Collaborators)
    ensures var o := Shielded(policy, Some(p), c);
            forall e :: e in o.events ==>
              e.originalPrompt == Some(p)
              && (e.llmResponsePreview.Some? ==> |e.llmResponsePreview.value| <= Audit.PreviewLimit + 1)
  {
    var h := c.detectHarmful(p, RequestPolicy(policy, HarmfulContent));
    var inj := c.detectInjection(p, RequestPolicy(policy, PromptInjection));
    if !h.flagged && !inj.flagged {
      var pii := c.redactPii(p, RequestPolicy(policy, PiiRedaction));
      ReachesAnswer(policy, p, c);
      AnsweredRecordsPrompt(policy, c, p, pii.text, LlmText(c.generate(pii.text)),
                            RequestSteps(policy, p, c), RequestEvents(policy, p, c), RequestCalls(policy, p, c));
    }
  }

  /** The last stage adds only events that record the prompt as sent. */
  lemma AnsweredRecordsPrompt(policy: Policy, c: Collaborators, p: string, processed: string, out: string,
                              trace: seq<TraceStep>, events: seq<Event>, calls: seq<Call>)
    requires forall e :: e in events ==> e.originalPrompt == Some(p) && e.llmResponsePreview.None?
    ensures forall e :: e in Answered(policy, c, p, processed, out, trace, events, calls).events ==>
              e.originalPrompt == Some(p)
              && (e.llmResponsePreview.Some? ==> |e.llmResponsePreview.value| <= Audit.PreviewLimit + 1)
  {
  }

  // ---------------------------------------------------------------------------
  // Helpers: a prompt that passes both checks reaches `Answered`
  // ---------------------------------------------------------------------------

  /** The four request-side trace steps of a prompt that passed both checks. */
  function RequestSteps(policy: Policy, p: string, c: Collaborators): (steps: seq<TraceStep>)
    ensures |steps| == 4
  {
    var hp, pp, ip := RequestPolicy(policy, HarmfulContent), RequestPolicy(policy, PiiRedaction),
                      RequestPolicy(policy, PromptInjection);
    var h, inj, pii := c.detectHarmful(p, hp), c.detectInjection(p, ip), c.redactPii(p, pp);
    var reply := c.generate(pii.text);
    [CheckStep(HarmfulContent, hp.strategy.GetOr("ml"), CheckDecision(h.flagged), h.reason),
     CheckStep(PromptInjection, ip.strategy.GetOr("heuristic"), CheckDecision(inj.flagged), inj.reason),
     RedactStep(PiiRedaction, pp.strategy.GetOr("ml"), RedactDecision(pii.redacted), Some(pp.entityTypes)),
     LlmStep("llm_generation", Model, if reply.Reply? then Ok else Error,
             if reply.Failure? then Some(reply.message) else None)]
  }

  /** The four request-side calls of a prompt that passed both checks. */
  function RequestCalls(policy: Policy, p: string, c: Collaborators): (calls: seq<Call>)
    ensures |calls| == 4
  {
    var hp, pp, ip := RequestPolicy(policy, HarmfulContent), RequestPolicy(policy, PiiRedaction),
                      RequestPolicy(policy, PromptInjection);
    [HarmfulCall(p, hp), InjectionCall(p, ip), RedactCall(p, pp), LlmCall(c.redactPii(p, pp).text)]
  }

  /** The request-side events of a prompt that passed both checks. */
  function RequestEvents(policy: Policy, p: string, c: Collaborators): (events: seq<Event>)
    ensures |events| <= 1
  {
    var pii := c.redactPii(p, RequestPolicy(policy, PiiRedaction));
    if pii.redacted then [RedactEvent(PiiRedaction, "redacted", p, pii.text, None)] else []
  }

  /** A prompt that passes both checks is answered by the last stage. */
  lemma ReachesAnswer(policy: Policy, p: string, c: Collaborators)
    requires !c.detectHarmful(p, RequestPolicy(policy, HarmfulContent)).flagged
    requires !c.detectInjection(p, RequestPolicy(policy, PromptInjection)).flagged
    ensures var pii := c.redactPii(p, RequestPolicy(policy, PiiRedaction));
            Shielded(policy, Some(p), c)
              == Answered(policy, c, p, pii.text, LlmText(c.generate(pii.text)),
                          RequestSteps(policy, p, c), RequestEvents(policy, p, c), RequestCalls(policy, p, c))
  {
  }

  /** The last stage only appends to the trace, the events and the calls, and
      a successful answer is logged last. */
  lemma AnsweredExtends(policy: Policy, c: Collaborators, p: string, processed: string, out: string,
                        trace: seq<TraceStep>, events: seq<Event>, calls: seq<Call>)
    ensures var o := Answered(policy, c, p, processed, out, trace, events, calls);
            && (o.resp.Success? || o.resp.BlockedResponse?)
            && |trace| <= |o.resp.Steps()| && o.resp.Steps()[..|trace|] == trace
            && |calls| <= |o.calls| && o.calls[..|calls|] == calls
            && |events| < |o.events| && o.events[..|events|] == events
            && |o.resp.Steps()| - |trace| == |o.calls| - |calls|
            && (o.resp.Success? ==>
                  && o.resp.originalPrompt == p && o.resp.processedPrompt == processed
                  && o.events[|o.events| - 1] == SuccessEvent(p, processed, o.resp.llmResponse))
  {
    var o := Answered(policy, c, p, processed, out, trace, events, calls);
    if ScreeningEnabled(policy) {
      assert (events + [o.events[|o.events| - 1]])[..|events|] == events;
    }
  }

  /** The last stage with response screening on, step by step. */
  lemma ScreenedStage(policy: Policy, c: Collaborators, p: string, processed: string, out: string,
                      trace: seq<TraceStep>, events: seq<Event>, calls: seq<Call>)
    requires ScreeningEnabled(policy)
    ensures var o := Answered(policy, c, p, processed, out, trace, events, calls);
            var rhp, rpp := ResponsePolicy(policy, HarmfulContent), ResponsePolicy(policy, PiiRedaction);
            var rh, rp := c.detectHarmful(out, rhp), c.redactPii(out, rpp);
            var s5 := CheckStep("response_harmful_content", rhp.strategy.GetOr("ml"), CheckDecision(rh.flagged), rh.reason);
            && (rh.flagged ==>
                  && o.resp == BlockedResponse(rh.reason, p, out, trace + [s5])
                  && o.calls == calls + [HarmfulCall(out, rhp)]
                  && o.events == events + [BlockEvent("response_harmful_content", "blocked_response",
                                                      rh.reason, p, Some(processed), Some(out))])
            && (!rh.flagged ==>
                  && o.resp.Success? && o.resp.llmResponse == rp.text
                  && o.resp.trace == trace + [s5, RedactStep("response_pii_redaction", rpp.strategy.GetOr("ml"),
                                                             RedactDecision(rp.redacted), None)]
                  && o.calls == calls + [HarmfulCall(out, rhp), RedactCall(out, rpp)]
                  && o.events == events
                                 + (if rp.redacted then [RedactEvent("response_pii_redaction", "redacted_response",
                                                                     p, processed, Some(rp.text))] else [])
                                 + [SuccessEvent(p, processed, rp.text)])
  {
  }
}
