/** The classification service: the system prompt, the user message, the
    check of a parsed answer and the bounded retry loop around the chat
    backend. The backend (the OpenAI client together with `json.loads` on
    the returned text) is a parameter: for a request and an attempt number
    it raises, returns text that is not JSON, or returns a parsed value. */
module LlmClassifier {
  import opened Wrappers
  import opened PyText
  import opened JsonValues

  /** The keys a classification must hold, in the order they are checked. */
  const RequiredKeys: seq<string> := ["불량명", "설비명", "조치내용"]

  /** The fixed instructions of the system prompt. */
  const BasePrompt: string := "당신은 제조 현장의 일보를 분석하는 전문가입니다.\nIssue 내용을 분석하여 다음 정보를 JSON 형식으로 추출해야 합니다:\n- 불량명: 발생한 불량의 이름\n- 설비명: 불량이 발생한 설비의 이름\n- 조치내용: 불량에 대한 조치 내용\n\n응답은 반드시 다음 JSON 형식이어야 합니다:\n{\"불량명\": \"추출된 불량명\", \"설비명\": \"추출된 설비명\", \"조치내용\": \"추출된 조치내용\"}\n\n정보를 추출할 수 없는 경우 빈 문자열(\"\")을 사용하세요."

  /** What precedes the few-shot examples in the system prompt. */
  const ExamplesHeading: string := "\n\n### 예제:\n"

  /** What separates the user's prompt from the issue text. */
  const IssueLabel: string := "\n\nIssue 내용: "

  const DefaultBaseUrl: string := "https://api.openai.com/v1"
  const DefaultModel: string := "gpt-4o-mini"

  /** An `LLMClassifier`: the client settings and the model name. */
  datatype Classifier = Classifier(apiKey: string, baseUrl: string, model: string)

  /** The messages sent on every attempt, with the model they go to. */
  datatype ChatRequest = ChatRequest(model: string, system: string, user: string)

  /** What one backend attempt yields. */
  datatype Reply =
    /** The call, or reading its answer, raised (not a JSON decoding error). */
    | Raised
    /** `json.loads` raised `JSONDecodeError`. */
    | NotJson
    | Parsed(value: Json)

  /** `_build_system_prompt`: the fixed instructions, followed by the
      examples under their heading when examples are given. */
  function BuildSystemPrompt(fewShotExamples: Option<string>): (p: string)
    ensures BasePrompt <= p
  {
    if Given(fewShotExamples) then BasePrompt + ExamplesHeading + fewShotExamples.value else BasePrompt
  }

  /** The examples a system prompt carries, read back after the fixed text
      and the heading. */
  function ExamplesOf(systemPrompt: string): Option<string> {
    if |systemPrompt| >= |BasePrompt| + |ExamplesHeading| then Some(systemPrompt[|BasePrompt| + |ExamplesHeading|..])
    else None
  }

  /** The system prompt carries exactly the examples that were given, and
      nothing when none or empty ones were. */
  lemma {:induction false} SystemPromptExamples(fewShotExamples: Option<string>)
    ensures ExamplesOf(BuildSystemPrompt(fewShotExamples)) == if Given(fewShotExamples) then fewShotExamples else None
    ensures BuildSystemPrompt(fewShotExamples) == BasePrompt <==> !Given(fewShotExamples)
  {
    var p := BuildSystemPrompt(fewShotExamples);
    assert |ExamplesHeading| == 10;
    if Given(fewShotExamples) {
      assert p[|BasePrompt| + |ExamplesHeading|..] == fewShotExamples.value;
    }
  }

  /** The user message: the prompt, the label, then the issue text. */
  function UserMessage(prompt: string, issueContent: string): (m: string)
    ensures |m| == |prompt| + |IssueLabel| + |issueContent|
  {
    prompt + IssueLabel + issueContent
  }

  /** The prompt and the issue text can be read back from the user message. */
  lemma {:induction false} UserMessageParts(prompt: string, issueContent: string)
    ensures var m := UserMessage(prompt, issueContent);
      && m[..|prompt|] == prompt
      && m[|prompt|..|prompt| + |IssueLabel|] == IssueLabel
      && m[|prompt| + |IssueLabel|..] == issueContent
  {
  }

  /** `all(key in result for key in keys)`: `None` where the first `in`
      raises `TypeError`. */
  function AllIn(result: Json, keys: seq<string>): Option<bool> {
    if keys == [] then Some(true)
    else match Contains(result, keys[0])
      case None => None
      case Some(false) => Some(false)
      case Some(true) => AllIn(result, keys[1..])
  }

  /** `_validate_result`. */
  function ValidateResult(result: Json): Option<bool> {
    AllIn(result, RequiredKeys)
  }

  /** `AllIn` raises exactly on values `in` cannot look into, and holds
      exactly when every key is in the value. */
  lemma {:induction false} AllInIff(result: Json, keys: seq<string>)
    requires keys != []
    ensures AllIn(result, keys).None? <==> !IsContainer(result)
    ensures AllIn(result, keys) == Some(true) <==> forall k :: 0 <= k < |keys| ==> Contains(result, keys[k]) == Some(true)
  {
    if |keys| > 1 && Contains(result, keys[0]) == Some(true) {
      AllInIff(result, keys[1..]);
      assert forall k :: 1 <= k < |keys| ==> keys[k] == keys[1..][k - 1];
    }
  }

  /** A parsed dictionary passes exactly when it has the three keys; a
      string or a list is checked with `in` as well, and any other value
      makes the check raise. */
  lemma {:induction false} ValidateResultIff(result: Json)
    ensures ValidateResult(result).None? <==> !IsContainer(result)
    ensures result.JObject? ==> (ValidateResult(result) == Some(true) <==> forall key :: key in RequiredKeys ==> key in result.fields)
    ensures ValidateResult(result) == Some(true) <==> forall key :: key in RequiredKeys ==> Contains(result, key) == Some(true)
  {
    AllInIff(result, RequiredKeys);
  }

  /** An attempt whose answer is accepted. */
  predicate Accepted(reply: Reply) {
    reply.Parsed? && ValidateResult(reply.value) == Some(true)
  }

  /** The outcome of `classify`, with the number of backend calls made. */
  datatype Answer = Answer(result: Option<Json>, success: bool, calls: nat)

  /** The attempts `attempt`, `attempt` + 1, ... of `classify`, up to
      `maxRetries`: an accepted answer is returned; a decoding error or a
      rejected answer moves on; an exception, or a check that raises, moves
      on too, except on the last attempt, where it returns at once. */
  function Attempts(request: ChatRequest, maxRetries: int, backend: (ChatRequest, nat) -> Reply, attempt: nat): Answer
    decreases maxRetries - attempt
  {
    if attempt >= maxRetries then Answer(None, false, attempt)
    else match backend(request, attempt)
      case Parsed(j) =>
        var valid := ValidateResult(j);
        if valid == Some(true) then Answer(Some(j), true, attempt + 1)
        else if valid.None? && attempt == maxRetries - 1 then Answer(None, false, attempt + 1)
        else Attempts(request, maxRetries, backend, attempt + 1)
      case NotJson => Attempts(request, maxRetries, backend, attempt + 1)
      case Raised =>
        if attempt == maxRetries - 1 then Answer(None, false, attempt + 1)
        else Attempts(request, maxRetries, backend, attempt + 1)
  }

  /** From attempt `attempt` on, `classify` succeeds exactly when some
      remaining attempt is accepted, and then returns the answer of the first
      such attempt after calling the backend up to it; otherwise it returns
      `(None, False)` after using every remaining attempt. */
  lemma {:induction false} AttemptsFirstAccepted(request: ChatRequest, maxRetries: int,
                                                  backend: (ChatRequest, nat) -> Reply, attempt: nat)
    ensures var a := Attempts(request, maxRetries, backend, attempt);
      && (a.success <==> exists k :: attempt <= k < maxRetries && Accepted(backend(request, k)))
      && (a.success ==> && attempt < a.calls <= maxRetries
                        && Accepted(backend(request, a.calls - 1))
                        && a.result == Some(backend(request, a.calls - 1).value)
                        && forall k :: attempt <= k < a.calls - 1 ==> !Accepted(backend(request, k)))
      && (!a.success ==> a.result == None && a.calls == (if attempt < maxRetries then maxRetries else attempt))
    decreases maxRetries - attempt
  {
    if attempt < maxRetries && !Accepted(backend(request, attempt)) {
      AttemptsFirstAccepted(request, maxRetries, backend, attempt + 1);
      var a := Attempts(request, maxRetries, backend, attempt + 1);
      if exists k :: attempt <= k < maxRetries && Accepted(backend(request, k)) {
        var k :| attempt <= k < maxRetries && Accepted(backend(request, k));
        assert k != attempt;
      }
    }
  }

  /** `classify` calls the backend at most `max_retries` times, and not at
      all when `max_retries` is not positive; a success carries a value that
      passed the check (so is truthy), and a failure carries `None`. */
  lemma {:induction false} ClassifyShape(request: ChatRequest, maxRetries: int, backend: (ChatRequest, nat) -> Reply)
    ensures var a := Attempts(request, maxRetries, backend, 0);
      && a.calls <= (if maxRetries > 0 then maxRetries else 0)
      && (maxRetries <= 0 ==> a == Answer(None, false, 0))
      && (a.success ==> a.result.Some? && ValidateResult(a.result.value) == Some(true) && Truthy(a.result.value))
      && (!a.success ==> a.result == None)
  {
    AttemptsFirstAccepted(request, maxRetries, backend, 0);
    var a := Attempts(request, maxRetries, backend, 0);
    if a.success {
      AcceptedIsTruthy(a.result.value);
    }
  }

  /** A value that passes the check is not empty. */
  lemma {:induction false} AcceptedIsTruthy(j: Json)
    requires ValidateResult(j) == Some(true)
    ensures Truthy(j)
  {
    ValidateResultIff(j);
    assert Contains(j, RequiredKeys[0]) == Some(true);
    match j {
      case JObject(fields) => assert RequiredKeys[0] in fields;
      case JString(s) =>
        assert |RequiredKeys[0]| == 3;
        IsSubstringIff(RequiredKeys[0], s);
      case JArray(items) =>
      case _ =>
    }
  }

  /** `LLMClassifier.classify`: one request built from the prompt, the
      examples and the issue text, sent at most `maxRetries` times. The
      number of backend calls is returned as a ghost value. */
  method Classify(classifier: Classifier, issueContent: string, prompt: string, fewShotExamples: Option<string>,
                  maxRetries: int, backend: (ChatRequest, nat) -> Reply)
    returns (result: Option<Json>, success: bool, ghost calls: nat)
    ensures Answer(result, success, calls)
            == Attempts(ChatRequest(classifier.model, BuildSystemPrompt(fewShotExamples), UserMessage(prompt, issueContent)),
                        maxRetries, backend, 0)
  {
    var systemPrompt := BuildSystemPrompt(fewShotExamples);
    var userMessage := UserMessage(prompt, issueContent);
    result, success, calls := SendWithRetries(ChatRequest(classifier.model, systemPrompt, userMessage), maxRetries, backend);
  }

  /** The retry loop of `classify` for a built request: a valid answer ends
      it with success; an invalid answer, a reply that is not JSON, or a
      raise on any attempt but the last, tries again; a raise on the last
      attempt, or a `TypeError` from `_validate_result` on it, ends it with
      failure. */
  method SendWithRetries(request: ChatRequest, maxRetries: int, backend: (ChatRequest, nat) -> Reply)
    returns (result: Option<Json>, success: bool, ghost calls: nat)
    ensures Answer(result, success, calls) == Attempts(request, maxRetries, backend, 0)
  {
    var attempt := 0;
    calls := 0;
    while attempt < maxRetries
      invariant 0 <= attempt && calls == attempt
      invariant Attempts(request, maxRetries, backend, attempt) == Attempts(request, maxRetries, backend, 0)
      decreases maxRetries - attempt
    {
      var reply := backend(request, attempt);
      calls := calls + 1;
      match reply {
        case Parsed(j) =>
          var valid := ValidateResult(j);
          if valid == Some(true) {
            return Some(j), true, calls;
          }
          if valid.None? && attempt == maxRetries - 1 {
            return None, false, calls;
          }
        case NotJson =>
        case Raised =>
          if attempt == maxRetries - 1 {
            return None, false, calls;
          }
      }
      attempt := attempt + 1;
    }
    return None, false, calls;
  }
}
