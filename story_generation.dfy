/** The server-side generation gateway: the `generateGhostStory` action.
    The provider call, raced against a 25-second timer, is an input here
    (a ProviderOutcome): what the race settled on, either the completion the
    provider returned or the error that was thrown. */
module StoryGeneration {
  import opened Wrappers
  import opened Text

  /** The four error codes, written VALIDATION_ERROR, API_ERROR, TIMEOUT and
      UNKNOWN on the wire. */
  datatype ErrorCode = ValidationError | ApiError | Timeout | Unknown

  /** What the action returns: `{story}` or `{error, code, retryable}`. */
  datatype GenerationResult =
    | Story(story: string)
    | Failure(error: string, code: ErrorCode, retryable: bool)

  /** What the race between the provider call and the timer settled on.
      `Completed` carries `choices[0]?.message?.content`; `Failed` carries the
      thrown error's `message`, `status` and `code` fields, each possibly absent.
      The timer's rejection is `Failed(Some(TimeoutMarker), None, None)`. */
  datatype ProviderOutcome =
    | Completed(content: Option<string>)
    | Failed(message: Option<string>, status: Option<int>, code: Option<string>)

  const MinPromptLength: nat := 3
  const MaxPromptLength: nat := 200

  const TimeoutMarker := "Request timeout"

  const TooShortMessage := "Prompt must be at least 3 characters"
  const TooLongMessage := "Prompt must be less than 200 characters"
  const UnavailableMessage := "Story generation is temporarily unavailable. Please try again later."
  const EmptyStoryMessage := "Failed to generate story. Please try again."
  const TimeoutMessage := "Story generation is taking too long. Please try again with a simpler prompt."
  const RateLimitMessage := "Too many requests. Please wait a moment and try again."
  const InvalidPromptMessage := "Invalid prompt. Please try a different prompt."
  const ProviderDownMessage := "OpenAI service is temporarily unavailable. Please try again in a few moments."
  const NetworkMessage := "Network error. Please check your connection and try again."
  const UnexpectedMessage := "An unexpected error occurred. Please try again."

  /** On every result, `retryable` is false exactly for validation errors. */
  predicate WellFormed(r: GenerationResult) {
    r.Failure? ==> (r.retryable <==> r.code != ValidationError)
  }

  /** What the handler does before it may call the provider: answer at once,
      or call the provider with this user prompt. */
  datatype Step = Respond(result: GenerationResult) | CallProvider(userPrompt: string)

  /** The length checks and the API-key check, in the order the handler makes
      them. An empty key is as absent as a missing one. */
  function Prepare(prompt: string, apiKey: Option<string>): (s: Step)
    ensures s.CallProvider? <==> MinPromptLength <= |prompt| <= MaxPromptLength && Truthy(apiKey)
    ensures s.CallProvider? ==> s.userPrompt == prompt
    ensures s.Respond? ==> WellFormed(s.result) && s.result.Failure?
    ensures s.Respond? ==> (s.result.code == ValidationError <==> !(MinPromptLength <= |prompt| <= MaxPromptLength))
    ensures |prompt| < MinPromptLength ==> s == Respond(Failure(TooShortMessage, ValidationError, false))
    ensures |prompt| > MaxPromptLength ==> s == Respond(Failure(TooLongMessage, ValidationError, false))
    ensures MinPromptLength <= |prompt| <= MaxPromptLength && !Truthy(apiKey) ==>
              s == Respond(Failure(UnavailableMessage, ApiError, true))
  {
    if |prompt| < MinPromptLength then
      Respond(Failure(TooShortMessage, ValidationError, false))
    else if |prompt| > MaxPromptLength then
      Respond(Failure(TooLongMessage, ValidationError, false))
    else if !Truthy(apiKey) then
      Respond(Failure(UnavailableMessage, ApiError, true))
    else
      CallProvider(prompt)
  }

  /** The result of a completed provider call: missing or empty content is a
      retryable API error, anything else is the content trimmed. */
  function StoryFromContent(content: Option<string>): (r: GenerationResult)
    ensures WellFormed(r)
    ensures r.Story? <==> Truthy(content)
    ensures r.Story? ==> IsTrimmed(content.value, r.story)
    ensures r.Failure? ==> r == Failure(EmptyStoryMessage, ApiError, true)
  {
    if !Truthy(content) then
      Failure(EmptyStoryMessage, ApiError, true)
    else
      TrimIsTrimmed(content.value);
      Story(Trim(content.value))
  }

  /** JavaScript truthiness of a numeric status: present and non-zero. */
  predicate HasStatus(status: Option<int>) {
    status.Some? && status.value != 0
  }

  /** The thrown error is the timer's rejection (or carries the same message). */
  predicate IsTimeout(message: Option<string>) {
    message == Some(TimeoutMarker)
  }

  /** A connection failure: name resolution or connection refused, or a message
      that mentions "fetch". */
  predicate IsNetworkError(message: Option<string>, code: Option<string>) {
    || code == Some("ENOTFOUND")
    || code == Some("ECONNREFUSED")
    || (message.Some? && Contains(message.value, "fetch"))
  }

  /** The catch block: a thrown error mapped to a failure, the first matching
      rule winning. */
  function ClassifyFailure(message: Option<string>, status: Option<int>, code: Option<string>): (r: GenerationResult)
    ensures r.Failure? && WellFormed(r)
    ensures r.code == Timeout <==> IsTimeout(message)
    ensures r.code == ValidationError <==> !IsTimeout(message) && status == Some(400)
    ensures r.code == Unknown <==>
              !IsTimeout(message) && !HasStatus(status) && !IsNetworkError(message, code)
    ensures r.code == ApiError <==>
              && !IsTimeout(message)
              && status != Some(400)
              && (HasStatus(status) || IsNetworkError(message, code))
  {
    if IsTimeout(message) then
      Failure(TimeoutMessage, Timeout, true)
    else if status == Some(429) then
      Failure(RateLimitMessage, ApiError, true)
    else if status == Some(401) || status == Some(403) then
      Failure(UnavailableMessage, ApiError, true)
    else if status == Some(400) then
      Failure(InvalidPromptMessage, ValidationError, false)
    else if status.Some? && status.value >= 500 then
      Failure(ProviderDownMessage, ApiError, true)
    else if IsNetworkError(message, code) then
      Failure(NetworkMessage, ApiError, true)
    else if HasStatus(status) then
      Failure(EmptyStoryMessage, ApiError, true)
    else
      Failure(UnexpectedMessage, Unknown, true)
  }

  /** The result of the provider call, whichever way it went. */
  function MapOutcome(outcome: ProviderOutcome): (r: GenerationResult)
    ensures WellFormed(r)
    ensures r.Story? <==> outcome.Completed? && Truthy(outcome.content)
    ensures r.Story? ==> r.story == Trim(outcome.content.value)
  {
    match outcome
    case Completed(content) => StoryFromContent(content)
    case Failed(message, status, code) => ClassifyFailure(message, status, code)
  }

  /** The whole `generateGhostStory` handler. */
  function GenerateGhostStory(prompt: string, apiKey: Option<string>, outcome: ProviderOutcome): (r: GenerationResult)
    ensures WellFormed(r)
    ensures r.Story? <==>
              && MinPromptLength <= |prompt| <= MaxPromptLength
              && Truthy(apiKey)
              && outcome.Completed? && Truthy(outcome.content)
    ensures r.Story? ==> r.story == Trim(outcome.content.value)
    ensures r.Failure? && !r.retryable <==>
              || !(MinPromptLength <= |prompt| <= MaxPromptLength)
              || (Truthy(apiKey) && outcome.Failed? && !IsTimeout(outcome.message) && outcome.status == Some(400))
  {
    match Prepare(prompt, apiKey)
    case Respond(result) => result
    case CallProvider(_) => MapOutcome(outcome)
  }

  /** A prompt of the wrong length is answered before the key is looked at or
      the provider called: neither can change the result. */
  lemma LengthCheckComesFirst(prompt: string, key1: Option<string>, key2: Option<string>,
                              outcome1: ProviderOutcome, outcome2: ProviderOutcome)
    requires !(MinPromptLength <= |prompt| <= MaxPromptLength)
    ensures GenerateGhostStory(prompt, key1, outcome1) == GenerateGhostStory(prompt, key2, outcome2)
    ensures GenerateGhostStory(prompt, key1, outcome1).code == ValidationError
  {
  }

  /** Without a key the provider is never called: its outcome cannot change the result. */
  lemma MissingKeyComesBeforeProvider(prompt: string, apiKey: Option<string>,
                                      outcome1: ProviderOutcome, outcome2: ProviderOutcome)
    requires MinPromptLength <= |prompt| <= MaxPromptLength && !Truthy(apiKey)
    ensures GenerateGhostStory(prompt, apiKey, outcome1) == GenerateGhostStory(prompt, apiKey, outcome2)
    ensures GenerateGhostStory(prompt, apiKey, outcome1) == Failure(UnavailableMessage, ApiError, true)
  {
  }

  /** Content that is whitespace only is not an error: it becomes an empty story. */
  lemma WhitespaceContentIsEmptyStory(prompt: string, apiKey: string, content: string)
    requires MinPromptLength <= |prompt| <= MaxPromptLength && apiKey != ""
    requires content != "" && AllWhitespace(content)
    ensures GenerateGhostStory(prompt, Some(apiKey), Completed(Some(content))) == Story("")
  {
  }

  /** The timeout rule is checked first: whatever status or code the error
      also carries, it is a timeout. */
  lemma TimeoutWins(status: Option<int>, code: Option<string>)
    ensures ClassifyFailure(Some(TimeoutMarker), status, code) == Failure(TimeoutMessage, Timeout, true)
  {
  }

  /** The status rules and the network rule, in their order of precedence. */
  lemma StatusPrecedence(message: Option<string>, status: Option<int>, code: Option<string>)
    requires !IsTimeout(message)
    ensures status == Some(429) ==>
              ClassifyFailure(message, status, code) == Failure(RateLimitMessage, ApiError, true)
    ensures status == Some(401) || status == Some(403) ==>
              ClassifyFailure(message, status, code) == Failure(UnavailableMessage, ApiError, true)
    ensures status == Some(400) ==>
              ClassifyFailure(message, status, code) == Failure(InvalidPromptMessage, ValidationError, false)
    ensures status.Some? && status.value >= 500 ==>
              ClassifyFailure(message, status, code) == Failure(ProviderDownMessage, ApiError, true)
    ensures (status.None? || (status.value !in {400, 401, 403, 429} && status.value < 500))
              && IsNetworkError(message, code) ==>
              ClassifyFailure(message, status, code) == Failure(NetworkMessage, ApiError, true)
    ensures HasStatus(status) && status.value !in {400, 401, 403, 429} && status.value < 500
              && !IsNetworkError(message, code) ==>
              ClassifyFailure(message, status, code) == Failure(EmptyStoryMessage, ApiError, true)
  {
  }

  /** A message that mentions "fetch" marks a network error unless a status
      rule matched first. */
  lemma FetchMessageIsNetworkError(before: string, after: string, status: Option<int>, code: Option<string>)
    requires status.None? || status.value == 0
    ensures ClassifyFailure(Some(before + "fetch" + after), status, code) == Failure(NetworkMessage, ApiError, true)
  {
    var m := before + "fetch" + after;
    assert m[|before|..|before| + 5] == "fetch";
    assert OccursAt(m, "fetch", |before|);
    // The timeout message has no 'f', so a message containing "fetch" is never it.
    assert forall i | 0 <= i < |TimeoutMarker| :: TimeoutMarker[i] != 'f';
    assert m[|before|] == 'f';
    assert !IsTimeout(Some(m));
  }

  /** A thrown primitive (a string or a number) has no `message`, `status`
      or `code`: every rule misses and it is the UNKNOWN failure. */
  lemma ThrownPrimitiveIsUnknown()
    ensures ClassifyFailure(None, None, None) == Failure(UnexpectedMessage, Unknown, true)
  {
  }

  /** A rejected key (401 or 403) reads exactly like a missing key: the
      response does not reveal that authentication failed. */
  lemma AuthFailureLooksLikeMissingKey(prompt: string, apiKey: string, message: Option<string>,
                                       status: int, code: Option<string>, outcome: ProviderOutcome)
    requires MinPromptLength <= |prompt| <= MaxPromptLength && apiKey != ""
    requires status == 401 || status == 403
    requires !IsTimeout(message)
    ensures GenerateGhostStory(prompt, Some(apiKey), Failed(message, Some(status), code))
            == GenerateGhostStory(prompt, None, outcome)
  {
  }
}
