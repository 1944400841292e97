/** The page (`Home`): three state cells driven by a submission and by the
    "Generate New Story" / "Try Again" buttons, and the conditions under which
    the error panel, the loading view and the story view are shown. */
module Page {
  import opened Wrappers
  import opened Text
  import opened StoryGeneration
  import StoryPromptForm

  /** The one message the page shows for any exception from the action call. */
  const ClientErrorMessage := "An unexpected error occurred. Please try again."

  /** How the awaited action call ended: it returned a result, or it threw. */
  datatype CallOutcome = Returned(result: GenerationResult) | Threw(exception: string)

  class Home {
    var currentStory: Option<string>
    var isGenerating: bool
    var error: Option<string>
    /** The `{prompt}` argument of every action call made so far, in order. */
    ghost var requests: seq<string>

    /** Story and error are never both set, and both are clear while a
        generation is in flight. */
    ghost predicate Valid()
      reads this
    {
      && !(currentStory.Some? && error.Some?)
      && (isGenerating ==> currentStory.None? && error.None?)
    }

    constructor ()
      ensures Valid()
      ensures currentStory == None && !isGenerating && error == None && requests == []
    {
      currentStory, isGenerating, error := None, false, None;
      requests := [];
    }

    /** `handleSubmit` up to its `await`: clear the previous story and error,
        raise the flag, and call the action once with the prompt. */
    method Begin(prompt: string)
      modifies this
      ensures Valid()
      ensures error == None && currentStory == None && isGenerating
      ensures requests == old(requests) + [prompt]
    {
      error := None;
      currentStory := None;
      isGenerating := true;
      requests := requests + [prompt];
    }

    /** `handleSubmit` after its `await`: a story is shown, an error result's
        message is shown, any exception becomes the one generic message, and
        the flag drops on every path. */
    method Complete(outcome: CallOutcome)
      requires Valid() && isGenerating
      modifies this
      ensures Valid()
      ensures !isGenerating && requests == old(requests)
      ensures outcome.Returned? && outcome.result.Story? ==>
                currentStory == Some(outcome.result.story) && error == None
      ensures outcome.Returned? && outcome.result.Failure? ==>
                error == Some(outcome.result.error) && currentStory == None
      ensures outcome.Threw? ==> error == Some(ClientErrorMessage) && currentStory == None
    {
      match outcome {
        case Returned(result) =>
          if result.Story? {
            currentStory := Some(result.story);
          } else {
            error := Some(result.error);
          }
        case Threw(_) =>
          error := Some(ClientErrorMessage);
      }
      isGenerating := false;
    }

    /** The whole `handleSubmit` against the action: `transport` is an exception
        raised by the call itself (the action's own result is then lost). */
    method HandleSubmit(prompt: string, apiKey: Option<string>, provider: ProviderOutcome,
                        transport: Option<string>)
      modifies this
      ensures Valid() && !isGenerating
      ensures requests == old(requests) + [prompt]
      ensures transport.Some? ==> currentStory == None && error == Some(ClientErrorMessage)
      ensures transport.None? ==>
                var r := GenerateGhostStory(prompt, apiKey, provider);
                && (r.Story? ==> currentStory == Some(r.story) && error == None)
                && (r.Failure? ==> currentStory == None && error == Some(r.error))
    {
      Begin(prompt);
      if transport.Some? {
        Complete(Threw(transport.value));
      } else {
        Complete(Returned(GenerateGhostStory(prompt, apiKey, provider)));
      }
    }

    /** `handleGenerateNew`: clear story and error, nothing else. */
    method GenerateNew()
      modifies this
      ensures Valid()
      ensures currentStory == None && error == None
      ensures isGenerating == old(isGenerating) && requests == old(requests)
    {
      currentStory := None;
      error := None;
    }

    /** The error panel is rendered when `error && !isGenerating`; in a
        valid state no story is held while it shows. */
    predicate ErrorPanelVisible(): (visible: bool)
      reads this
      ensures visible ==> error.Some? && error.value != "" && !isGenerating
      ensures visible && Valid() ==> currentStory.None?
    {
      Truthy(error) && !isGenerating
    }

    /** The loading animation is rendered exactly while generating; in a
        valid state story and error are then both clear. */
    predicate LoadingVisible(): (visible: bool)
      reads this
      ensures visible <==> isGenerating
      ensures visible && Valid() ==> currentStory.None? && error.None?
    {
      isGenerating
    }

    /** The story display renders unless loading or the story is empty; in a
        valid state no error is held while it shows. */
    predicate StoryVisible(): (visible: bool)
      reads this
      ensures visible ==> currentStory.Some? && currentStory.value != "" && !isGenerating
      ensures visible && Valid() ==> error.None?
    {
      !isGenerating && Truthy(currentStory)
    }

    /** The prompt form is rendered with `isLoading = isGenerating`: it is
        disabled exactly while the loading view shows. */
    predicate FormDisabled(): (disabled: bool)
      reads this
      ensures disabled <==> LoadingVisible()
    {
      isGenerating
    }
  }

  /** In every valid state at most one of the three views is shown. */
  lemma AtMostOneView(h: Home)
    requires h.Valid()
    ensures !(h.ErrorPanelVisible() && h.StoryVisible())
    ensures h.LoadingVisible() ==> !h.ErrorPanelVisible() && !h.StoryVisible()
  {
  }

  /** "Generate New" (and "Try Again") twice is "Generate New" once. */
  method GenerateNewTwice(h: Home)
    modifies h
    ensures h.Valid()
    ensures h.currentStory == None && h.error == None
    ensures h.isGenerating == old(h.isGenerating) && h.requests == old(h.requests)
  {
    h.GenerateNew();
    ghost var once := (h.currentStory, h.isGenerating, h.error, h.requests);
    h.GenerateNew();
    assert (h.currentStory, h.isGenerating, h.error, h.requests) == once;
  }

  /** The form wired to the page (`onSubmit = handleSubmit`,
      `isLoading = isGenerating`): a press of the submit button starts one
      action call with the form's prompt, untrimmed, when the page is idle and
      the prompt passes the validator; otherwise no call is made. */
  method SubmitThroughForm(h: Home, form: StoryPromptForm.Form, apiKey: Option<string>,
                           provider: ProviderOutcome, transport: Option<string>)
    requires h.Valid() && form.Valid()
    modifies h, form
    ensures h.Valid() && form.Valid()
    ensures form.prompt == old(form.prompt)
    ensures old(h.isGenerating) ==> form.errorMessage == old(form.errorMessage)
    ensures old(h.isGenerating) || StoryPromptForm.ValidatePrompt(form.prompt).Some? ==>
              h.currentStory == old(h.currentStory) && h.error == old(h.error)
              && h.isGenerating == old(h.isGenerating) && h.requests == old(h.requests)
    ensures !old(h.isGenerating) ==> form.errorMessage == StoryPromptForm.ValidatePrompt(form.prompt)
    ensures !old(h.isGenerating) && StoryPromptForm.ValidatePrompt(form.prompt).None? ==>
              h.requests == old(h.requests) + [form.prompt] && !h.isGenerating
    ensures !old(h.isGenerating) && StoryPromptForm.ValidatePrompt(form.prompt).None? && transport.Some? ==>
              h.currentStory == None && h.error == Some(ClientErrorMessage)
    ensures !old(h.isGenerating) && StoryPromptForm.ValidatePrompt(form.prompt).None? && transport.None? ==>
              var r := GenerateGhostStory(form.prompt, apiKey, provider);
              && (r.Story? ==> h.currentStory == Some(r.story) && h.error == None)
              && (r.Failure? ==> h.currentStory == None && h.error == Some(r.error))
  {
    var submitted := form.PressSubmit(h.FormDisabled());
    if submitted.Some? {
      h.HandleSubmit(submitted.value, apiKey, provider, transport);
    }
  }

  /** Provider content that is whitespace only leaves the page with nothing to
      show: the story is empty, there is no error and nothing is loading. */
  method WhitespaceContentShowsNothing(h: Home, prompt: string, apiKey: string, content: string)
    requires MinPromptLength <= |prompt| <= MaxPromptLength && apiKey != ""
    requires content != "" && AllWhitespace(content)
    modifies h
    ensures h.Valid() && h.currentStory == Some("") && h.error == None
    ensures !h.ErrorPanelVisible() && !h.LoadingVisible() && !h.StoryVisible()
  {
    WhitespaceContentIsEmptyStory(prompt, apiKey, content);
    h.HandleSubmit(prompt, Some(apiKey), Completed(Some(content)), None);
  }

  /** The page's message for an exception is word for word the action's
      UNKNOWN message: the user cannot tell the two apart. */
  lemma ClientErrorReadsLikeUnknownFailure(message: Option<string>, code: Option<string>)
    requires !IsTimeout(message) && !IsNetworkError(message, code)
    ensures ClassifyFailure(message, None, code) == Failure(ClientErrorMessage, Unknown, true)
  {
  }
}
