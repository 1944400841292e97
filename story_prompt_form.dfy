/** The prompt form: the client-side validator, the character counter and the
    two state cells the form keeps (the prompt text and the error message). */
module StoryPromptForm {
  import opened Wrappers
  import opened Text
  import StoryGeneration

  const MinLength: nat := 3
  /** The upper bound of the validator, the `maxLength` of the input and the
      denominator of the counter. */
  const MaxLength: nat := 200

  const BlankMessage := "Please enter a prompt to generate your ghost story"
  const TooShortMessage := "Prompt must be at least 3 characters"
  const TooLongMessage := "Prompt must be less than 200 characters"

  /** `validatePrompt`: blank first, then too short, then too long. Lengths
      are those of the untrimmed value. */
  function ValidatePrompt(value: string): (r: Option<string>)
    ensures r.None? <==> Trim(value) != [] && MinLength <= |value| <= MaxLength
    ensures r == Some(BlankMessage) <==> Trim(value) == []
    ensures r == Some(TooShortMessage) <==> Trim(value) != [] && |value| < MinLength
    ensures r == Some(TooLongMessage) <==> Trim(value) != [] && |value| > MaxLength
    ensures r.Some? ==> Truthy(r)
  {
    if |Trim(value)| == 0 then Some(BlankMessage)
    else if |value| < MinLength then Some(TooShortMessage)
    else if |value| > MaxLength then Some(TooLongMessage)
    else None
  }

  /** Whatever the form lets through, the gateway's own length check accepts. */
  lemma AcceptedPromptPassesGatewayCheck(value: string, apiKey: Option<string>)
    requires ValidatePrompt(value).None?
    ensures var s := StoryGeneration.Prepare(value, apiKey);
            s.Respond? ==> s.result.code != StoryGeneration.ValidationError
  {
  }

  /** On a non-blank value the form and the gateway reject the same lengths
      with the same words. */
  lemma FormAgreesWithGatewayOnLength(value: string, apiKey: Option<string>)
    requires Trim(value) != []
    ensures var s := StoryGeneration.Prepare(value, apiKey);
            ValidatePrompt(value).Some? <==> s.Respond? && s.result.code == StoryGeneration.ValidationError
    ensures var s := StoryGeneration.Prepare(value, apiKey);
            ValidatePrompt(value).Some? ==> ValidatePrompt(value).value == s.result.error
  {
  }

  /** Blankness is checked first and without trimming the length: three
      spaces are blank, and two spaces before a letter are accepted. */
  lemma BlankCheckComesFirst()
    ensures ValidatePrompt("   ") == Some(BlankMessage)
    ensures ValidatePrompt("  a") == None
  {
    assert AllWhitespace("   ");
    assert !IsWhitespace("  a"[2]);
  }

  /** The counter `{prompt.length}/200`: the decimal digits of the prompt's
      length followed by the literal text "/200". */
  function CounterText(prompt: string): (r: string)
    ensures |r| > 4 && r[|r| - 4..] == "/200"
    ensures forall i :: 0 <= i < |r| - 4 ==> '0' <= r[i] <= '9'
    ensures DecimalValue(r[..|r| - 4]) == |prompt|
    ensures r[0] == '0' ==> r == "0/200"
  {
    var digits := NatToDecimal(|prompt|);
    var r := digits + "/200";
    assert r[..|r| - 4] == digits && r[0] == digits[0];
    r
  }

  /** The form's state cells. */
  class Form {
    var prompt: string
    var errorMessage: Option<string>

    /** A message on display is always what the validator says about the
        current prompt. */
    ghost predicate Valid()
      reads this
    {
      errorMessage.Some? ==> errorMessage == ValidatePrompt(prompt)
    }

    constructor ()
      ensures Valid()
      ensures prompt == "" && errorMessage == None
    {
      prompt := "";
      errorMessage := None;
    }

    /** `handleSubmit`: show the validator's message and stop, or clear the
        message and hand the prompt, untrimmed, to `onSubmit` (the returned
        value is the argument of that one call). */
    method HandleSubmit() returns (submitted: Option<string>)
      modifies this
      ensures Valid()
      ensures prompt == old(prompt)
      ensures errorMessage == ValidatePrompt(prompt)
      ensures submitted.Some? <==> ValidatePrompt(prompt).None?
      ensures submitted.Some? ==> submitted.value == prompt
    {
      var error := ValidatePrompt(prompt);
      assert Truthy(error) <==> error.Some?;
      if Truthy(error) {
        errorMessage := error;
        submitted := None;
        return;
      }
      errorMessage := None;
      submitted := Some(prompt);
    }

    /** `handleChange`: take the new text and clear any message on display. */
    method HandleChange(value: string)
      requires Valid()
      modifies this
      ensures Valid()
      ensures prompt == value && errorMessage == None
    {
      prompt := value;
      if Truthy(errorMessage) {
        errorMessage := None;
      }
    }

    /** A press of the submit button. While `isLoading` the button is
        disabled, so no submit event reaches the handler. */
    method PressSubmit(isLoading: bool) returns (submitted: Option<string>)
      requires Valid()
      modifies this
      ensures Valid()
      ensures isLoading ==> submitted == None && prompt == old(prompt) && errorMessage == old(errorMessage)
      ensures !isLoading ==> prompt == old(prompt) && errorMessage == ValidatePrompt(prompt)
      ensures !isLoading ==> (submitted.Some? <==> ValidatePrompt(prompt).None?)
      ensures submitted.Some? ==> submitted.value == prompt
    {
      if isLoading {
        submitted := None;
      } else {
        submitted := HandleSubmit();
      }
    }

    /** An edit of the input. While `isLoading` the input is disabled and
        keeps its text. */
    method EditInput(isLoading: bool, value: string)
      requires Valid()
      modifies this
      ensures Valid()
      ensures isLoading ==> prompt == old(prompt) && errorMessage == old(errorMessage)
      ensures !isLoading ==> prompt == value && errorMessage == None
    {
      if !isLoading {
        HandleChange(value);
      }
    }
  }
}
