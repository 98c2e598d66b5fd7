/**
  The guards of the media services the generation nodes call: speech
  synthesis, image generation and scenario creation. The remote services
  are oracles; a failure inside one is re-raised as the module's own error
  with the service's message appended.
 */
module Media {
  import opened Exceptions
  import opened Text
  import opened GraphState

  /** Longest text the speech service accepts. */
  const MaxSpeechLength: nat := 5000

  /**
    `TextToSpeech.synthesize`: blank or over-long text is refused before the
    service is called; an empty or failed synthesis is a `TextToSpeechError`.
    Audio is returned only for acceptable text, and is never empty.
   */
  function Synthesize(text: string, speech: string -> Result<seq<bv8>>): (r: Result<seq<bv8>>)
    ensures Strip(text) == "" ==> r == Err(ValueError("Input text cannot be empty"))
    ensures Strip(text) != "" && |text| > MaxSpeechLength ==>
      r == Err(ValueError("Input text exceeds maximum length of 5000 characters"))
    ensures r.Ok? ==> Strip(text) != "" && |text| <= MaxSpeechLength && r.value != [] && speech(text) == r
    ensures r.Err? && Strip(text) != "" && |text| <= MaxSpeechLength ==> r.error.TextToSpeechError?
  {
    if Strip(text) == "" then Err(ValueError("Input text cannot be empty"))
    else if |text| > MaxSpeechLength then
      Err(ValueError("Input text exceeds maximum length of 5000 characters"))
    else
      match speech(text)
      case Err(e) => Err(TextToSpeechError("Text-to-speech conversion failed: " + e.message))
      case Ok(audio) =>
        if audio == [] then Err(TextToSpeechError("Text-to-speech conversion failed: Generated audio is empty"))
        else Ok(audio)
  }

  /**
    `TextToImage.generate_image`: a blank prompt is refused; otherwise the
    image service renders the prompt to `path`, and its failure is a
    `TextToImageError`.
   */
  function GenerateImage(prompt: string, path: string, render: (string, string) -> Result<seq<bv8>>)
    : (r: Result<seq<bv8>>)
    ensures Strip(prompt) == "" ==> r == Err(ValueError("Prompt cannot be empty"))
    ensures r.Ok? ==> Strip(prompt) != "" && render(prompt, path) == r
    ensures r.Err? && Strip(prompt) != "" ==> r.error.TextToImageError?
  {
    if Strip(prompt) == "" then Err(ValueError("Prompt cannot be empty"))
    else
      match render(prompt, path)
      case Err(e) => Err(TextToImageError("Failed to generate image: " + e.message))
      case Ok(image) => Ok(image)
  }

  /**
    `TextToImage.create_scenario`: the scenario model sees only the last
    five messages of the history it is given; its image prompt is returned.
   */
  function CreateScenario(history: seq<Message>, scenario: seq<Message> -> Result<string>)
    : (r: Result<string>)
    ensures r.Ok? ==> scenario(Last(history, 5)) == r
    ensures r.Err? ==> r.error.TextToImageError?
  {
    match scenario(Last(history, 5))
    case Err(e) => Err(TextToImageError("Failed to create scenario: " + e.message))
    case Ok(prompt) => Ok(prompt)
  }
}
