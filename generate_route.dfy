/**
 * `POST /api/generate`: validates the prompt, forwards it to the backend,
 * returns the backend's JSON when it answers with a 2xx status, and
 * otherwise answers 200 with a templated mock text.
 */
module GenerateRoute {
  import opened Wrappers
  import opened Json
  import opened Routes

  const DefaultBackend := "http://localhost:5000"
  const PromptRequired := "Prompt is required"
  const GenerateFailed := "Failed to generate text"

  /** The one request made to the backend. */
  datatype BackendCall = BackendCall(url: string, payload: Json)

  /**
   * How the backend request settles: no response at all, or a status with a
   * body that parses as JSON (`Some`) or not (`None`).
   */
  datatype BackendOutcome = Unreachable | Replied(status: int, data: Option<Json>)

  /** What the handler did: the backend call it made, if any, and its response. */
  datatype Handled = Handled(call: Option<BackendCall>, response: Response)

  /**
   * `process.env.NEXT_PUBLIC_API_URL || DefaultBackend`: never empty; a
   * set, non-empty variable is used as it is, anything else gives the default.
   */
  function BackendUrl(env: Option<string>): (url: string)
    ensures url != ""
    ensures url == DefaultBackend || env == Some(url)
    ensures env.Some? && env.value != "" ==> url == env.value
  {
    if env.Some? && env.value != "" then env.value else DefaultBackend
  }

  /** `response.ok`. */
  predicate IsOk(status: int)
  {
    200 <= status <= 299
  }

  /** The backend answered with a 2xx status and a body that parses as JSON: its body is passed on. */
  predicate Usable(backend: BackendOutcome)
  {
    backend.Replied? && IsOk(backend.status) && backend.data.Some?
  }

  // The mock template, line by line.
  const MockLead := "AI Generated Response for: \""
  const MockExplanation :=
    "\n    \n" + MockSimulated + "\n\n" + "Key points about your prompt:\n" + "\U{2022} Your input was: \""
  const MockSimulated :=
    "This is a simulated AI response that demonstrates text generation capabilities. "
    + "In a real implementation, this would connect to an actual language model like OpenAI's GPT, Claude, or a local model."
  const MockUses :=
    "\n" + MockBullets + "\n" + MockFeatures + "\n\n" + "Note: Backend at "
  const MockBullets :=
    "\U{2022} The AI would analyze the context and intent\n"
    + "\U{2022} Generate relevant, coherent text based on the input\n"
    + "\U{2022} Provide helpful and informative responses\n"
  const MockFeatures :=
    "This mock response shows how the interface would work with a real AI backend. "
    + "The text generation feature could be used for:\n"
    + "- Creative writing assistance\n"
    + "- Code generation and explanation\n"
    + "- Question answering\n"
    + "- Content creation\n"
    + "- And much more!"
  const MockNote := " is not available, showing mock response."

  /** The fallback text for `prompt` when the backend at `url` does not answer usefully. */
  function MockText(prompt: string, url: string): string
  {
    MockLead + prompt + "\"" + MockExplanation + prompt + "\"" + MockUses + url + MockNote
  }

  /**
   * Where the parts of the mock template end up: the prompt, followed by a
   * closing quote, directly after the lead and again after the explanation.
   */
  lemma TemplateParts(lead: string, p: string, middle: string, tail: string, url: string, note: string)
    ensures var t := lead + p + "\"" + middle + p + "\"" + tail + url + note;
      && var second := |lead| + |p| + 1 + |middle|;
      && t[..|lead| + |p| + 1] == lead + p + "\""
      && t[|lead|..|lead| + |p|] == p
      && t[second..second + |p| + 1] == p + "\""
      && t[|t| - |url| - |note|..] == url + note
  {
    var head, quoted, rest := lead + p + "\"", p + "\"", tail + url + note;
    var t := lead + p + "\"" + middle + p + "\"" + tail + url + note;
    assert t == head + middle + quoted + rest;
    assert t == (head + middle + quoted + tail) + (url + note);
  }

  /**
   * The mock text opens with `AI Generated Response for: "<prompt>"`,
   * quotes the prompt a second time in its bullet list, and closes with a
   * note naming the backend URL.
   */
  lemma MockTextShape(prompt: string, url: string)
    ensures var t := MockText(prompt, url);
      && var second := |MockLead| + |prompt| + 1 + |MockExplanation|;
      && t[..|MockLead| + |prompt| + 1] == MockLead + prompt + "\""
      && t[second..second + |prompt| + 1] == prompt + "\""
      && t[|t| - |url| - |MockNote|..] == url + MockNote
  {
    TemplateParts(MockLead, prompt, MockExplanation, MockUses, url, MockNote);
  }

  /** `{ text }`, the body of the mock answer. */
  function TextBody(text: string): (j: Json)
    ensures j.JObject? && Get(j.members, "text") == Value(JString(text))
  {
    JObject([("text", JString(text))])
  }

  /**
   * The handler. `env` is the backend-URL variable; `backend` is how the
   * forwarded request settles. Building the mock text converts the prompt
   * with `${prompt}`; when that throws, the outer `catch` answers 500 after
   * the backend call has been made.
   */
  function Post(req: Request, env: Option<string>, backend: BackendOutcome): (h: Handled)
    ensures h.response.status in {200, 400, 500}
    ensures h.call.Some? <==> ReadField(req, "prompt").Some? && Truthy(ReadField(req, "prompt").value)
    ensures h.call.Some? ==>
      var prompt := ReadField(req, "prompt").value;
      h.call.value == BackendCall(BackendUrl(env) + "/api/generate", JObject([("prompt", prompt.v)]))
    ensures h.response.status == 400 <==> ReadField(req, "prompt").Some? && !Truthy(ReadField(req, "prompt").value)
    ensures h.response.status == 400 ==> h.response.body == ErrorBody(PromptRequired)
    ensures h.response.status == 500 <==>
      || ReadField(req, "prompt") == None
      || (h.call.Some? && !Usable(backend) && TextThrows(ReadField(req, "prompt").value.v))
    ensures h.response.status == 500 ==> h.response.body == ErrorBody(GenerateFailed)
  {
    match ReadField(req, "prompt")
    case None => Handled(None, Response(500, ErrorBody(GenerateFailed)))
    case Some(prompt) =>
      if !Truthy(prompt) then Handled(None, Response(400, ErrorBody(PromptRequired)))
      else
        var url := BackendUrl(env);
        var call := BackendCall(url + "/api/generate", JObject([("prompt", prompt.v)]));
        if Usable(backend) then
          Handled(Some(call), Response(200, backend.data.value))
        else
          match ToText(prompt.v)
          case None => Handled(Some(call), Response(500, ErrorBody(GenerateFailed)))
          case Some(text) => Handled(Some(call), Response(200, TextBody(MockText(text, url))))
  }

  /** A valid prompt and a 2xx answer with a JSON body: that body is returned as it is, with status 200. */
  lemma PassThrough(req: Request, env: Option<string>, status: int, data: Json)
    requires ReadField(req, "prompt").Some? && Truthy(ReadField(req, "prompt").value)
    requires IsOk(status)
    ensures Post(req, env, Replied(status, Some(data))).response == Response(200, data)
  {
  }

  /**
   * A valid prompt and an unreachable backend, a non-2xx status or a body
   * that is not JSON: status 200 with the mock text for that prompt and URL,
   * or 500 when the prompt cannot be written into the template.
   */
  lemma Fallback(req: Request, env: Option<string>, backend: BackendOutcome)
    requires ReadField(req, "prompt").Some? && Truthy(ReadField(req, "prompt").value)
    requires !Usable(backend)
    ensures var prompt := ReadField(req, "prompt").value.v;
      !TextThrows(prompt) ==>
        Post(req, env, backend).response == Response(200, TextBody(MockText(ToText(prompt).value, BackendUrl(env))))
    ensures var prompt := ReadField(req, "prompt").value.v;
      TextThrows(prompt) ==> Post(req, env, backend).response == Response(500, ErrorBody(GenerateFailed))
  {
  }

  /**
   * A prompt object with its own `toString` member, the backend down: the
   * backend is still called, and the answer is 500 rather than the mock text.
   */
  lemma ToStringPromptFails(members: seq<(string, Json)>, env: Option<string>)
    requires Get(members, "toString") != Undefined
    ensures var h := Post(Body(JObject([("prompt", JObject(members))])), env, Unreachable);
      && h.call == Some(BackendCall(BackendUrl(env) + "/api/generate", JObject([("prompt", JObject(members))])))
      && h.response == Response(500, ErrorBody(GenerateFailed))
  {
  }

  /**
   * Only a falsy prompt is rejected: a whitespace-only string prompt is
   * forwarded, and if the backend is down it is quoted back verbatim.
   */
  lemma StringPromptForwarded(members: seq<(string, Json)>, prompt: string, env: Option<string>)
    requires Get(members, "prompt") == Value(JString(prompt)) && prompt != ""
    ensures var h := Post(Body(JObject(members)), env, Unreachable);
      && h.call == Some(BackendCall(BackendUrl(env) + "/api/generate", JObject([("prompt", JString(prompt))])))
      && h.response == Response(200, TextBody(MockText(prompt, BackendUrl(env))))
  {
  }

  /** A set, non-empty backend variable `u` sends the call to `u + "/api/generate"`; otherwise to the default host. */
  lemma CallTarget(req: Request, env: Option<string>, backend: BackendOutcome)
    requires ReadField(req, "prompt").Some? && Truthy(ReadField(req, "prompt").value)
    ensures env.Some? && env.value != "" ==> Post(req, env, backend).call.value.url == env.value + "/api/generate"
    ensures env == None || env == Some("") ==>
      Post(req, env, backend).call.value.url == DefaultBackend + "/api/generate"
  {
    var h := Post(req, env, backend);
    assert h.call.value.url == BackendUrl(env) + "/api/generate";
  }

  /** The answer depends on the body only through its `prompt` member. */
  lemma OnlyPromptMatters(m1: seq<(string, Json)>, m2: seq<(string, Json)>, env: Option<string>, backend: BackendOutcome)
    requires Get(m1, "prompt") == Get(m2, "prompt")
    ensures Post(Body(JObject(m1)), env, backend) == Post(Body(JObject(m2)), env, backend)
  {
  }
}
