/** The backend's text generation: the model default, the order in which it
    raises, and how it takes the generated text out of a reply. The
    environment, the reply and Python's `repr` are parameters. The last
    part compares it with the frontend service on the same reply. */
module Ai {
  import opened Wrappers
  import opened JsonModel
  import Hf

  /** `os.getenv("DEFAULT_HF_MODEL", "gpt2")`: the variable when it is set
      (even to the empty string), otherwise "gpt2". */
  function DefaultModel(defaultModelEnv: Option<string>): (r: string)
    ensures defaultModelEnv.None? ==> r == "gpt2"
    ensures defaultModelEnv.Some? ==> r == defaultModelEnv.value
  {
    defaultModelEnv.GetOr("gpt2")
  }

  /** `model or DEFAULT_MODEL`: an absent or empty model name takes the
      default. */
  function ResolveModel(model: Option<string>, defaultModelEnv: Option<string>): (r: string)
    ensures model.Some? && model.value != "" ==> r == model.value
    ensures model.None? || model.value == "" ==> r == DefaultModel(defaultModelEnv)
  {
    if model.Some? && model.value != "" then model.value else DefaultModel(defaultModelEnv)
  }

  /** Choosing the model never fails and never yields the empty name while
      the default is not empty. */
  lemma ResolvedModelNonEmpty(model: Option<string>, defaultModelEnv: Option<string>)
    requires DefaultModel(defaultModelEnv) != ""
    ensures ResolveModel(model, defaultModelEnv) != ""
  {
  }

  /** What `generate_text` raises. `InferenceError` carries the text after
      "Hugging Face inference error: "; `ApiError` the body's 'error' value. */
  datatype AiError =
    | TokenNotSet
    | TransportError
    | InferenceError(detail: string)
    | DecodeError
    | ApiError(error: Json)
    | EmptyList

  /** `dict.get(key)`: the value, or None (null) when the key is missing. */
  function Get(fields: map<string, Json>, key: string): Json
  {
    if key in fields then fields[key] else JNull
  }

  /** The detail of a non-200 reply: a decoded dict gives its truthy 'error'
      value or else the whole dict; a body that is not JSON, or JSON that is
      not a dict (which has no `get`), gives the raw text. */
  function FailureDetail(text: string, body: Option<Json>, repr: Json -> string): (r: string)
    ensures (body.Some? && body.value.JObj? && "error" in body.value.fields && PyTruthy(body.value.fields["error"]))
              ==> r == PyStr(body.value.fields["error"], repr)
    ensures (body.Some? && body.value.JObj? && !("error" in body.value.fields && PyTruthy(body.value.fields["error"])))
              ==> r == PyStr(body.value, repr)
    ensures !(body.Some? && body.value.JObj?) ==> r == text
  {
    if body.Some? && body.value.JObj? then
      PyStr(PyOr(Get(body.value.fields, "error"), body.value), repr)
    else text
  }

  /** The value returned for a decoded 200 body, or the error it raises. */
  function Extract(data: Json, repr: Json -> string): (r: Result<Json, AiError>)
    ensures HasKey(data, "error") ==> r == Failure(ApiError(data.fields["error"]))
    ensures data.JArr? && |data.items| == 0 ==> r == Failure(EmptyList)
    ensures r.Failure? ==> HasKey(data, "error") || (data.JArr? && |data.items| == 0)
    ensures data.JArr? && |data.items| > 0 ==>
              r == Success(if HasKey(data.items[0], "generated_text") then data.items[0].fields["generated_text"]
                           else JStr(PyStr(data.items[0], repr)))
    ensures !data.JArr? && !HasKey(data, "error") ==>
              r == Success(if HasKey(data, "generated_text") then data.fields["generated_text"]
                           else JStr(PyStr(data, repr)))
  {
    if HasKey(data, "error") then Failure(ApiError(data.fields["error"]))
    else if data.JArr? then
      if |data.items| == 0 then Failure(EmptyList)
      else
        var first := data.items[0];
        if HasKey(first, "generated_text") then Success(first.fields["generated_text"])
        else Success(JStr(PyStr(first, repr)))
    else if HasKey(data, "generated_text") then Success(data.fields["generated_text"])
    else Success(JStr(PyStr(data, repr)))
  }

  /** `generate_text`. The returned value is whatever the body's
      `generated_text` holds, or the `str` of the body (or of its first
      element). */
  function GenerateText(prompt: string, model: Option<string>, maxTokens: int,
                        token: Option<string>, reply: Reply, repr: Json -> string): (r: Result<Json, AiError>)
    ensures token.None? || token.value == "" ==> r == Failure(TokenNotSet)
    ensures r.Success? ==> reply.Reply? && reply.status == 200 && reply.body.Some?
    ensures token.Some? && token.value != "" && reply.Reply? && reply.status == 200 && reply.body.Some? ==>
              r == Extract(reply.body.value, repr)
  {
    if token.None? || token.value == "" then Failure(TokenNotSet)
    else match reply
      case NoReply => Failure(TransportError)
      case Reply(status, text, body) =>
        if status != 200 then Failure(InferenceError(FailureDetail(text, body, repr)))
        else if body.None? then Failure(DecodeError)
        else Extract(body.value, repr)
  }

  /** The order in which it raises: the token check first, whatever the
      reply; then the status, whatever the body; then decoding; then an
      'error' key, even next to a generated text. */
  lemma ErrorOrdering(prompt: string, model: Option<string>, maxTokens: int,
                      token: Option<string>, reply: Reply, repr: Json -> string)
    requires token.Some? && token.value != ""
    ensures reply.NoReply? ==> GenerateText(prompt, model, maxTokens, token, reply, repr) == Failure(TransportError)
    ensures reply.Reply? && reply.status != 200 ==>
              GenerateText(prompt, model, maxTokens, token, reply, repr)
              == Failure(InferenceError(FailureDetail(reply.text, reply.body, repr)))
    ensures reply.Reply? && reply.status == 200 && reply.body.None? ==>
              GenerateText(prompt, model, maxTokens, token, reply, repr) == Failure(DecodeError)
    ensures reply.Reply? && reply.status == 200 && reply.body.Some? && HasKey(reply.body.value, "error") ==>
              GenerateText(prompt, model, maxTokens, token, reply, repr)
              == Failure(ApiError(reply.body.value.fields["error"]))
  {
  }

  // ------------------------------------------ backend against frontend

  /** The usual reply, a list whose first element is a dict with a string
      `generated_text`, gives the same text on both sides. */
  lemma SidesAgreeOnListReply(prompt: string, maxTokens: int, env: Hf.Env, token: Option<string>,
                              s: string, fields: map<string, Json>, rest: seq<Json>,
                              numberText: real -> string, repr: Json -> string)
    requires !Hf.UseMock(env) && token.Some? && token.value != ""
    requires "generated_text" in fields && fields["generated_text"] == JStr(s)
    ensures var reply := Reply(200, "", Some(JArr([JObj(fields)] + rest)));
      && Hf.GenerateTextHF(prompt, maxTokens, env, reply, numberText) == Hf.Generated(s)
      && GenerateText(prompt, None, maxTokens, token, reply, repr) == Success(JStr(s))
  {
    var data := JArr([JObj(fields)] + rest);
    assert data.items[0] == JObj(fields);
  }

  /** Both sides take `generated_text` from the same place. When the body
      has no 'error' key and that place holds the key, the backend returns
      its value whatever it is, while the frontend returns it only when it
      is a string and otherwise has no text (and answers from the mock). */
  lemma SidesReadTheSameSource(data: Json, numberText: real -> string, repr: Json -> string)
    requires !HasKey(data, "error")
    requires TextSource(data).Some? && HasKey(TextSource(data).value, "generated_text")
    ensures var text := TextSource(data).value.fields["generated_text"];
      && Extract(data, repr) == Success(text)
      && Hf.ExtractText(data, numberText) == (if text.JStr? then Some(text.s) else None)
  {
  }

  /** Without the key they differ only in how the source is turned into
      text: JavaScript's `String` against Python's `str`, and an empty array
      gives "undefined" on one side and raises on the other. */
  lemma SidesStringifyDifferently(data: Json, numberText: real -> string, repr: Json -> string)
    requires !HasKey(data, "error")
    requires TextSource(data).None? || !HasKey(TextSource(data).value, "generated_text")
    ensures TextSource(data).None? ==>
              Extract(data, repr) == Failure(EmptyList) && Hf.ExtractText(data, numberText) == Some("undefined")
    ensures TextSource(data).Some? ==>
              && Extract(data, repr) == Success(JStr(PyStr(TextSource(data).value, repr)))
              && Hf.ExtractText(data, numberText) == JsString(TextSource(data).value, numberText)
  {
  }

  /** They part ways on a dict carrying both an 'error' and a string
      `generated_text`: the frontend returns the text, the backend raises. */
  lemma SidesDifferOnErrorKey(prompt: string, maxTokens: int, env: Hf.Env, token: Option<string>,
                              s: string, fields: map<string, Json>,
                              numberText: real -> string, repr: Json -> string)
    requires !Hf.UseMock(env) && token.Some? && token.value != ""
    requires "generated_text" in fields && fields["generated_text"] == JStr(s) && "error" in fields
    ensures var reply := Reply(200, "", Some(JObj(fields)));
      && Hf.GenerateTextHF(prompt, maxTokens, env, reply, numberText) == Hf.Generated(s)
      && GenerateText(prompt, None, maxTokens, token, reply, repr) == Failure(ApiError(fields["error"]))
  {
  }

  /** And on any 2xx status other than 200: the frontend reads the body,
      the backend raises with the failure detail. */
  lemma SidesDifferOnNon200Success(prompt: string, maxTokens: int, env: Hf.Env, token: Option<string>,
                                   status: int, text: string, body: Json,
                                   numberText: real -> string, repr: Json -> string)
    requires !Hf.UseMock(env) && token.Some? && token.value != ""
    requires 200 < status <= 299
    ensures var reply := Reply(status, text, Some(body));
      && Hf.GenerateTextHF(prompt, maxTokens, env, reply, numberText)
         == (match Hf.ExtractText(body, numberText)
             case Some(t) => Hf.Generated(t)
             case None => Hf.Canned(Hf.GenerateMock(prompt, maxTokens)))
      && GenerateText(prompt, None, maxTokens, token, reply, repr).Failure?
  {
  }
}
