/**
 * The request handler of server/api/chat.post.ts: read the body, take its
 * `message`, reject anything that is not a non-empty string, hand the message
 * to the agent's `streamText` and return its UI message stream; every error
 * thrown on the way is caught and replaced by one generic 500 error.
 *
 * The agent and the HTTP plumbing are external: the result of `readBody` and
 * the combined outcome of `streamText(...)` and `toUIMessageStreamResponse()`
 * are parameters, and the stream is an arbitrary value of type `S`.
 */
module ChatPost {
  import opened Wrappers

  /** A JavaScript value as it can appear in a parsed request body. */
  datatype Json =
    | Undefined
    | Null
    | Bool(b: bool)
    | Num(n: real)
    | Str(s: string)
    | Obj(fields: map<string, Json>)
    | Arr(items: seq<Json>)

  /**
   * JavaScript truthiness, ToBoolean of ECMA-262 (section 7.1.2): what `!value`
   * negates. The falsy values are `undefined`, `null`, `false`, `0` and `""`.
   */
  predicate Truthy(v: Json)
    ensures !Truthy(v) <==> v == Undefined || v == Null || v == Bool(false) || v == Num(0.0) || v == Str([])
  {
    match v
    case Undefined => false
    case Null => false
    case Bool(b) => b
    case Num(n) => n != 0.0
    case Str(s) => |s| > 0
    case Obj(_) => true
    case Arr(_) => true
  }

  /** The outcome of `await readBody(event)`: a parsed body, or a thrown error. */
  datatype BodyRead = Parsed(body: Json) | ReadFailed

  /** The outcome of `streamText(message)` followed by `toUIMessageStreamResponse()`. */
  datatype AgentOutcome<S> = Ok(stream: S) | Fail(cause: string)

  /** The errors that can be thrown inside the `try` block. */
  datatype Thrown =
    | HttpError(statusCode: int, statusMessage: string)  // createError(...)
    | DestructureError                                    // `const { message } = null`
    | ReadError                                           // readBody rejected
    | AgentError(cause: string)                           // the agent rejected or threw

  /** How the `try` block ends: with a returned value or a thrown error. */
  datatype Completion<S> = Returned(stream: S) | Threw(error: Thrown)

  /** What the client receives. */
  datatype Response<S> = Stream(stream: S) | ErrorResponse(statusCode: int, statusMessage: string)

  /** One request: the text handed to `streamText`, if it was called, and the response. */
  datatype Exchange<S> = Exchange(prompt: Option<string>, response: Response<S>)

  const MessageRequired: Thrown := HttpError(400, "Message is required")
  const GenerationFailed: string := "Error generating response"

  /**
   * `const { message } = body`: destructuring `null` or `undefined` throws
   * (None); every other value yields its `message` property, which only an
   * object can have.
   */
  function Destructure(body: Json): (r: Option<Json>)
    ensures r.None? <==> body == Undefined || body == Null
    ensures body.Obj? && "message" in body.fields ==> r == Some(body.fields["message"])
    ensures r.Some? && !(body.Obj? && "message" in body.fields) ==> r.value == Undefined
  {
    match body
    case Undefined => None
    case Null => None
    case Obj(fields) => Some(if "message" in fields then fields["message"] else Undefined)
    case _ => Some(Undefined)
  }

  /** The `message` the handler sees, when reading and destructuring the body succeed. */
  function Message(read: BodyRead): Option<Json> {
    match read
    case ReadFailed => None
    case Parsed(body) => Destructure(body)
  }

  /**
   * The guard `!message || typeof message !== 'string'`: it lets through
   * exactly the non-empty strings.
   */
  predicate Rejects(message: Json)
    ensures !Rejects(message) <==> message.Str? && message.s != []
  {
    !Truthy(message) || !message.Str?
  }

  /** The inputs the handler forwards to the agent, stated independently of the guard. */
  predicate CarriesText(read: BodyRead) {
    var m := Message(read);
    m.Some? && m.value.Str? && m.value.s != []
  }

  /** Lines 19-32: the `try` block, up to the value it returns or the error it throws. */
  datatype TryRun<S> = TryRun(prompt: Option<string>, completion: Completion<S>)

  function TryBlock<S>(read: BodyRead, agent: AgentOutcome<S>): (r: TryRun<S>)
    ensures r.prompt.Some? <==> CarriesText(read)
    ensures r.prompt.Some? ==> Message(read) == Some(Str(r.prompt.value))
    ensures read.ReadFailed? ==> r.completion == Threw(ReadError)
    ensures read.Parsed? && Message(read).None? ==> r.completion == Threw(DestructureError)
    ensures Message(read).Some? && Rejects(Message(read).value) ==> r.completion == Threw(MessageRequired)
    ensures CarriesText(read) && agent.Ok? ==> r.completion == Returned(agent.stream)
    ensures CarriesText(read) && agent.Fail? ==> r.completion == Threw(AgentError(agent.cause))
  {
    match read
    case ReadFailed => TryRun(None, Threw(ReadError))
    case Parsed(body) =>
      match Destructure(body)
      case None => TryRun(None, Threw(DestructureError))
      case Some(message) =>
        if Rejects(message) then TryRun(None, Threw(MessageRequired))
        else
          TryRun(Some(message.s),
                 match agent
                 case Ok(stream) => Returned(stream)
                 case Fail(cause) => Threw(AgentError(cause)))
  }

  /** Lines 33-38: whatever was thrown, the client gets the generic 500. */
  function Catch<S>(c: Completion<S>): (r: Response<S>)
    ensures r.Stream? <==> c.Returned?
    ensures c.Returned? ==> r.stream == c.stream
    ensures c.Threw? ==> r == ErrorResponse(500, GenerationFailed)
  {
    match c
    case Returned(stream) => Stream(stream)
    case Threw(_) => ErrorResponse(500, GenerationFailed)
  }

  /** The handler as written: the `try` block followed by its `catch`. */
  function Handle<S>(read: BodyRead, agent: AgentOutcome<S>): (r: Exchange<S>)
    ensures r.prompt.Some? <==> CarriesText(read)
    ensures r.prompt.Some? ==> Message(read) == Some(Str(r.prompt.value))
    ensures r.response.Stream? <==> CarriesText(read) && agent.Ok?
    ensures r.response.Stream? ==> r.response.stream == agent.stream
    ensures r.response.ErrorResponse? ==> r.response == ErrorResponse(500, GenerationFailed)
  {
    var t := TryBlock(read, agent);
    Exchange(t.prompt, Catch(t.completion))
  }

  // ---------------------------------------------------------------------------
  // Properties of the handler
  // ---------------------------------------------------------------------------

  /**
   * An invalid `message` makes the `try` block throw the 400 error, which
   * its own `catch` then replaces: the client sees 500, and the agent is
   * never called.
   */
  lemma InvalidMessageIs500<S>(read: BodyRead, agent: AgentOutcome<S>)
    requires Message(read).Some? && Rejects(Message(read).value)
    ensures TryBlock(read, agent).completion == Threw(MessageRequired)
    ensures Handle(read, agent).prompt == None
    ensures Handle(read, agent).response == ErrorResponse(500, GenerationFailed)
  {
  }

  /** A body without a `message` field, for instance `{}`, ends in a 500. */
  lemma MissingMessageExample<S>(agent: AgentOutcome<S>)
    ensures Handle(Parsed(Obj(map[])), agent) == Exchange(None, ErrorResponse(500, GenerationFailed))
  {
  }

  /** Whatever the agent's failure was, the response carries none of it. */
  lemma FailureDetailHidden<S>(read: BodyRead, cause1: string, cause2: string)
    ensures Handle<S>(read, Fail(cause1)) == Handle<S>(read, Fail(cause2))
  {
  }

  // ---------------------------------------------------------------------------
  // The evidently intended handler: the validation error keeps its 400
  // ---------------------------------------------------------------------------

  /** A `catch` that passes errors made by `createError` through unchanged. */
  function CatchIntended<S>(c: Completion<S>): (r: Response<S>)
    ensures r.Stream? <==> c.Returned?
    ensures c.Returned? ==> r.stream == c.stream
    ensures c.Threw? && c.error.HttpError? ==> r == ErrorResponse(c.error.statusCode, c.error.statusMessage)
    ensures c.Threw? && !c.error.HttpError? ==> r == ErrorResponse(500, GenerationFailed)
  {
    match c
    case Returned(stream) => Stream(stream)
    case Threw(HttpError(status, text)) => ErrorResponse(status, text)
    case Threw(_) => ErrorResponse(500, GenerationFailed)
  }

  function HandleIntended<S>(read: BodyRead, agent: AgentOutcome<S>): (r: Exchange<S>)
    ensures r.prompt.Some? <==> CarriesText(read)
    ensures r.prompt.Some? ==> Message(read) == Some(Str(r.prompt.value))
    ensures r.response.Stream? <==> CarriesText(read) && agent.Ok?
    ensures r.response.Stream? ==> r.response.stream == agent.stream
    ensures r.response == ErrorResponse(400, "Message is required") <==>
      Message(read).Some? && Rejects(Message(read).value)
    ensures r.response.ErrorResponse? && r.response.statusCode != 400 ==>
      r.response == ErrorResponse(500, GenerationFailed)
  {
    var t := TryBlock(read, agent);
    Exchange(t.prompt, CatchIntended(t.completion))
  }

  /** The two `catch` blocks agree on everything but an HTTP error other than the generic 500. */
  lemma CatchesDifferOnHttpErrors<S>(c: Completion<S>)
    ensures Catch(c) != CatchIntended(c) <==>
      c.Threw? && c.error.HttpError? && c.error != HttpError(500, GenerationFailed)
  {
  }

  /** The two handlers differ exactly on the requests the guard rejects. */
  lemma IntendedDiffersOnlyOnValidation<S>(read: BodyRead, agent: AgentOutcome<S>)
    ensures Handle(read, agent) != HandleIntended(read, agent) <==>
      Message(read).Some? && Rejects(Message(read).value)
  {
  }
}
