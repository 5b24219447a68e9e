/** The part of `fetchChatCompletion` that does not touch the network:
    checking the HTTP status and pulling `choices[0].message.content` out of
    the already-parsed response body. */
module Completion {
  import opened Wrappers
  import opened Strings

  /** `choices[i].message`; `content` is `None` when it is absent, `null`
      or not a string. */
  datatype Message = Message(content: Option<string>)

  /** `choices[i]`; `message` is `None` when it is absent or `null`. */
  datatype Choice = Choice(message: Option<Message>)

  /** The parsed JSON body; `choices` is `None` when it is absent or not an
      array. */
  datatype Body = Body(choices: Option<seq<Choice>>)

  /** The worker's response: its HTTP status and its body, `None` when the
      body parses to `null` or to something other than an object. */
  datatype Response = Response(status: int, body: Option<Body>) {
    /** `response.ok`: the status is in the range 200 to 299. */
    predicate Ok() {
      200 <= status <= 299
    }
  }

  /** Why no reply came back; each is a thrown `Error` in the source. */
  datatype CompletionError =
    | WorkerError(status: int)  // the status was not ok
    | NoContent                 // the reply field is missing or empty
    | NetworkError              // `fetch` itself rejected

  /** The `&&` chain: `data.choices[0].message.content` when every link is
      present, `None` otherwise. */
  function ReplyField(body: Option<Body>): (reply: Option<string>)
    ensures reply.Some? <==>
      && body.Some? && body.value.choices.Some? && |body.value.choices.value| > 0
      && body.value.choices.value[0].message.Some?
      && body.value.choices.value[0].message.value.content.Some?
    ensures reply.Some? ==> reply.value == body.value.choices.value[0].message.value.content.value
  {
    match body
    case None => None
    case Some(Body(choices)) =>
      match choices
      case None => None
      case Some(cs) =>
        if |cs| == 0 then None
        else
          match cs[0].message
          case None => None
          case Some(m) => m.content
  }

  /** Lines 100 to 118 of `fetchChatCompletion`: a non-ok status is a worker
      error; a missing or empty (falsy) reply is `NoContent`; otherwise the
      reply, trimmed. */
  function ExtractReply(r: Response): (res: Result<string, CompletionError>)
    ensures !r.Ok() ==> res == Failure(WorkerError(r.status))
    ensures r.Ok() && (ReplyField(r.body).None? || ReplyField(r.body) == Some("")) ==>
      res == Failure(NoContent)
    ensures res.Success? <==> r.Ok() && ReplyField(r.body).Some? && ReplyField(r.body).value != ""
    ensures res.Success? ==> res.value == Trim(ReplyField(r.body).value)
  {
    if !r.Ok() then
      Failure(WorkerError(r.status))
    else
      match ReplyField(r.body)
      case None => Failure(NoContent)
      case Some(reply) =>
        if reply == "" then Failure(NoContent) else Success(Trim(reply))
  }

  /** `response.ok` holds exactly for the statuses of the 2xx class. */
  lemma OkIsSuccessClass(r: Response)
    ensures r.Ok() <==> r.status / 100 == 2
  {
  }

  /** A well-formed body whose first choice carries `content`. */
  function BodyWith(content: string): (b: Body) {
    Body(Some([Choice(Some(Message(Some(content))))]))
  }

  /** A successful reply is what the worker sent, with only surrounding
      whitespace removed: it neither starts nor ends with whitespace and
      trimming it again changes nothing. */
  lemma ReplyIsTrimmed(r: Response)
    requires ExtractReply(r).Success?
    ensures var v := ExtractReply(r).value;
      && IsSubstring(v, ReplyField(r.body).value)
      && (v == [] || (!IsWhitespace(v[0]) && !IsWhitespace(v[|v| - 1])))
      && Trim(v) == v
  {
    var content := ReplyField(r.body).value;
    TrimIsSubstring(content);
    TrimIdempotent(content);
    var i :| TrimmedAt(content, Trim(content), i);
  }

  /** A non-empty but whitespace-only reply is no error: it becomes the
      empty string. */
  lemma WhitespaceOnlyReply(content: string)
    requires content != [] && forall k :: 0 <= k < |content| ==> IsWhitespace(content[k])
    ensures ExtractReply(Response(200, Some(BodyWith(content)))) == Success("")
  {
  }

  /** A well-formed reply comes back exactly, when it has no surrounding
      whitespace. */
  lemma WellFormedReply()
    ensures ExtractReply(Response(200, Some(BodyWith("Try a gentle cleanser...")))) ==
      Success("Try a gentle cleanser...")
  {
    var s := "Try a gentle cleanser...";
    assert TrimmedAt(s, s, 0);
    TrimmedAtUnique(s, s, 0);
  }

  /** An HTTP 500 fails however well-formed the body is. */
  lemma ServerErrorFails(body: Option<Body>)
    ensures ExtractReply(Response(500, body)) == Failure(WorkerError(500))
  {
  }

  /** An empty `choices` array fails like a missing one. */
  lemma EmptyChoicesFail(status: int)
    requires 200 <= status <= 299
    ensures ExtractReply(Response(status, Some(Body(Some([]))))) == Failure(NoContent)
    ensures ExtractReply(Response(status, Some(Body(None)))) == Failure(NoContent)
  {
  }
}
