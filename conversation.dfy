/** The conversation loop: the append-only `messages` history and the
    submit and load handlers that push onto it. */
module Conversation {
  import opened Wrappers
  import opened Strings
  import opened TopicFilter
  import opened Completion

  datatype Role = System | User | Assistant

  /** One `{ role, content }` entry of the history. */
  datatype Turn = Turn(role: Role, content: string)

  /** What the remote call did: `fetch` rejected, or a response arrived.
      It stands in for the network, which the model does not run. */
  datatype FetchOutcome = NetworkFailure | Received(response: Response)

  /** The system instruction, stored trimmed. */
  const SystemPrompt: string :=
    "You are \"L'Or\U{E9}al Smart Product & Routine Advisor\", a friendly beauty assistant.\n\n"
    + "- You ONLY answer questions related to L'Or\U{E9}al products, brands, ingredients, routines, skin concerns, hair concerns, makeup, and fragrance.\n"
    + "- You stay within the L'Or\U{E9}al family of brands (for example: L'Or\U{E9}al Paris, Maybelline New York, Garnier, CeraVe, NYX Professional Makeup, etc.).\n"
    + "- If a question is NOT about beauty or L'Or\U{E9}al, politely refuse and explain that you can only help with L'Or\U{E9}al beauty questions.\n"
    + "- Keep answers clear and beginner-friendly.\n"
    + "- You can suggest example routines (AM / PM) but avoid medical claims; suggest seeing a dermatologist for serious issues.\n"
    + "- Use a warm, encouraging tone and occasional emojis (1\U{2013}2 per answer)."

  const OffTopicReply: string :=
    "I\U{2019}m here just to help with L'Or\U{E9}al products, beauty routines, and related questions. \U{1F484}\n\n"
    + "Try asking me about skincare, makeup, haircare, or fragrance!"

  const ThinkingText: string := "Thinking about your routine\U{2026} \U{2728}"

  const ErrorReply: string :=
    "Oops, something went wrong talking to my beauty brain. Please try again in a moment."

  const Welcome: string :=
    "Bonjour! I\U{2019}m your L'Or\U{E9}al Smart Product & Routine Advisor \U{2728}\n\n"
    + "Ask me about L'Or\U{E9}al skincare, makeup, haircare, or help building a routine."

  /** `fetchChatCompletion` with the network call replaced by its outcome:
      a rejected `fetch` and every thrown error are failures, and a
      success carries the trimmed reply. */
  function FetchChatCompletion(outcome: FetchOutcome): (res: Result<string, CompletionError>)
    ensures outcome.NetworkFailure? ==> res == Failure(NetworkError)
    ensures outcome.Received? ==> res == ExtractReply(outcome.response)
  {
    match outcome
    case NetworkFailure => Failure(NetworkError)
    case Received(r) => ExtractReply(r)
  }

  /** The assistant turn that ends an in-scope submission: the reply on
      success, the canned error text on any failure. */
  function TerminalText(outcome: FetchOutcome): (text: string)
    ensures FetchChatCompletion(outcome).Success? ==> text == FetchChatCompletion(outcome).value
    ensures FetchChatCompletion(outcome).Failure? ==> text == ErrorReply
  {
    match FetchChatCompletion(outcome)
    case Success(reply) => reply
    case Failure(_) => ErrorReply
  }

  /** The history starts with the single system turn and holds no other. */
  ghost predicate WellFormed(history: seq<Turn>) {
    && |history| >= 1
    && history[0] == Turn(System, SystemPrompt)
    && forall i :: 1 <= i < |history| ==> history[i].role != System
  }

  /** Appending a non-system turn keeps the history well formed. */
  lemma AppendKeepsWellFormed(history: seq<Turn>, t: Turn)
    requires WellFormed(history) && t.role != System
    ensures WellFormed(history + [t])
  {
    assert (history + [t])[0] == history[0];
  }

  /** The page's conversation state. */
  class Chat {
    var messages: seq<Turn>

    ghost predicate Valid()
      reads this
    {
      WellFormed(messages)
    }

    /** The module-level `messages` array as the script declares it. */
    constructor ()
      ensures Valid()
      ensures messages == [Turn(System, SystemPrompt)]
    {
      messages := [Turn(System, SystemPrompt)];
    }

    /** The page-load handler: one welcome turn. */
    method Load()
      requires Valid()
      modifies this
      ensures Valid()
      ensures messages == old(messages) + [Turn(Assistant, Welcome)]
    {
      messages := messages + [Turn(Assistant, Welcome)];
    }

    /** The submit handler for the raw input `raw`, with `outcome` standing
        for what the remote call returns. `request` is the history sent to
        the worker, or `None` when no call is made. */
    method Submit(raw: string, outcome: FetchOutcome) returns (request: Option<seq<Turn>>)
      requires Valid()
      modifies this
      ensures Valid()
      ensures Trim(raw) == "" ==> request == None && messages == old(messages)
      ensures Trim(raw) != "" && !IsBeautyRelated(Trim(raw)) ==>
        && request == None
        && messages == old(messages) + [Turn(User, Trim(raw)), Turn(Assistant, OffTopicReply)]
      ensures Trim(raw) != "" && IsBeautyRelated(Trim(raw)) ==>
        && request == Some(old(messages) + [Turn(User, Trim(raw)), Turn(Assistant, ThinkingText)])
        && messages == request.value + [Turn(Assistant, TerminalText(outcome))]
    {
      var userText := Trim(raw);
      if userText == "" {
        return None;
      }
      AppendKeepsWellFormed(messages, Turn(User, userText));
      messages := messages + [Turn(User, userText)];
      if !IsBeautyRelated(userText) {
        AppendKeepsWellFormed(messages, Turn(Assistant, OffTopicReply));
        messages := messages + [Turn(Assistant, OffTopicReply)];
        assert messages == old(messages) + [Turn(User, userText), Turn(Assistant, OffTopicReply)];
        return None;
      }
      AppendKeepsWellFormed(messages, Turn(Assistant, ThinkingText));
      messages := messages + [Turn(Assistant, ThinkingText)];
      assert messages == old(messages) + [Turn(User, userText), Turn(Assistant, ThinkingText)];
      request := Some(messages);
      var reply := FetchChatCompletion(outcome);
      match reply {
        case Success(text) =>
          AppendKeepsWellFormed(messages, Turn(Assistant, text));
          messages := messages + [Turn(Assistant, text)];
        case Failure(_) =>
          AppendKeepsWellFormed(messages, Turn(Assistant, ErrorReply));
          messages := messages + [Turn(Assistant, ErrorReply)];
      }
    }
  }

  /** The terminal turn after an HTTP 500 is the canned error, whatever the
      body says. */
  lemma ServerErrorTurn(body: Option<Body>)
    ensures TerminalText(Received(Response(500, body))) == ErrorReply
  {
  }

  /** The final turn in terms of what arrived: the trimmed content when
      an ok response carries a non-empty reply field, the canned error text
      otherwise. */
  lemma FinalTurn(outcome: FetchOutcome)
    ensures if outcome.Received? && outcome.response.Ok()
               && ReplyField(outcome.response.body).Some?
               && ReplyField(outcome.response.body).value != ""
            then TerminalText(outcome) == Trim(ReplyField(outcome.response.body).value)
            else TerminalText(outcome) == ErrorReply
  {
  }

  /** Whatever the outcome, the terminal turn is the canned error or a
      reply with no surrounding whitespace. */
  lemma TerminalTextTrimmed(outcome: FetchOutcome)
    ensures TerminalText(outcome) == ErrorReply || Trim(TerminalText(outcome)) == TerminalText(outcome)
  {
    if FetchChatCompletion(outcome).Success? {
      ReplyIsTrimmed(outcome.response);
    }
  }

  /** A fresh page that loads and is asked about the weather, with stray
      spaces around the question: the question is stored trimmed, the
      refusal follows it and nothing is sent. */
  method OffTopicSession() returns (history: seq<Turn>, request: Option<seq<Turn>>)
    ensures history == [
      Turn(System, SystemPrompt), Turn(Assistant, Welcome),
      Turn(User, "What's the weather today?"), Turn(Assistant, OffTopicReply)]
    ensures request == None
  {
    var chat := new Chat();
    chat.Load();
    assert chat.messages == [Turn(System, SystemPrompt), Turn(Assistant, Welcome)];
    var question := "What's the weather today?";
    TrimPadded("  ", question, " ");
    WeatherQuestion();
    request := chat.Submit("  " + question + " ", NetworkFailure);
    history := chat.messages;
  }

  /** A skincare question answered with HTTP 500: the worker is sent the
      history up to the thinking turn, and the canned error ends it. */
  method ServerErrorSession() returns (history: seq<Turn>, request: Option<seq<Turn>>)
    ensures history == [
      Turn(System, SystemPrompt), Turn(User, "What's a good skincare routine?"),
      Turn(Assistant, ThinkingText), Turn(Assistant, ErrorReply)]
    ensures request == Some(history[..3])
  {
    var chat := new Chat();
    var question := "What's a good skincare routine?";
    TrimOfTrimmed(question);
    SkincareQuestion();
    ServerErrorTurn(Some(BodyWith("Try a gentle cleanser...")));
    request := chat.Submit(question, Received(Response(500, Some(BodyWith("Try a gentle cleanser...")))));
    history := chat.messages;
  }

  /** The same question answered well: the reply ends the history as sent. */
  method AnsweredSession() returns (history: seq<Turn>, request: Option<seq<Turn>>)
    ensures history == [
      Turn(System, SystemPrompt), Turn(User, "What's a good skincare routine?"),
      Turn(Assistant, ThinkingText), Turn(Assistant, "Try a gentle cleanser...")]
    ensures request == Some(history[..3])
  {
    var chat := new Chat();
    var question := "What's a good skincare routine?";
    TrimOfTrimmed(question);
    SkincareQuestion();
    WellFormedReply();
    request := chat.Submit(question, Received(Response(200, Some(BodyWith("Try a gentle cleanser...")))));
    history := chat.messages;
  }
}
