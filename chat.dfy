/** The chat window: the message list, the input line and the processing flag, and
    the submit handler that sends a bounded conversation history and appends the
    reply (or a fixed apology) to a list that keeps the last 20 messages. The
    request itself is a parameter saying how it ended. */
module ChatWindow {
  import opened Common
  import opened Text
  import opened JsValue

  /** A message of the list. Its text is a JavaScript value: the user's input is a
      string, a bot reply is whatever the `response` field of the answer held. */
  datatype Message = Message(text: Value, sender: string)

  /** One entry of the conversation history sent with a request. */
  datatype Turn = Turn(role: string, content: Value)

  /** How the request ended: `fetch` or `response.json()` threw, or the body was
      parsed into a value. An error status does not throw: its body is parsed too. */
  datatype ChatReply = FetchFailed | Parsed(data: Value)

  datatype ChatRequest = ChatRequest(message: string, history: seq<Turn>)

  const UserSender := "user"
  const BotSender := "jake"
  const FallbackText := "Sorry, I couldn't process your request. Please try again later."

  /** How many earlier messages go with a request, and how many the list keeps. */
  const HistoryWindow := 9
  const MessageLimit := 20

  function Min(a: nat, b: nat): nat {
    if a <= b then a else b
  }

  /** `s.slice(-n)` for a positive `n`: the last `n` elements, all of `s` when it is shorter. */
  function LastN<T>(s: seq<T>, n: nat): (r: seq<T>)
    requires n > 0
    ensures |r| == Min(|s|, n)
    ensures r == s[|s| - |r|..]
  {
    if |s| <= n then s else s[|s| - n..]
  }

  /** The history role of a message: "user" for the user's own, "assistant" for any other. */
  function Role(sender: string): (role: string)
    ensures role == "user" <==> sender == UserSender
    ensures role == "user" || role == "assistant"
  {
    if sender == UserSender then "user" else "assistant"
  }

  function ToTurn(m: Message): Turn {
    Turn(Role(m.sender), m.text)
  }

  /** The messages as history entries, in order. */
  function ToTurns(messages: seq<Message>): (turns: seq<Turn>)
    ensures |turns| == |messages|
    ensures forall i :: 0 <= i < |messages| ==> turns[i] == ToTurn(messages[i])
  {
    if messages == [] then [] else [ToTurn(messages[0])] + ToTurns(messages[1..])
  }

  /** The history sent with a request: the last nine messages shown before the
      submission, as turns, followed by the new input as a user turn. */
  function History(prior: seq<Message>, input: string): (h: seq<Turn>)
    ensures |h| == Min(|prior|, HistoryWindow) + 1 && |h| <= HistoryWindow + 1
    ensures h[|h| - 1] == Turn("user", Str(input))
    ensures forall i :: 0 <= i < |h| - 1 ==> h[i] == ToTurn(prior[|prior| - (|h| - 1) + i])
  {
    ToTurns(LastN(prior, HistoryWindow)) + [Turn("user", Str(input))]
  }

  /** The text of the bot message for a request that ended with `reply`:
      `data.response`, or the apology when the request failed or reading
      `response` threw (a `null` body). A body without `response`, such as an
      error answer, gives a message whose text is `undefined`. */
  function ReplyText(reply: ChatReply): (text: Value)
    ensures reply.FetchFailed? ==> text == Str(FallbackText)
    ensures reply.Parsed? && (reply.data.Undefined? || reply.data.Null?) ==> text == Str(FallbackText)
    ensures reply.Parsed? && reply.data.Obj? && "response" in reply.data.fields ==>
      text == reply.data.fields["response"]
    ensures reply.Parsed? && reply.data.Obj? && "response" !in reply.data.fields ==> text == Undefined
  {
    match reply
    case FetchFailed => Str(FallbackText)
    case Parsed(data) =>
      match Prop(data, "response")
      case Err(_) => Str(FallbackText)
      case Ok(text) => text
  }

  class Chat {
    var isOpen: bool
    var isMinimized: bool
    var messages: seq<Message>
    var input: string
    var isProcessing: bool

    /** A closed window with no messages. */
    constructor ()
      ensures !isOpen && !isMinimized && messages == [] && input == "" && !isProcessing
    {
      isOpen := false;
      isMinimized := false;
      messages := [];
      input := "";
      isProcessing := false;
    }

    method ToggleChat()
      modifies this
      ensures isOpen == !old(isOpen)
      ensures isMinimized == old(isMinimized) && messages == old(messages)
      ensures input == old(input) && isProcessing == old(isProcessing)
    {
      isOpen := !isOpen;
    }

    method ToggleMinimize()
      modifies this
      ensures isMinimized == !old(isMinimized)
      ensures isOpen == old(isOpen) && messages == old(messages)
      ensures input == old(input) && isProcessing == old(isProcessing)
    {
      isMinimized := !isMinimized;
    }

    method HandleInputChange(value: string)
      modifies this
      ensures input == value
      ensures isOpen == old(isOpen) && isMinimized == old(isMinimized)
      ensures messages == old(messages) && isProcessing == old(isProcessing)
    {
      input := value;
    }

    /** The first half of the submit handler: a blank input does nothing; any other
        input is appended as a user message, the input is cleared, processing
        starts, and the request to send is returned. */
    method Send() returns (request: Option<ChatRequest>)
      modifies this
      ensures AllSpace(old(input), IsJsSpace) ==>
        request == None && messages == old(messages) && input == old(input)
        && isProcessing == old(isProcessing)
      ensures !AllSpace(old(input), IsJsSpace) ==>
        && request == Some(ChatRequest(old(input), History(old(messages), old(input))))
        && messages == old(messages) + [Message(Str(old(input)), UserSender)]
        && input == "" && isProcessing
      ensures isOpen == old(isOpen) && isMinimized == old(isMinimized)
    {
      var text, prior := input, messages;
      var trimmed := Strip(text, IsJsSpace);
      if trimmed == "" {
        return None;
      }
      messages := prior + [Message(Str(text), UserSender)];
      input := "";
      isProcessing := true;
      var history := History(prior, text);
      assert history == History(old(messages), old(input));
      request := Some(ChatRequest(text, history));
    }

    /** The second half: the reply, or the apology when the request failed, is
        appended as one bot message, only the last 20 messages are kept, and
        processing ends. */
    method Receive(reply: ChatReply)
      modifies this
      ensures messages == LastN(old(messages) + [Message(ReplyText(reply), BotSender)], MessageLimit)
      ensures !isProcessing
      ensures input == old(input) && isOpen == old(isOpen) && isMinimized == old(isMinimized)
    {
      messages := LastN(messages + [Message(ReplyText(reply), BotSender)], MessageLimit);
      isProcessing := false;
    }

    /** A whole submission: send, then take the request's outcome. */
    method HandleSubmit(reply: ChatReply) returns (request: Option<ChatRequest>)
      modifies this
      ensures AllSpace(old(input), IsJsSpace) ==>
        request == None && messages == old(messages) && input == old(input)
        && isProcessing == old(isProcessing)
      ensures !AllSpace(old(input), IsJsSpace) ==>
        && request == Some(ChatRequest(old(input), History(old(messages), old(input))))
        && messages == AfterExchange(old(messages), old(input), reply)
        && input == "" && !isProcessing
      ensures isOpen == old(isOpen) && isMinimized == old(isMinimized)
    {
      request := Send();
      if request.Some? {
        Receive(reply);
      }
    }
  }

  /** The list after one exchange: user message and bot message appended, last 20 kept. */
  function AfterExchange(prior: seq<Message>, input: string, reply: ChatReply): seq<Message> {
    LastN(prior + [Message(Str(input), UserSender)] + [Message(ReplyText(reply), BotSender)], MessageLimit)
  }

  /** One exchange leaves at most 20 messages, the last two being the user's input
      and the bot's answer to it, preceded by the latest earlier messages in order. */
  lemma {:induction false} ExchangeShape(prior: seq<Message>, input: string, reply: ChatReply)
    ensures var after := AfterExchange(prior, input, reply);
      && |after| == Min(|prior| + 2, MessageLimit)
      && after[|after| - 1] == Message(ReplyText(reply), BotSender)
      && after[|after| - 2] == Message(Str(input), UserSender)
      && after[..|after| - 2] == prior[|prior| - (|after| - 2)..]
  {
    var all := prior + [Message(Str(input), UserSender)] + [Message(ReplyText(reply), BotSender)];
    var after := AfterExchange(prior, input, reply);
    assert after == all[|all| - |after|..];
    assert all[..|prior|] == prior;
    assert after[..|after| - 2] == all[|all| - |after|..|prior|];
  }
}
