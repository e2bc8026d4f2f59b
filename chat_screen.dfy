/**
 * The AI chat screen (`AIScreen`): an append-only conversation log that starts with a
 * welcome message, a text input, and an `isLoading` flag that locks the input and the
 * send button while the one outstanding request is awaited.
 */
module ChatScreen {
  import opened Wrappers
  import opened JsText
  import opened Effects
  import BarcodeScannerScreen

  /** `from: "user"` or `from: "ai"`. */
  datatype Sender = User | Ai

  /** One entry of the log; `None` is an `undefined` text (a reply without `message`). */
  datatype Message = Message(from: Sender, text: Option<string>)

  const Welcome: Message := Message(Ai, Some("Welcome! Ask me anything about the restaurant."))
  const ErrorReply: Message := Message(Ai, Some("Sorry, something went wrong. Try again!"))

  /** A route parameter as JavaScript sees it: missing (`undefined`), `null`, or a value. */
  datatype Param<T> = Undefined | Null | Defined(value: T)

  /** The route parameters as they arrive. */
  datatype RouteParams = RouteParams(
    restaurant_id: Param<string>,
    table_id: Param<string>,
    ai_agent_id: Param<string>,
    userData: Param<UserData>)

  /** The route parameters after the `= null` defaults. */
  datatype ChatContext = ChatContext(
    restaurant_id: Param<string>,
    table_id: Param<string>,
    ai_agent_id: Param<string>,
    userData: Param<UserData>)

  /**
   * A destructuring default `name = null`: it replaces only `undefined`, so afterwards
   * the parameter is never `undefined`, and a `null` or a value passes through unchanged.
   */
  function DefaultNull<T>(p: Param<T>): (r: Param<T>)
    ensures !r.Undefined?
    ensures p.Undefined? ==> r.Null?
    ensures !p.Undefined? ==> r == p
  {
    if p.Undefined? then Null else p
  }

  /**
   * `const {restaurant_id = null, ...} = route.params || {}`: no field of the context is
   * `undefined`, and a field holds a value exactly when the route passed that value. Missing
   * route parameters make every field `null`.
   */
  function ContextOf(params: Option<RouteParams>): (c: ChatContext)
    ensures !c.restaurant_id.Undefined? && !c.table_id.Undefined?
    ensures !c.ai_agent_id.Undefined? && !c.userData.Undefined?
    ensures params.None? ==> c == ChatContext(Null, Null, Null, Null)
    ensures params.Some? ==>
      && (c.restaurant_id.Defined? <==> params.value.restaurant_id.Defined?)
      && (c.restaurant_id.Defined? ==> c.restaurant_id == params.value.restaurant_id)
      && (c.table_id.Defined? <==> params.value.table_id.Defined?)
      && (c.table_id.Defined? ==> c.table_id == params.value.table_id)
      && (c.ai_agent_id.Defined? <==> params.value.ai_agent_id.Defined?)
      && (c.ai_agent_id.Defined? ==> c.ai_agent_id == params.value.ai_agent_id)
      && (c.userData.Defined? <==> params.value.userData.Defined?)
      && (c.userData.Defined? ==> c.userData == params.value.userData)
  {
    var p := if params.Some? then params.value else RouteParams(Undefined, Undefined, Undefined, Undefined);
    ChatContext(DefaultNull(p.restaurant_id), DefaultNull(p.table_id), DefaultNull(p.ai_agent_id), DefaultNull(p.userData))
  }

  /** The parameters the scanner navigates with, as this screen reads them. */
  function FromScanner(p: AiScreenParams): RouteParams
  {
    RouteParams(Defined(p.restaurant_id), Defined(p.table_id), Defined(p.ai_agent_id), Defined(p.userData))
  }

  /** The body posted to the chat endpoint: `{prompt, restaurant_id, table_id, ai_agent_id, userData}`. */
  datatype ChatRequest = ChatRequest(prompt: string, context: ChatContext)

  /** The `response.data` of a resolved post; `None` is a null body. */
  datatype ChatBody = ChatBody(message: Option<string>)

  /** How the awaited post settles. */
  datatype ChatReply = Answered(data: Option<ChatBody>) | Failed

  /**
   * The message appended once the post settles: the reply text, or the fixed error text
   * when the post failed or its body was null (reading `.message` of null throws inside
   * the `try`).
   */
  function ReplyMessage(reply: ChatReply): (m: Message)
    ensures m.from == Ai
    ensures reply.Answered? && reply.data.Some? ==> m.text == reply.data.value.message
    ensures reply.Failed? || reply.data.None? ==> m == ErrorReply
  {
    match reply
    case Answered(Some(body)) => Message(Ai, body.message)
    case Answered(None) => ErrorReply
    case Failed => ErrorReply
  }

  /**
   * The identifiers resolved by a scan arrive in every chat request unchanged, together
   * with the fetched user data.
   */
  lemma ScanIdsReachRequests(ids: BarcodeScannerScreen.ScanIds, u: UserData, prompt: string)
    ensures var route := BarcodeScannerScreen.ChatRoute(ids, u);
      && route.AIScreen?
      && ChatRequest(prompt, ContextOf(Some(FromScanner(route.params))))
        == ChatRequest(prompt, ChatContext(Defined(ids.restaurantId), Defined(ids.tableId), Defined(ids.aiAgentId), Defined(u)))
  {
  }

  class Chat {
    const context: ChatContext
    var input: string
    var messages: seq<Message>
    var isLoading: bool
    /** The request `handleSend` is suspended on, if any. */
    var inFlight: Option<ChatRequest>
    /** Every request posted, in order. */
    var requests: seq<ChatRequest>

    /**
     * The log is the welcome message followed by, for each request in order, the user's
     * prompt and then the one AI message that answered it; only the last prompt may still
     * be unanswered, exactly while `isLoading` holds. No request carries a blank prompt.
     */
    ghost predicate Valid()
      reads this
    {
      && (isLoading ==> |requests| > 0)
      && |messages| == 1 + 2 * |requests| - (if isLoading then 1 else 0)
      && messages[0] == Welcome
      && (forall i :: 0 <= i < |requests| ==> messages[2 * i + 1] == Message(User, Some(requests[i].prompt)))
      && (forall i :: 0 <= i < |requests| && 2 * i + 2 < |messages| ==> messages[2 * i + 2].from == Ai)
      && (forall i :: 0 <= i < |requests| ==> Trim(requests[i].prompt) != "" && requests[i].context == context)
      && (isLoading <==> inFlight.Some?)
      && (isLoading ==> input == "" && |requests| > 0 && inFlight == Some(requests[|requests| - 1]))
    }

    /** Mounting the screen: the route parameters defaulted, an empty input, the welcome message. */
    constructor (params: Option<RouteParams>)
      ensures Valid()
      ensures context == ContextOf(params)
      ensures input == "" && messages == [Welcome] && !isLoading && requests == []
    {
      context := ContextOf(params);
      input := "";
      messages := [Welcome];
      isLoading := false;
      inFlight := None;
      requests := [];
    }

    /** Typing into the input; the field is not editable while a request is outstanding. */
    method Type(text: string)
      requires Valid()
      modifies this
      ensures Valid()
      ensures input == if old(isLoading) then old(input) else text
      ensures messages == old(messages) && isLoading == old(isLoading)
      ensures inFlight == old(inFlight) && requests == old(requests)
    {
      if !isLoading {
        input := text;
      }
    }

    /**
     * Pressing send: `handleSend` up to its `await`. The button is disabled while loading,
     * and blank input is ignored; otherwise the untrimmed input is appended as the user's
     * message, the input is cleared, loading starts and the request is posted.
     */
    method Send()
      requires Valid()
      modifies this
      ensures Valid()
      ensures old(isLoading) || Trim(old(input)) == "" ==>
        && input == old(input) && messages == old(messages) && isLoading == old(isLoading)
        && inFlight == old(inFlight) && requests == old(requests)
      ensures !old(isLoading) && Trim(old(input)) != "" ==>
        var request := ChatRequest(old(input), context);
        && messages == old(messages) + [Message(User, Some(old(input)))]
        && input == ""
        && isLoading
        && inFlight == Some(request)
        && requests == old(requests) + [request]
    {
      if isLoading || Trim(input) == "" {
        return;
      }
      var request := ChatRequest(input, context);
      messages := messages + [Message(User, Some(input))];
      input := "";
      isLoading := true;
      requests := requests + [request];
      inFlight := Some(request);
    }

    /**
     * The awaited post settles: exactly one AI message is appended (the reply's text, or
     * the fixed error text), and loading ends.
     */
    method Receive(reply: ChatReply)
      requires Valid()
      requires inFlight.Some?
      modifies this
      ensures Valid()
      ensures messages == old(messages) + [ReplyMessage(reply)]
      ensures !isLoading && inFlight == None
      ensures input == old(input) && requests == old(requests)
    {
      var answer := ReplyMessage(reply);
      assert answer.from == Ai;
      ghost var before := messages;
      messages := messages + [answer];
      assert forall i :: 0 <= i < |before| ==> messages[i] == before[i];
      assert messages[|before|] == answer;
      isLoading := false;
      inFlight := None;
    }
  }

  /**
   * Pressing send twice on a non-blank prompt before the reply arrives posts one request
   * and logs one user message; the reply then follows it.
   */
  method DoubleSubmit(params: Option<RouteParams>, prompt: string, reply: ChatReply) returns (c: Chat)
    requires Trim(prompt) != ""
    ensures c.Valid()
    ensures c.requests == [ChatRequest(prompt, ContextOf(params))]
    ensures c.messages == [Welcome, Message(User, Some(prompt)), ReplyMessage(reply)]
  {
    c := new Chat(params);
    c.Type(prompt);
    c.Send();
    ghost var log := [Welcome, Message(User, Some(prompt))];
    assert c.messages == log;
    c.Send();
    c.Receive(reply);
    assert c.messages == log + [ReplyMessage(reply)];
  }
}
