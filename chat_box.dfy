/**
 The client half of the conversation protocol (`ChatBox`): the component
 state `query`, `messages`, `chatId` and `isLoading`, the submit handler and
 `latestBotMessage`. `handleSubmit` is split at its `await`: `HandleSubmit`
 runs up to the request and `Resume` runs once the HTTP call has ended,
 with the call's outcome as a parameter. The state setters are applied in
 order; React's batching does not change the result of one submit.
 */
module ChatBox {
  import opened Wrappers
  import opened Strings
  import Json
  import GeminiSchema
  import CollegeController

  /** A chat message; its timestamp is left out. */
  datatype Message = Message(text: string, isUser: bool)

  const Greeting: Message :=
    Message("Hi there! I can help you find locations on campus. Where would you like to go?", false)
  const Apology: string := "Sorry, I couldn't process your request. Please try again."

  /** The fields of `response.data` the client reads; `None` is `undefined`. */
  datatype ResponseData = ResponseData(chatId: Option<string>, parsedResponse: Option<GeminiSchema.NavReply>)

  /** How `await axios.post(...)` ends: a 2xx response, or a throw (any other status, or no response). */
  datatype HttpOutcome = Received(data: ResponseData) | Rejected

  datatype ChatState = ChatState(query: string, messages: seq<Message>, chatId: Option<string>, isLoading: bool)

  const Initial: ChatState := ChatState("", [Greeting], None, false)

  /** The early return of `handleSubmit`: `!query.trim() || isLoading`. */
  predicate Ignored(s: ChatState)
  {
    Trim(s.query) == "" || s.isLoading
  }

  /** `response.data.chat_id && !chatId`: the id is taken only when none is held and a truthy one arrives. */
  predicate Adopts(held: Option<string>, received: Option<string>)
  {
    held.None? && received.Some? && received.value != ""
  }

  /** The state after the part of `handleSubmit` before the request. */
  function Submitted(s: ChatState): ChatState
  {
    if Ignored(s) then s
    else s.(messages := s.messages + [Message(s.query, true)], isLoading := true)
  }

  /** The body posted to the backend. */
  function RequestOf(s: ChatState, currentLocation: Json.Value): CollegeController.Request
  {
    CollegeController.Request(currentLocation, s.chatId, s.query)
  }

  /**
   The state after the rest of `handleSubmit`, and the value passed to
   `handleSetDestination` (`None` when it is not called). A body without
   `parsedResponse` makes `responseData.agent_message` throw, after the chat
   id has been taken.
   */
  function Settled(s: ChatState, outcome: HttpOutcome): (ChatState, Option<seq<real>>)
  {
    var chatId := if outcome.Received? && Adopts(s.chatId, outcome.data.chatId) then outcome.data.chatId else s.chatId;
    var bot :=
      if outcome.Received? && outcome.data.parsedResponse.Some?
      then Message(outcome.data.parsedResponse.value.agentMessage, false)
      else Message(Apology, false);
    var destination :=
      if outcome.Received? && outcome.data.parsedResponse.Some?
      then outcome.data.parsedResponse.value.finalCoordinates
      else None;
    (ChatState("", s.messages + [bot], chatId, false), destination)
  }

  class ChatBox {
    var query: string
    var messages: seq<Message>
    var chatId: Option<string>
    var isLoading: bool

    function State(): ChatState
      reads this
    {
      ChatState(query, messages, chatId, isLoading)
    }

    constructor ()
      ensures State() == Initial
    {
      query := "";
      messages := [Greeting];
      chatId := None;
      isLoading := false;
    }

    /** The text field's `onChange`: `setQuery(e.target.value)`. */
    method SetQuery(value: string)
      modifies this
      ensures State() == old(State()).(query := value)
    {
      query := value;
    }

    /** `handleSubmit` up to `await axios.post(...)`; `request` is the body posted, `None` when nothing is sent. */
    method HandleSubmit(currentLocation: Json.Value) returns (request: Option<CollegeController.Request>)
      modifies this
      ensures State() == Submitted(old(State()))
      ensures request == if Ignored(old(State())) then None else Some(RequestOf(old(State()), currentLocation))
    {
      if Trim(query) == "" || isLoading {
        request := None;
        return;
      }
      var userMessage := Message(query, true);
      messages := messages + [userMessage];
      isLoading := true;
      request := Some(CollegeController.Request(currentLocation, chatId, query));
    }

    /** `handleSubmit` from the end of the HTTP call to its `finally` block. */
    method Resume(outcome: HttpOutcome) returns (destination: Option<seq<real>>)
      requires isLoading
      modifies this
      ensures (State(), destination) == Settled(old(State()), outcome)
    {
      destination := None;
      match outcome {
        case Rejected =>
          messages := messages + [Message(Apology, false)];
        case Received(data) =>
          if data.chatId.Some? && data.chatId.value != "" && chatId.None? {
            chatId := data.chatId;
          }
          match data.parsedResponse {
            case None =>
              // reading `agent_message` of undefined throws into the catch block
              messages := messages + [Message(Apology, false)];
            case Some(reply) =>
              messages := messages + [Message(reply.agentMessage, false)];
              if reply.finalCoordinates.Some? {
                // any array is truthy, the empty one too
                destination := reply.finalCoordinates;
              }
          }
      }
      isLoading := false;
      query := "";
    }
  }

  /** `messages.filter((m) => !m.isUser)`. */
  function BotMessages(ms: seq<Message>): seq<Message>
  {
    if |ms| == 0 then [] else (if ms[0].isUser then [] else [ms[0]]) + BotMessages(ms[1..])
  }

  lemma {:induction false} BotMessagesAppend(ms: seq<Message>, m: Message)
    ensures BotMessages(ms + [m]) == BotMessages(ms) + (if m.isUser then [] else [m])
  {
    if |ms| > 0 {
      assert (ms + [m])[1..] == ms[1..] + [m];
      BotMessagesAppend(ms[1..], m);
    } else {
      assert ms + [m] == [m];
    }
  }

  /** Where the last element of the filtered list comes from. */
  lemma {:induction false} LastBotMessage(ms: seq<Message>)
    ensures |BotMessages(ms)| == 0 <==> forall i :: 0 <= i < |ms| ==> ms[i].isUser
    ensures |BotMessages(ms)| > 0 ==>
      var bots := BotMessages(ms);
      exists i :: 0 <= i < |ms| && ms[i] == bots[|bots| - 1] && !ms[i].isUser &&
        forall j :: i < j < |ms| ==> ms[j].isUser
    decreases |ms|
  {
    if |ms| > 0 {
      var init, m := ms[..|ms| - 1], ms[|ms| - 1];
      assert ms == init + [m];
      BotMessagesAppend(init, m);
      LastBotMessage(init);
      if m.isUser {
        assert BotMessages(ms) == BotMessages(init);
        assert forall i :: 0 <= i < |init| ==> init[i] == ms[i];
      } else {
        assert ms[|ms| - 1] == BotMessages(ms)[|BotMessages(ms)| - 1];
      }
    }
  }

  /** `messages.filter((m) => !m.isUser).pop()`: the last bot message, `None` (undefined) when there is none. */
  function LatestBotMessage(ms: seq<Message>): (r: Option<Message>)
    ensures r.None? <==> forall i :: 0 <= i < |ms| ==> ms[i].isUser
    ensures r.Some? ==>
      exists i :: 0 <= i < |ms| && ms[i] == r.value && !ms[i].isUser &&
        forall j :: i < j < |ms| ==> ms[j].isUser
  {
    LastBotMessage(ms);
    var bots := BotMessages(ms);
    if |bots| == 0 then None else Some(bots[|bots| - 1])
  }

  /** A submit does nothing exactly when the query is white space only or a request is pending; otherwise it adds the user's message. */
  lemma SubmitGuard(s: ChatState)
    ensures (forall i :: 0 <= i < |s.query| ==> IsJsWhiteSpace(s.query[i])) || s.isLoading ==> Submitted(s) == s
    ensures !(forall i :: 0 <= i < |s.query| ==> IsJsWhiteSpace(s.query[i])) && !s.isLoading ==>
      && Submitted(s).messages == s.messages + [Message(s.query, true)]
      && Submitted(s).isLoading
      && Submitted(s).chatId == s.chatId
  {
    TrimEmptyIffBlank(s.query);
  }

  /**
   One submit that is not ignored, carried through to the end: the user's
   message and then exactly one bot message are appended (the reply's
   `agent_message`, or the apology on any failure), which becomes the latest
   bot message; loading is off and the query is cleared; the destination is
   set only from a parsed reply's `final_coordinates`.
   */
  lemma CompletedSubmit(s: ChatState, outcome: HttpOutcome)
    requires !Ignored(s)
    ensures var (after, destination) := Settled(Submitted(s), outcome);
      var parsed := outcome.Received? && outcome.data.parsedResponse.Some?;
      var bot := Message(if parsed then outcome.data.parsedResponse.value.agentMessage else Apology, false);
      && after.messages == s.messages + [Message(s.query, true), bot]
      && LatestBotMessage(after.messages) == Some(bot)
      && !after.isLoading && after.query == ""
      && (destination.Some? ==> parsed && destination == outcome.data.parsedResponse.value.finalCoordinates)
      // any `final_coordinates` array is truthy, the empty one too
      && (parsed && outcome.data.parsedResponse.value.finalCoordinates.Some? ==>
            destination == outcome.data.parsedResponse.value.finalCoordinates)
  {
    var (after, destination) := Settled(Submitted(s), outcome);
    var parsed := outcome.Received? && outcome.data.parsedResponse.Some?;
    var bot := Message(if parsed then outcome.data.parsedResponse.value.agentMessage else Apology, false);
    assert after.messages == (s.messages + [Message(s.query, true)]) + [bot];
    BotMessagesAppend(s.messages + [Message(s.query, true)], bot);
  }

  /** A parsed reply with an empty `final_coordinates` array still sets the destination, to `[]`. */
  lemma EmptyCoordinatesSetDestination(s: ChatState, id: Option<string>, agentMessage: string, finalQuery: string)
    ensures Settled(s, Received(ResponseData(id, Some(GeminiSchema.NavReply(agentMessage, finalQuery, Some([])))))).1 == Some([])
  {
  }

  /** What can happen to the component, one event at a time. */
  datatype Event = Typed(value: string) | Submit(currentLocation: Json.Value) | Settle(outcome: HttpOutcome)

  /** A request's continuation runs only while that request is pending. */
  function Apply(s: ChatState, e: Event): ChatState
  {
    match e
    case Typed(value) => s.(query := value)
    case Submit(_) => Submitted(s)
    case Settle(outcome) => if s.isLoading then Settled(s, outcome).0 else s
  }

  function Replay(s: ChatState, events: seq<Event>): ChatState
    decreases |events|
  {
    if |events| == 0 then s else Replay(Apply(s, events[0]), events[1..])
  }

  /** The greeting comes first and a held chat id is never empty. */
  ghost predicate Consistent(s: ChatState)
  {
    |s.messages| >= 1 && s.messages[0] == Greeting && (s.chatId.Some? ==> s.chatId.value != "")
  }

  /**
   Over any sequence of events: messages are only appended, the greeting
   stays first (so there is always a latest bot message), and once a chat
   id is held it never changes.
   */
  lemma {:induction false} ReplayKeepsHistory(s: ChatState, events: seq<Event>)
    requires Consistent(s)
    ensures var t := Replay(s, events);
      && Consistent(t)
      && s.messages <= t.messages
      && (s.chatId.Some? ==> t.chatId == s.chatId)
      && LatestBotMessage(t.messages).Some?
    decreases |events|
  {
    if |events| == 0 {
      assert !s.messages[0].isUser;
    } else {
      var next := Apply(s, events[0]);
      assert s.messages <= next.messages;
      assert next.messages[0] == s.messages[0];
      ReplayKeepsHistory(next, events[1..]);
    }
  }

  /**
   How a backend outcome reaches the client: a 200 arrives as its body (a
   degraded reply has `response` and `parsingError` but no `parsedResponse`);
   404 and 500 answers reject the request.
   */
  function Delivered(o: CollegeController.Outcome): HttpOutcome
  {
    match o
    case Parsed(reply, id) => Received(ResponseData(Some(id), Some(reply)))
    case Unparsed(_, id, _) => Received(ResponseData(Some(id), None))
    case Refused(_, _) => Rejected
    case Forwarded => Rejected
  }

  /**
   The first turn of a conversation, end to end: the client holds no id and
   so sends none, the backend starts a session under the fresh id, and the
   client ends up holding that id exactly when the backend answered 200 -
   also for a degraded reply, which the client still shows as the apology.
   */
  lemma FirstTurnAdoptsIssuedId(s: ChatState, currentLocation: Json.Value, reply: CollegeController.SendResult,
                                parse: string -> Option<GeminiSchema.NavReply>, freshId: string)
    requires s.chatId.None? && !Ignored(s) && |freshId| == CollegeController.UuidLength
    ensures !CollegeController.HasChatId(RequestOf(s, currentLocation).chatId)
    ensures var o := CollegeController.Answer(reply, parse, freshId);
      var after := Settled(Submitted(s), Delivered(o)).0;
      && (after.chatId == Some(freshId) <==> CollegeController.Succeeded(o))
      && (after.chatId.None? <==> !CollegeController.Succeeded(o))
      && (o.Unparsed? ==> after.messages[|after.messages| - 1] == Message(Apology, false))
  {
    var o := CollegeController.Answer(reply, parse, freshId);
    var sub := Submitted(s);
    assert sub.chatId.None?;
    match o {
      case Parsed(_, id) =>
        assert id == freshId && freshId != "";
      case Unparsed(_, id, _) =>
        assert id == freshId && freshId != "";
      case Refused(_, _) =>
      case Forwarded =>
    }
  }

  /**
   A later turn, end to end: the client holds id X and sends X, so the
   backend adds no entry whatever it was given; and whatever the backend
   answers, the client still holds X afterwards. A 200 answer on the
   resumed chat shows its parsed reply.
   */
  lemma LaterTurnKeepsId<S>(s: ChatState, currentLocation: Json.Value, o: CollegeController.Outcome,
                            table: map<string, S>, freshId: string, session: S)
    requires s.chatId.Some? && s.chatId.value != "" && !Ignored(s)
    ensures RequestOf(s, currentLocation).chatId == s.chatId
    ensures CollegeController.Admit(table, RequestOf(s, currentLocation).chatId, freshId, session) == table
    ensures var after := Settled(Submitted(s), Delivered(o)).0;
      && after.chatId == s.chatId
      && (o.Parsed? ==> after.messages[|after.messages| - 1] == Message(o.parsedResponse.agentMessage, false))
      && (!o.Parsed? ==> after.messages[|after.messages| - 1] == Message(Apology, false))
  {
  }
}
