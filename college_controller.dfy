/**
 The backend's conversation-session router (`lostOnCampusController`): a
 process-wide table `activeChats` from chat id to model chat session, and
 one request handler that starts or resumes a session, forwards the user's
 message to it once, and answers with the parsed reply, the raw reply, or
 an error.

 The location fetch, `uuidv4`, the model's reply and `JSON.parse` are
 parameters: `locations` (`None` when the database call throws), `freshId`,
 `reply` and `parse`.
 */
module CollegeController {
  import opened Wrappers
  import Json
  import GeminiSchema
  import NavigatorPrompt

  /** The request body; `chatId` is `None` when `chat_id` is absent or `null`. */
  datatype Request = Request(userCoordinate: Json.Value, chatId: Option<string>, userMessage: string)

  /** `chat_id` is truthy: present and not the empty string. */
  predicate HasChatId(chatId: Option<string>)
  {
    chatId.Some? && chatId.value != ""
  }

  /** The length of a version-4 UUID in its textual form, as `uuidv4` returns it. */
  const UuidLength: nat := 36

  /**
   The properties every plain JavaScript object inherits from
   `Object.prototype`. `activeChats` is such an object, so reading one of
   these names yields a truthy value that has no `sendMessage` function.
   */
  const InheritedNames: set<string> := {
    "constructor", "__proto__", "__defineGetter__", "__defineSetter__",
    "__lookupGetter__", "__lookupSetter__", "hasOwnProperty", "isPrototypeOf",
    "propertyIsEnumerable", "toLocaleString", "toString", "valueOf"}

  /** No inherited name is as long as an id `uuidv4` returns. */
  lemma IssuedIdNotInherited(id: string)
    requires |id| == UuidLength
    ensures id !in InheritedNames
  {
  }

  // The envelope `sendMessage` resolves to, reduced to the path the handler reads.
  datatype Part = Part(text: Option<string>)
  datatype Content = Content(parts: Option<seq<Part>>)
  datatype Candidate = Candidate(content: Option<Content>)
  datatype GenerateResult = GenerateResult(candidates: Option<seq<Candidate>>)

  /** What `await chat_instance.sendMessage(...)` does: resolve with an envelope, or throw. */
  datatype SendResult = Resolved(result: GenerateResult) | Threw

  /** The value of `result?.response?.candidates?.[0]?.content?.parts[0]?.text ?? null`. */
  datatype Extraction = Text(text: string) | NoText | TypeError

  /**
   Optional chaining stops at a missing candidate list, candidate, content,
   part or text; `parts` itself is read without `?.`, so content without a
   parts list throws.
   */
  function ExtractText(r: GenerateResult): Extraction
  {
    if r.candidates.None? || |r.candidates.value| == 0 then NoText
    else match r.candidates.value[0].content
      case None => NoText
      case Some(content) =>
        if content.parts.None? then TypeError
        else if |content.parts.value| == 0 then NoText
        else match content.parts.value[0].text
          case None => NoText
          case Some(t) => Text(t)
  }

  /** The non-empty reply text of a send, if there is one. */
  function ReplyText(sent: SendResult): Option<string>
  {
    if sent.Resolved? && ExtractText(sent.result).Text? && ExtractText(sent.result).text != ""
    then Some(ExtractText(sent.result).text)
    else None
  }

  const ChatNotFound: string := "Chat not found"
  const ChatInstanceInvalid: string := "Chat instance is not valid"
  const EmptyResponse: string := "Empty response from model"
  const CouldNotParse: string := "Could not parse response as JSON"

  /** The handler's answer. */
  datatype Outcome =
    | Parsed(parsedResponse: GeminiSchema.NavReply, chatId: string)                // 200
    | Unparsed(response: string, chatId: string, parsingError: string)             // 200
    | Refused(status: nat, message: string)                                         // 404 or 500
    | Forwarded                                                                      // `next(error)`

  predicate Succeeded(o: Outcome)
  {
    o.Parsed? || o.Unparsed?
  }

  /**
   The answer once the message has been sent on behalf of chat `chatId`:
   any non-empty reply text is delivered with status 200, parsed when
   `JSON.parse` accepts it and raw with a parsing-error marker when it does
   not; a send without text is a 500; a throw goes to the error handler.
   */
  function Answer(sent: SendResult, parse: string -> Option<GeminiSchema.NavReply>, chatId: string): (o: Outcome)
    ensures Succeeded(o) <==> ReplyText(sent).Some?
    ensures Succeeded(o) ==> o.chatId == chatId
    ensures o.Parsed? <==> ReplyText(sent).Some? && parse(ReplyText(sent).value).Some?
    ensures o.Parsed? ==> Some(o.parsedResponse) == parse(ReplyText(sent).value)
    ensures o.Unparsed? ==> Some(o.response) == ReplyText(sent) && o.parsingError == CouldNotParse
    ensures o.Refused? ==> o == Refused(500, EmptyResponse)
    ensures o.Forwarded? <==> sent.Threw? || ExtractText(sent.result).TypeError?
  {
    match sent
    case Threw => Forwarded
    case Resolved(result) =>
      match ExtractText(result)
      case TypeError => Forwarded
      case NoText => Refused(500, EmptyResponse)
      case Text(t) =>
        if t == "" then Refused(500, EmptyResponse)
        else match parse(t)
          case Some(v) => Parsed(v, chatId)
          case None => Unparsed(t, chatId, CouldNotParse)
  }

  /** What reading `activeChats[id]` finds. */
  datatype Lookup<S> = Own(session: S) | Inherited | Missing

  function Find<S>(table: map<string, S>, id: string): Lookup<S>
  {
    if id in table then Own(table[id]) else if id in InheritedNames then Inherited else Missing
  }

  /** The table after a turn that reached session resolution: a falsy `chat_id` adds an entry under the fresh id. */
  function Admit<S>(table: map<string, S>, chatId: Option<string>, freshId: string, session: S): map<string, S>
  {
    if HasChatId(chatId) then table else table[freshId := session]
  }

  /**
   What one call does to the table: whether the location fetch succeeded,
   the supplied `chat_id`, the id `uuidv4` returned and the session started
   if one is.
   */
  datatype Turn<S> = Turn(fetched: bool, chatId: Option<string>, freshId: string, session: S)

  predicate Starts<S>(t: Turn<S>)
  {
    t.fetched && !HasChatId(t.chatId)
  }

  function Step<S>(table: map<string, S>, t: Turn<S>): map<string, S>
  {
    if t.fetched then Admit(table, t.chatId, t.freshId, t.session) else table
  }

  /** The table after a sequence of calls, handled one after the other. */
  function Run<S>(table: map<string, S>, turns: seq<Turn<S>>): map<string, S>
    decreases |turns|
  {
    if |turns| == 0 then table else Run(Step(table, turns[0]), turns[1..])
  }

  /** The ids of the sessions the calls started, in order. */
  function StartedIds<S>(turns: seq<Turn<S>>): seq<string>
    decreases |turns|
  {
    if |turns| == 0 then []
    else (if Starts(turns[0]) then [turns[0].freshId] else []) + StartedIds(turns[1..])
  }

  /** Every id `uuidv4` hands out is new to the table at the moment it is used. */
  ghost predicate FreshIds<S>(table: map<string, S>, turns: seq<Turn<S>>)
    decreases |turns|
  {
    |turns| == 0 ||
    ((Starts(turns[0]) ==> turns[0].freshId !in table) && FreshIds(Step(table, turns[0]), turns[1..]))
  }

  /** Nothing is ever deleted: the keys after a run are the keys before plus the ids started. */
  lemma {:induction false} RunKeys<S>(table: map<string, S>, turns: seq<Turn<S>>)
    ensures Run(table, turns).Keys == table.Keys + set id | id in StartedIds(turns)
    decreases |turns|
  {
    if |turns| > 0 {
      RunKeys(Step(table, turns[0]), turns[1..]);
      assert StartedIds(turns) == (if Starts(turns[0]) then [turns[0].freshId] else []) + StartedIds(turns[1..]);
    }
  }

  /** Nothing is ever overwritten: an entry keeps its session through every later call. */
  lemma {:induction false} RunKeepsEntries<S>(table: map<string, S>, turns: seq<Turn<S>>)
    requires FreshIds(table, turns)
    ensures forall id :: id in table ==> id in Run(table, turns) && Run(table, turns)[id] == table[id]
    decreases |turns|
  {
    if |turns| > 0 {
      RunKeepsEntries(Step(table, turns[0]), turns[1..]);
    }
  }

  /** Sequential calls without a chat id get pairwise distinct ids, none of them already in the table. */
  lemma {:induction false} StartedIdsDistinct<S>(table: map<string, S>, turns: seq<Turn<S>>)
    requires FreshIds(table, turns)
    ensures forall i :: 0 <= i < |StartedIds(turns)| ==> StartedIds(turns)[i] !in table
    ensures forall i, j :: 0 <= i < j < |StartedIds(turns)| ==> StartedIds(turns)[i] != StartedIds(turns)[j]
    decreases |turns|
  {
    if |turns| > 0 {
      var next := Step(table, turns[0]);
      var rest := StartedIds(turns[1..]);
      StartedIdsDistinct(next, turns[1..]);
      assert table.Keys <= next.Keys;
      if Starts(turns[0]) {
        assert StartedIds(turns) == [turns[0].freshId] + rest;
        assert turns[0].freshId in next;
      } else {
        assert StartedIds(turns) == rest;
      }
    }
  }

  /**
   Session continuity: once a call has started a session under its fresh id,
   a later call supplying that id finds that very session.
   */
  lemma {:induction false} SessionContinuity<S>(table: map<string, S>, turns: seq<Turn<S>>, k: nat)
    requires FreshIds(table, turns)
    requires k < |turns| && Starts(turns[k])
    ensures Find(Run(table, turns), turns[k].freshId) == Own(turns[k].session)
    decreases |turns|
  {
    var next := Step(table, turns[0]);
    if k == 0 {
      RunKeepsEntries(next, turns[1..]);
    } else {
      assert turns[1..][k - 1] == turns[k];
      SessionContinuity(next, turns[1..], k - 1);
    }
  }

  /**
   An id that was neither in the table nor handed out by any call never
   resolves to a session: it is "Chat not found", or an inherited name.
   */
  lemma NeverIssuedNeverFound<S>(table: map<string, S>, turns: seq<Turn<S>>, id: string)
    requires id !in table && id !in StartedIds(turns)
    ensures Find(Run(table, turns), id) == if id in InheritedNames then Inherited else Missing
  {
    RunKeys(table, turns);
  }

  /** The arguments `navigatorPrompt` is called with, and the `JSON.stringify` leaves it uses. */
  datatype Grounding = Grounding(printer: Json.Printer, coordinate: Json.Value, message: string, locations: seq<Json.Value>)

  /**
   A model chat session: the grounding and schema it was started with, and
   the messages sent to it. Its system instruction is the prompt built from
   the grounding.
   */
  class Session {
    const grounding: Grounding
    const required: seq<string>
    var sent: seq<string>

    function Instruction(): string
    {
      NavigatorPrompt.Prompt(grounding.printer, grounding.coordinate, grounding.message, grounding.locations)
    }

    /** `structuredGeminiModel(schema, navigatorPrompt(...)).startChat({})`. */
    constructor (grounding: Grounding, required: seq<string>)
      ensures this.grounding == grounding && this.required == required && sent == []
    {
      this.grounding := grounding;
      this.required := required;
      sent := [];
    }

    /** `sendMessage(message)`; the model's answer is the oracle `reply`. */
    method SendMessage(message: string, reply: SendResult) returns (r: SendResult)
      modifies this
      ensures sent == old(sent) + [message] && r == reply
    {
      sent := sent + [message];
      r := reply;
    }
  }

  class SessionRouter {
    var activeChats: map<string, Session>

    /**
     No own key of the table shadows an inherited name, because every key
     came from `uuidv4`. No contract depends on this: `Find` checks own keys
     before inherited names. The invariant only records that `uuidv4` keys
     never collide with `Object.prototype` names.
     */
    ghost predicate Valid()
      reads this
    {
      forall id :: id in activeChats ==> id !in InheritedNames
    }

    constructor ()
      ensures Valid() && activeChats == map[]
    {
      activeChats := map[];
    }

    /**
     One call of `lostOnCampusController`. `instance` is the session the
     turn resolved to, `null` when it stopped before sending.
     */
    method HandleTurn(req: Request, locations: Option<seq<Json.Value>>, freshId: string, reply: SendResult,
                      parse: string -> Option<GeminiSchema.NavReply>, printer: Json.Printer)
      returns (o: Outcome, ghost instance: Session?)
      requires Valid()
      requires locations.Some? && !HasChatId(req.chatId) ==> |freshId| == UuidLength && freshId !in activeChats
      modifies this, activeChats.Values
      ensures Valid()
      // the table only changes by one new entry, when a session is started
      ensures locations.Some? && !HasChatId(req.chatId) ==>
        && instance != null && fresh(instance)
        && activeChats == Admit(old(activeChats), req.chatId, freshId, instance)
        && instance.grounding == Grounding(printer, req.userCoordinate, req.userMessage, locations.value)
        && instance.required == GeminiSchema.Required
        && instance.sent == [req.userMessage]
        && o == Answer(reply, parse, freshId)
      ensures locations.None? || HasChatId(req.chatId) ==> activeChats == old(activeChats)
      // a failing fetch stops the turn before anything else
      ensures locations.None? ==> o == Forwarded && instance == null
      // a supplied id is looked up, never created
      ensures locations.Some? && HasChatId(req.chatId) ==>
        match Find(old(activeChats), req.chatId.value)
        case Own(s) =>
          && instance == s
          && s.sent == old(s.sent) + [req.userMessage]
          && o == Answer(reply, parse, req.chatId.value)
        case Inherited => instance == null && o == Refused(500, ChatInstanceInvalid)
        case Missing => instance == null && o == Refused(404, ChatNotFound)
      // no other session is sent anything
      ensures forall s :: s in old(activeChats).Values && s != instance ==> s.sent == old(s.sent)
    {
      instance := null;
      if locations.None? {
        o := Forwarded;
        return;
      }
      var chat: Session?;
      var newChatId: Option<string> := None;
      if !HasChatId(req.chatId) {
        IssuedIdNotInherited(freshId);
        chat := new Session(Grounding(printer, req.userCoordinate, req.userMessage, locations.value), GeminiSchema.Required);
        newChatId := Some(freshId);
        activeChats := activeChats[freshId := chat];
      } else if req.chatId.value in activeChats {
        chat := activeChats[req.chatId.value];
      } else if req.chatId.value in InheritedNames {
        // truthy, but `typeof chat_instance.sendMessage !== "function"`
        o := Refused(500, ChatInstanceInvalid);
        return;
      } else {
        chat := null;
      }
      if chat == null {
        o := Refused(404, ChatNotFound);
        return;
      }
      instance := chat;
      var sent := chat.SendMessage(req.userMessage, reply);
      o := Answer(sent, parse, if newChatId.Some? then newChatId.value else req.chatId.value);
    }
  }
}
