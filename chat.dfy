/**
 * The chat session: the current session, the message history and the
 * loading flag, changed by `init`, `sendMessage`, `sendAction` and `reset`.
 * Backend answers (`getChatSessionId`, `getChatState`, `startChat`,
 * `sendChatMessage`, `resetChat`) are inputs: each call is handed the
 * outcome it will see, a value or a thrown Error.
 */
module Chat {
  import opened Wrappers
  import Api

  const NO_SESSION := "No active chat session"

  // ------------------------------------------------------------ trimming

  /** The characters `String.prototype.trim` strips: ECMAScript white space and line terminators. */
  predicate IsWhitespace(c: char) {
    || c == '\U{0009}' || c == '\U{000B}' || c == '\U{000C}' || c == '\U{0020}' || c == '\U{00A0}'
    || c == '\U{FEFF}' || c == '\U{1680}' || ('\U{2000}' <= c <= '\U{200A}') || c == '\U{202F}'
    || c == '\U{205F}' || c == '\U{3000}'
    || c == '\U{000A}' || c == '\U{000D}' || c == '\U{2028}' || c == '\U{2029}'
  }

  /** Drops leading white space. */
  function TrimStart(s: string): (r: string)
    ensures |r| <= |s| && r == s[|s| - |r|..]
    ensures forall k :: 0 <= k < |s| - |r| ==> IsWhitespace(s[k])
    ensures r != "" ==> !IsWhitespace(r[0])
  {
    if s != "" && IsWhitespace(s[0]) then TrimStart(s[1..]) else s
  }

  /** Drops trailing white space. */
  function TrimEnd(s: string): (r: string)
    ensures |r| <= |s| && r == s[..|r|]
    ensures forall k :: |r| <= k < |s| ==> IsWhitespace(s[k])
    ensures r != "" ==> !IsWhitespace(r[|r| - 1])
  {
    if s != "" && IsWhitespace(s[|s| - 1]) then TrimEnd(s[..|s| - 1]) else s
  }

  /**
   * `content.trim()`: the text between the first and the last character
   * that is not white space, or "" when there is none.
   */
  function Trim(s: string): (r: string)
    ensures |r| <= |s|
    ensures r == "" <==> forall k :: 0 <= k < |s| ==> IsWhitespace(s[k])
    ensures r != "" ==> !IsWhitespace(r[0]) && !IsWhitespace(r[|r| - 1])
  {
    var t := TrimStart(s);
    var r := TrimEnd(t);
    assert r == "" ==> t == "";
    assert r != "" ==> !IsWhitespace(r[0]) by {
      if r != "" { assert r[0] == t[0]; }
    }
    r
  }

  /** The trimmed text is the middle of the text: it starts where the leading white space ends. */
  lemma TrimIsMiddle(s: string)
    ensures var start := |s| - |TrimStart(s)|;
            start + |Trim(s)| <= |s| && Trim(s) == s[start..start + |Trim(s)|]
  {
  }

  /** Text without white space at either end is its own trim. */
  lemma {:induction false} TrimKeepsClean(s: string)
    requires s != "" && !IsWhitespace(s[0]) && !IsWhitespace(s[|s| - 1])
    ensures Trim(s) == s
  {
  }

  /** Trimming twice is trimming once. */
  lemma TrimIdempotent(s: string)
    ensures Trim(Trim(s)) == Trim(s)
  {
    if Trim(s) != "" {
      TrimKeepsClean(Trim(s));
    }
  }

  // ------------------------------------------------------------ messages

  datatype Role = User | Assistant

  /** A history entry; the timestamp is not modelled. */
  datatype Message = Message(role: Role, content: string, suggestedActions: Option<seq<string>>,
                             recommendations: Option<seq<string>>, currentNode: Option<string>)

  /** The body of a `sendChatMessage` answer. */
  datatype Reply = Reply(response: string, suggestedActions: Option<seq<string>>,
                         recommendations: Option<seq<string>>, currentNode: Option<string>)

  /** The body of a `startChat` answer. */
  datatype StartResponse = StartResponse(sessionId: string, greeting: string, vehicle: Option<string>)

  /** The body of a `getChatState` answer: its `error` flag and the properties spread into the session. */
  datatype ChatState = ChatState(error: bool, sessionId: Option<string>, currentNode: Option<string>)

  datatype Session = Session(sessionId: string, vehicleId: Option<string>, vehicle: Option<string>,
                             currentNode: Option<string>)

  function UserMessage(content: string): Message {
    Message(User, content, None, None, None)
  }

  function AssistantMessage(reply: Reply): Message {
    Message(Assistant, reply.response, reply.suggestedActions, reply.recommendations, reply.currentNode)
  }

  function Greeting(text: string): Message {
    Message(Assistant, text, None, None, None)
  }

  /** How `init` ended: a restored session, a new one, or the Error it rethrew. */
  datatype InitOutcome = Restored(sessionId: string) | Started(response: StartResponse)

  /** How `sendMessage` ended: the backend's reply, `null` for blank text, or the Error it threw. */
  datatype SendOutcome = Replied(reply: Reply) | Blank | Threw(error: string)

  // ------------------------------------------------------------ actions

  /** `sendAction`'s table: the five quick actions and the message each sends. */
  function ActionMessage(action: string): (message: Option<string>)
    ensures message.Some? <==>
              action in ["HANDOFF_HUMAN", "SHOW_FINANCING", "SCHEDULE_VISIT", "SHOW_DETAILS", "MORE_OPTIONS"]
  {
    if action == "HANDOFF_HUMAN" then Some("Quero falar com um vendedor")
    else if action == "SHOW_FINANCING" then Some("Quero simular financiamento")
    else if action == "SCHEDULE_VISIT" then Some("Quero agendar uma visita")
    else if action == "SHOW_DETAILS" then Some("Quero ver mais detalhes")
    else if action == "MORE_OPTIONS" then Some("Quero ver mais opções")
    else None
  }

  /** Every canned message is already trimmed and not blank, so `sendMessage` never skips it. */
  lemma ActionMessagesAreClean(action: string)
    requires ActionMessage(action).Some?
    ensures Trim(ActionMessage(action).value) == ActionMessage(action).value != ""
  {
    TrimKeepsClean(ActionMessage(action).value);
  }

  const LABELLED_ACTIONS := ["HANDOFF_HUMAN", "SHOW_FINANCING", "FINANCING_SIMULATION", "SCHEDULE_VISIT",
                             "SHOW_DETAILS", "TRADE_IN_EVALUATION", "RETRY"]

  /** `getActionLabel`: the button label of a known action, the action code itself otherwise. */
  function ActionLabel(action: string): (text: string)
    ensures text == "" <==> action == ""
    ensures action !in LABELLED_ACTIONS ==> text == action
  {
    if action == "HANDOFF_HUMAN" then "👨‍💼 Falar com vendedor"
    else if action == "SHOW_FINANCING" then "💰 Simular financiamento"
    else if action == "FINANCING_SIMULATION" then "💰 Simular financiamento"
    else if action == "SCHEDULE_VISIT" then "📅 Agendar visita"
    else if action == "SHOW_DETAILS" then "📋 Ver detalhes"
    else if action == "TRADE_IN_EVALUATION" then "🔄 Avaliar troca"
    else if action == "RETRY" then "🔄 Tentar novamente"
    else action
  }

  // ------------------------------------------------------------ the manager

  class ChatManager {
    var currentSession: Option<Session>
    var messages: seq<Message>
    var isLoading: bool

    constructor ()
      ensures currentSession.None? && messages == [] && !isLoading
    {
      currentSession := None;
      messages := [];
      isLoading := false;
    }

    /** `isActive`: a session with a non-empty ID. */
    function IsActive(): (active: bool)
      reads this
      ensures active ==> currentSession.Some?
    {
      currentSession.Some? && currentSession.value.sessionId != ""
    }

    /** `getMessages`: the history as a value, so the caller's copy is not the manager's. */
    method GetMessages() returns (history: seq<Message>)
      ensures history == messages
    {
      history := messages;
    }

    /** `setLoading`. */
    method SetLoading(loading: bool)
      modifies this
      ensures isLoading == loading
      ensures currentSession == old(currentSession) && messages == old(messages)
    {
      isLoading := loading;
    }

    /**
     * `init`: looks up a stored session ID (the lookup may throw); a truthy
     * one is restored when `getChatState` answers a state without `error`,
     * and the history is then left as it was. Any other outcome starts a
     * fresh session whose history is the greeting alone. A failure of the
     * lookup or of `startChat` is rethrown with the state untouched. The
     * loading flag is down afterwards in every case.
     */
    method Init(vehicleId: Option<string>, lookup: Result<Option<string>>,
                restore: Result<Option<ChatState>>, start: Result<StartResponse>)
      returns (result: Result<InitOutcome>)
      modifies this
      ensures !isLoading
      ensures lookup.Err? ==>
                result == Err(lookup.message) &&
                currentSession == old(currentSession) && messages == old(messages)
      ensures result.Ok? && result.value.Restored? ==>
                lookup.Ok? && Api.Truthy(lookup.value) && result.value.sessionId == lookup.value.value &&
                restore.Ok? && restore.value.Some? && !restore.value.value.error &&
                messages == old(messages) &&
                currentSession == Some(Session(restore.value.value.sessionId.GetOr(lookup.value.value), vehicleId,
                                               None, restore.value.value.currentNode))
      ensures lookup.Ok? && Api.Truthy(lookup.value) && restore.Ok? && restore.value.Some? && !restore.value.value.error ==>
                result.Ok? && result.value.Restored?
      ensures result.Ok? && result.value.Started? ==>
                start.Ok? && result.value.response == start.value &&
                messages == [Greeting(start.value.greeting)] &&
                currentSession == Some(Session(start.value.sessionId, vehicleId, start.value.vehicle, None))
      ensures result.Err? && lookup.Ok? ==>
                start.Err? && result == Err(start.message) &&
                currentSession == old(currentSession) && messages == old(messages)
    {
      SetLoading(true);
      if lookup.Err? {
        SetLoading(false);
        return Err(lookup.message);
      }
      var existingSessionId := lookup.value;
      if Api.Truthy(existingSessionId) {
        if restore.Ok? && restore.value.Some? && !restore.value.value.error {
          var state := restore.value.value;
          currentSession := Some(Session(state.sessionId.GetOr(existingSessionId.value), vehicleId, None, state.currentNode));
          SetLoading(false);
          return Ok(Restored(existingSessionId.value));
        }
      }
      if start.Err? {
        SetLoading(false);
        return Err(start.message);
      }
      var response := start.value;
      currentSession := Some(Session(response.sessionId, vehicleId, response.vehicle, None));
      messages := [Greeting(response.greeting)];
      SetLoading(false);
      result := Ok(Started(response));
    }

    /**
     * `sendMessage`: throws without an active session (checked first), is
     * a no-op returning null for blank text, and otherwise appends the
     * trimmed user message before calling the backend and the assistant
     * message after it. A failed call keeps the user message and rethrows.
     */
    method SendMessage(content: string, reply: Result<Reply>) returns (outcome: SendOutcome)
      modifies this
      ensures currentSession == old(currentSession)
      ensures !old(IsActive()) ==>
                outcome == Threw(NO_SESSION) && messages == old(messages) && isLoading == old(isLoading)
      ensures old(IsActive()) && Trim(content) == "" ==>
                outcome == Blank && messages == old(messages) && isLoading == old(isLoading)
      ensures old(IsActive()) && Trim(content) != "" ==>
                !isLoading &&
                match reply
                case Ok(r) => outcome == Replied(r) && messages == old(messages) + [UserMessage(Trim(content)), AssistantMessage(r)]
                case Err(e) => outcome == Threw(e) && messages == old(messages) + [UserMessage(Trim(content))]
    {
      if !IsActive() {
        return Threw(NO_SESSION);
      }
      if Trim(content) == "" {
        return Blank;
      }
      SetLoading(true);
      var userMessage := UserMessage(Trim(content));
      messages := messages + [userMessage];
      if reply.Err? {
        SetLoading(false);
        return Threw(reply.message);
      }
      var assistantMessage := AssistantMessage(reply.value);
      messages := messages + [assistantMessage];
      SetLoading(false);
      outcome := Replied(reply.value);
    }

    /**
     * `sendAction`: a known action sends its canned message; an unknown
     * one sends nothing and returns `undefined` (here `None`).
     */
    method SendAction(action: string, reply: Result<Reply>) returns (outcome: Option<SendOutcome>)
      modifies this
      ensures ActionMessage(action).None? ==>
                outcome.None? && currentSession == old(currentSession) &&
                messages == old(messages) && isLoading == old(isLoading)
      ensures currentSession == old(currentSession)
      ensures ActionMessage(action).Some? && !old(IsActive()) ==>
                outcome == Some(Threw(NO_SESSION)) && messages == old(messages) && isLoading == old(isLoading)
      ensures ActionMessage(action).Some? && old(IsActive()) ==>
                var user := UserMessage(ActionMessage(action).value);
                !isLoading &&
                match reply
                case Ok(r) => outcome == Some(Replied(r)) && messages == old(messages) + [user, AssistantMessage(r)]
                case Err(e) => outcome == Some(Threw(e)) && messages == old(messages) + [user]
    {
      var message := ActionMessage(action);
      if message.Some? {
        ActionMessagesAreClean(action);
        var sent := SendMessage(message.value, reply);
        return Some(sent);
      }
      return None;
    }

    /**
     * `reset`: asks the server to reset an active session (its failure is
     * only logged), then always drops the session and the history.
     */
    method Reset() returns (serverCalled: bool)
      modifies this
      ensures serverCalled == old(IsActive())
      ensures currentSession.None? && messages == [] && !IsActive()
      ensures isLoading == old(isLoading)
    {
      serverCalled := IsActive();
      currentSession := None;
      messages := [];
    }
  }
}
