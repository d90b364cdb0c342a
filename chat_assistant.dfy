/** The state of the chat assistant panel, js/chat.js: whether it is open, whether a request is
    in flight, the conversation history, the document context and the current mode, together
    with the visible traces of that state the code maintains (the input box, the messages shown,
    the suggestion chips and the send button). `sendMessage` is asynchronous; it is modelled as
    `BeginSend`, which runs up to the request, and `FinishSend`, which runs once the response (or
    the error) is in, so that other operations may run in between as they can in the browser. */
module ChatAssistant {
  import opened Js
  import opened Wire

  const MaxContext := 3000
  const HistorySent := 10
  const MaxSpeech := 1500
  const MaxFallbackSpeech := 500

  const DefaultSuggestions := [
    "What are my rights as a tenant in India?",
    "Explain the Indian Contract Act 1872",
    "How to file a consumer complaint?",
    "What is anticipatory bail?"]
  const ContractSuggestions := [
    "Explain the key clauses in this contract",
    "What are my obligations under this agreement?",
    "Are there any risky clauses I should know?",
    "What happens if a party breaches this contract?"]
  const ResearchSuggestions := [
    "Summarise the key legal principles found",
    "How does this case law apply to my situation?",
    "What is the current legal position on this?",
    "Which High Court precedent is most relevant?"]
  const OpinionSuggestions := [
    "What are my chances of success in court?",
    "What documents do I need to proceed?",
    "Explain this opinion in simple language",
    "What are the next legal steps I should take?"]

  /** The suggestion list of `renderEmptyState`: the list of the context's mode when there is a
      context and its mode has one, the default list otherwise. */
  function SuggestionsFor(context: Option<DocContext>): (r: seq<string>)
    ensures context.None? ==> r == DefaultSuggestions
    ensures context.Some? && context.value.mode == Some(ContractMode) ==> r == ContractSuggestions
    ensures context.Some? && context.value.mode == Some(ResearchMode) ==> r == ResearchSuggestions
    ensures context.Some? && context.value.mode == Some(OpinionMode) ==> r == OpinionSuggestions
    ensures context.Some? && !(context.value.mode.Some? && IsKnownMode(context.value.mode.value)) ==> r == DefaultSuggestions
  {
    if context.None? then DefaultSuggestions
    else if context.value.mode == Some(ContractMode) then ContractSuggestions
    else if context.value.mode == Some(ResearchMode) then ResearchSuggestions
    else if context.value.mode == Some(OpinionMode) then OpinionSuggestions
    else DefaultSuggestions
  }

  /** The text `speakText` sends to the TTS route: the trimmed text cut to 1500 units; `None`
      when it returns early on missing or whitespace-only text. */
  function SpeechText(text: Field): (r: Option<string>)
    ensures r.None? <==> !Truthy(text) || Blank(text.value)
    ensures r.Some? ==> var t := Trim(text.value);
      && 0 < |r.value| <= MaxSpeech
      && |r.value| == (if |t| <= MaxSpeech then |t| else MaxSpeech)
      && r.value == t[..|r.value|]
      && !IsSpace(r.value[0])
  {
    if !Truthy(text) || Trim(text.value) == "" then None
    else Some(Prefix(Trim(text.value), MaxSpeech))
  }

  /** The text of the browser-speech fallback: the first 500 units of the untrimmed text. */
  function FallbackSpeech(text: string): (r: string)
    ensures |r| == (if |text| <= MaxFallbackSpeech then |text| else MaxFallbackSpeech)
    ensures r == text[..|r|]
  {
    Prefix(text, MaxFallbackSpeech)
  }

  /** How the request of a send ended: an HTTP response with its status, the `reply` of a
      success body and the `error` of a failure body, or a thrown error with its name and
      message. */
  datatype Outcome = Http(status: nat, reply: string, error: Field) | Thrown(name: string, message: string)

  /** The request a send issues: the Authorization header and the JSON body. */
  datatype Outgoing = Outgoing(authorization: string, body: AssistantBody)

  const SessionExpired := "Your session has expired. Please log out and log in again to continue."

  function ErrorNotice(message: string): string {
    "Sorry, I encountered an error: " + message + ". Please try again."
  }

  predicate IsOk(status: nat) {
    200 <= status < 300
  }

  /** A snapshot of every field of the assistant. */
  datatype State = State(
    isOpen: bool, isThinking: bool, sendDisabled: bool,
    history: seq<Turn>, context: Option<DocContext>, currentMode: Field,
    input: string, shown: seq<Turn>, chips: seq<string>)

  /** `renderEmptyState`: the panel is emptied and shows the suggestions for the context. */
  function Rendered(s: State): State {
    s.(shown := [], chips := SuggestionsFor(s.context))
  }

  /** `if (conversationHistory.length === 0) renderEmptyState()` */
  function RefreshIfEmpty(s: State): State {
    if s.history == [] then Rendered(s) else s
  }

  /** `setDocumentContext(mode, content)`: the context keeps the mode and the first 3000 units of
      the document, the current mode follows it, and an empty conversation is redrawn. */
  function WithDocument(s: State, mode: Field, content: string): State {
    RefreshIfEmpty(s.(context := Some(DocContext(mode, Some(Prefix(content, MaxContext)))), currentMode := mode))
  }

  /** `addMessage`: the empty state and the suggestions are removed and the message appended. */
  function AddMessage(s: State, role: string, text: string): State {
    s.(shown := s.shown + [Turn(role, text)], chips := [])
  }

  /** What `FinishSend` does to the state for each outcome (before `isThinking` is reset). */
  function Settled(s: State, outcome: Outcome): State {
    match outcome
    case Http(status, reply, error) =>
      if status == 401 || status == 403 then AddMessage(s, "ai", SessionExpired)
      else if !IsOk(status) then AddMessage(s, "ai", ErrorNotice(Or(error, "Error " + NatToString(status))))
      else AddMessage(s, "ai", reply).(history := s.history + [Turn("assistant", reply)])
    case Thrown(name, message) =>
      if name != "AbortError" then AddMessage(s, "ai", ErrorNotice(message)) else s
  }

  /** Only a successful reply adds to the history, and it adds exactly the assistant turn. */
  lemma SettledHistory(s: State, outcome: Outcome)
    ensures Settled(s, outcome).history == s.history
      + (if outcome.Http? && IsOk(outcome.status) && outcome.status != 401 && outcome.status != 403
         then [Turn("assistant", outcome.reply)] else [])
    ensures Settled(s, outcome).input == s.input
  {
  }

  class Assistant {
    var isOpen: bool
    var isThinking: bool
    var sendDisabled: bool
    var history: seq<Turn>
    var context: Option<DocContext>
    var currentMode: Field
    /** The text in the chat input box. */
    var input: string
    /** The messages shown in the panel, with roles `user` and `ai`. */
    var shown: seq<Turn>
    /** The suggestion chips shown in the panel. */
    var chips: seq<string>

    function Snapshot(): State
      reads this
    {
      State(isOpen, isThinking, sendDisabled, history, context, currentMode, input, shown, chips)
    }

    /** The send button is disabled exactly while a request is in flight, the history holds only
        user and assistant turns, and a stored context carries at most 3000 units of text. */
    predicate Valid()
      reads this
    {
      && sendDisabled == isThinking
      && (forall i :: 0 <= i < |history| ==> IsChatRole(history[i]))
      && (context.Some? ==> context.value.content.Some? && |context.value.content.value| <= MaxContext)
    }

    /** The module's initial state. */
    constructor ()
      ensures Valid()
      ensures Snapshot() == State(false, false, false, [], None, None, "", [], [])
    {
      isOpen, isThinking, sendDisabled := false, false, false;
      history, context, currentMode := [], None, None;
      input, shown, chips := "", [], [];
    }

    method RenderEmptyState()
      modifies this
      ensures Snapshot() == Rendered(old(Snapshot()))
    {
      shown := [];
      chips := SuggestionsFor(context);
    }

    method Open()
      modifies this
      requires Valid()
      ensures Valid()
      ensures Snapshot() == RefreshIfEmpty(old(Snapshot()).(isOpen := true))
    {
      isOpen := true;
      if |history| == 0 {
        RenderEmptyState();
      }
    }

    method Close()
      modifies this
      requires Valid()
      ensures Valid()
      ensures Snapshot() == old(Snapshot()).(isOpen := false)
    {
      isOpen := false;
    }

    method Toggle()
      modifies this
      requires Valid()
      ensures Valid()
      ensures Snapshot() == if old(isOpen) then old(Snapshot()).(isOpen := false)
                            else RefreshIfEmpty(old(Snapshot()).(isOpen := true))
    {
      if isOpen {
        Close();
      } else {
        Open();
      }
    }

    /** Called after a document is generated: the context keeps at most the first 3000 units of
        the document and the current mode follows the document's. */
    method SetDocumentContext(mode: Field, content: string)
      modifies this
      requires Valid()
      ensures Valid()
      ensures Snapshot() == WithDocument(old(Snapshot()), mode, content)
    {
      context := Some(DocContext(mode, Some(Prefix(content, MaxContext))));
      currentMode := mode;
      if |history| == 0 {
        RenderEmptyState();
      }
    }

    /** Drops the document context, and redraws the empty state when the conversation is
        empty; nothing else changes. */
    method ClearContext()
      modifies this
      requires Valid()
      ensures Valid()
      ensures Snapshot() == RefreshIfEmpty(old(Snapshot()).(context := None))
    {
      context := None;
      if |history| == 0 {
        RenderEmptyState();
      }
    }

    /** Empties the history and nothing else of the conversation state. */
    method ClearConversation()
      modifies this
      requires Valid()
      ensures Valid()
      ensures Snapshot() == Rendered(old(Snapshot()).(history := []))
    {
      history := [];
      RenderEmptyState();
    }

    /** On login: the suggestions come back when the conversation is empty. */
    method ShowTrigger()
      modifies this
      requires Valid()
      ensures Valid()
      ensures Snapshot() == RefreshIfEmpty(old(Snapshot()))
    {
      if |history| == 0 {
        RenderEmptyState();
      }
    }

    /** On logout: the history and the context are dropped and the panel is closed. */
    method HideTrigger()
      modifies this
      requires Valid()
      ensures Valid()
      ensures Snapshot() == old(Snapshot()).(history := [], context := None, isOpen := false)
    {
      history := [];
      context := None;
      Close();
    }

    method OnModeChange(mode: Field)
      modifies this
      requires Valid()
      ensures Valid()
      ensures Snapshot() == old(Snapshot()).(currentMode := mode)
    {
      currentMode := mode;
    }

    /** The part of `sendMessage` before the request: nothing happens for a blank input, while
        a request is in flight, or without a token; otherwise the input is cleared, the user turn
        is shown and appended to the history, and the request carries the last ten turns of the
        history (the new one included). */
    method BeginSend(token: Field) returns (request: Option<Outgoing>)
      modifies this
      requires Valid()
      ensures Valid()
      ensures var text := Trim(old(input));
        if text == "" || old(isThinking) || !Truthy(token) then
          request.None? && Snapshot() == old(Snapshot())
        else
          var turn := Turn("user", text);
          var h := old(history) + [turn];
          && request == Some(Outgoing("Bearer " + token.value,
                               AssistantBody(Some(text), Some(Last(h, HistorySent)), old(context), old(currentMode))))
          && Snapshot() == AddMessage(old(Snapshot()), "user", text).(
               input := "", history := h, isThinking := true, sendDisabled := true)
    {
      var text := Trim(input);
      if text == "" || isThinking {
        return None;
      }
      if !Truthy(token) {
        return None;
      }
      input := "";
      shown := shown + [Turn("user", text)];
      chips := [];
      history := history + [Turn("user", text)];
      isThinking := true;
      sendDisabled := true;
      request := Some(Outgoing("Bearer " + token.value,
                               AssistantBody(Some(text), Some(Last(history, HistorySent)), context, currentMode)));
    }

    /** The part of `sendMessage` after the request. A successful reply is shown and appended to
        the history as an assistant turn and handed to the speech routine; 401 and 403 show the
        session notice, other failures an error notice (none for an aborted request); on every
        path the in-flight flag is cleared. */
    method FinishSend(outcome: Outcome) returns (spoken: Option<string>)
      modifies this
      requires Valid() && isThinking
      ensures Valid()
      ensures Snapshot() == Settled(old(Snapshot()), outcome).(isThinking := false, sendDisabled := false)
      ensures spoken == if outcome.Http? && IsOk(outcome.status) && outcome.status != 401 && outcome.status != 403
                        then SpeechText(Some(outcome.reply)) else None
    {
      spoken := None;
      match outcome {
      case Http(status, reply, error) =>
        if status == 401 || status == 403 {
          shown, chips := shown + [Turn("ai", SessionExpired)], [];
        } else if !IsOk(status) {
          var message := Or(error, "Error " + NatToString(status));
          shown, chips := shown + [Turn("ai", ErrorNotice(message))], [];
        } else {
          shown, chips := shown + [Turn("ai", reply)], [];
          history := history + [Turn("assistant", reply)];
          spoken := SpeechText(Some(reply));
        }
      case Thrown(name, message) =>
        if name != "AbortError" {
          shown, chips := shown + [Turn("ai", ErrorNotice(message))], [];
        }
      }
      isThinking := false;
      sendDisabled := false;
    }

    /** `sendMessage` when nothing else runs while the request is out. A send that starts leaves
        the history with the user turn, followed by the assistant turn only on a successful
        reply, and never leaves a request marked in flight. */
    method SendMessage(token: Field, outcome: Outcome) returns (request: Option<Outgoing>, spoken: Option<string>)
      modifies this
      requires Valid()
      ensures Valid()
      ensures request.None? ==> Snapshot() == old(Snapshot()) && spoken.None?
      ensures request.Some? <==> Trim(old(input)) != "" && !old(isThinking) && Truthy(token)
      ensures request.Some? ==>
        && !isThinking && input == ""
        && history == old(history) + [Turn("user", Trim(old(input)))]
                      + (if outcome.Http? && IsOk(outcome.status) && outcome.status != 401 && outcome.status != 403
                         then [Turn("assistant", outcome.reply)] else [])
      ensures request.Some? ==>
        var text := Trim(old(input));
        var h := old(history) + [Turn("user", text)];
        && request == Some(Outgoing("Bearer " + token.value,
                             AssistantBody(Some(text), Some(Last(h, HistorySent)), old(context), old(currentMode))))
        && Snapshot() == Settled(AddMessage(old(Snapshot()), "user", text).(
                               input := "", history := h, isThinking := true, sendDisabled := true), outcome).(
                             isThinking := false, sendDisabled := false)
        && spoken == if outcome.Http? && IsOk(outcome.status) && outcome.status != 401 && outcome.status != 403
                     then SpeechText(Some(outcome.reply)) else None
    {
      spoken := None;
      request := BeginSend(token);
      if request.Some? {
        ghost var s := Snapshot();
        spoken := FinishSend(outcome);
        SettledHistory(s, outcome);
      }
    }
  }
}
