/** The request rules of the authenticated backend, backend/server.js: the bearer-token check in
    front of every protected route, login, text-to-speech, document generation, the chat
    assistant and the two download routes. The language model and ElevenLabs are oracles passed
    in as functions; JWT verification and bcrypt comparison are oracles too. */
module BackendServer {
  import opened Js
  import opened Wire
  import opened Users
  import opened DocumentExport

  // ---------------------------------------------------------------------------
  // requireAuth

  const AuthenticationRequired := "Authentication required"
  const InvalidToken := "Invalid or expired token"

  /** `authHeader && authHeader.split(' ')[1]`: the second space-separated field of the header. */
  function BearerToken(header: Field): (token: Field)
    ensures token.Some? ==> Truthy(header) && ' ' !in token.value
    ensures !Truthy(header) ==> token.None?
  {
    if !Truthy(header) then None
    else
      var parts := Split(header.value, ' ');
      if |parts| < 2 then None else Some(parts[1])
  }

  /** `requireAuth`: 401 without a token, 403 when the token does not verify, otherwise the
      request goes on with the verified token. */
  function RequireAuth(header: Field, verify: string -> bool): (r: Response<string>)
    ensures r.Reply? <==> Truthy(BearerToken(header)) && verify(BearerToken(header).value)
    ensures r.Reply? ==> r.body == BearerToken(header).value && r.body != ""
    ensures r.Reject? ==> (r.status == 401 <==> !Truthy(BearerToken(header)))
    ensures r.Reject? ==> r == Reject(401, AuthenticationRequired) || r == Reject(403, InvalidToken)
  {
    var token := BearerToken(header);
    if !Truthy(token) then Reject(401, AuthenticationRequired)
    else if !verify(token.value) then Reject(403, InvalidToken)
    else Reply(token.value)
  }

  /** A header `<scheme> <token>`, possibly followed by further space-separated fields, yields
      exactly the token. */
  lemma BearerTokenOf(scheme: string, token: string, rest: string)
    requires scheme != [] && ' ' !in scheme && ' ' !in token
    requires rest == [] || rest[0] == ' '
    ensures BearerToken(Some(scheme + [' '] + token + rest)) == Some(token)
  {
    var h := scheme + [' '] + token + rest;
    assert h == scheme + [' '] + (token + rest);
    SplitAt(scheme, token + rest, ' ');
    if rest == [] {
      assert token + rest == token;
      SplitNoSeparator(token, ' ');
    } else {
      assert token + rest == token + [' '] + rest[1..];
      SplitAt(token, rest[1..], ' ');
    }
  }

  /** A header without a space, an empty header and a missing one are all refused with 401. */
  lemma NoSecondField(h: string, verify: string -> bool)
    requires ' ' !in h
    ensures RequireAuth(Some(h), verify) == Reject(401, AuthenticationRequired)
    ensures RequireAuth(None, verify) == Reject(401, AuthenticationRequired)
  {
    if h != "" {
      SplitNoSeparator(h, ' ');
    }
  }

  /** The reply of a protected route when `requireAuth` stops the request. */
  function Refused<T>(auth: Response<string>): Response<T>
    requires auth.Reject?
  {
    Reject(auth.status, auth.error)
  }

  // ---------------------------------------------------------------------------
  // POST /api/login

  const CredentialsRequired := "Email and password are required"
  const InvalidCredentials := "Invalid credentials"

  /** `email.toLowerCase().trim()` */
  function NormalizeEmail(email: string): (r: string)
    ensures IsTrimmed(r)
    ensures forall i :: 0 <= i < |r| ==> !IsUpper(r[i])
  {
    var l := Lower(email);
    var r := Trim(l);
    assert forall i :: 0 <= i < |r| ==> r[i] == l[Leading(l) + i];
    r
  }

  /** Normalising twice is normalising once. */
  lemma NormalizeIdempotent(email: string)
    ensures NormalizeEmail(NormalizeEmail(email)) == NormalizeEmail(email)
  {
    var n := NormalizeEmail(email);
    LowerOfLowered(n);
    TrimOfTrimmed(n);
  }

  /** The login route: 400 unless both fields are given, 401 unless the normalised email is
      found and the password matches its hash; the reply identifies the user the signed token
      is issued for. */
  function Login(users: seq<User>, email: Field, password: Field, compare: (string, string) -> bool): (r: Response<User>)
    ensures r == Reject(400, CredentialsRequired) <==> !Truthy(email) || !Truthy(password)
    ensures r.Reply? ==>
      r.body in users && r.body.email == NormalizeEmail(email.value) && compare(password.value, r.body.passwordHash)
    ensures Truthy(email) && Truthy(password) && (forall u :: u in users ==> u.email != NormalizeEmail(email.value))
        ==> r == Reject(401, InvalidCredentials)
    ensures r.Reject? ==> r == Reject(400, CredentialsRequired) || r == Reject(401, InvalidCredentials)
    ensures Truthy(email) && Truthy(password) && FindUser(users, NormalizeEmail(email.value)).Some?
        && compare(password.value, FindUser(users, NormalizeEmail(email.value)).value.passwordHash)
        ==> r == Reply(FindUser(users, NormalizeEmail(email.value)).value)
    ensures r.Reply? ==> FindUser(users, NormalizeEmail(email.value)) == Some(r.body)
  {
    if !Truthy(email) || !Truthy(password) then Reject(400, CredentialsRequired)
    else
      match FindUser(users, NormalizeEmail(email.value))
      case None => Reject(401, InvalidCredentials)
      case Some(u) =>
        if compare(password.value, u.passwordHash) then Reply(u) else Reject(401, InvalidCredentials)
  }

  /** Logging in with an address and with its normalised form gives the same outcome, as long as
      normalising leaves something. */
  lemma LoginNormalizes(users: seq<User>, email: string, password: Field, compare: (string, string) -> bool)
    requires NormalizeEmail(email) != ""
    ensures Login(users, Some(email), password, compare) == Login(users, Some(NormalizeEmail(email)), password, compare)
  {
    NormalizeIdempotent(email);
  }

  /** Any spelling of the administrator's address that normalises to it logs in with the right
      password, and with no other. */
  lemma AdminLogin(adminHash: string, email: string, password: string, compare: (string, string) -> bool)
    requires NormalizeEmail(email) == AdminEmail && password != ""
    ensures Login(Table(adminHash), Some(email), Some(password), compare)
        == if compare(password, adminHash) then Reply(User(1, AdminEmail, adminHash)) else Reject(401, InvalidCredentials)
  {
    FindInTable(adminHash, AdminEmail);
  }

  // ---------------------------------------------------------------------------
  // POST /api/tts

  const MaxTtsLength := 4900
  const NoText := "No text provided"
  const TtsNotConfigured := "TTS service not configured on server"

  /** The text forwarded to ElevenLabs: the trimmed text cut to 4900 units; `None` for missing
      or whitespace-only text. */
  function TtsText(text: Field): (r: Option<string>)
    ensures r.None? <==> !Truthy(text) || Blank(text.value)
    ensures r.Some? ==> var t := Trim(text.value);
      && 0 < |r.value| <= MaxTtsLength
      && |r.value| == (if |t| <= MaxTtsLength then |t| else MaxTtsLength)
      && r.value == t[..|r.value|]
      && !IsSpace(r.value[0])
  {
    if !Truthy(text) || Trim(text.value) == "" then None
    else Some(Prefix(Trim(text.value), MaxTtsLength))
  }

  /** What the ElevenLabs request produced: a response with its status and (on 200) the audio
      stream, or a request error with its message. */
  datatype Upstream = Answered(status: nat, audio: string) | RequestFailed(message: string)

  /** The TTS route. Status 200 streams the audio back; any other upstream status is passed on
      with `ElevenLabs error <status>`; a failed request is a 500. */
  function Tts(header: Field, verify: string -> bool, text: Field, configured: bool, elevenLabs: string -> Upstream): (r: Response<string>)
    ensures RequireAuth(header, verify).Reject? ==>
      r == Reject(RequireAuth(header, verify).status, RequireAuth(header, verify).error) && r.status in {401, 403}
    ensures RequireAuth(header, verify).Reply? ==>
      && (TtsText(text).None? ==> r == Reject(400, NoText))
      && (TtsText(text).Some? && !configured ==> r == Reject(503, TtsNotConfigured))
      && (TtsText(text).Some? && configured ==> match elevenLabs(TtsText(text).value)
            case Answered(status, audio) =>
              if status == 200 then r == Reply(audio)
              else r == Reject(status, "ElevenLabs error " + NatToString(status))
            case RequestFailed(m) => r == Reject(500, "TTS request failed: " + m))
    ensures r.Reply? ==> exists t :: TtsText(text) == Some(t) && elevenLabs(t) == Answered(200, r.body)
  {
    var auth := RequireAuth(header, verify);
    if auth.Reject? then Refused(auth)
    else
      match TtsText(text)
      case None => Reject(400, NoText)
      case Some(t) =>
        if !configured then Reject(503, TtsNotConfigured)
        else
          match elevenLabs(t)
          case Answered(status, audio) =>
            if status == 200 then Reply(audio)
            else Reject(status, "ElevenLabs error " + NatToString(status))
          case RequestFailed(m) => Reject(500, "TTS request failed: " + m)
  }

  // ---------------------------------------------------------------------------
  // POST /api/chat

  const InvalidBody := "Invalid request body"
  const NoApiKey := "Anthropic API key not configured"
  const ContractFieldsRequired := "contractType and contractDetails are required"
  const ResearchFieldsRequired := "legalIssue and researchQuery are required"
  const OpinionFieldsRequired := "opinionTopic and opinionQuery are required"
  const InvalidMode := "Invalid mode. Must be contract, research, or opinion."
  const DefaultJurisdiction := "All Indian Courts"
  const DefaultLaws := "Relevant Indian laws"
  const InternalError := "Internal server error"

  /** The mode dispatch of `/api/chat`: each mode requires both of its fields, fills the optional
      one with its default, and every other mode is refused. */
  function Prompt(body: ChatBody): (r: Response<PromptSpec>)
    ensures r.Reject? ==> r.status == 400
    ensures !(body.mode == Some(ContractMode) || body.mode == Some(ResearchMode) || body.mode == Some(OpinionMode))
        ==> r == Reject(400, InvalidMode)
    ensures body.mode == Some(ContractMode) ==>
      if Truthy(body.contractType) && Truthy(body.contractDetails)
      then r == Reply(ContractPrompt(body.contractType.value, body.contractDetails.value))
      else r == Reject(400, ContractFieldsRequired)
    ensures body.mode == Some(ResearchMode) ==>
      if Truthy(body.legalIssue) && Truthy(body.researchQuery)
      then r == Reply(ResearchPrompt(body.legalIssue.value, body.researchQuery.value, Or(body.jurisdiction, DefaultJurisdiction)))
      else r == Reject(400, ResearchFieldsRequired)
    ensures body.mode == Some(OpinionMode) ==>
      if Truthy(body.opinionTopic) && Truthy(body.opinionQuery)
      then r == Reply(OpinionPrompt(body.opinionTopic.value, body.opinionQuery.value, Or(body.applicableLaws, DefaultLaws)))
      else r == Reject(400, OpinionFieldsRequired)
  {
    if body.mode == Some(ContractMode) then
      if !Truthy(body.contractType) || !Truthy(body.contractDetails) then Reject(400, ContractFieldsRequired)
      else Reply(ContractPrompt(body.contractType.value, body.contractDetails.value))
    else if body.mode == Some(ResearchMode) then
      if !Truthy(body.legalIssue) || !Truthy(body.researchQuery) then Reject(400, ResearchFieldsRequired)
      else Reply(ResearchPrompt(body.legalIssue.value, body.researchQuery.value, Or(body.jurisdiction, DefaultJurisdiction)))
    else if body.mode == Some(OpinionMode) then
      if !Truthy(body.opinionTopic) || !Truthy(body.opinionQuery) then Reject(400, OpinionFieldsRequired)
      else Reply(OpinionPrompt(body.opinionTopic.value, body.opinionQuery.value, Or(body.applicableLaws, DefaultLaws)))
    else Reject(400, InvalidMode)
  }

  /** The interpolated fields of an accepted prompt are never empty: the required ones were
      checked and the optional one has a non-empty default. */
  lemma PromptFieldsPresent(body: ChatBody)
    requires Prompt(body).Reply?
    ensures match Prompt(body).body
      case ContractPrompt(t, d) => t != "" && d != ""
      case ResearchPrompt(i, q, j) => i != "" && q != "" && j != ""
      case OpinionPrompt(t, q, l) => t != "" && q != "" && l != ""
  {
  }

  /** The generate route (`body` is `None` when the request body is not a JSON object). The body
      check and the key check come before the mode dispatch, so without a key even an invalid
      mode is a 500. */
  function Chat(header: Field, verify: string -> bool, body: Option<ChatBody>, keyConfigured: bool,
                llm: PromptSpec -> Completion, documentId: string): (r: Response<Generated>)
    ensures RequireAuth(header, verify).Reject? ==>
      r == Reject(RequireAuth(header, verify).status, RequireAuth(header, verify).error) && r.status in {401, 403}
    ensures RequireAuth(header, verify).Reply? ==>
      && (body.None? ==> r == Reject(400, InvalidBody))
      && (body.Some? && !keyConfigured ==> r == Reject(500, NoApiKey))
      && (body.Some? && keyConfigured ==> (r.Reject? && r.status == 400 <==> Prompt(body.value).Reject?))
    ensures r.Reply? ==>
      && RequireAuth(header, verify).Reply? && body.Some? && keyConfigured && Prompt(body.value).Reply?
      && llm(Prompt(body.value).body) == Completed(r.body.output) && r.body.documentId == documentId
    ensures RequireAuth(header, verify).Reply? && body.Some? && keyConfigured ==>
      && (Prompt(body.value).Reject? ==> r == Reject(400, Prompt(body.value).error))
      && (Prompt(body.value).Reply? ==> match llm(Prompt(body.value).body)
            case Completed(text) => r == Reply(Generated(documentId, text))
            case Failed(m) => r == Reject(500, Or(m, InternalError)))
  {
    var auth := RequireAuth(header, verify);
    if auth.Reject? then Refused(auth)
    else if body.None? then Reject(400, InvalidBody)
    else if !keyConfigured then Reject(500, NoApiKey)
    else
      var p := Prompt(body.value);
      if p.Reject? then Reject(p.status, p.error)
      else
        match llm(p.body)
        case Completed(text) => Reply(Generated(documentId, text))
        case Failed(m) => Reject(500, Or(m, InternalError))
  }

  // ---------------------------------------------------------------------------
  // POST /api/chat-assistant

  const NoMessage := "No message provided"
  const MaxHistory := 10

  /** The `modeLabel` lookup: the name of a known mode, `Legal Document` otherwise. */
  function ModeLabel(mode: Field): (name: string)
    ensures mode == Some(ContractMode) ==> name == "Legal Contract"
    ensures mode == Some(ResearchMode) ==> name == "Case Law Research"
    ensures mode == Some(OpinionMode) ==> name == "Legal Opinion"
    ensures !(mode.Some? && IsKnownMode(mode.value)) ==> name == "Legal Document"
  {
    if mode == Some(ContractMode) then "Legal Contract"
    else if mode == Some(ResearchMode) then "Case Law Research"
    else if mode == Some(OpinionMode) then "Legal Opinion"
    else "Legal Document"
  }

  /** The parts of the system prompt: the fixed persona, then the document section when a
      context with content was sent. */
  datatype PromptPart = Persona | DocumentSection(kind: string, content: string)

  function SystemPromptOf(context: Option<DocContext>): (parts: seq<PromptPart>)
    ensures 1 <= |parts| <= 2 && parts[0] == Persona
    ensures |parts| == 2 <==> context.Some? && Truthy(context.value.content)
    ensures |parts| == 2 ==> parts[1] == DocumentSection(ModeLabel(context.value.mode), context.value.content.value)
  {
    if context.Some? && Truthy(context.value.content)
    then [Persona, DocumentSection(ModeLabel(context.value.mode), context.value.content.value)]
    else [Persona]
  }

  /** `let systemPrompt = ...; if (...) systemPrompt += ...` */
  method SystemPrompt(context: Option<DocContext>) returns (parts: seq<PromptPart>)
    ensures parts == SystemPromptOf(context)
  {
    parts := [Persona];
    if context.Some? && Truthy(context.value.content) {
      var name := ModeLabel(context.value.mode);
      parts := parts + [DocumentSection(name, context.value.content.value)];
    }
  }

  /** `.filter(m => m.role === 'user' || m.role === 'assistant')` */
  function ChatRoles(h: seq<Turn>): (r: seq<Turn>)
    ensures forall i :: 0 <= i < |r| ==> IsChatRole(r[i])
    ensures |r| <= |h|
  {
    if h == [] then [] else (if IsChatRole(h[0]) then [h[0]] else []) + ChatRoles(h[1..])
  }

  /** The filter keeps the order of the turns it keeps... */
  lemma {:induction false} ChatRolesOrder(h: seq<Turn>)
    ensures IsSubsequence(ChatRoles(h), h)
    decreases |h|
  {
    if h != [] {
      ChatRolesOrder(h[1..]);
      assert h == [h[0]] + h[1..];
      if IsChatRole(h[0]) {
        assert ChatRoles(h) == [h[0]] + ChatRoles(h[1..]);
        SubsequenceCons(h[0], ChatRoles(h[1..]), h[1..]);
      } else {
        assert ChatRoles(h) == ChatRoles(h[1..]);
        SubsequenceDrop(h[0], ChatRoles(h[1..]), h[1..]);
      }
    }
  }

  /** ...drops only turns of other roles... */
  lemma {:induction false} ChatRolesKeeps(h: seq<Turn>, t: Turn)
    requires t in h && IsChatRole(t)
    ensures t in ChatRoles(h)
    decreases |h|
  {
    if h[0] != t {
      assert t in h[1..];
      ChatRolesKeeps(h[1..], t);
    }
  }

  /** ...keeping each of them as often as it occurs... */
  lemma {:induction false} ChatRolesCounts(h: seq<Turn>)
    ensures forall t :: IsChatRole(t) ==> multiset(ChatRoles(h))[t] == multiset(h)[t]
    decreases |h|
  {
    if h != [] {
      ChatRolesCounts(h[1..]);
      assert h == [h[0]] + h[1..];
      assert ChatRoles(h) == (if IsChatRole(h[0]) then [h[0]] else []) + ChatRoles(h[1..]);
    }
  }

  /** ...and leaves a history of user and assistant turns unchanged. */
  lemma {:induction false} ChatRolesOfChat(h: seq<Turn>)
    requires forall i :: 0 <= i < |h| ==> IsChatRole(h[i])
    ensures ChatRoles(h) == h
    decreases |h|
  {
    if h != [] {
      ChatRolesOfChat(h[1..]);
      assert h == [h[0]] + h[1..];
    }
  }

  /** The messages sent to the model: the last ten user or assistant turns of the history (an
      absent history counting as empty), then the trimmed current message as a user turn. */
  function History(history: Option<seq<Turn>>, message: string): (msgs: seq<Turn>)
    ensures var kept := ChatRoles(if history.Some? then history.value else []);
      && 1 <= |msgs| <= MaxHistory + 1
      && msgs[|msgs| - 1] == Turn("user", Trim(message))
      && msgs[..|msgs| - 1] == Last(kept, MaxHistory)
      && (forall i :: 0 <= i < |msgs| ==> IsChatRole(msgs[i]))
  {
    var kept := ChatRoles(if history.Some? then history.value else []);
    Last(kept, MaxHistory) + [Turn("user", Trim(message))]
  }

  /** `validHistory` built by filter, slice and map, then extended by `push`. */
  method Messages(history: Option<seq<Turn>>, message: string) returns (msgs: seq<Turn>)
    ensures msgs == History(history, message)
  {
    var all := if history.Some? then history.value else [];
    msgs := ChatRoles(all);
    msgs := Last(msgs, MaxHistory);
    msgs := msgs + [Turn("user", Trim(message))];
  }

  /** The chat-assistant route: 400 for a missing or blank message, 500 without a key, otherwise
      the model's reply to the system prompt and message list built above. */
  method Assistant(header: Field, verify: string -> bool, body: AssistantBody, keyConfigured: bool,
                   llm: (seq<PromptPart>, seq<Turn>) -> Completion) returns (r: Response<string>)
    ensures RequireAuth(header, verify).Reject? ==>
      r == Reject(RequireAuth(header, verify).status, RequireAuth(header, verify).error) && r.status in {401, 403}
    ensures RequireAuth(header, verify).Reply? ==>
      && (!Truthy(body.message) || Blank(body.message.value) ==> r == Reject(400, NoMessage))
      && (Truthy(body.message) && !Blank(body.message.value) ==>
            if !keyConfigured then r == Reject(500, NoApiKey)
            else match llm(SystemPromptOf(body.documentContext), History(body.history, body.message.value))
              case Completed(reply) => r == Reply(reply)
              case Failed(m) => r == Reject(500, Or(m, InternalError)))
  {
    var auth := RequireAuth(header, verify);
    if auth.Reject? {
      return Refused(auth);
    }
    if !Truthy(body.message) || Trim(body.message.value) == "" {
      return Reject(400, NoMessage);
    }
    if !keyConfigured {
      return Reject(500, NoApiKey);
    }
    var system := SystemPrompt(body.documentContext);
    var msgs := Messages(body.history, body.message.value);
    match llm(system, msgs)
    case Completed(reply) => r := Reply(reply);
    case Failed(m) => r := Reject(500, Or(m, InternalError));
  }

  // ---------------------------------------------------------------------------
  // POST /api/download/pdf and /api/download/word

  const NoContent := "No content provided"

  /** Both download routes: 401/403 from `requireAuth`, 400 without content, otherwise the
      document laid out from the content (rendered as PDF or Word). */
  method Download(header: Field, verify: string -> bool, content: Field) returns (r: Response<seq<Block>>)
    ensures RequireAuth(header, verify).Reject? ==>
      r == Reject(RequireAuth(header, verify).status, RequireAuth(header, verify).error) && r.status in {401, 403}
    ensures RequireAuth(header, verify).Reply? && !Truthy(content) ==> r == Reject(400, NoContent)
    ensures RequireAuth(header, verify).Reply? && Truthy(content) ==> r == Reply(Blocks(content.value))
  {
    var auth := RequireAuth(header, verify);
    if auth.Reject? {
      return Refused(auth);
    }
    if !Truthy(content) {
      return Reject(400, NoContent);
    }
    var blocks := Layout(Lines(content.value));
    r := Reply(blocks);
  }
}
