/** The request rules of the older, unauthenticated server, server.js: login by exact email,
    document generation in which only the contract mode insists on its fields, and the two
    download routes. */
module RootServer {
  import opened Js
  import opened Wire
  import opened Users
  import opened DocumentExport

  // ---------------------------------------------------------------------------
  // POST /api/login

  const InvalidCredentials := "Invalid credentials"
  /** The start of the message bcrypt throws for a password that is not a string; the server has
      no handler of its own for it, so the framework answers 500. */
  const IllegalArguments := "Illegal arguments"

  /** The login route: the lookup compares the email exactly as sent. A missing email finds no
      user (401); a found user with a missing password makes bcrypt throw (500). */
  function Login(users: seq<User>, email: Field, password: Field, compare: (string, string) -> bool): (r: Response<User>)
    ensures r.Reply? ==>
      && email.Some? && password.Some? && r.body in users && r.body.email == email.value
      && compare(password.value, r.body.passwordHash)
    ensures (email.None? || forall u :: u in users ==> u.email != email.value) ==> r == Reject(401, InvalidCredentials)
    ensures r == Reject(500, IllegalArguments) <==> email.Some? && FindUser(users, email.value).Some? && password.None?
    ensures r.Reject? ==> r == Reject(401, InvalidCredentials) || r == Reject(500, IllegalArguments)
    ensures email.Some? && password.Some? && FindUser(users, email.value).Some?
        && compare(password.value, FindUser(users, email.value).value.passwordHash)
        ==> r == Reply(FindUser(users, email.value).value)
    ensures r.Reply? ==> email.Some? && FindUser(users, email.value) == Some(r.body)
  {
    var found := if email.Some? then FindUser(users, email.value) else None;
    match found
    case None => Reject(401, InvalidCredentials)
    case Some(u) =>
      if password.None? then Reject(500, IllegalArguments)
      else if compare(password.value, u.passwordHash) then Reply(u)
      else Reject(401, InvalidCredentials)
  }

  // ---------------------------------------------------------------------------
  // POST /api/chat

  const InvalidBody := "Invalid request body"
  const NoApiKey := "API key not configured. Please set ANTHROPIC_API_KEY in backend/.env"
  const ContractFieldsRequired := "contractType and contractDetails are required"
  const InvalidMode := "Invalid mode"
  const NotSpecified := "Not specified"
  const DefaultJurisdiction := "India"
  const DefaultLaws := "Relevant Indian laws"
  const InternalError := "Internal server error"

  /** The mode dispatch of this server: contract requires both of its fields; research and
      opinion accept anything, filling each missing field with its default; other modes are
      refused. */
  function Prompt(body: ChatBody): (r: Response<PromptSpec>)
    ensures r.Reject? ==> r.status == 400
    ensures !(body.mode == Some(ContractMode) || body.mode == Some(ResearchMode) || body.mode == Some(OpinionMode))
        ==> r == Reject(400, InvalidMode)
    ensures body.mode == Some(ContractMode) ==>
      if Truthy(body.contractType) && Truthy(body.contractDetails)
      then r == Reply(ContractPrompt(body.contractType.value, body.contractDetails.value))
      else r == Reject(400, ContractFieldsRequired)
    ensures body.mode == Some(ResearchMode) ==>
      r == Reply(ResearchPrompt(Or(body.legalIssue, NotSpecified), Or(body.researchQuery, NotSpecified),
                                Or(body.jurisdiction, DefaultJurisdiction)))
    ensures body.mode == Some(OpinionMode) ==>
      r == Reply(OpinionPrompt(Or(body.opinionTopic, NotSpecified), Or(body.opinionQuery, NotSpecified),
                               Or(body.applicableLaws, DefaultLaws)))
  {
    if body.mode == Some(ContractMode) then
      if !Truthy(body.contractType) || !Truthy(body.contractDetails) then Reject(400, ContractFieldsRequired)
      else Reply(ContractPrompt(body.contractType.value, body.contractDetails.value))
    else if body.mode == Some(ResearchMode) then
      Reply(ResearchPrompt(Or(body.legalIssue, NotSpecified), Or(body.researchQuery, NotSpecified),
                           Or(body.jurisdiction, DefaultJurisdiction)))
    else if body.mode == Some(OpinionMode) then
      Reply(OpinionPrompt(Or(body.opinionTopic, NotSpecified), Or(body.opinionQuery, NotSpecified),
                          Or(body.applicableLaws, DefaultLaws)))
    else Reject(400, InvalidMode)
  }

  /** Every field interpolated into an accepted prompt is non-empty. */
  lemma PromptFieldsPresent(body: ChatBody)
    requires Prompt(body).Reply?
    ensures match Prompt(body).body
      case ContractPrompt(t, d) => t != "" && d != ""
      case ResearchPrompt(i, q, j) => i != "" && q != "" && j != ""
      case OpinionPrompt(t, q, l) => t != "" && q != "" && l != ""
  {
  }

  /** The generate route: 400 for a non-object body, 500 without a key, then the mode dispatch
      and the model call. */
  function Chat(body: Option<ChatBody>, keyConfigured: bool, llm: PromptSpec -> Completion, documentId: string): (r: Response<Generated>)
    ensures body.None? ==> r == Reject(400, InvalidBody)
    ensures body.Some? && !keyConfigured ==> r == Reject(500, NoApiKey)
    ensures body.Some? && keyConfigured ==> (r.Reject? && r.status == 400 <==> Prompt(body.value).Reject?)
    ensures r.Reply? ==>
      && body.Some? && keyConfigured && Prompt(body.value).Reply?
      && llm(Prompt(body.value).body) == Completed(r.body.output) && r.body.documentId == documentId
    ensures body.Some? && keyConfigured ==>
      && (Prompt(body.value).Reject? ==> r == Reject(400, Prompt(body.value).error))
      && (Prompt(body.value).Reply? ==> match llm(Prompt(body.value).body)
            case Completed(text) => r == Reply(Generated(documentId, text))
            case Failed(m) => r == Reject(500, Or(m, InternalError)))
  {
    if body.None? then Reject(400, InvalidBody)
    else if !keyConfigured then Reject(500, NoApiKey)
    else
      var p := Prompt(body.value);
      if p.Reject? then Reject(p.status, p.error)
      else
        match llm(p.body)
        case Completed(text) => Reply(Generated(documentId, text))
        case Failed(m) => Reject(500, Or(m, InternalError))
  }

  // ---------------------------------------------------------------------------
  // POST /api/download/pdf and /api/download/word

  const NoContent := "No content provided"

  /** Both download routes: 400 without content, otherwise the laid-out document. */
  method Download(content: Field) returns (r: Response<seq<Block>>)
    ensures !Truthy(content) ==> r == Reject(400, NoContent)
    ensures Truthy(content) ==> r == Reply(Blocks(content.value))
  {
    if !Truthy(content) {
      return Reject(400, NoContent);
    }
    var blocks := Layout(Lines(content.value));
    r := Reply(blocks);
  }
}
