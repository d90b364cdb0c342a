/** How the pieces fit together: what the browser form lets through against what the
    authenticated server (backend/server.js) accepts, that server against the older one
    (server.js) and against `PromptBuilder.validateInputs`, and what the chat client sends
    against what the server makes of it. */
module Agreement {
  import opened Js
  import opened Wire
  import Prompts
  import Users
  import BackendServer
  import RootServer
  import ChatAssistant
  import FormUi

  // ---------------------------------------------------------------------------
  // The form, validateInputs and the two servers' mode dispatch

  /** An `inputs` object for `validateInputs` built from a request body. Nothing in the
      repository calls `validateInputs`, so this mapping is this model's own: `query` is taken
      to be the query of the body's mode. */
  function ValidationInputs(body: ChatBody): Prompts.PromptInputs {
    Prompts.PromptInputs(body.contractType, body.contractDetails, body.legalIssue,
                         if body.mode == Some(OpinionMode) then body.opinionQuery else body.researchQuery,
                         body.opinionTopic)
  }

  /** `validateInputs` accepts exactly the bodies the authenticated server's dispatch accepts. */
  lemma ValidationAgreesWithBackend(m: string, body: ChatBody)
    requires body.mode == Some(m)
    ensures Prompts.ValidateInputs(m, ValidationInputs(body)) <==> BackendServer.Prompt(body).Reply?
  {
  }

  /** The request body the form would send for a mode: its collected fields. */
  function FormBody(mode: string, form: FormUi.Form, locale: string): ChatBody {
    FormUi.RequestBody(FormUi.Inputs(mode, locale, FormUi.Collected(mode, form)))
  }

  /** For the three modes the form refuses exactly what the authenticated server refuses, and
      an accepted form yields the prompt built from the form's own inputs. */
  lemma FormAgreesWithBackend(mode: string, form: FormUi.Form, locale: string)
    requires IsKnownMode(mode)
    ensures FormUi.FormInputs(Some(mode), form, locale).Ok? <==> BackendServer.Prompt(FormBody(mode, form, locale)).Reply?
    ensures FormUi.FormInputs(Some(mode), form, locale).Ok? ==>
      BackendServer.Prompt(FormBody(mode, form, locale)) == Reply(
        if mode == ContractMode then ContractPrompt(form.contractType, form.contractDetails)
        else if mode == ResearchMode then
          ResearchPrompt(form.legalIssue, form.researchQuery,
                         if form.jurisdiction == "" then BackendServer.DefaultJurisdiction else form.jurisdiction)
        else OpinionPrompt(form.opinionTopic, form.opinionQuery,
                           if form.applicableLaws == "" then BackendServer.DefaultLaws else form.applicableLaws))
  {
  }

  /** A mode without titles passes the form with no fields and is refused by the server. */
  lemma UnknownModeReachesBackend(mode: string, form: FormUi.Form, locale: string)
    requires mode != "" && !IsKnownMode(mode)
    ensures FormUi.FormInputs(Some(mode), form, locale) == Ok(FormUi.Inputs(mode, locale, map[]))
    ensures BackendServer.Prompt(FormUi.RequestBody(FormUi.Inputs(mode, locale, map[]))) == Reject(400, BackendServer.InvalidMode)
  {
  }

  /** Whatever the authenticated server accepts the older one accepts too, with the same prompt
      except for the research default jurisdiction. */
  lemma BackendStricterThanRoot(body: ChatBody)
    requires BackendServer.Prompt(body).Reply?
    ensures RootServer.Prompt(body).Reply?
    ensures body.mode != Some(ResearchMode) ==> RootServer.Prompt(body) == BackendServer.Prompt(body)
    ensures body.mode == Some(ResearchMode) ==>
      RootServer.Prompt(body).body == BackendServer.Prompt(body).body.(jurisdiction := Or(body.jurisdiction, RootServer.DefaultJurisdiction))
  {
  }

  /** The converse fails: a research request without any field is answered by the older
      server with placeholders and refused by the authenticated one. */
  lemma EmptyResearchDiffers()
    ensures var body := ChatBody(Some(ResearchMode), None, None, None, None, None, None, None, None);
      && RootServer.Prompt(body) == Reply(ResearchPrompt(RootServer.NotSpecified, RootServer.NotSpecified, RootServer.DefaultJurisdiction))
      && BackendServer.Prompt(body) == Reject(400, BackendServer.ResearchFieldsRequired)
  {
  }

  // ---------------------------------------------------------------------------
  // The chat client against the authenticated server

  /** The header the chat client sends, `Bearer <token>`, authenticates exactly when the token
      verifies (a token never holds a space). */
  lemma ClientHeaderAuthenticates(token: string, verify: string -> bool)
    requires token != "" && ' ' !in token
    ensures BackendServer.RequireAuth(Some("Bearer " + token), verify)
         == if verify(token) then Reply(token) else Reject(403, BackendServer.InvalidToken)
  {
    BackendServer.BearerTokenOf("Bearer", token, "");
    assert "Bearer" + [' '] + token + "" == "Bearer " + token;
  }

  /** The client appends the user turn to its history before sending the last ten turns, and
      the server appends the message once more: the model receives the new turn twice. */
  lemma ClientTurnSentTwice(history: seq<Turn>, input: string)
    requires forall i :: 0 <= i < |history| ==> IsChatRole(history[i])
    ensures var text := Trim(input);
      var msgs := BackendServer.History(Some(Last(history + [Turn("user", text)], ChatAssistant.HistorySent)), text);
      && |msgs| >= 2
      && msgs[|msgs| - 2] == Turn("user", text) && msgs[|msgs| - 1] == Turn("user", text)
  {
    var text := Trim(input);
    TrimIdempotent(input);
    var h := history + [Turn("user", text)];
    var sent := Last(h, ChatAssistant.HistorySent);
    assert forall i :: 0 <= i < |sent| ==> sent[i] == h[|h| - |sent| + i];
    BackendServer.ChatRolesOfChat(sent);
    assert Last(sent, BackendServer.MaxHistory) == sent;
    assert sent[|sent| - 1] == Turn("user", text);
  }

  /** The text the chat client speaks is a non-blank prefix of the trimmed reply; the server
      trims it again (a cut may end in whitespace) and forwards all of what is left. */
  lemma SpeechForwarded(text: Field)
    requires ChatAssistant.SpeechText(text).Some?
    ensures var s := ChatAssistant.SpeechText(text).value;
      && BackendServer.TtsText(Some(s)) == Some(Trim(s))
      && Trim(s) != "" && Trim(s) == s[..|Trim(s)|]
  {
    var s := ChatAssistant.SpeechText(text).value;
    assert Leading(s) == 0;
    assert !Blank(s);
  }

  // ---------------------------------------------------------------------------
  // The two login routes

  /** For an address already in normal form both servers answer alike. */
  lemma LoginAgreesOnNormalAddress(users: seq<Users.User>, email: string, password: string,
                                   compare: (string, string) -> bool)
    requires email != "" && password != "" && BackendServer.NormalizeEmail(email) == email
    ensures RootServer.Login(users, Some(email), Some(password), compare)
         == BackendServer.Login(users, Some(email), Some(password), compare)
  {
  }

  /** Only the authenticated server normalises: any other spelling of the administrator's
      address (capitals, surrounding whitespace) is refused by the older server and logs in on
      the other one. */
  lemma LoginDiffersOnSpelling(adminHash: string, email: string, password: string,
                               compare: (string, string) -> bool)
    requires BackendServer.NormalizeEmail(email) == Users.AdminEmail && email != Users.AdminEmail
    requires password != "" && compare(password, adminHash)
    ensures RootServer.Login(Users.Table(adminHash), Some(email), Some(password), compare)
         == Reject(401, RootServer.InvalidCredentials)
    ensures BackendServer.Login(Users.Table(adminHash), Some(email), Some(password), compare)
         == Reply(Users.User(1, Users.AdminEmail, adminHash))
  {
    Users.FindInTable(adminHash, email);
    BackendServer.AdminLogin(adminHash, email, password, compare);
  }
}
