# Legal document assistant: request rules and client state in Dafny

This project models the core of a legal drafting web application for Indian law. A browser
client has a form with three modes: contract drafting, case-law research and legal opinion.
It sends the form to a server, which fills a prompt template and asks a language model for the
document. The client shows the result, offers it as a PDF or Word download, and feeds it to a
chat assistant panel that holds a conversation about it and can read replies aloud.

The model covers:

- **Authenticated server** (backend/server.js):
  - the bearer-token check;
  - login with a normalised email;
  - the text-to-speech proxy;
  - the generate route with its per-mode validation and defaults;
  - the chat-assistant route with its system prompt and history filtering;
  - the two download routes, through the shared line preprocessing and block layout.
- **Older, unauthenticated server** (server.js): exact-match login, a generate route with
  looser validation, and the same download layout.
- **Prompt helpers** (legal-ai-2-tool/js/prompts.js): `sanitizeInput` and `validateInputs`.
- **Form object** (js/ui.js): a class with the selected mode, the form, the result area, the
  loading and error indicators and the download buttons. Each method states its whole new
  state as a function of the old one. The same holds for the chat assistant below.
- **Chat assistant panel** (js/chat.js): a class with the open flag, the in-flight flag, the
  history, the document context and the current mode. Its asynchronous `sendMessage` is split
  into the part before the request and the part after the response.

Values the program gets from outside are parameters, so every operation is a function of them:

- the JWT check (`verify`) and the bcrypt comparison (`compare`);
- the language model (`llm`) and the ElevenLabs request (`elevenLabs`);
- the random document id and the client's API call (`api`);
- the locale, and whether each API key is configured.

JavaScript behaviour the code relies on is modelled exactly:

- truthiness, `trim` with the full ECMAScript whitespace set, `split`/`join` on one character;
- `slice(-n)` on arrays, and `substring(0, n)` counted in characters (see `Js.Prefix` under "## Left out");
- the case-insensitive deletion pass of `replace(/javascript:/gi, '')`;
- the heading regex `^\d+(\.\d+)*\.`, which is proved equivalent to "digits, then a dot".

A thrown error is a `Result`/`Option` value carrying its message. An HTTP answer is `Reply(body)`
or `Reject(status, error)`.

The module `Agreement` relates the parts to each other:

- For the three known modes, the form refuses exactly what the authenticated server refuses.
- A mode the form does not know passes the form and is refused by that server.
- The older server accepts everything the authenticated one accepts, and more.
- The client's `Bearer` header authenticates exactly when its token verifies.
- Each chat message reaches the model twice. The client puts the new turn in the history it
  sends, and the server appends the message again.
- Only the authenticated server normalises login emails.

## Model

| member | source | states |
|---|---|---|
| Js.Trim | js/chat.js:224 | `trim`: the infix left after removing maximal leading and trailing ECMAScript whitespace; result trimmed; empty exactly for blank input |
| Js.TrimIdempotent | js/chat.js:224 | trimming twice is trimming once |
| Js.Split | backend/server.js:376 | `split('\n')`: never empty, pieces free of the separator |
| Js.JoinSplit | backend/server.js:376 | joining the pieces of a split with the separator gives the string back |
| Js.SplitJoin | backend/server.js:376 | splitting a join of separator-free pieces gives the pieces back |
| Js.Lower | backend/server.js:116 | `toLowerCase` on ASCII letters: same length, each unit lowered |
| Js.Prefix | backend/server.js:141 | `substring(0, n)`: the first `min(n, length)` characters |
| Js.Last | backend/server.js:494 | `slice(-n)`: the last `min(n, length)` elements |
| Js.NatToString | backend/server.js:176 | `String(status)`: at least one decimal digit, and a leading `0` only for zero |
| Js.NatToStringValue | backend/server.js:176 | the digits denote the number they were written from |
| Js.NatToStringInjective | backend/server.js:176 | different numbers are written differently |
| Prompts.StripAngles | legal-ai-2-tool/js/prompts.js:110 | no `<` or `>` remains; never longer; nothing is touched when none was there |
| Prompts.StripAnglesSubsequence | legal-ai-2-tool/js/prompts.js:110 | the result is a subsequence of the input |
| Prompts.StripAnglesCounts | legal-ai-2-tool/js/prompts.js:110 | every character other than `<` and `>` is kept as often as it occurs |
| Prompts.StripScheme | legal-ai-2-tool/js/prompts.js:111 | one left-to-right pass deleting non-overlapping case-insensitive `javascript:` matches; never longer |
| Prompts.StripSchemeSubsequence | legal-ai-2-tool/js/prompts.js:111 | the pass only deletes: its result is a subsequence of the input |
| Prompts.StripSchemeNoMatch | legal-ai-2-tool/js/prompts.js:111 | where no match starts anywhere the pass changes nothing |
| Prompts.KeepPrefix | legal-ai-2-tool/js/prompts.js:111 | where no match starts inside a prefix, the pass keeps that prefix whole and continues after it |
| Prompts.DropMatch | legal-ai-2-tool/js/prompts.js:111 | a match at the start is deleted and the pass resumes right after it |
| Prompts.StripSchemeExample | legal-ai-2-tool/js/prompts.js:111 | `javajavascript:script:` becomes `javascript:`: one pass can create a new match |
| Prompts.SanitizeInput | legal-ai-2-tool/js/prompts.js:106-112 | falsy input gives `''`; the result has no angle brackets and is a subsequence of the input |
| Prompts.SanitizeSteps | legal-ai-2-tool/js/prompts.js:106-112 | a truthy input goes through trim, then the angle pass, then the `javascript:` pass |
| Prompts.SanitizeTrimmed | legal-ai-2-tool/js/prompts.js:106-112 | on a trimmed input without angle brackets only the `javascript:` pass acts |
| Prompts.SanitizeNotIdempotent | legal-ai-2-tool/js/prompts.js:106-112 | sanitising a sanitised string can change it again |
| Prompts.SchemeSanitized | legal-ai-2-tool/js/prompts.js:106-112 | `javascript:` alone sanitises to the empty string |
| Prompts.SanitizeMayLeaveSpace | legal-ai-2-tool/js/prompts.js:106-112 | trimming comes first, so the result may start with whitespace (`< a` gives ` a`) |
| Prompts.ValidateInputs | legal-ai-2-tool/js/prompts.js:117-128 | each known mode is valid iff both of its fields are truthy; any other mode is invalid |
| Users.FindUser | backend/server.js:116 | `users.find`: `None` iff no entry has the email; otherwise the first entry that has it |
| Users.FindInTable | backend/server.js:48-55 | in the one-entry table only the administrator's exact address is found |
| DocumentExport.TrimAll | backend/server.js:376 | `map(l => l.trim())`: same length, each piece trimmed |
| DocumentExport.NonEmpty | backend/server.js:376 | `filter(Boolean)` on strings: no kept piece is empty |
| DocumentExport.NonEmptySubsequence | backend/server.js:376 | `filter(Boolean)` keeps a subsequence, in order |
| DocumentExport.NonEmptyOfNonEmpty | backend/server.js:376 | the filter changes nothing when no piece is empty |
| DocumentExport.NonEmptyKeeps | backend/server.js:376 | every non-empty piece survives the filter |
| DocumentExport.NonEmptyCounts | backend/server.js:376 | the filter keeps each non-empty piece as often as it occurs and drops every empty one |
| DocumentExport.NonEmptyFrom | backend/server.js:376 | everything that survives the filter was a piece |
| DocumentExport.Lines | backend/server.js:376 | split on `\n`, trim each piece, drop the empty ones; its properties are the lemmas below |
| DocumentExport.LinesWellFormed | backend/server.js:376 | every kept line is non-empty, trimmed and free of line breaks |
| DocumentExport.LinesInOrder | backend/server.js:376 | the kept lines are the trimmed source lines, in order, with some dropped |
| DocumentExport.LinesComplete | backend/server.js:376 | every source line that is not blank is kept, trimmed |
| DocumentExport.LinesCounts | backend/server.js:376 | each trimmed source line that is not empty is kept as often as it occurs, and nothing else appears |
| DocumentExport.NoLines | backend/server.js:376 | an example: empty content has no lines, so the title is `lines[0] === undefined` |
| DocumentExport.LinesEmptyIffBlank | backend/server.js:369-378 | content has no lines iff it is blank, and blank content lays out as an absent title and the disclaimer |
| DocumentExport.LinesOfJoined | server.js:457 | joining well-formed lines with `\n` and preprocessing gives the lines back |
| DocumentExport.LeadingDigits | backend/server.js:382 | the length of the maximal run of leading ASCII digits |
| DocumentExport.DottedNumberStart | backend/server.js:382 | a match of `\d+(\.\d+)*` starts with digits followed by the end or a dot |
| DocumentExport.IsHeading | backend/server.js:382 | the heading test as the model evaluates it: leading digits, then a dot |
| DocumentExport.HeadingPattern | backend/server.js:382 | `/^\d+(\.\d+)*\./` matches a line iff the line starts with digits followed by a dot |
| DocumentExport.Classify | backend/server.js:381-387 | a later line is a heading exactly when the heading test matches, otherwise a paragraph, with its text unchanged |
| DocumentExport.Head | backend/server.js:378 | `lines[0]`: absent exactly when no line was kept, otherwise the first line |
| DocumentExport.Body | backend/server.js:381-387 | every line after the first is classified as heading or paragraph, in order |
| DocumentExport.Document | backend/server.js:378-392 | for kept lines, the document is the title (`lines[0]`, possibly absent), each later line classified, then the disclaimer: one entry per line plus one |
| DocumentExport.Blocks | backend/server.js:376-392 | the same for the lines kept from `content` |
| DocumentExport.Layout | server.js:458-497 | the loop pushing title, body paragraphs and disclaimer over the kept lines produces exactly `Document(lines)` |
| BackendServer.BearerToken | backend/server.js:82-83 | the second space-separated field of the header; never contains a space; absent without a header |
| BackendServer.RequireAuth | backend/server.js:81-93 | passes iff a token is present and verifies; 401 `Authentication required` without a token, 403 `Invalid or expired token` otherwise |
| BackendServer.BearerTokenOf | backend/server.js:83 | `<scheme> <token> ...` yields exactly `<token>` |
| BackendServer.NoSecondField | backend/server.js:83-85 | a header without a space, and a missing header, give 401 |
| BackendServer.NormalizeEmail | backend/server.js:116 | `toLowerCase().trim()`: trimmed, no upper-case ASCII letter |
| BackendServer.NormalizeIdempotent | backend/server.js:116 | normalising twice is normalising once |
| BackendServer.Login | backend/server.js:110-125 | 400 iff email or password is falsy; a reply is a user of the table whose email is the normalised one and whose hash matches, and it is always the first user found by the normalised email; that user is the reply exactly when its hash matches, otherwise 401 |
| BackendServer.LoginNormalizes | backend/server.js:116 | an address and its normal form log in alike |
| BackendServer.AdminLogin | backend/server.js:48-55 | any spelling that normalises to the administrator's address logs in exactly with the matching password |
| BackendServer.TtsText | backend/server.js:134-141 | `None` for missing or blank text; otherwise the first 4900 units of the trimmed text, non-empty and not starting with whitespace |
| BackendServer.Tts | backend/server.js:131-196 | an auth refusal is `RequireAuth`'s own status (401 or 403) and message, 400 `No text provided`, 503 when unconfigured, the audio on upstream 200, the upstream status with `ElevenLabs error <status>` otherwise, 500 `TTS request failed: <message>` on a request error |
| BackendServer.Prompt | backend/server.js:215-338 | each mode requires both of its fields (400 with its message) and fills the optional one with its default; every other mode is a 400 |
| BackendServer.PromptFieldsPresent | backend/server.js:215-338 | every field interpolated into an accepted prompt is non-empty |
| BackendServer.Chat | backend/server.js:202-362 | an auth refusal is `RequireAuth`'s own status (401 or 403) and message, then 400 for a non-object body, then 500 without a key (whatever the mode), then the mode's 400 with its message; an accepted prompt gives the model's text with the given document id, or 500 with the model's error message (`Internal server error` when it has none) |
| BackendServer.ModeLabel | backend/server.js:473-477 | the name of each known mode, `Legal Document` otherwise |
| BackendServer.SystemPromptOf | backend/server.js:454-488 | the persona, plus the document section iff a context with truthy content was sent |
| BackendServer.SystemPrompt | backend/server.js:454-488 | the string-building code produces exactly `SystemPromptOf` |
| BackendServer.ChatRoles | backend/server.js:493 | the filter keeps only user and assistant turns |
| BackendServer.ChatRolesOrder | backend/server.js:493 | the filter keeps the order of the turns it keeps |
| BackendServer.ChatRolesKeeps | backend/server.js:493 | every user or assistant turn is kept |
| BackendServer.ChatRolesCounts | backend/server.js:493 | every user or assistant turn is kept as often as it occurs |
| BackendServer.ChatRolesOfChat | backend/server.js:493 | a history of chat turns passes unchanged |
| BackendServer.History | backend/server.js:492-504 | the last ten chat turns of the history, then the trimmed message as a user turn; 1 to 11 messages, all chat roles |
| BackendServer.Messages | backend/server.js:492-504 | filter, slice and push produce exactly `History` |
| BackendServer.Assistant | backend/server.js:443-524 | an auth refusal is `RequireAuth`'s own status (401 or 403) and message, 400 for a missing or blank message, 500 without a key, else the model's reply to `SystemPromptOf` and `History` (500 with its message on failure) |
| BackendServer.Download | backend/server.js:367-396 | an auth refusal is `RequireAuth`'s own status (401 or 403) and message, 400 without content, otherwise `Blocks(content)` |
| RootServer.Login | server.js:64-85 | the email must match exactly; no match is 401; a match with a missing password is a 500 from bcrypt; a reply is always the first user found by the exact email, and that user is the reply exactly when its hash matches |
| RootServer.Prompt | server.js:113-285 | contract requires both fields; research and opinion accept anything and fill each missing field with its placeholder or default; other modes 400 `Invalid mode` |
| RootServer.PromptFieldsPresent | server.js:287-292 | every field interpolated into an accepted prompt is non-empty |
| RootServer.Chat | server.js:90-334 | 400 for a non-object body, 500 without a key, the mode's 400 with its message; an accepted prompt gives the model's text with the given document id, or 500 with the model's error message (`Internal server error` when it has none) |
| RootServer.Download | server.js:384-447 | 400 without content, otherwise `Blocks(content)` |
| ChatAssistant.SuggestionsFor | js/chat.js:119-121 | the list of the context's mode, the default list without a context or for another mode |
| ChatAssistant.SpeechText | js/chat.js:297-314 | `None` for missing or blank text; else the first 1500 units of the trimmed text, non-empty and not starting with whitespace |
| ChatAssistant.FallbackSpeech | js/chat.js:370 | the first 500 units of the untrimmed text |
| ChatAssistant.ErrorNotice | js/chat.js:285 | the notice shown for a failed send: the message inside `Sorry, I encountered an error: ` and `. Please try again.` |
| ChatAssistant.Rendered | js/chat.js:117-147 | `renderEmptyState` on the whole state: the panel is emptied and shows the suggestions of the context, nothing else changes |
| ChatAssistant.RefreshIfEmpty | js/chat.js:104 | the empty state is redrawn only while the history is empty |
| ChatAssistant.WithDocument | js/chat.js:95-105 | the context becomes the mode with the first 3000 units of the document, the current mode follows it, an empty conversation is redrawn; nothing else changes |
| ChatAssistant.AddMessage | js/chat.js:149-202 | `addMessage` on the whole state: the empty state and the chips go and the message is appended to the panel; the history is untouched |
| ChatAssistant.Settled | js/chat.js:258-289 | the state after each outcome of a send: 401/403 the session notice, another failure the error notice with the body's `error` or `Error <status>`, an aborted request nothing, a success the reply shown and appended to the history as an assistant turn |
| ChatAssistant.SettledHistory | js/chat.js:258-279 | only a successful reply adds to the history, and it adds one assistant turn |
| ChatAssistant.Assistant.constructor | js/chat.js:14-18 | closed, idle, empty history, no context, no mode |
| ChatAssistant.Assistant.RenderEmptyState | js/chat.js:117-147 | the panel is emptied and shows the suggestions for the context |
| ChatAssistant.Assistant.Open | js/chat.js:66-75 | opens; suggestions shown when the history is empty; nothing else changes |
| ChatAssistant.Assistant.Close | js/chat.js:77-84 | closes; nothing else changes |
| ChatAssistant.Assistant.Toggle | js/chat.js:86-88 | closes an open panel, opens a closed one |
| ChatAssistant.Assistant.SetDocumentContext | js/chat.js:95-105 | the whole new state is `WithDocument` of the old one |
| ChatAssistant.Assistant.ClearContext | js/chat.js:107-111 | drops the context, and redraws the empty state when the conversation is empty; nothing else changes |
| ChatAssistant.Assistant.ClearConversation | js/chat.js:453-456 | empties the history and shows the suggestions |
| ChatAssistant.Assistant.ShowTrigger | js/chat.js:462-468 | the suggestions come back when the conversation is empty |
| ChatAssistant.Assistant.HideTrigger | js/chat.js:470-477 | drops history and context and closes the panel |
| ChatAssistant.Assistant.OnModeChange | js/chat.js:479-481 | sets the current mode and nothing else |
| ChatAssistant.Assistant.BeginSend | js/chat.js:223-253 | nothing for a blank input, a request in flight or no token; else clears the input, records the user turn, marks the send in flight and sends the last ten turns with a `Bearer` header |
| ChatAssistant.Assistant.FinishSend | js/chat.js:258-290 | 401/403 show the session notice, other failures an error notice (none when aborted), success shows and records the reply and speaks `SpeechText(reply)`; the in-flight flag is cleared |
| ChatAssistant.Assistant.SendMessage | js/chat.js:223-291 | a send starts iff the input is not blank, nothing is in flight and a token exists; it then sends the request `BeginSend` builds, and the whole new state is `Settled` of the state after the user turn, with nothing in flight; the history gains the user turn, and the assistant turn only on success; the text spoken is that of `FinishSend` |
| FormUi.TitlesFor | js/config.js:58-74 | titles exist exactly for the three modes |
| FormUi.Collected | js/ui.js:103-123 | the inputs copied for a mode are exactly that mode's fields, with the form's values |
| FormUi.FormInputs | js/ui.js:97-127 | no mode throws `Please select a legal service mode`; each known mode throws its message unless both main inputs are non-empty; an unknown mode passes with no fields |
| FormUi.RequestBody | js/api.js:26 | the body the server reads from `JSON.stringify(inputs)`: the mode and each collected field under its name, absent names absent |
| FormUi.Busy | js/ui.js:273-278 | `showLoading`: spinner shown, generate button disabled, result and error hidden, nothing else changes |
| FormUi.Idle | js/ui.js:280-283 | `hideLoading`: spinner hidden, generate button enabled, nothing else changes |
| FormUi.ErrorShown | js/ui.js:285-288 | `showError`: the error shows `Error: ` followed by the message, nothing else changes |
| FormUi.ResultShown | js/ui.js:156-163 | the text is set first; without titles nothing else changes; otherwise the result is titled and shown, the error hidden and the existing download buttons enabled |
| FormUi.Shows | js/ui.js:142-146 | an answer is displayed when it has an output and the selected mode has titles |
| FormUi.Answered | js/ui.js:140-150 | a thrown error shows its message or `Failed to generate result`, an empty output `Empty response from AI service`; otherwise the id is kept and the output displayed, a throw of the display shown as an error |
| FormUi.AfterGenerate | js/ui.js:129-154 | invalid inputs show their message without a request; valid ones show the loading state and then the answer; the loading state ends hidden on both paths |
| FormUi.GenerateRefused | js/ui.js:129-138 | invalid inputs change only the error shown and the loading flags |
| FormUi.AnsweredOutcome | js/ui.js:140-150 | handling an answer keeps the form, mode, labels and loading state; a displayed answer brings its text, title, id and enabled download buttons; any other shows an error and leaves the result section and buttons as they were |
| FormUi.GenerateAnswered | js/ui.js:129-154 | a request ends with the spinner hidden and the button enabled; the result section shows exactly when the answer is displayed, the error exactly when it is not; only a displayed answer touches the id and the buttons |
| FormUi.GenerateError | js/ui.js:140-150 | the message each failed request shows: its own error or the generic one, the empty-response message, or the missing-title TypeError with the output in place |
| FormUi.Ui.constructor | js/ui.js:4-7 | every field stated: no mode selected, no document id, not initialised, nothing shown; the generate button, the download buttons and the form as the page has them |
| FormUi.Ui.Init | js/ui.js:9-65 | runs once: a second call changes nothing; the first marks the object initialised and disables the download buttons that exist, and changes nothing else; throws when attaching a handler to a missing button |
| FormUi.Ui.SelectMode | js/ui.js:67-95 | the mode is recorded (also as `CONFIG.currentMode`) before its titles are read, so an unknown mode stays selected although the call throws and nothing else changes; a known mode also sets the section title and the button text and sets the chat assistant's mode, and nothing else changes |
| FormUi.Ui.GetFormInputs | js/ui.js:97-127 | the field-by-field code produces exactly `FormInputs` |
| FormUi.Ui.ShowLoading | js/ui.js:273-278 | the whole new state is `Busy` of the old one |
| FormUi.Ui.HideLoading | js/ui.js:280-283 | the whole new state is `Idle` of the old one |
| FormUi.Ui.ShowError | js/ui.js:285-288 | the whole new state is `ErrorShown` of the old one |
| FormUi.Ui.ShowResult | js/ui.js:156-163 | the whole new state is `ResultShown` of the old one; throws exactly when the mode has no titles |
| FormUi.Ui.DisplayResult | js/ui.js:156-179 | the whole new state is `ResultShown` of the old one; it throws exactly when the mode has no titles, and otherwise the chat assistant's whole state becomes `WithDocument` of its old one |
| FormUi.Ui.ClearForm | js/ui.js:181-200 | the form is emptied, result and error hidden, the existing download buttons disabled; every other field, the result text and the error text among them, stays |
| FormUi.Ui.ShowAnswer | js/ui.js:145-150 | the id is kept and the output displayed; a throw of the display becomes the error notice; the chat assistant gets the document exactly when the mode has titles |
| FormUi.Ui.ShowOutcome | js/ui.js:140-150 | the whole new state is `Answered` of the old one; the chat assistant gets the document exactly when the answer is displayed and is untouched otherwise |
| FormUi.Ui.HandleGenerate | js/ui.js:129-154 | the whole new state is `AfterGenerate` of the old one; the chat assistant gets the document exactly when the answer is displayed and is untouched otherwise |
| Agreement.ValidationAgreesWithBackend | legal-ai-2-tool/js/prompts.js:117-128 | `validateInputs` accepts exactly the bodies the authenticated server's mode dispatch accepts |
| Agreement.FormAgreesWithBackend | js/ui.js:97-127 | for known modes the form and the server refuse the same inputs, and an accepted form yields the prompt of its own inputs |
| Agreement.UnknownModeReachesBackend | js/ui.js:97-127 | a mode without titles passes the form with no fields and is refused with 400 by the server |
| Agreement.BackendStricterThanRoot | server.js:113-285 | all the authenticated server accepts, the older one accepts, with the same prompt apart from the research default jurisdiction |
| Agreement.EmptyResearchDiffers | server.js:162-176 | a research request without fields gets placeholders from the older server and a 400 from the other |
| Agreement.ClientHeaderAuthenticates | js/chat.js:248 | the client's `Bearer <token>` header authenticates exactly when the token verifies |
| Agreement.ClientTurnSentTwice | js/chat.js:235-252 | the model receives the new user turn twice: once in the sent history, once appended by the server |
| Agreement.SpeechForwarded | js/chat.js:314 | the server forwards the trimmed spoken text whole; it is a non-empty prefix of what the client sent |
| Agreement.LoginAgreesOnNormalAddress | server.js:64-85 | for an address already in normal form both login routes answer alike |
| Agreement.LoginDiffersOnSpelling | server.js:67 | another spelling of the administrator's address fails on the older server and logs in on the other |

## Left out

- The `GET /api/download/*/:id` routes of server.js (server.js:335-381) are commented out. They read a `documents` map that server.js never declares, so there is no document registry to model.
- The literal text of every prompt template, and the whole persona text. Prompts are modelled by the values interpolated into them (`PromptSpec`, `PromptPart`).
- JWT signing and verification, and bcrypt hashing and comparison. They are oracles (`verify`, `compare`); token expiry and the issued token are not modelled.
- The language model, the ElevenLabs request, `crypto.randomUUID` and the client's `callClaudeAPI` (js/api.js, which is not part of this model). They are parameters.
- Network transport, CORS, JSON parsing, logging and the health route. A request body is either a record of optional strings or absent (not an object). Non-string JSON values in a field are not modelled.
- JavaScript property lookup on the prototype chain: `modeLabel[mode]`, `TITLES[mode]` and `SUGGESTIONS[mode]` for keys such as `constructor`.
- BackendServer.Tts: not modelled are the 300-character `detail` of an upstream error, which is the body of a stream, and a failure after the audio started streaming.
- BackendServer.NormalizeEmail: `toLowerCase` is modelled on ASCII letters only; other scripts are left unchanged.
- Prompts.ValidateInputs: returns the truthiness of the source's `&&` result rather than the value itself.
- RootServer.PromptFieldsPresent: proves only that the fields interpolated into an accepted prompt are non-empty. That the `Failed to construct prompt` check (server.js:287-292) never fires rests on the fixed text of each template, which is not modelled; `RootServer.Chat` therefore has no branch for that check.
- Js.Prefix: lengths count Unicode scalar values (Dafny's `char`), not UTF-16 code units. On text with characters outside the Basic Multilingual Plane, such as emoji, the cuts at 4900 (`BackendServer.TtsText`), 3000 (`ChatAssistant.WithDocument`), 1500 (`ChatAssistant.SpeechText`) and 500 (`ChatAssistant.FallbackSpeech`) keep more than `substring` does, and a cut that splits a surrogate pair cannot be represented.
- RootServer.Login: the 500 for a missing password carries the start of the bcrypt message (`Illegal arguments`), not the full text.
- FormUi: `CONFIG.getLocale` is not defined in js/config.js, so the locale is a parameter; where it would come from is not part of this model.
- FormUi.Ui.ClearForm: also empties every other text field of the page (such as the chat input). Only the form's own inputs are modelled.
- FormUi: `downloadDocument` (js/ui.js:213-271) is not modelled, although it changes the download buttons. It disables the clicked button for the download. After a non-ok response (js/ui.js:236) it returns with the button still disabled. After a success (js/ui.js:265) a 2-second timer enables the button again, even when `clearForm` has disabled it in the meantime. `FormUi.Ui.Valid` (an existing download button is enabled exactly when a result is displayed) therefore describes the page only while no download has been started.
- FormUi: copying to the clipboard, the voice module hooks, mode-card highlighting, field visibility, scrolling, the read-aloud button and the ElevenLabs badge are left out. They change parts of the page outside the fields the model keeps.
- ChatAssistant: speech recognition, audio playback and its abort controller, the typing indicator, the text of the context banner and input auto-resize are left out. `speakText` is modelled only by the text it sends (`SpeechText`, `FallbackSpeech`); its second token check is not modelled.
- ChatAssistant: the `alert` shown without a token is not modelled; the send simply does not start.
- The exact TypeError messages are those of V8 (`Cannot read properties of undefined (reading 'section')`). Other engines word them differently.
- The PDF and Word rendering (fonts, sizes, spacing) are not modelled. Both download routes are modelled by the block sequence they emit.
- `checkBrowserCompatibility` and js/app.js wiring are not part of this model.
