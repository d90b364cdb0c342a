/** The `UI` object of js/ui.js: the selected mode, the form, the result area, the loading and
    error indicators and the two download buttons, with the chat assistant it notifies. Every
    DOM element is assumed present except the download buttons, which the code itself tests for.
    A thrown error is returned as `Some(message)`. */
module FormUi {
  import opened Js
  import opened Wire
  import ChatAssistant

  const ModeNotSelected := "Please select a legal service mode"
  const ContractIncomplete := "Please select contract type and provide details"
  const ResearchIncomplete := "Please provide legal issue and research query"
  const OpinionIncomplete := "Please provide legal matter and detailed query"
  const ErrorPrefix := "Error: "
  const EmptyResponse := "Empty response from AI service"
  const GenerateFailed := "Failed to generate result"
  /** What the browser throws when `CONFIG.TITLES[mode]` is undefined. */
  const NoSectionTitle := "Cannot read properties of undefined (reading 'section')"
  const NoResultTitle := "Cannot read properties of undefined (reading 'result')"
  /** What the browser throws when a click handler is attached to a missing button. */
  const NoButton := "Cannot read properties of null (reading 'addEventListener')"

  /** The texts of `CONFIG.TITLES[mode]`. */
  datatype Titles = Titles(section: string, button: string, result: string)

  /** `CONFIG.TITLES[mode]`: defined for the three modes only. */
  function TitlesFor(mode: Field): (r: Option<Titles>)
    ensures r.Some? <==> mode.Some? && IsKnownMode(mode.value)
  {
    if mode == Some(ContractMode) then
      Some(Titles("\U{1F4DD} Contract Details", "Generate Contract", "\U{1F4DD} Contract Draft"))
    else if mode == Some(ResearchMode) then
      Some(Titles("\U{1F50D} Case Research Query", "Research Cases", "\U{1F50D} Case Research Results"))
    else if mode == Some(OpinionMode) then
      Some(Titles("\U{2696}\U{FE0F} Legal Opinion Request", "Generate Opinion", "\U{2696}\U{FE0F} Legal Opinion"))
    else None
  }

  /** The values of the form's inputs (a DOM input's value is always a string). */
  datatype Form = Form(
    contractType: string, contractDetails: string,
    legalIssue: string, researchQuery: string, jurisdiction: string,
    opinionTopic: string, opinionQuery: string, applicableLaws: string)

  const EmptyForm := Form("", "", "", "", "", "", "", "")

  /** The names under which each mode's inputs are sent. */
  function FieldNames(mode: string): set<string> {
    if mode == ContractMode then {"contractType", "contractDetails"}
    else if mode == ResearchMode then {"legalIssue", "researchQuery", "jurisdiction"}
    else if mode == OpinionMode then {"opinionTopic", "opinionQuery", "applicableLaws"}
    else {}
  }

  /** The form input sent under `name`. */
  function FormValue(form: Form, name: string): string {
    match name
    case "contractType" => form.contractType
    case "contractDetails" => form.contractDetails
    case "legalIssue" => form.legalIssue
    case "researchQuery" => form.researchQuery
    case "jurisdiction" => form.jurisdiction
    case "opinionTopic" => form.opinionTopic
    case "opinionQuery" => form.opinionQuery
    case "applicableLaws" => form.applicableLaws
    case _ => ""
  }

  /** The fields `getFormInputs` copies into `inputs` for a mode: its own inputs and no others. */
  function Collected(mode: string, form: Form): (fields: map<string, string>)
    ensures fields.Keys == FieldNames(mode)
    ensures forall name :: name in fields ==> fields[name] == FormValue(form, name)
  {
    if mode == ContractMode then
      map["contractType" := form.contractType, "contractDetails" := form.contractDetails]
    else if mode == ResearchMode then
      map["legalIssue" := form.legalIssue, "researchQuery" := form.researchQuery, "jurisdiction" := form.jurisdiction]
    else if mode == OpinionMode then
      map["opinionTopic" := form.opinionTopic, "opinionQuery" := form.opinionQuery, "applicableLaws" := form.applicableLaws]
    else map[]
  }

  /** The object `getFormInputs` returns. */
  datatype Inputs = Inputs(mode: string, locale: string, fields: map<string, string>)

  /** `getFormInputs` on the selected mode and the form: no mode is refused, each known mode
      requires its two main inputs (the third is optional), and any other mode passes with no
      fields at all. */
  function FormInputs(selected: Field, form: Form, locale: string): (r: Result<Inputs>)
    ensures !Truthy(selected) ==> r == Err(ModeNotSelected)
    ensures r.Ok? ==> Truthy(selected) && r.value == Inputs(selected.value, locale, Collected(selected.value, form))
    ensures selected == Some(ContractMode) ==>
      (r.Ok? <==> form.contractType != "" && form.contractDetails != "") && (r.Err? ==> r.message == ContractIncomplete)
    ensures selected == Some(ResearchMode) ==>
      (r.Ok? <==> form.legalIssue != "" && form.researchQuery != "") && (r.Err? ==> r.message == ResearchIncomplete)
    ensures selected == Some(OpinionMode) ==>
      (r.Ok? <==> form.opinionTopic != "" && form.opinionQuery != "") && (r.Err? ==> r.message == OpinionIncomplete)
    ensures Truthy(selected) && !IsKnownMode(selected.value) ==> r.Ok?
  {
    if !Truthy(selected) then Err(ModeNotSelected)
    else
      var mode := selected.value;
      if mode == ContractMode && (form.contractType == "" || form.contractDetails == "") then Err(ContractIncomplete)
      else if mode == ResearchMode && (form.legalIssue == "" || form.researchQuery == "") then Err(ResearchIncomplete)
      else if mode == OpinionMode && (form.opinionTopic == "" || form.opinionQuery == "") then Err(OpinionIncomplete)
      else Ok(Inputs(mode, locale, Collected(mode, form)))
  }

  /** The request body as the server reads it: `JSON.stringify(payload)`, absent names absent. */
  function RequestBody(inputs: Inputs): ChatBody {
    var f := inputs.fields;
    ChatBody(Some(inputs.mode),
             Get(f, "contractType"), Get(f, "contractDetails"),
             Get(f, "legalIssue"), Get(f, "researchQuery"), Get(f, "jurisdiction"),
             Get(f, "opinionTopic"), Get(f, "opinionQuery"), Get(f, "applicableLaws"))
  }

  /** What `callClaudeAPI` produced: the response's `documentId` and `output`, or the message of
      the error it threw. */
  datatype ApiResult = Answer(documentId: Field, output: Field) | ApiError(message: Field)

  /** A button's text and its `disabled` flag. */
  datatype Button = Button(text: string, disabled: bool)

  /** The result section: the text, its title and whether the section is shown. */
  datatype ResultArea = ResultArea(content: string, title: string, active: bool)

  /** The error message element: its text and whether it is shown. */
  datatype Notice = Notice(text: string, active: bool)

  /** A snapshot of every field of `UI` that the page shows or the code reads back. */
  datatype UiState = UiState(
    initialized: bool, selectedMode: Field, configMode: Field, currentDocumentId: Field,
    sectionTitle: string, generate: Button, form: Form, result: ResultArea,
    loading: bool, error: Notice, wordDisabled: bool, pdfDisabled: bool)

  /** `showLoading`: the spinner shows, the generate button is disabled, the result and the
      error are hidden. */
  function Busy(s: UiState): UiState {
    s.(loading := true, generate := s.generate.(disabled := true),
       result := s.result.(active := false), error := s.error.(active := false))
  }

  /** `hideLoading` */
  function Idle(s: UiState): UiState {
    s.(loading := false, generate := s.generate.(disabled := false))
  }

  /** `showError(message)` */
  function ErrorShown(s: UiState, message: string): UiState {
    s.(error := Notice(ErrorPrefix + message, true))
  }

  /** `displayResult(result)`: the text is set first; without titles for the selected mode the
      call throws there, otherwise the result is titled and shown, the error hidden and each
      download button that exists enabled. */
  function ResultShown(s: UiState, result: string, hasWordBtn: bool, hasPdfBtn: bool): UiState {
    var t := TitlesFor(s.selectedMode);
    if t.None? then s.(result := s.result.(content := result))
    else
      s.(result := ResultArea(result, t.value.result, true), error := s.error.(active := false),
         wordDisabled := s.wordDisabled && !hasWordBtn, pdfDisabled := s.pdfDisabled && !hasPdfBtn)
  }

  /** The answer is displayed: it has an output and the selected mode has titles. */
  predicate Shows(s: UiState, answer: ApiResult) {
    answer.Answer? && Truthy(answer.output) && TitlesFor(s.selectedMode).Some?
  }

  /** The `try`/`catch` of `handleGenerate` after the request: a thrown error shows its message
      (or the generic one), an answer without output the empty-response message, and otherwise
      the document id is kept and the output displayed, a throw of `displayResult` being shown
      as an error too. */
  function Answered(s: UiState, answer: ApiResult, hasWordBtn: bool, hasPdfBtn: bool): UiState {
    match answer
    case ApiError(m) => ErrorShown(s, Or(m, GenerateFailed))
    case Answer(id, output) =>
      if !Truthy(output) then ErrorShown(s, EmptyResponse)
      else
        var d := ResultShown(s.(currentDocumentId := id), output.value, hasWordBtn, hasPdfBtn);
        if TitlesFor(s.selectedMode).None? then ErrorShown(d, NoResultTitle) else d
  }

  /** `handleGenerate` with `api` standing for `callClaudeAPI`: invalid inputs show their
      message without a request, valid ones show the loading state and then the answer; the
      `finally` hides the loading state on both paths. */
  function AfterGenerate(s: UiState, locale: string, api: Inputs -> ApiResult, hasWordBtn: bool, hasPdfBtn: bool): UiState {
    var r := FormInputs(s.selectedMode, s.form, locale);
    if r.Err? then Idle(ErrorShown(s, r.message))
    else Idle(Answered(Busy(s), api(r.value), hasWordBtn, hasPdfBtn))
  }

  /** Invalid inputs change nothing but the error shown, without a request. */
  lemma GenerateRefused(s: UiState, locale: string, api: Inputs -> ApiResult, hasWordBtn: bool, hasPdfBtn: bool)
    requires FormInputs(s.selectedMode, s.form, locale).Err?
    ensures AfterGenerate(s, locale, api, hasWordBtn, hasPdfBtn)
      == s.(error := Notice(ErrorPrefix + FormInputs(s.selectedMode, s.form, locale).message, true),
            loading := false, generate := s.generate.(disabled := false))
  {
  }

  /** Handling an answer changes neither the form, the mode, the labels nor the loading state.
      A displayed answer brings its text, its title, its document id and enabled download
      buttons and hides the error; any other answer shows an error and leaves the result
      section and the download buttons as they were. */
  lemma AnsweredOutcome(s: UiState, a: ApiResult, hasWordBtn: bool, hasPdfBtn: bool)
    ensures var t := Answered(s, a, hasWordBtn, hasPdfBtn);
      && t.form == s.form && t.selectedMode == s.selectedMode && t.sectionTitle == s.sectionTitle
      && t.generate == s.generate && t.loading == s.loading && t.initialized == s.initialized
    ensures Shows(s, a) ==>
      var t := Answered(s, a, hasWordBtn, hasPdfBtn);
      && t.result == ResultArea(a.output.value, TitlesFor(s.selectedMode).value.result, true)
      && !t.error.active && t.currentDocumentId == a.documentId
      && (hasWordBtn ==> !t.wordDisabled) && (hasPdfBtn ==> !t.pdfDisabled)
    ensures !Shows(s, a) ==>
      var t := Answered(s, a, hasWordBtn, hasPdfBtn);
      && t.error.active && t.result.active == s.result.active
      && t.wordDisabled == s.wordDisabled && t.pdfDisabled == s.pdfDisabled
  {
    match a
    case ApiError(_) =>
    case Answer(id, output) =>
      if Truthy(output) {
        var d := ResultShown(s.(currentDocumentId := id), output.value, hasWordBtn, hasPdfBtn);
        if TitlesFor(s.selectedMode).None? {
          assert Answered(s, a, hasWordBtn, hasPdfBtn) == ErrorShown(d, NoResultTitle);
        } else {
          assert Answered(s, a, hasWordBtn, hasPdfBtn) == d;
        }
      }
  }

  /** A request leaves the form, the mode and the labels alone and ends with the spinner hidden
      and the button enabled; the result section is shown exactly when the answer is displayed,
      and the error exactly when it is not, and only a displayed answer touches the document id
      and the download buttons. */
  lemma GenerateAnswered(s: UiState, locale: string, api: Inputs -> ApiResult, hasWordBtn: bool, hasPdfBtn: bool)
    requires FormInputs(s.selectedMode, s.form, locale).Ok?
    ensures var a := api(FormInputs(s.selectedMode, s.form, locale).value);
      var t := AfterGenerate(s, locale, api, hasWordBtn, hasPdfBtn);
      && !t.loading && !t.generate.disabled && t.generate.text == s.generate.text
      && t.form == s.form && t.selectedMode == s.selectedMode && t.sectionTitle == s.sectionTitle
      && (t.result.active <==> Shows(s, a)) && (t.error.active <==> !Shows(s, a))
      && (Shows(s, a) ==>
            && t.result == ResultArea(a.output.value, TitlesFor(s.selectedMode).value.result, true)
            && t.currentDocumentId == a.documentId
            && (hasWordBtn ==> !t.wordDisabled) && (hasPdfBtn ==> !t.pdfDisabled))
      && (!Shows(s, a) ==> t.wordDisabled == s.wordDisabled && t.pdfDisabled == s.pdfDisabled)
  {
    var a := api(FormInputs(s.selectedMode, s.form, locale).value);
    AnsweredOutcome(Busy(s), a, hasWordBtn, hasPdfBtn);
  }

  /** The error a failed request shows, for each way it fails. */
  lemma GenerateError(s: UiState, locale: string, api: Inputs -> ApiResult, hasWordBtn: bool, hasPdfBtn: bool)
    requires FormInputs(s.selectedMode, s.form, locale).Ok?
    ensures var a := api(FormInputs(s.selectedMode, s.form, locale).value);
      var t := AfterGenerate(s, locale, api, hasWordBtn, hasPdfBtn);
      && (a.ApiError? ==> t.error.text == ErrorPrefix + Or(a.message, GenerateFailed))
      && (a.Answer? && !Truthy(a.output) ==> t.error.text == ErrorPrefix + EmptyResponse)
      && (a.Answer? && Truthy(a.output) && TitlesFor(s.selectedMode).None? ==>
            t.error.text == ErrorPrefix + NoResultTitle && t.result.content == a.output.value)
  {
  }

  class Ui {
    var initialized: bool
    var selectedMode: Field
    /** `CONFIG.currentMode` */
    var configMode: Field
    var currentDocumentId: Field
    var sectionTitle: string
    /** The generate button. */
    var generate: Button
    var form: Form
    var result: ResultArea
    /** The loading spinner is shown. */
    var loading: bool
    var error: Notice
    var wordDisabled: bool
    var pdfDisabled: bool
    const hasWordBtn: bool
    const hasPdfBtn: bool
    /** `window.ChatAssistant`, when the chat module is loaded. */
    const chat: ChatAssistant.Assistant?
    /** A result has been displayed since the last `init` or `clearForm`. */
    ghost var displayed: bool

    function Snapshot(): UiState
      reads this
    {
      UiState(initialized, selectedMode, configMode, currentDocumentId, sectionTitle, generate, form, result,
              loading, error, wordDisabled, pdfDisabled)
    }

    /** After `init`, each download button that exists is enabled exactly when a result has been
        displayed since the form was last cleared. `downloadDocument` is not part of this model:
        it disables its button while a download runs, so this holds only while no download has
        been started. */
    ghost predicate Valid()
      reads this, chat
    {
      && initialized
      && (hasWordBtn ==> wordDisabled == !displayed)
      && (hasPdfBtn ==> pdfDisabled == !displayed)
      && (chat != null ==> chat.Valid())
    }

    /** The object literal before `init`; the buttons' initial state comes from the page. */
    constructor (hasWordBtn: bool, hasPdfBtn: bool, wordDisabled: bool, pdfDisabled: bool, generate: Button,
                 form: Form, chat: ChatAssistant.Assistant?)
      ensures Snapshot() == UiState(false, None, None, None, "", generate, form, ResultArea("", "", false),
                                    false, Notice("", false), wordDisabled, pdfDisabled)
      ensures this.hasWordBtn == hasWordBtn && this.hasPdfBtn == hasPdfBtn && this.chat == chat
      ensures !displayed
    {
      this.hasWordBtn, this.hasPdfBtn, this.chat := hasWordBtn, hasPdfBtn, chat;
      this.wordDisabled, this.pdfDisabled, this.form := wordDisabled, pdfDisabled, form;
      initialized, selectedMode, configMode, currentDocumentId := false, None, None, None;
      this.generate := generate;
      sectionTitle, result, loading, error := "", ResultArea("", "", false), false, Notice("", false);
      displayed := false;
    }

    /** Runs once: a second call changes nothing; the first disables the download buttons
        that exist and then attaches the click handlers, which throws when either button is
        missing. */
    method Init() returns (thrown: Option<string>)
      modifies this
      requires initialized ==> Valid()
      requires chat != null ==> chat.Valid()
      ensures Valid()
      ensures old(initialized) ==> unchanged(this) && thrown.None?
      ensures !old(initialized) ==>
        && Snapshot() == old(Snapshot()).(initialized := true,
             wordDisabled := old(wordDisabled) || hasWordBtn, pdfDisabled := old(pdfDisabled) || hasPdfBtn)
        && !displayed
        && (thrown.Some? <==> !hasWordBtn || !hasPdfBtn)
        && (thrown.Some? ==> thrown.value == NoButton)
    {
      if initialized {
        return None;
      }
      initialized, displayed := true, false;
      wordDisabled, pdfDisabled := wordDisabled || hasWordBtn, pdfDisabled || hasPdfBtn;
      thrown := if hasWordBtn && hasPdfBtn then None else Some(NoButton);
    }

    /** Records the mode (also in `CONFIG.currentMode`) before reading its titles, so a mode
        without titles stays selected although the call throws; a known mode relabels the form
        and is passed on to the chat assistant. */
    method SelectMode(mode: string) returns (thrown: Option<string>)
      modifies this, chat
      requires Valid()
      ensures Valid()
      ensures displayed == old(displayed)
      ensures thrown.Some? <==> !IsKnownMode(mode)
      ensures thrown.Some? ==>
        && thrown.value == NoSectionTitle
        && Snapshot() == old(Snapshot()).(selectedMode := Some(mode), configMode := Some(mode))
        && (chat != null ==> unchanged(chat))
      ensures thrown.None? ==> var t := TitlesFor(Some(mode)).value;
        && Snapshot() == old(Snapshot()).(selectedMode := Some(mode), configMode := Some(mode),
                                          sectionTitle := t.section, generate := old(generate).(text := t.button))
        && (chat != null ==> chat.Snapshot() == old(chat.Snapshot()).(currentMode := Some(mode)))
    {
      selectedMode, configMode := Some(mode), Some(mode);
      var titles := TitlesFor(Some(mode));
      if titles.None? {
        return Some(NoSectionTitle);
      }
      sectionTitle, generate := titles.value.section, generate.(text := titles.value.button);
      if chat != null {
        chat.OnModeChange(Some(mode));
      }
      thrown := None;
    }

    /** `getFormInputs`, building `inputs` field by field. */
    method GetFormInputs(locale: string) returns (r: Result<Inputs>)
      ensures r == FormInputs(selectedMode, form, locale)
    {
      if !Truthy(selectedMode) {
        return Err(ModeNotSelected);
      }
      var mode := selectedMode.value;
      var fields: map<string, string> := map[];
      if mode == ContractMode {
        fields := fields["contractType" := form.contractType];
        fields := fields["contractDetails" := form.contractDetails];
        if fields["contractType"] == "" || fields["contractDetails"] == "" {
          return Err(ContractIncomplete);
        }
      }
      if mode == ResearchMode {
        fields := fields["legalIssue" := form.legalIssue];
        fields := fields["researchQuery" := form.researchQuery];
        fields := fields["jurisdiction" := form.jurisdiction];
        if fields["legalIssue"] == "" || fields["researchQuery"] == "" {
          return Err(ResearchIncomplete);
        }
      }
      if mode == OpinionMode {
        fields := fields["opinionTopic" := form.opinionTopic];
        fields := fields["opinionQuery" := form.opinionQuery];
        fields := fields["applicableLaws" := form.applicableLaws];
        if fields["opinionTopic"] == "" || fields["opinionQuery"] == "" {
          return Err(OpinionIncomplete);
        }
      }
      r := Ok(Inputs(mode, locale, fields));
    }

    method ShowLoading()
      modifies this
      ensures Snapshot() == Busy(old(Snapshot())) && displayed == old(displayed)
    {
      loading, generate := true, generate.(disabled := true);
      result, error := result.(active := false), error.(active := false);
    }

    method HideLoading()
      modifies this
      ensures Snapshot() == Idle(old(Snapshot())) && displayed == old(displayed)
    {
      loading, generate := false, generate.(disabled := false);
    }

    method ShowError(message: string)
      modifies this
      ensures Snapshot() == ErrorShown(old(Snapshot()), message) && displayed == old(displayed)
    {
      error := Notice(ErrorPrefix + message, true);
    }

    /** `displayResult` up to the call into the chat assistant: the text is set first; without
        titles for the selected mode the call throws there, otherwise the result is titled and
        shown, the error is hidden and the download buttons that exist are enabled. */
    method ShowResult(text: string) returns (thrown: Option<string>)
      modifies this
      ensures Snapshot() == ResultShown(old(Snapshot()), text, hasWordBtn, hasPdfBtn)
      ensures thrown.Some? <==> TitlesFor(selectedMode).None?
      ensures thrown.Some? ==> thrown.value == NoResultTitle && displayed == old(displayed)
      ensures thrown.None? ==> displayed
    {
      result := result.(content := text);
      var titles := TitlesFor(selectedMode);
      if titles.None? {
        return Some(NoResultTitle);
      }
      result, error, displayed, wordDisabled, pdfDisabled :=
        result.(title := titles.value.result, active := true), error.(active := false), true,
        wordDisabled && !hasWordBtn, pdfDisabled && !hasPdfBtn;
      thrown := None;
    }

    /** Shows a result and, once it is shown, gives the chat assistant the document as its
        context. */
    method DisplayResult(text: string) returns (thrown: Option<string>)
      modifies this, chat
      requires Valid()
      ensures Valid()
      ensures Snapshot() == ResultShown(old(Snapshot()), text, hasWordBtn, hasPdfBtn)
      ensures thrown.Some? <==> TitlesFor(selectedMode).None?
      ensures thrown.Some? ==> thrown.value == NoResultTitle && displayed == old(displayed) && (chat != null ==> unchanged(chat))
      ensures thrown.None? ==>
        && displayed
        && (chat != null ==> chat.Snapshot() == ChatAssistant.WithDocument(old(chat.Snapshot()), selectedMode, text))
    {
      thrown := ShowResult(text);
      if thrown.None? && chat != null {
        chat.SetDocumentContext(selectedMode, text);
      }
    }

    /** Empties the form, hides the result and the error and disables the download buttons.
        The result text, its title and the error text stay in place. */
    method ClearForm()
      modifies this
      requires Valid()
      ensures Valid()
      ensures Snapshot() == old(Snapshot()).(form := EmptyForm, result := old(result).(active := false),
        error := old(error).(active := false),
        wordDisabled := old(wordDisabled) || hasWordBtn, pdfDisabled := old(pdfDisabled) || hasPdfBtn)
      ensures !displayed
    {
      form, result, error, displayed := EmptyForm, result.(active := false), error.(active := false), false;
      wordDisabled, pdfDisabled := wordDisabled || hasWordBtn, pdfDisabled || hasPdfBtn;
    }

    /** The `try` block of `handleGenerate` once an output has arrived: the document id is kept
        and the output displayed, a throw of `displayResult` being caught and shown as an error. */
    method ShowAnswer(id: Field, output: string)
      modifies this, chat
      requires Valid()
      ensures Valid()
      ensures var d := ResultShown(old(Snapshot()).(currentDocumentId := id), output, hasWordBtn, hasPdfBtn);
        Snapshot() == if TitlesFor(selectedMode).None? then ErrorShown(d, NoResultTitle) else d
      ensures TitlesFor(selectedMode).Some? ==>
        && displayed
        && (chat != null ==> chat.Snapshot() == ChatAssistant.WithDocument(old(chat.Snapshot()), selectedMode, output))
      ensures TitlesFor(selectedMode).None? ==> displayed == old(displayed) && (chat != null ==> unchanged(chat))
    {
      currentDocumentId := id;
      var thrown := DisplayResult(output);
      if thrown.Some? {
        ShowError(thrown.value);
      }
    }

    /** The part of `handleGenerate` after the request. */
    method ShowOutcome(answer: ApiResult)
      modifies this, chat
      requires Valid()
      ensures Valid()
      ensures Snapshot() == Answered(old(Snapshot()), answer, hasWordBtn, hasPdfBtn)
      ensures Shows(old(Snapshot()), answer) ==>
        && displayed
        && (chat != null ==> chat.Snapshot() == ChatAssistant.WithDocument(old(chat.Snapshot()), selectedMode, answer.output.value))
      ensures !Shows(old(Snapshot()), answer) ==> displayed == old(displayed) && (chat != null ==> unchanged(chat))
    {
      match answer {
        case ApiError(m) =>
          ShowError(Or(m, GenerateFailed));
        case Answer(id, output) =>
          if !Truthy(output) {
            ShowError(EmptyResponse);
          } else {
            ShowAnswer(id, output.value);
          }
      }
    }

    /** `handleGenerate` with `api` standing for `callClaudeAPI`, when nothing else runs while
        the request is out. The `await` lets `selectMode` or `clearForm` run meanwhile (only the
        generate button is disabled); `ShowOutcome` models the part after the request on
        whatever state it then finds. */
    method HandleGenerate(locale: string, api: Inputs -> ApiResult)
      modifies this, chat
      requires Valid()
      ensures Valid()
      ensures Snapshot() == AfterGenerate(old(Snapshot()), locale, api, hasWordBtn, hasPdfBtn)
      ensures var r := FormInputs(old(selectedMode), old(form), locale);
        if r.Ok? && Shows(old(Snapshot()), api(r.value)) then
          && displayed
          && (chat != null ==>
                chat.Snapshot() == ChatAssistant.WithDocument(old(chat.Snapshot()), selectedMode, api(r.value).output.value))
        else displayed == old(displayed) && (chat != null ==> unchanged(chat))
    {
      var r := GetFormInputs(locale);
      if r.Err? {
        ShowError(r.message);
        HideLoading();
        return;
      }
      ShowLoading();
      ShowOutcome(api(r.value));
      HideLoading();
    }
  }
}
