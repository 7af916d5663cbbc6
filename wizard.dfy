/** The onboarding wizard of the front end (script.js, class WhatsAppGPTApp):
    four steps, a form submitted to the back end, a QR code to scan, and a
    poll timer that waits for the WhatsApp session to report "open".

    Network results are parameters of the handlers; the browser's interval
    registry is modelled by the set of live timer handles and the next handle
    it will hand out. The page itself is reduced to the flags and texts the
    handlers change (the `View` record). */
module Wizard {

  import opened Basics
  import opened Translations

  datatype Step = Welcome | Setup | QrCode | Success

  /** The name a step goes by in the code and in its element id `<name>-step`. */
  function StepName(s: Step): string {
    match s
    case Welcome => "welcome"
    case Setup => "setup"
    case QrCode => "qrcode"
    case Success => "success"
  }

  /** `document.getElementById(id)` restricted to the four step sections. */
  function StepElement(id: string): Option<Step> {
    if id == "welcome-step" then Some(Welcome)
    else if id == "setup-step" then Some(Setup)
    else if id == "qrcode-step" then Some(QrCode)
    else if id == "success-step" then Some(Success)
    else None
  }

  /** The step section `showStep(name)` finds: exactly the step called `name`,
      and none for any other name. */
  function FindStep(name: string): (r: Option<Step>)
    ensures r.Some? ==> StepName(r.value) == name
    ensures r.None? <==> (forall s: Step :: StepName(s) != name)
  {
    StepElementOfName(name);
    StepElement(name + "-step")
  }

  /** Two names with the same element id are the same name. */
  lemma SameId(a: string, b: string)
    requires a + "-step" == b + "-step"
    ensures a == b
  {
    assert a == (a + "-step")[..|a|];
    assert b == (b + "-step")[..|b|];
  }

  /** The element whose id is `name + "-step"` is the step called `name`. */
  lemma StepElementOfName(name: string)
    ensures StepElement(name + "-step").Some? ==> StepName(StepElement(name + "-step").value) == name
    ensures StepElement(name + "-step").None? ==> forall s: Step :: StepName(s) != name
  {
    var id := name + "-step";
    if id == "welcome-step" {
      assert "welcome" + "-step" == id;
      SameId(name, "welcome");
    } else if id == "setup-step" {
      assert "setup" + "-step" == id;
      SameId(name, "setup");
    } else if id == "qrcode-step" {
      assert "qrcode" + "-step" == id;
      SameId(name, "qrcode");
    } else if id == "success-step" {
      assert "success" + "-step" == id;
      SameId(name, "success");
    } else {
      assert "welcome" + "-step" == "welcome-step";
      assert "setup" + "-step" == "setup-step";
      assert "qrcode" + "-step" == "qrcode-step";
      assert "success" + "-step" == "success-step";
    }
  }

  /** Each step's own name finds that step. */
  lemma FindStepName(s: Step)
    ensures FindStep(StepName(s)) == Some(s)
  {
  }

  /** The five fields of the setup form; the form always has all five, so an
      empty string is the only way a field can be unfilled. */
  datatype SetupForm = SetupForm(
    businessName: string,
    businessDescription: string,
    businessHours: string,
    contactInfo: string,
    knowledgeText: string)

  const EmptyForm: SetupForm := SetupForm("", "", "", "", "")

  /** The two required fields (script.js:166). */
  predicate MissingRequired(form: SetupForm) {
    form.businessName == "" || form.businessDescription == ""
  }

  /** `result.data` of a successful setup response, as far as the wizard reads
      it; an absent or null field is the empty string (both are falsy). */
  datatype AgentRecord = AgentRecord(instanceId: string, qrCode: string)

  /** How the setup POST ended: a JSON body with `success` true, one with
      `success` false (and maybe an `error`), or an exception from `fetch` or
      from reading the body as JSON. */
  datatype SetupOutcome =
    | Created(data: AgentRecord)
    | ServerError(error: Option<string>)
    | TransportError

  /** How one connection-check GET ended. */
  datatype PollOutcome = PollFailed | Polled(success: bool, status: string)

  /** The state value that ends polling (script.js:241). */
  const ConnectedStatus: string := "open"

  /** The prefix of the QR image source (script.js:226). */
  const QrImagePrefix: string := "data:image/png;base64,"

  /** The period of the poll timer in milliseconds (config.js:16). Time is not
      modelled: a tick is a call of `CheckConnection`. */
  const ConnectionCheckIntervalMs: nat := 5000

  /** What the wizard did that leaves the page: the loading overlay shown
      (with its caption) or hidden, and the two kinds of request to the back end. */
  datatype Effect =
    | LoadingShown(caption: string)
    | LoadingHidden
    | SetupPosted(form: SetupForm)
    | StatusRequested(instanceId: string)

  /** The parts of the page the handlers change. */
  datatype View = View(
    activeSteps: set<Step>,          // step sections carrying the `active` class
    errorVisible: bool,              // #error-message shown
    errorText: string,               // #error-text
    loadingVisible: bool,            // #loading-overlay shown
    loadingText: string,             // #loading-text
    qrImage: Option<string>,         // source of the image in #qr-container, if one was placed
    agentName: Option<string>,       // #agent-business-name, if it was written
    languageLabel: Option<string>,   // #current-language, if it was written
    page: Page)                      // the translatable texts

  /** The label `changeLanguage` writes on the language button (script.js:297-298). */
  function LanguageLabel(lang: string): (r: string)
    ensures lang == "pt" ==> r == "PT"
    ensures lang == "en" ==> r == "EN"
    ensures lang == "fr" ==> r == "FR"
    ensures lang !in Languages ==> r == "PT"
    ensures r in {"PT", "EN", "FR"}
  {
    if lang == "en" then "EN" else if lang == "fr" then "FR" else "PT"
  }

  /** A poll is only sent when the agent record has a non-empty instance id (script.js:235). */
  predicate CanPoll(agent: Option<AgentRecord>) {
    agent.Some? && agent.value.instanceId != ""
  }

  class WhatsAppGptApp {
    /** The translation table; its strings are not modelled, only its keys. */
    const table: map<string, TranslationSet>
    /** The writes `updateTranslations` performs; the page passes
        `Translations.Bindings`. */
    const bindings: seq<Binding>

    var currentStep: Step
    var currentLanguage: string
    var setupData: SetupForm
    var agentData: Option<AgentRecord>
    var connectionCheckInterval: Option<nat>

    /** The browser's side: handles of intervals that are still scheduled,
        and the handle `setInterval` returns next. */
    var liveTimers: set<nat>
    var nextTimerId: nat

    /** Everything the wizard has done beyond the page, oldest first. */
    var effects: seq<Effect>

    var view: View

    /** The handle field and the browser agree: the one live interval is the
        one the wizard holds, and handles are positive and already issued. */
    ghost predicate TimersConsistent()
      reads this
    {
      && liveTimers == (if connectionCheckInterval.Some? then {connectionCheckInterval.value} else {})
      && 1 <= nextTimerId
      && (forall h :: h in liveTimers ==> 0 < h < nextTimerId)
    }

    /** The invariant between events: the table has the three languages,
        the handlers' keys and a value for every write, at most one live
        timer, at most one active step and it is the current one, and no
        loading overlay left on screen. */
    ghost predicate Valid()
      reads this
      ensures Valid() ==> |liveTimers| <= 1
    {
      && Fits(table, bindings)
      && TimersConsistent()
      && view.activeSteps <= {currentStep}
      && !view.loadingVisible
    }

    /** The page as it loads: `constructor` and `init` (script.js:3-24). */
    constructor (table: map<string, TranslationSet>, bindings: seq<Binding>, page: Page)
      requires Fits(table, bindings)
      ensures Valid()
      ensures this.table == table && this.bindings == bindings
      ensures currentStep == Welcome && currentLanguage == "pt" && setupData == EmptyForm
      ensures agentData == None && connectionCheckInterval == None && liveTimers == {} && nextTimerId == 1
      ensures effects == []
      ensures view == View({Welcome}, false, "", false, "", None, None, None, Apply(page, table["pt"], bindings))
    {
      this.table := table;
      this.bindings := bindings;
      currentStep := Welcome;
      currentLanguage := "pt";
      setupData := EmptyForm;
      agentData := None;
      connectionCheckInterval := None;
      liveTimers := {};
      nextTimerId := 1;
      effects := [];
      view := View({}, false, "", false, "", None, None, None, page);
      new;
      LoadLanguage();
      GoTo(Welcome);
    }

    /** `showStep` (script.js:133-147): every step loses `active`; the step
        named `name`, if there is one, gains it and becomes current. */
    method ShowStep(name: string)
      modifies this`view, this`currentStep
      ensures FindStep(name).Some? ==>
        view == old(view).(activeSteps := {FindStep(name).value}) && currentStep == FindStep(name).value
      ensures FindStep(name).None? ==>
        view == old(view).(activeSteps := {}) && currentStep == old(currentStep)
    {
      view := view.(activeSteps := {});
      var target := FindStep(name);
      if target.Some? {
        view := view.(activeSteps := {target.value});
        currentStep := target.value;
      }
    }

    /** `showStep` called with a step's own name, as every handler does:
        that step alone is active and current. */
    method GoTo(step: Step)
      modifies this`view, this`currentStep
      ensures view == old(view).(activeSteps := {step}) && currentStep == step
    {
      FindStepName(step);
      ShowStep(StepName(step));
    }

    /** `showLoading(text)` (script.js:92-103). */
    method ShowLoading(caption: string)
      modifies this`view, this`effects
      ensures view == old(view).(loadingVisible := true, loadingText := if caption != "" then caption else old(view.loadingText))
      ensures effects == old(effects) + [LoadingShown(caption)]
    {
      if caption != "" {
        view := view.(loadingText := caption);
      }
      view := view.(loadingVisible := true);
      effects := effects + [LoadingShown(caption)];
    }

    /** `hideLoading` (script.js:106-111). */
    method HideLoading()
      modifies this`view, this`effects
      ensures view == old(view).(loadingVisible := false)
      ensures effects == old(effects) + [LoadingHidden]
    {
      view := view.(loadingVisible := false);
      effects := effects + [LoadingHidden];
    }

    /** `showError(message)` (script.js:114-122). */
    method ShowError(message: string)
      modifies this`view
      ensures view == old(view).(errorVisible := true, errorText := message)
    {
      view := view.(errorVisible := true, errorText := message);
    }

    /** `hideError` (script.js:125-130). */
    method HideError()
      modifies this`view
      ensures view == old(view).(errorVisible := false)
    {
      view := view.(errorVisible := false);
    }

    /** `handleSetupSubmit` (script.js:150-202): the form replaces `setupData`
        wholesale; a missing required field shows the localized
        `required_fields` error and sends nothing; otherwise the loading
        overlay is shown, one setup request is posted, its outcome is handled,
        and the overlay is hidden again whatever the outcome. When the current
        language has no table the first lookup throws and the handler stops
        right after clearing the error. */
    method HandleSetupSubmit(form: SetupForm, outcome: SetupOutcome)
      requires Valid()
      modifies this`setupData, this`agentData, this`view, this`currentStep, this`effects
      modifies this`connectionCheckInterval, this`liveTimers, this`nextTimerId
      ensures Valid()
      ensures setupData == form
      ensures currentLanguage == old(currentLanguage)
      // no table for the language: nothing but the cleared error and the new form
      ensures old(currentLanguage) !in table ==>
        && view == old(view).(errorVisible := false)
        && currentStep == old(currentStep) && agentData == old(agentData)
        && connectionCheckInterval == old(connectionCheckInterval) && liveTimers == old(liveTimers)
        && nextTimerId == old(nextTimerId) && effects == old(effects)
      // validation fails: the localized error, no request, no overlay
      ensures old(currentLanguage) in table && MissingRequired(form) ==>
        && view == old(view).(errorVisible := true, errorText := table[currentLanguage].strings[RequiredFieldsKey])
        && currentStep == old(currentStep) && agentData == old(agentData)
        && connectionCheckInterval == old(connectionCheckInterval) && liveTimers == old(liveTimers)
        && nextTimerId == old(nextTimerId) && effects == old(effects)
      // validation passes: overlay shown, one request, overlay hidden, on every outcome
      ensures old(currentLanguage) in table && !MissingRequired(form) ==>
        && effects == old(effects) + [LoadingShown(table[currentLanguage].strings[CreatingAgentKey]), SetupPosted(form), LoadingHidden]
        && !view.loadingVisible
        && view.loadingText == table[currentLanguage].strings[CreatingAgentKey]
        && view.page == old(view.page) && view.agentName == old(view.agentName)
        && view.languageLabel == old(view.languageLabel)
      // the agent was created: QR step, QR image, a fresh timer replacing any old one
      ensures old(currentLanguage) in table && !MissingRequired(form) && outcome.Created? ==>
        && agentData == Some(outcome.data)
        && currentStep == QrCode && view.activeSteps == {QrCode}
        && !view.errorVisible && view.errorText == old(view.errorText)
        && view.qrImage == (if outcome.data.qrCode != "" then Some(QrImagePrefix + outcome.data.qrCode) else old(view.qrImage))
        && connectionCheckInterval == Some(old(nextTimerId)) && liveTimers == {old(nextTimerId)}
        && nextTimerId == old(nextTimerId) + 1
      // the server refused or the request failed: an error, and the wizard stays where it was
      ensures old(currentLanguage) in table && !MissingRequired(form) && !outcome.Created? ==>
        && view.errorVisible
        && view.errorText == (
             if outcome.TransportError? then table[currentLanguage].strings[ConnectionErrorKey]
             else if Truthy(outcome.error) then outcome.error.value
             else table[currentLanguage].strings[SetupFailedKey])
        && currentStep == old(currentStep) && view.activeSteps == old(view.activeSteps)
        && view.qrImage == old(view.qrImage) && agentData == old(agentData)
        && connectionCheckInterval == old(connectionCheckInterval) && liveTimers == old(liveTimers)
        && nextTimerId == old(nextTimerId)
    {
      HideError();
      setupData := form;
      if currentLanguage !in table {
        return;
      }
      var messages := table[currentLanguage].strings;
      if MissingRequired(setupData) {
        ShowError(messages[RequiredFieldsKey]);
        return;
      }
      PostSetup(outcome, messages);
    }

    /** The part of `handleSetupSubmit` after validation (script.js:171-201):
        the localized `creating_agent` overlay, one setup request with the
        stored form, its outcome, and the overlay hidden again in `finally`. */
    method PostSetup(outcome: SetupOutcome, messages: map<string, string>)
      requires TimersConsistent()
      requires SetupFailedKey in messages && ConnectionErrorKey in messages
      requires CreatingAgentKey in messages && messages[CreatingAgentKey] != ""
      modifies this`agentData, this`view, this`currentStep, this`effects
      modifies this`connectionCheckInterval, this`liveTimers, this`nextTimerId
      ensures TimersConsistent()
      ensures effects == old(effects) + [LoadingShown(messages[CreatingAgentKey]), SetupPosted(setupData), LoadingHidden]
      ensures outcome.Created? ==>
        && agentData == Some(outcome.data) && currentStep == QrCode
        && view == old(view).(
             activeSteps := {QrCode},
             qrImage := if outcome.data.qrCode != "" then Some(QrImagePrefix + outcome.data.qrCode) else old(view.qrImage),
             loadingVisible := false,
             loadingText := messages[CreatingAgentKey])
        && connectionCheckInterval == Some(old(nextTimerId)) && liveTimers == {old(nextTimerId)}
        && nextTimerId == old(nextTimerId) + 1
      ensures !outcome.Created? ==>
        && view == old(view).(
             errorVisible := true,
             errorText := if outcome.TransportError? then messages[ConnectionErrorKey]
                          else if Truthy(outcome.error) then outcome.error.value
                          else messages[SetupFailedKey],
             loadingVisible := false,
             loadingText := messages[CreatingAgentKey])
        && currentStep == old(currentStep) && agentData == old(agentData)
        && connectionCheckInterval == old(connectionCheckInterval) && liveTimers == old(liveTimers)
        && nextTimerId == old(nextTimerId)
    {
      ShowLoading(messages[CreatingAgentKey]);
      effects := effects + [SetupPosted(setupData)];
      HandleSetupOutcome(outcome, messages);
      HideLoading();
    }

    /** The `try` block of `handleSetupSubmit` after the request (script.js:177-198):
        a created agent is stored, the QR step shown with its code, and polling
        started; a refusal shows the server's error or the localized
        `setup_failed`, and a failed request the localized `connection_error`. */
    method HandleSetupOutcome(outcome: SetupOutcome, messages: map<string, string>)
      requires TimersConsistent()
      requires SetupFailedKey in messages && ConnectionErrorKey in messages
      modifies this`agentData, this`view, this`currentStep
      modifies this`connectionCheckInterval, this`liveTimers, this`nextTimerId
      ensures TimersConsistent()
      ensures outcome.Created? ==>
        && agentData == Some(outcome.data) && currentStep == QrCode
        && view == old(view).(
             activeSteps := {QrCode},
             qrImage := if outcome.data.qrCode != "" then Some(QrImagePrefix + outcome.data.qrCode) else old(view.qrImage))
        && connectionCheckInterval == Some(old(nextTimerId)) && liveTimers == {old(nextTimerId)}
        && nextTimerId == old(nextTimerId) + 1
      ensures !outcome.Created? ==>
        && view == old(view).(
             errorVisible := true,
             errorText := if outcome.TransportError? then messages[ConnectionErrorKey]
                          else if Truthy(outcome.error) then outcome.error.value
                          else messages[SetupFailedKey])
        && currentStep == old(currentStep) && agentData == old(agentData)
        && connectionCheckInterval == old(connectionCheckInterval) && liveTimers == old(liveTimers)
        && nextTimerId == old(nextTimerId)
    {
      match outcome {
        case Created(data) =>
          agentData := Some(data);
          GoTo(QrCode);
          DisplayQrCode();
          StartConnectionCheck();
        case ServerError(error) =>
          ShowError(if Truthy(error) then error.value else messages[SetupFailedKey]);
        case TransportError =>
          ShowError(messages[ConnectionErrorKey]);
      }
    }

    /** `startConnectionCheck` (script.js:205-214): any running interval is
        cleared before a new one is scheduled, so exactly one is live after. */
    method StartConnectionCheck()
      requires TimersConsistent()
      modifies this`connectionCheckInterval, this`liveTimers, this`nextTimerId
      ensures TimersConsistent()
      ensures connectionCheckInterval == Some(old(nextTimerId))
      ensures liveTimers == {old(nextTimerId)}
      ensures old(connectionCheckInterval).Some? ==> old(connectionCheckInterval).value !in liveTimers
      ensures nextTimerId == old(nextTimerId) + 1
    {
      if connectionCheckInterval.Some? {
        liveTimers := liveTimers - {connectionCheckInterval.value};
      }
      var handle := nextTimerId;
      nextTimerId := nextTimerId + 1;
      liveTimers := liveTimers + {handle};
      connectionCheckInterval := Some(handle);
    }

    /** The clearing of the poll timer that `checkConnection` and `resetApp`
        share (script.js:242-245, 272-275): the held interval, if any, is
        cleared and forgotten, so no timer is left live. */
    method StopConnectionCheck()
      requires TimersConsistent()
      modifies this`connectionCheckInterval, this`liveTimers
      ensures TimersConsistent()
      ensures connectionCheckInterval == None && liveTimers == {}
    {
      if connectionCheckInterval.Some? {
        liveTimers := liveTimers - {connectionCheckInterval.value};
        connectionCheckInterval := None;
      }
    }

    /** `displayQRCode` (script.js:217-231): the QR payload becomes a PNG data
        URI; without a payload the container is left as it was. */
    method DisplayQrCode()
      modifies this`view
      ensures agentData.Some? && agentData.value.qrCode != "" ==>
        view == old(view).(qrImage := Some(QrImagePrefix + agentData.value.qrCode))
      ensures !(agentData.Some? && agentData.value.qrCode != "") ==> view == old(view)
    {
      if agentData.Some? && agentData.value.qrCode != "" {
        view := view.(qrImage := Some(QrImagePrefix + agentData.value.qrCode));
      }
    }

    /** `checkConnection` (script.js:234-252), run by the timer and by the
        "check connection" button alike. Without an instance id nothing
        happens; otherwise a status request is sent, and only a successful
        response whose status is "open" stops the timer and moves to the
        success step. Every other response, and a failed request, changes
        nothing else. */
    method CheckConnection(outcome: PollOutcome)
      requires Valid()
      modifies this`view, this`currentStep, this`effects, this`connectionCheckInterval, this`liveTimers
      ensures Valid()
      ensures setupData == old(setupData) && agentData == old(agentData)
      ensures currentLanguage == old(currentLanguage) && nextTimerId == old(nextTimerId)
      ensures !CanPoll(old(agentData)) ==>
        && effects == old(effects) && view == old(view) && currentStep == old(currentStep)
        && connectionCheckInterval == old(connectionCheckInterval) && liveTimers == old(liveTimers)
      ensures CanPoll(old(agentData)) ==> effects == old(effects) + [StatusRequested(old(agentData).value.instanceId)]
      ensures CanPoll(old(agentData)) && outcome == Polled(true, ConnectedStatus) ==>
        && connectionCheckInterval == None && liveTimers == {}
        && currentStep == Success
        && view == old(view).(
             activeSteps := {Success},
             agentName := if setupData.businessName != "" then Some(setupData.businessName) else old(view.agentName))
      ensures CanPoll(old(agentData)) && outcome != Polled(true, ConnectedStatus) ==>
        && view == old(view) && currentStep == old(currentStep)
        && connectionCheckInterval == old(connectionCheckInterval) && liveTimers == old(liveTimers)
    {
      if !CanPoll(agentData) {
        return;
      }
      effects := effects + [StatusRequested(agentData.value.instanceId)];
      if outcome.Polled? && outcome.success && outcome.status == ConnectedStatus {
        StopConnectionCheck();
        GoTo(Success);
        UpdateSuccessInfo();
      }
    }

    /** `updateSuccessInfo` (script.js:255-260): the success card shows the
        business name, if one was given. */
    method UpdateSuccessInfo()
      modifies this`view
      ensures view == old(view).(agentName := if setupData.businessName != "" then Some(setupData.businessName) else old(view.agentName))
    {
      if setupData.businessName != "" {
        view := view.(agentName := Some(setupData.businessName));
      }
    }

    /** `resetApp` (script.js:263-287): back to the welcome step with an empty
        form, no agent, no timer and no error. */
    method ResetApp()
      requires Valid()
      modifies this`currentStep, this`setupData, this`agentData, this`view
      modifies this`connectionCheckInterval, this`liveTimers
      ensures Valid()
      ensures currentStep == Welcome && setupData == EmptyForm && agentData == None
      ensures connectionCheckInterval == None && liveTimers == {}
      ensures view == old(view).(activeSteps := {Welcome}, errorVisible := false)
      ensures currentLanguage == old(currentLanguage) && effects == old(effects) && nextTimerId == old(nextTimerId)
    {
      currentStep := Welcome;
      setupData := EmptyForm;
      agentData := None;
      StopConnectionCheck();
      HideError();
      GoTo(Welcome);
    }

    /** `changeLanguage` (script.js:290-300): the code is stored whatever it
        is; the page is re-translated only when the table has it, and the
        button label falls back to "PT". */
    method ChangeLanguage(lang: string)
      requires Valid()
      modifies this`currentLanguage, this`view
      ensures Valid()
      ensures currentLanguage == lang
      ensures view == old(view).(
        page := if lang in table then Apply(old(view.page), table[lang], bindings) else old(view.page),
        languageLabel := Some(LanguageLabel(lang)))
    {
      currentLanguage := lang;
      LoadLanguage();
      view := view.(languageLabel := Some(LanguageLabel(lang)));
    }

    /** `loadLanguage` (script.js:303-309): translate the page when the table
        has the current language, and do nothing otherwise. */
    method LoadLanguage()
      modifies this`view
      ensures view == old(view).(
        page := if currentLanguage in table then Apply(old(view.page), table[currentLanguage], bindings) else old(view.page))
    {
      if currentLanguage in table {
        view := view.(page := Apply(view.page, table[currentLanguage], bindings));
      }
    }
  }

  /** Sessions driven through the wizard's events, as a user would: what a
      caller can conclude from the handlers' contracts alone. Switching to
      English and back leaves the page exactly as it was first rendered. */
  method LanguageSession(table: map<string, TranslationSet>, bindings: seq<Binding>, page: Page)
    requires Fits(table, bindings)
  {
    var app := new WhatsAppGptApp(table, bindings, page);
    var rendered := app.view.page;
    app.ChangeLanguage("en");
    app.ChangeLanguage("pt");
    SwitchAndBackOver(page, table["pt"], table["en"], bindings);
    assert app.view.page == rendered;
  }

  /** An incomplete form sends nothing; a refused request keeps the wizard on
      the setup step; a created agent moves it to the QR step with the first
      timer handle live. */
  method SetupSession(table: map<string, TranslationSet>, bindings: seq<Binding>, page: Page,
                      name: string, description: string, instanceId: string, qr: string)
    requires Fits(table, bindings)
    requires name != "" && description != ""
  {
    var app := new WhatsAppGptApp(table, bindings, page);
    app.ShowStep("setup");
    assert app.currentStep == Setup;

    var incomplete := SetupForm("", description, "", "", "");
    app.HandleSetupSubmit(incomplete, TransportError);
    assert app.view.errorVisible && app.effects == [];
    assert app.currentStep == Setup;

    var form := SetupForm(name, description, "", "", "");
    app.HandleSetupSubmit(form, ServerError(None));
    assert app.currentStep == Setup && app.connectionCheckInterval == None;
    assert |app.effects| == 3 && app.effects[2] == LoadingHidden;

    app.HandleSetupSubmit(form, Created(AgentRecord(instanceId, qr)));
    assert app.currentStep == QrCode && app.liveTimers == {1};
  }

  /** Restarting the check replaces the live timer; polls that are not "open"
      change nothing; "open" reaches the success step with no timer left, and
      a reset returns to the welcome step. */
  method PollSession(app: WhatsAppGptApp, instanceId: string, qr: string)
    requires app.Valid() && app.agentData == Some(AgentRecord(instanceId, qr)) && instanceId != ""
    requires app.currentStep == QrCode && app.setupData.businessName != ""
    modifies app
  {
    var name := app.setupData.businessName;
    var handle := app.nextTimerId;
    app.StartConnectionCheck();
    assert app.liveTimers == {handle};

    app.CheckConnection(Polled(true, "connecting"));
    assert app.currentStep == QrCode && app.liveTimers == {handle};
    app.CheckConnection(PollFailed);
    assert app.currentStep == QrCode && app.liveTimers == {handle};

    app.CheckConnection(Polled(true, "open"));
    assert app.currentStep == Success && app.liveTimers == {};
    assert app.view.agentName == Some(name);

    app.ResetApp();
    assert app.currentStep == Welcome && app.agentData == None && app.setupData == EmptyForm;
  }
}
