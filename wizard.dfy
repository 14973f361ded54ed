/** The wizard of src/app/page.tsx: a component whose state is `step`,
    `userData`, `report` and `error`, changed by its handlers. The `fetch` call
    of `handleDetailsSubmit` is split at its `await`: HandleDetailsSubmit does
    the part before it and returns the request it sends; FinishDetailsSubmit
    applies the outcome of the call. */
module Wizard {
  import opened FortuneTypes

  datatype Step = LanguageStep | GenderStep | DetailsStep | LoadingStep | ReportStep

  /** `userData`. `gender` is a string because it starts as the empty string,
      although its declared type only admits 'male' and 'female'. */
  datatype UserData = UserData(language: Language, gender: string, name: string, dob: string, birthTime: string)

  /** The JSON body `handleDetailsSubmit` posts (page.tsx:50-56); `language` is
      the code 'en' or 'zh'. */
  datatype ApiRequest = ApiRequest(name: string, dob: string, birthTime: string, gender: string, language: string)

  /** How the `fetch` ended: an OK response whose JSON is `data` (`None` for JSON
      `null`); a non-OK response whose JSON `error` field is `errorField` (`None`
      when absent or the body is not JSON); or a thrown error with `message`
      (the network failed, or the OK body was not JSON). */
  datatype FetchOutcome =
    | Delivered(data: Option<FortuneReport>)
    | Rejected(errorField: Option<string>)
    | Thrown(message: string)

  const FetchFailedMessage: string := "Failed to fetch fortune"

  /** The message shown when the thrown error has an empty message. */
  function FallbackMessage(lang: Language): (m: string)
    ensures m != ""
  {
    match lang
    case En => "The stars are clouded. Please try again."
    case Zh => "星象模糊，请重试。"
  }

  /** The error text a failed submission leaves (page.tsx:59-61, 67-71): the
      server's `error` field when it is a non-empty string, else the generic
      fetch failure for a non-OK response; for a thrown error its message, or
      the language's fallback when the message is empty. */
  function FailureMessage(outcome: FetchOutcome, lang: Language): (m: string)
    requires !outcome.Delivered?
    ensures m != ""
    ensures outcome.Rejected? && outcome.errorField.Some? && outcome.errorField.value != "" ==> m == outcome.errorField.value
    ensures outcome.Rejected? && (outcome.errorField.None? || outcome.errorField.value == "") ==> m == FetchFailedMessage
    ensures outcome.Thrown? && outcome.message != "" ==> m == outcome.message
    ensures outcome.Thrown? && outcome.message == "" ==> m == FallbackMessage(lang)
  {
    match outcome
    case Rejected(field) =>
      if field.Some? && field.value != "" then field.value else FetchFailedMessage
    case Thrown(message) =>
      if message != "" then message else FallbackMessage(lang)
  }

  /** The card the page renders. */
  datatype Screen =
    | LanguageScreen
    | GenderScreen
    | DetailsScreen(banner: Option<string>)
    | LoadingScreen
    | ReportScreen(report: FortuneReport)
    | NoScreen

  /** What the page renders for a state: the card, and whether the global back
      button is shown. */
  datatype Rendered = Rendered(screen: Screen, backButton: bool)

  class Home {
    var step: Step
    var userData: UserData
    var report: Option<FortuneReport>
    var error: string

    /** What every reachable state satisfies: while loading, the report and the
        error have been cleared; the report step is reached only through a
        successful load, so it shows no error; past the gender step a gender
        has been chosen. */
    ghost predicate Valid()
      reads this
    {
      && (step == LoadingStep ==> report == None && error == "")
      && (step == ReportStep ==> error == "")
      && (step in {DetailsStep, LoadingStep, ReportStep} ==>
            userData.gender == "male" || userData.gender == "female")
    }

    /** The initial state (page.tsx:19-28). */
    constructor ()
      ensures Valid()
      ensures step == LanguageStep
      ensures userData == UserData(En, "", "", "", "")
      ensures report == None && error == ""
    {
      step := LanguageStep;
      userData := UserData(En, "", "", "", "");
      report := None;
      error := "";
    }

    /** The rendered page (page.tsx:92-129): the report card only on the report
        step with a report present, the error banner only on the details step
        with a non-empty error, the back button only on the gender and details
        steps. */
    function View(): (v: Rendered)
      reads this
      ensures v.backButton <==> step == GenderStep || step == DetailsStep
      ensures v.screen.ReportScreen? <==> step == ReportStep && report.Some?
      ensures v.screen.ReportScreen? ==> v.screen.report == report.value
      ensures v.screen.DetailsScreen? <==> step == DetailsStep
      ensures v.screen.DetailsScreen? ==> (v.screen.banner.Some? <==> error != "")
      ensures v.screen.DetailsScreen? && error != "" ==> v.screen.banner == Some(error)
      ensures v.screen == NoScreen <==> step == ReportStep && report.None?
    {
      var screen :=
        match step
        case LanguageStep => LanguageScreen
        case GenderStep => GenderScreen
        case DetailsStep => DetailsScreen(if error != "" then Some(error) else None)
        case LoadingStep => LoadingScreen
        case ReportStep => if report.Some? then ReportScreen(report.value) else NoScreen;
      Rendered(screen, step == GenderStep || step == DetailsStep)
    }

    /** `handleLanguageSelect`, fired by the language card (page.tsx:30-33). */
    method HandleLanguageSelect(lang: Language)
      requires Valid() && step == LanguageStep
      modifies this
      ensures Valid()
      ensures step == GenderStep
      ensures userData == old(userData).(language := lang)
      ensures report == old(report) && error == old(error)
    {
      userData := userData.(language := lang);
      step := GenderStep;
    }

    /** `handleGenderSelect`, fired by the gender card (page.tsx:35-38). */
    method HandleGenderSelect(g: GenderChoice)
      requires Valid() && step == GenderStep
      modifies this
      ensures Valid()
      ensures step == DetailsStep
      ensures userData == old(userData).(gender := GenderName(g))
      ensures report == old(report) && error == old(error)
    {
      userData := userData.(gender := GenderName(g));
      step := DetailsStep;
    }

    /** The part of `handleDetailsSubmit` before its `await` (page.tsx:40-57):
        store the details, show the loading screen, clear error and report, and
        post the request, whose gender and language come from the user data. */
    method HandleDetailsSubmit(name: string, dob: string, birthTime: string) returns (request: ApiRequest)
      requires Valid() && step == DetailsStep
      modifies this
      ensures Valid()
      ensures step == LoadingStep
      ensures userData == old(userData).(name := name, dob := dob, birthTime := birthTime)
      ensures error == "" && report == None
      ensures request == ApiRequest(name, dob, birthTime, old(userData).gender, LanguageCode(old(userData).language))
    {
      request := ApiRequest(name, dob, birthTime, userData.gender, LanguageCode(userData.language));
      userData := userData.(name := name, dob := dob, birthTime := birthTime);
      step := LoadingStep;
      error := "";
      report := None;
    }

    /** The part of `handleDetailsSubmit` after its `await` (page.tsx:59-72),
        given how the call ended. The fallback message is in the language of
        the user data, which the submission did not change. */
    method FinishDetailsSubmit(outcome: FetchOutcome)
      requires Valid() && step == LoadingStep
      modifies this
      ensures Valid()
      ensures userData == old(userData)
      ensures outcome.Delivered? ==> step == ReportStep && report == outcome.data && error == ""
      ensures !outcome.Delivered? ==>
        && step == DetailsStep
        && error == FailureMessage(outcome, userData.language)
        && report == None
    {
      if outcome.Delivered? {
        report := outcome.data;
        step := ReportStep;
      } else {
        error := FailureMessage(outcome, userData.language);
        step := DetailsStep;
      }
    }

    /** `handleReset`, fired by the report card (page.tsx:75-79). The error is
        left as it was. */
    method HandleReset()
      requires Valid() && step == ReportStep && report.Some?
      modifies this
      ensures Valid()
      ensures step == LanguageStep
      ensures userData == UserData(En, "male", "", "", "")
      ensures report == None
      ensures error == old(error)
    {
      step := LanguageStep;
      userData := UserData(En, "male", "", "", "");
      report := None;
    }

    /** `handleBack` (page.tsx:81-87): one step back from gender or details;
        on any other step nothing changes. */
    method HandleBack()
      requires Valid()
      modifies this
      ensures Valid()
      ensures old(step) == GenderStep ==> step == LanguageStep
      ensures old(step) == DetailsStep ==> step == GenderStep
      ensures old(step) !in {GenderStep, DetailsStep} ==> step == old(step)
      ensures userData == old(userData) && report == old(report) && error == old(error)
    {
      if step == GenderStep {
        step := LanguageStep;
      } else if step == DetailsStep {
        step := GenderStep;
      }
    }
  }

  /** One pass through the wizard from a fresh page: choose a language and a
      gender, submit the details, and let the call end with `outcome`. The
      request carries the chosen language and gender; a delivered report is
      shown, and a failure returns to the details screen with its message. */
  method RunWizard(lang: Language, g: GenderChoice, name: string, dob: string, birthTime: string,
                   outcome: FetchOutcome) returns (request: ApiRequest, screen: Screen)
    ensures request == ApiRequest(name, dob, birthTime, GenderName(g), LanguageCode(lang))
    ensures outcome.Delivered? && outcome.data.Some? ==> screen == ReportScreen(outcome.data.value)
    ensures outcome.Delivered? && outcome.data.None? ==> screen == NoScreen
    ensures !outcome.Delivered? ==> screen == DetailsScreen(Some(FailureMessage(outcome, lang)))
  {
    var home := new Home();
    home.HandleLanguageSelect(lang);
    home.HandleGenderSelect(g);
    request := home.HandleDetailsSubmit(name, dob, birthTime);
    home.FinishDetailsSubmit(outcome);
    screen := home.View().screen;
  }
}
