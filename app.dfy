/** The profile record shared by the form, the preview and the export page,
    its all-empty initial value, and the four-screen navigation of the
    application shell. */
module App {

  datatype PersonalInfo = PersonalInfo(
    fullName: string,
    email: string,
    phone: string,
    location: string,
    linkedin: string,
    website: string)

  /** One work-experience entry; `id` only addresses the entry and is never shown. */
  datatype Experience = Experience(
    id: string,
    title: string,
    company: string,
    startDate: string,
    endDate: string,
    current: bool,
    description: string)

  /** One education entry: the shape of `Experience` with degree and school. */
  datatype Education = Education(
    id: string,
    degree: string,
    school: string,
    startDate: string,
    endDate: string,
    current: bool,
    description: string)

  datatype CVData = CVData(
    personalInfo: PersonalInfo,
    summary: string,
    experience: seq<Experience>,
    education: seq<Education>,
    skills: seq<string>,
    achievements: seq<string>)

  /** Every text field and every list of the profile is empty. */
  predicate IsBlankProfile(d: CVData) {
    && d.personalInfo.fullName == "" && d.personalInfo.email == ""
    && d.personalInfo.phone == "" && d.personalInfo.location == ""
    && d.personalInfo.linkedin == "" && d.personalInfo.website == ""
    && d.summary == ""
    && d.experience == [] && d.education == [] && d.skills == [] && d.achievements == []
  }

  /** The profile the application starts with. */
  function InitialCVData(): (d: CVData)
    ensures IsBlankProfile(d)
  {
    CVData(PersonalInfo("", "", "", "", "", ""), "", [], [], [], [])
  }

  /** The blank profile is unique: it is the initial one. */
  lemma BlankProfileIsInitial(d: CVData)
    requires IsBlankProfile(d)
    ensures d == InitialCVData()
  {
  }

  const InitialTemplate: string := "modern"

  /** The component `renderScreen` shows. */
  datatype Screen = Landing | Form | Preview | Export

  /** The `currentScreen` value each screen is selected by. */
  function ScreenToken(s: Screen): string {
    match s
    case Landing => "landing"
    case Form => "form"
    case Preview => "preview"
    case Export => "export"
  }

  /** The `switch` of `renderScreen`: the four known values select their
      screen and every other value falls back to the landing page. */
  function ShownScreen(currentScreen: string): (s: Screen)
    ensures currentScreen == ScreenToken(s) || s == Landing
    ensures s == Landing <==> currentScreen !in {"form", "preview", "export"}
  {
    match currentScreen
    case "form" => Form
    case "preview" => Preview
    case "export" => Export
    case _ => Landing
  }

  /** Selecting a screen by its token shows that screen. */
  lemma {:induction false} ShownScreenOfToken(s: Screen)
    ensures ShownScreen(ScreenToken(s)) == s
  {
    match s
    case Landing =>
    case Form =>
    case Preview =>
    case Export =>
  }

  /** The state `App` keeps in its three `useState` hooks. Each transition
      method is one of the callbacks `renderScreen` hands to a screen. */
  class AppState {
    var currentScreen: string
    var selectedTemplate: string
    var cvData: CVData

    constructor ()
      ensures currentScreen == "landing" && ShownScreen(currentScreen) == Landing
      ensures selectedTemplate == InitialTemplate && selectedTemplate == "modern"
      ensures cvData == InitialCVData() && IsBlankProfile(cvData)
    {
      currentScreen := "landing";
      selectedTemplate := InitialTemplate;
      cvData := InitialCVData();
    }

    function Shown(): Screen
      reads this
    {
      ShownScreen(currentScreen)
    }

    /** The landing page's `onGetStarted`. */
    method GetStarted()
      modifies this
      ensures Shown() == Form && currentScreen == "form"
      ensures selectedTemplate == old(selectedTemplate) && cvData == old(cvData)
    {
      currentScreen := ScreenToken(Form);
    }

    /** The form's `onNext`, called after its last step. */
    method FormNext()
      modifies this
      ensures Shown() == Preview && currentScreen == "preview"
      ensures selectedTemplate == old(selectedTemplate) && cvData == old(cvData)
    {
      currentScreen := ScreenToken(Preview);
    }

    /** The form's `onBack`. */
    method FormBack()
      modifies this
      ensures Shown() == Landing && currentScreen == "landing"
      ensures selectedTemplate == old(selectedTemplate) && cvData == old(cvData)
    {
      currentScreen := ScreenToken(Landing);
    }

    /** The form's `setCVData`: the profile is replaced by a new snapshot. */
    method SetCVData(d: CVData)
      modifies this
      ensures cvData == d
      ensures currentScreen == old(currentScreen) && selectedTemplate == old(selectedTemplate)
    {
      cvData := d;
    }

    /** The preview's `onBack`. */
    method PreviewBack()
      modifies this
      ensures Shown() == Form && currentScreen == "form"
      ensures selectedTemplate == old(selectedTemplate) && cvData == old(cvData)
    {
      currentScreen := ScreenToken(Form);
    }

    /** The preview's `onExport`. */
    method PreviewExport()
      modifies this
      ensures Shown() == Export && currentScreen == "export"
      ensures selectedTemplate == old(selectedTemplate) && cvData == old(cvData)
    {
      currentScreen := ScreenToken(Export);
    }

    /** The preview's `setSelectedTemplate`, called with a template button's id. */
    method SelectTemplate(templateId: string)
      modifies this
      ensures selectedTemplate == templateId
      ensures currentScreen == old(currentScreen) && cvData == old(cvData)
    {
      selectedTemplate := templateId;
    }

    /** The export page's `onBack`. */
    method ExportBack()
      modifies this
      ensures Shown() == Preview && currentScreen == "preview"
      ensures selectedTemplate == old(selectedTemplate) && cvData == old(cvData)
    {
      currentScreen := ScreenToken(Preview);
    }

    /** The export page's `onStartOver`: only the screen changes, so the
        profile and the chosen template survive a restart. */
    method StartOver()
      modifies this
      ensures Shown() == Landing && currentScreen == "landing"
      ensures selectedTemplate == old(selectedTemplate) && cvData == old(cvData)
    {
      currentScreen := ScreenToken(Landing);
    }
  }

  /** A full round through the screens: landing, form, preview, export and
      start over, keeping the profile and the template throughout. */
  method RoundTrip(app: AppState)
    modifies app
    ensures app.Shown() == Landing
    ensures app.cvData == old(app.cvData) && app.selectedTemplate == old(app.selectedTemplate)
  {
    app.GetStarted();
    app.FormNext();
    app.PreviewExport();
    app.ExportBack();
    app.PreviewExport();
    app.StartOver();
  }
}
