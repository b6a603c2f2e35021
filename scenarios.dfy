/** Walks through the builder end to end: edits made on the form are what
    the preview renders and what the export page summarises. */
module Scenarios {
  import opened Builtins
  import opened App
  import opened ProfileEdits
  import CVPreview
  import ExportPage

  /** The profile after adding one experience entry to the initial profile
      and filling in its title, company and start date and ticking
      "currently working here". */
  function FirstJobProfile(): (d: CVData)
    ensures d.experience == [Experience("1", "Engineer", "Acme", "2022-01", "", true, "")]
    ensures d.(experience := []) == InitialCVData()
  {
    var d1 := AddExperience(InitialCVData(), "1");
    var d2 := UpdateExperience(d1, "1", ExperienceField.Title, Text("Engineer"));
    var d3 := UpdateExperience(d2, "1", Company, Text("Acme"));
    var d4 := UpdateExperience(d3, "1", ExperienceField.StartDate, Text("2022-01"));
    UpdateExperience(d4, "1", ExperienceField.Current, Flag(true))
  }

  /** A profile with the first-job entry and nothing else. */
  predicate FirstJobOnly(d: CVData) {
    d.experience == [Experience("1", "Engineer", "Acme", "2022-01", "", true, "")]
      && d.(experience := []) == InitialCVData()
  }

  lemma JanuaryToPresent(f: string, r: string)
    requires f == "Jan 2022" && r == f + " - " + "Present"
    ensures r == "Jan 2022 - Present"
  {
  }

  /** A current entry started in January 2022. */
  lemma FirstJobDates()
    ensures CVPreview.DateRange("2022-01", "", true) == "Jan 2022 - Present"
  {
    CVPreview.FormatDateExamples();
    JanuaryToPresent(CVPreview.FormatDate("2022-01"), CVPreview.DateRange("2022-01", "", true));
  }

  /** The entry reads "Engineer", "Acme", "Jan 2022 - Present", without details. */
  lemma FirstJobEntry(d: CVData)
    requires FirstJobOnly(d)
    ensures CVPreview.ExperienceItems(d.experience) == [CVPreview.Entry("Engineer", "Acme", "Jan 2022 - Present", [])]
  {
    var e := d.experience[0];
    FirstJobDates();
    assert CVPreview.Details(e.description) == [];
    assert CVPreview.ExperienceItem(e) == CVPreview.Entry("Engineer", "Acme", "Jan 2022 - Present", []);
    assert CVPreview.ExperienceItems(d.experience) == [CVPreview.ExperienceItem(e)];
  }

  /** Rendered as "minimal", such a profile shows the default name, one
      experience entry dated "Jan 2022 - Present", and no summary, education,
      skills or achievements. */
  lemma FirstJobPreview(d: CVData)
    requires FirstJobOnly(d)
    ensures CVPreview.RenderTemplate(d, "minimal").name == "Your Name"
    ensures CVPreview.Section(CVPreview.ExperienceSection, CVPreview.Main, Some("Experience"),
        [CVPreview.Entry("Engineer", "Acme", "Jan 2022 - Present", [])])
      in CVPreview.RenderTemplate(d, "minimal").sections
    ensures !CVPreview.Shows(CVPreview.RenderTemplate(d, "minimal"), CVPreview.EducationSection)
    ensures !CVPreview.Shows(CVPreview.RenderTemplate(d, "minimal"), CVPreview.SummarySection)
    ensures !CVPreview.Shows(CVPreview.RenderTemplate(d, "minimal"), CVPreview.SkillsSection)
    ensures !CVPreview.Shows(CVPreview.RenderTemplate(d, "minimal"), CVPreview.AchievementsSection)
  {
    assert CVPreview.RenderTemplate(d, "minimal") == CVPreview.Render(d, CVPreview.Minimal);
    FirstJobEntry(d);
    FirstJobMinimal(d, CVPreview.Render(d, CVPreview.Minimal));
  }

  lemma FirstJobMinimal(d: CVData, doc: CVPreview.Document)
    requires FirstJobOnly(d) && doc == CVPreview.Render(d, CVPreview.Minimal)
    requires CVPreview.ExperienceItems(d.experience) == [CVPreview.Entry("Engineer", "Acme", "Jan 2022 - Present", [])]
    ensures doc.name == "Your Name"
    ensures CVPreview.Section(CVPreview.ExperienceSection, CVPreview.Main, Some("Experience"),
        [CVPreview.Entry("Engineer", "Acme", "Jan 2022 - Present", [])]) in doc.sections
    ensures !CVPreview.Shows(doc, CVPreview.EducationSection) && !CVPreview.Shows(doc, CVPreview.SummarySection)
    ensures !CVPreview.Shows(doc, CVPreview.SkillsSection) && !CVPreview.Shows(doc, CVPreview.AchievementsSection)
  {
    assert IsBlankProfile(d.(experience := []));
    assert d.summary == "" && d.education == [] && d.skills == [] && d.achievements == [];
    CVPreview.EntriesShown(d, CVPreview.Minimal);
    CVPreview.SectionSuppression(d, CVPreview.Minimal);
  }

  /** The form's edits above produce such a profile. */
  lemma FirstJobProfileShape()
    ensures FirstJobOnly(FirstJobProfile())
  {
  }

  /** The export page for that profile: file "CV_minimal.pdf" and a card
      with one position and no name. */
  lemma FirstJobExport()
    ensures ExportPage.ExportFilename(FirstJobProfile(), "minimal", "pdf") == "CV_minimal.pdf"
    ensures ExportPage.SummaryCardOf(FirstJobProfile(), "minimal")
      == ExportPage.SummaryCard("Not provided", "Not provided", "Minimal", 1, 0, 0)
  {
    var d := FirstJobProfile();
    ExportPage.FilenameOfParts(d, "minimal", "pdf", "CV", ".pdf");
    ExportPage.FilenameLiterals();
  }

  /** Adding an entry to a profile without experience and removing it again
      hides the experience section once more, in every layout. */
  lemma AddRemoveHidesAgain(d: CVData, id: string, layout: CVPreview.Layout)
    requires d.experience == []
    ensures CVPreview.Shows(CVPreview.Render(AddExperience(d, id), layout), CVPreview.ExperienceSection)
    ensures !CVPreview.Shows(CVPreview.Render(RemoveExperience(AddExperience(d, id), id), layout), CVPreview.ExperienceSection)
  {
    AddThenRemoveExperience(d, id);
    CVPreview.SectionSuppression(AddExperience(d, id), layout);
    CVPreview.SectionSuppression(d, layout);
  }
}
