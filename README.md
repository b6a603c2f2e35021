# CV builder: profile, wizard, templates and export, in Dafny

This project models the core of a single-page CV builder. The user fills in
a profile through a five-step wizard, previews it in one of four templates
(modern, classic, creative, minimal) and exports it under a generated
filename. Everything is held in memory.

The modules follow the program's files:

- `App` (`app.dfy`): the `CVData` profile record, its all-empty initial
  value, and the application shell. The shell is a class `AppState` holding
  the three pieces of state `App` keeps: the current screen token, the
  selected template id and the profile. It has one method per navigation
  callback, and `ShownScreen` is the `switch` that picks the screen,
  including its fall-back to the landing page.
- `ProfileEdits` (`profile_edits.dfy`): the form's pure snapshot builders.
  Each takes a profile and returns a new one. They cover:
  - editing a personal field;
  - adding, updating by id and removing by id experience and education
    entries;
  - adding a trimmed skill or achievement and removing one by position.
- `InputForm` (`input_form.dfy`): the fixed step order, the progress
  percentage, and step navigation. A class `Wizard` holds the form's own
  state: the current step and the two text boxes. It also holds the
  `AppState` it writes the profile into, and it calls that state's
  `onNext`/`onBack` callbacks.
- `CVPreview` (`cv_preview.dfy`): `formatDate` and the four layouts, each a
  function from a profile to a `Document`. A `Document` lists the
  document's sections in order. Each section has a kind, a region (main or
  sidebar), an optional heading, and its lines or entries. Markup and
  styling are not modelled. `RenderTemplate` is the `switch` that
  dispatches on the template id.
- `ExportPage` (`export_page.dfy`):
  - the download filename;
  - the template badge (`getTemplateName`);
  - the "CV Summary" card.
- `Scenarios` (`scenarios.dfy`): end-to-end walks. One enters a first job
  on the form, renders it as "minimal" and exports it. Another adds and
  removes an entry and re-renders.
- `Builtins` (`builtins.dfy`): the JavaScript built-ins the code relies on:
  - `trim` and the `\s` class, over the ECMAScript whitespace set;
  - `filter`, as used for removal by id and by position;
  - `join`;
  - decimal printing.

All ids, template ids, screen tokens and date tokens are plain strings, as
in the program.

## Model

| member | source | states |
|---|---|---|
| `App.InitialCVData` | src/App.tsx:44-58 | the initial profile has all six personal strings and the summary empty and all four lists empty |
| `App.BlankProfileIsInitial` | src/App.tsx:44-58 | a profile with every string and list empty is the initial one |
| `App.ShownScreen` | src/App.tsx:60-94 | "form", "preview" and "export" select their screen; every other value, "landing" included, selects the landing page |
| `App.ShownScreenOfToken` | src/App.tsx:61-91 | each screen's token selects that screen |
| `App.AppState.constructor` | src/App.tsx:42-58 | the application starts on "landing", with template "modern" and the initial profile |
| `App.AppState.GetStarted` | src/App.tsx:63 | get-started shows the form; template and profile kept |
| `App.AppState.FormNext` | src/App.tsx:69 | the form's onNext shows the preview; template and profile kept |
| `App.AppState.FormBack` | src/App.tsx:70 | the form's onBack shows the landing page; template and profile kept |
| `App.AppState.SetCVData` | src/App.tsx:68 | setCVData replaces the profile and touches nothing else |
| `App.AppState.PreviewBack` | src/App.tsx:79 | the preview's back shows the form |
| `App.AppState.PreviewExport` | src/App.tsx:80 | the preview's export shows the export page |
| `App.AppState.SelectTemplate` | src/App.tsx:78 | selecting a template stores that id; screen and profile kept |
| `App.AppState.ExportBack` | src/App.tsx:88 | the export page's back shows the preview |
| `App.AppState.StartOver` | src/App.tsx:89 | start-over shows the landing page and keeps the profile and template |
| `App.RoundTrip` | src/App.tsx:60-95 | a full round landing, form, preview, export, preview, export, landing keeps profile and template |
| `Builtins.TrimStart` | src/components/InputForm.tsx:100 | the result is a suffix without leading whitespace, and the part cut off is all whitespace |
| `Builtins.TrimEnd` | src/components/InputForm.tsx:100 | the result is a prefix without trailing whitespace, and the part cut off is all whitespace |
| `Builtins.Trim` | src/components/InputForm.tsx:100-103 | `trim` gives a slice of the input between blank margins, with neither end whitespace, and empty exactly for blank input |
| `Builtins.TrimOfTrimmed` | src/components/InputForm.tsx:103 | a string with no whitespace at either end trims to itself, so trimming twice is trimming once |
| `Builtins.Filter` | src/components/InputForm.tsx:64 | `filter` keeps exactly the accepted elements: everything kept is accepted and present, every accepted element is kept, and it is smaller whenever one is rejected |
| `Builtins.FilterAppend` | src/components/InputForm.tsx:64 | filtering distributes over concatenation, so relative order is kept |
| `Builtins.DropIndex` | src/components/InputForm.tsx:112 | filtering by `i !== index` drops exactly that position when in range and nothing otherwise |
| `Builtins.Join` | src/components/CVPreview.tsx:343 | `join` of no parts is "", of one part is that part, and always starts with the first part and ends with the last |
| `Builtins.JoinCons` | src/components/CVPreview.tsx:343 | a join of two or more parts is the first, the separator and the join of the rest |
| `Builtins.DecimalString` | src/components/ExportPage.tsx:156 | a number prints as non-empty digits without a leading zero whose value is the number |
| `ProfileEdits.SetPersonalField` | src/components/InputForm.tsx:161-164 | the edited personal field holds the new value and the other five are unchanged |
| `ProfileEdits.EditPersonalInfo` | src/components/InputForm.tsx:155-232 | a personal-info input changes just its field and nothing else of the profile |
| `ProfileEdits.SetExperienceField` | src/components/InputForm.tsx:56 | `{ ...exp, [field]: value }` sets the named field, keeps the id and every other field |
| `ProfileEdits.SetEducationField` | src/components/InputForm.tsx:87 | the same for an education entry |
| `ProfileEdits.SetExperienceFieldToItself` | src/components/InputForm.tsx:56 | writing back a field's own value leaves the entry unchanged |
| `ProfileEdits.NewExperience` | src/components/InputForm.tsx:40-48 | a new entry has the given id, all texts empty and current false |
| `ProfileEdits.AddExperience` | src/components/InputForm.tsx:37-50 | one new entry is appended at the end; earlier entries and all other profile fields unchanged |
| `ProfileEdits.UpdateExperience` | src/components/InputForm.tsx:52-59 | length, order and ids are kept; exactly the entries carrying the id get the field set; nothing else of the profile changes |
| `ProfileEdits.UpdateExperienceUnknownId` | src/components/InputForm.tsx:52-59 | an update addressed to an id no entry carries leaves the profile as it was |
| `ProfileEdits.RemoveExperience` | src/components/InputForm.tsx:61-66 | every entry carrying the id goes and every other one stays; shorter if the id matched, unchanged if not |
| `ProfileEdits.AddThenRemoveExperience` | src/components/InputForm.tsx:37-66 | removing a fresh id right after adding it restores the profile exactly |
| `ProfileEdits.NewEducation` | src/components/InputForm.tsx:71-79 | a new education entry has the given id, all texts empty and current false |
| `ProfileEdits.AddEducation` | src/components/InputForm.tsx:68-81 | one new education entry appended; all else unchanged |
| `ProfileEdits.UpdateEducation` | src/components/InputForm.tsx:83-90 | as for experience: length, order and ids kept, matching entries updated |
| `ProfileEdits.UpdateEducationUnknownId` | src/components/InputForm.tsx:83-90 | an unknown id changes nothing |
| `ProfileEdits.RemoveEducation` | src/components/InputForm.tsx:92-97 | every entry with the id removed, the rest kept; a no-op when none matches |
| `ProfileEdits.AddThenRemoveEducation` | src/components/InputForm.tsx:68-97 | add followed by remove of a fresh id restores the profile |
| `ProfileEdits.AppendTrimmed` | src/components/InputForm.tsx:99-106 | blank text leaves the list; other text appends its trim, which is non-empty and starts with a non-blank |
| `ProfileEdits.AddSkill` | src/components/InputForm.tsx:99-107 | blank input leaves the profile; otherwise the skills gain the trimmed input at the end and nothing else changes |
| `ProfileEdits.RemoveSkill` | src/components/InputForm.tsx:109-114 | exactly position `index` is dropped; an out-of-range index changes nothing |
| `ProfileEdits.AddAchievement` | src/components/InputForm.tsx:116-124 | as AddSkill, over the achievements |
| `ProfileEdits.RemoveAchievement` | src/components/InputForm.tsx:126-131 | as RemoveSkill, over the achievements |
| `ProfileEdits.AppendTrimmedThenDrop` | src/components/InputForm.tsx:99-114 | dropping the last position after an append restores the list |
| `ProfileEdits.AddThenRemoveSkill` | src/components/InputForm.tsx:99-114 | removing the skill just added restores the profile |
| `ProfileEdits.AddThenRemoveAchievement` | src/components/InputForm.tsx:116-131 | removing the achievement just added restores the profile |
| `ProfileEdits.AddSkillRejectsBlank` | src/components/InputForm.tsx:100 | "" and "   " leave the profile unchanged |
| `ProfileEdits.AddSkillAppendsTrimmed` | src/components/InputForm.tsx:100-103 | "Go" and "  Go\t" both append exactly "Go" |
| `InputForm.StepIndex` | src/components/InputForm.tsx:34 | the index is the first (and only) position of the step in the step list |
| `InputForm.StepTitlesDistinct` | src/components/InputForm.tsx:21-27 | no two steps carry the same title |
| `InputForm.ProgressPercent` | src/components/InputForm.tsx:35 | progress equals ((index + 1) / 5) * 100, is one of 20, 40, 60, 80, 100, and is 100 exactly on the last step |
| `InputForm.StepAfter` | src/components/InputForm.tsx:133-140 | the next step has index one higher; there is none exactly on the last step |
| `InputForm.StepBefore` | src/components/InputForm.tsx:142-147 | the previous step has index one lower; there is none exactly on the first step |
| `InputForm.StepAfterBefore` | src/components/InputForm.tsx:133-147 | forward then back, and back then forward, return to the same step |
| `InputForm.Wizard.constructor` | src/components/InputForm.tsx:30-32 | the form starts on the personal step with both input boxes empty |
| `InputForm.Wizard.Progress` | src/components/InputForm.tsx:35 | the bar shows 20 times the step's position, and 100 exactly on the skills step; `NextStep` raises it by 20 below 100 |
| `InputForm.Wizard.NextStep` | src/components/InputForm.tsx:133-140 | before the last step move one on with the screen kept; on the last step stay and show the preview; profile, template and boxes kept |
| `InputForm.Wizard.PrevStep` | src/components/InputForm.tsx:142-147 | move one back, or stay on the first step; boxes kept |
| `InputForm.Wizard.SelectStep` | src/components/InputForm.tsx:563 | a step button selects its step unconditionally |
| `InputForm.Wizard.Back` | src/components/InputForm.tsx:539 | the header's back shows the landing page and keeps the profile |
| `InputForm.Wizard.EditPersonalInfo` | src/components/InputForm.tsx:155-232 | the profile becomes EditPersonalInfo of the old one; only the profile changes |
| `InputForm.Wizard.EditSummary` | src/components/InputForm.tsx:246 | the summary takes the typed text; only the profile changes |
| `InputForm.Wizard.AddExperience` | src/components/InputForm.tsx:260 | the profile becomes AddExperience of the old one; only the profile changes |
| `InputForm.Wizard.UpdateExperience` | src/components/InputForm.tsx:295-346 | an entry input applies UpdateExperience; only the profile changes |
| `InputForm.Wizard.RemoveExperience` | src/components/InputForm.tsx:281 | the remove button applies RemoveExperience; only the profile changes |
| `InputForm.Wizard.AddEducation` | src/components/InputForm.tsx:362 | applies AddEducation; only the profile changes |
| `InputForm.Wizard.UpdateEducation` | src/components/InputForm.tsx:397-448 | applies UpdateEducation; only the profile changes |
| `InputForm.Wizard.RemoveEducation` | src/components/InputForm.tsx:383 | applies RemoveEducation; only the profile changes |
| `InputForm.Wizard.EditNewSkill` | src/components/InputForm.tsx:469 | the skill box holds the typed text |
| `InputForm.Wizard.AddSkill` | src/components/InputForm.tsx:99-107 | non-blank input appends its trim and clears the box; blank input changes neither profile nor box |
| `InputForm.Wizard.RemoveSkill` | src/components/InputForm.tsx:483 | applies RemoveSkill; only the profile changes |
| `InputForm.Wizard.EditNewAchievement` | src/components/InputForm.tsx:501 | the achievement box holds the typed text |
| `InputForm.Wizard.AddAchievement` | src/components/InputForm.tsx:116-124 | as AddSkill, with the achievement box |
| `InputForm.Wizard.RemoveAchievement` | src/components/InputForm.tsx:515 | applies RemoveAchievement; only the profile changes |
| `CVPreview.ParseMonthToken` | src/components/CVPreview.tsx:31-35 | a token that parses has seven characters with a dash at position 4, and gives a year 1..9999 and a month 1..12 |
| `CVPreview.MonthTokenRoundTrip` | src/components/CVPreview.tsx:31-35 | every year and month parse back from their token |
| `CVPreview.ParsedTokenRoundTrip` | src/components/CVPreview.tsx:31-35 | every token that parses is the token of what it parses to |
| `CVPreview.FormatDate` | src/components/CVPreview.tsx:31-35 | `formatDate` is "" exactly for the empty token, and "Invalid Date" for a "YYYY-MM"-shaped token whose month is not 01 to 12 |
| `CVPreview.FormatMonthToken` | src/components/CVPreview.tsx:33-34 | a month token formats as the month abbreviation, a space and the year |
| `CVPreview.FormatDateExamples` | src/components/CVPreview.tsx:33-34 | "2024-03" formats as "Mar 2024" and "2022-01" as "Jan 2022" |
| `CVPreview.InvalidMonthExamples` | src/components/CVPreview.tsx:33-34 | "2024-13" and "2024-00" format as "Invalid Date" |
| `CVPreview.DateRange` | src/components/CVPreview.tsx:69 | a current entry reads start, " - Present" whatever its end; a finished one reads start, " - ", end; with no start date it opens with " - " |
| `CVPreview.DisplayName` | src/components/CVPreview.tsx:41 | the heading is the full name, never empty, falling back to a placeholder |
| `CVPreview.NameFallback` | src/components/CVPreview.tsx:41 | every layout heads the document with the full name, or "Your Name" when it is empty |
| `CVPreview.PresentContacts` | src/components/CVPreview.tsx:337-343 | `filter(Boolean)` keeps exactly the non-empty contact fields |
| `CVPreview.PresentContactsEmpty` | src/components/CVPreview.tsx:337-343 | the contact list is empty exactly when all five fields are empty |
| `CVPreview.AllContactsPresent` | src/components/CVPreview.tsx:337-343 | with all five fields filled in, the list is the five in their fixed order |
| `CVPreview.MinimalContactLineShape` | src/components/CVPreview.tsx:337-343 | the minimal contact line is "" exactly when every field is empty; a given email comes first and a given website last |
| `CVPreview.MinimalContactLineEnds` | src/components/CVPreview.tsx:337-343 | the line starts with the first present field and ends with the last, so no separator leads or trails |
| `CVPreview.MinimalContactLinePair` | src/components/CVPreview.tsx:337-343 | email and phone alone are shown as email, " • ", phone |
| `CVPreview.MinimalContactLine` | src/components/CVPreview.tsx:337-343 | no contact field gives "", a single one gives that field alone |
| `CVPreview.ClassicLeadingBullet` | src/components/CVPreview.tsx:135-139 | with no email but a phone or a location, the classic contact line opens with a bullet |
| `CVPreview.ClassicContactLine` | src/components/CVPreview.tsx:134-139 | empty exactly when email, phone and location are; a given email comes first; without an email a phone or location brings a leading bullet; one span for the email and two (bullet, field) for phone and for location |
| `CVPreview.ClassicLinksLine` | src/components/CVPreview.tsx:140-146 | empty exactly when both links are; three spans exactly when both are; linkedin first and website last |
| `CVPreview.ClassicContact` | src/components/CVPreview.tsx:134-147 | the contact line always, and a second line exactly when a link is given |
| `CVPreview.ClassicLinks` | src/components/CVPreview.tsx:140-146 | the links line exists exactly when a link is given, and holds " • " between them exactly when both are |
| `CVPreview.Details` | src/components/CVPreview.tsx:73 | the description line appears exactly when the description is non-empty |
| `CVPreview.ExperienceItem` | src/components/CVPreview.tsx:64-74 | an experience entry shows its title and company, and a description line exactly when it has a description |
| `CVPreview.EducationItem` | src/components/CVPreview.tsx:85-95 | an education entry shows its degree and school, and a description line exactly when it has a description |
| `CVPreview.ExperienceItems` | src/components/CVPreview.tsx:64-74 | one entry per stored experience, in stored order |
| `CVPreview.EducationItems` | src/components/CVPreview.tsx:85-95 | one entry per stored education entry, in stored order |
| `CVPreview.TextLines` | src/components/CVPreview.tsx:106 | one line per skill, in order |
| `CVPreview.BulletLines` | src/components/CVPreview.tsx:120 | one "• " line per achievement, in order |
| `CVPreview.SkillItems` | src/components/CVPreview.tsx:101-112 | one line per skill in stored order (behind a bullet in classic, lines 206-215); a single " • "-joined line in minimal (lines 401-408) |
| `CVPreview.CurrentEntryIgnoresEnd` | src/components/CVPreview.tsx:69 | a current entry's dates end in " - Present" and do not depend on its end date; a finished one ends with its formatted end date |
| `CVPreview.CurrentEducationIgnoresEnd` | src/components/CVPreview.tsx:90 | the same "Present" rule for education entries |
| `CVPreview.Assemble` | src/components/CVPreview.tsx:52-125 | the shown sections are specs of the template whose data is present |
| `CVPreview.AssembleShows` | src/components/CVPreview.tsx:52-125 | a kind is shown exactly when its data is present and the template has a section of that kind |
| `CVPreview.AssembleKeeps` | src/components/CVPreview.tsx:52-125 | every section of the template whose data is present is shown |
| `CVPreview.AssembleIsFilter` | src/components/CVPreview.tsx:52-125 | the shown sections are the template's specs filtered by their conditions, so they keep the template's order |
| `CVPreview.LayoutCoversKinds` | src/components/CVPreview.tsx:37-423 | each of the four templates has a section of every kind |
| `CVPreview.ShownIffData` | src/components/CVPreview.tsx:37-423 | in every layout a section kind is shown exactly when its data is present |
| `CVPreview.SectionSuppression` | src/components/CVPreview.tsx:37-423 | in every layout contact is always shown and summary, experience, education, skills and achievements appear exactly when non-empty |
| `CVPreview.EntriesShown` | src/components/CVPreview.tsx:60-125 | with experience (education) entries stored, every layout's document contains the main-region section built from all of them, one item per entry in stored order; with skills (achievements) stored, it contains the layout's skills (achievements) section listing all of them in stored order |
| `CVPreview.ModernSections` | src/components/CVPreview.tsx:37-127 | six specs in the order contact, summary, experience, education, skills, achievements |
| `CVPreview.ClassicSections` | src/components/CVPreview.tsx:129-229 | the same six kinds in the same order |
| `CVPreview.CreativeSections` | src/components/CVPreview.tsx:231-329 | contact, skills, achievements in the sidebar, then summary, experience, education in the main column |
| `CVPreview.MinimalSections` | src/components/CVPreview.tsx:331-423 | the six kinds in the single-column order |
| `CVPreview.LayoutSections` | src/components/CVPreview.tsx:37-423 | every layout has six specs, one per kind, in its order; in creative the first three sit in the sidebar |
| `CVPreview.Render` | src/components/CVPreview.tsx:37-423 | each layout produces a document tagged with that layout |
| `CVPreview.LayoutOf` | src/components/CVPreview.tsx:425-436 | "classic", "creative" and "minimal" select their layout, and any other id selects modern |
| `CVPreview.RenderTemplate` | src/components/CVPreview.tsx:425-436 | the document has the layout the id selects and the display name as heading; any other id gives modern |
| `CVPreview.UnknownTemplateIsModern` | src/components/CVPreview.tsx:433-434 | any other id renders exactly as "modern" |
| `ExportPage.ReplaceRuns` | src/components/ExportPage.tsx:52 | the scan never lengthens the text, and a non-empty text outside a run gives non-empty output |
| `ExportPage.ReplaceWhitespaceRuns` | src/components/ExportPage.tsx:52 | the replacement is empty exactly for the empty name, and never longer than the name |
| `ExportPage.ReplaceRunsAppend` | src/components/ExportPage.tsx:52 | the replacement of a concatenation is the replacement of each part, the second continuing the first's run |
| `ExportPage.ReplaceLeavesNoWhitespace` | src/components/ExportPage.tsx:52 | no whitespace survives the replacement |
| `ExportPage.ReplaceKeepsWord` | src/components/ExportPage.tsx:52 | a name without whitespace is left as it is |
| `ExportPage.BlankBecomesUnderscore` | src/components/ExportPage.tsx:52 | a non-empty blank string becomes one underscore |
| `ExportPage.TwoWords` | src/components/ExportPage.tsx:52 | two words with any whitespace run between them become word "_" word |
| `ExportPage.FileStem` | src/components/ExportPage.tsx:52 | the stem has no whitespace and is never empty; it is "CV" for an empty name and the replaced name otherwise |
| `ExportPage.Extension` | src/components/ExportPage.tsx:52-53 | ".pdf" exactly for "pdf", ".docx" exactly for "word", ".html" for everything else |
| `ExportPage.ExportFilename` | src/components/ExportPage.tsx:52-53 | the filename opens with the stem and "_", and its length is the stem's, one, the template id's and the extension's |
| `ExportPage.FilenameShape` | src/components/ExportPage.tsx:52-53 | the filename starts with the stem and an underscore and ends with the extension; it carries whitespace only if the template id does |
| `ExportPage.FilenameExtension` | src/components/ExportPage.tsx:52-53 | the filename ends in ".pdf" exactly for "pdf" and in ".docx" exactly for "word" |
| `ExportPage.FilenameOfName` | src/components/ExportPage.tsx:52-53 | "Jane Doe" with modern and pdf gives "Jane_Doe_modern.pdf" |
| `ExportPage.FilenameWithoutName` | src/components/ExportPage.tsx:52-53 | an empty name gives "CV_classic.docx"; "   " with print gives "__minimal.html" |
| `ExportPage.TemplateName` | src/components/ExportPage.tsx:91-99 | the badge is one of the four display names, "Modern" for any unknown id |
| `ExportPage.BadgeMatchesPreview` | src/components/ExportPage.tsx:91-99 | the badge names the layout the preview renders for the same id |
| `ExportPage.SummaryCardOf` | src/components/ExportPage.tsx:139-164 | name and email or "Not provided", the template badge, and counts equal to the experience, education and skills lengths |
| `ExportPage.CountLines` | src/components/ExportPage.tsx:156-164 | three count lines, each opening with its count in decimal |
| `ExportPage.CountsFollowEdits` | src/components/ExportPage.tsx:156-164 | adding an entry or a non-blank skill raises its count by one; blank skills and unknown-id removals leave the card |
| `ExportPage.InitialSummaryCard` | src/components/ExportPage.tsx:139-164 | the initial profile reads "Not provided" twice and "0 positions", "0 entries", "0 skills listed" |
| `Scenarios.FirstJobProfile` | src/components/InputForm.tsx:37-59 | adding an entry to the initial profile and filling in title, company, start and current gives that one entry and nothing else |
| `Scenarios.FirstJobDates` | src/components/CVPreview.tsx:366 | a current entry from "2022-01" is dated "Jan 2022 - Present" |
| `Scenarios.FirstJobEntry` | src/components/CVPreview.tsx:356-375 | that entry renders as "Engineer", "Acme", "Jan 2022 - Present" without details |
| `Scenarios.FirstJobPreview` | src/components/CVPreview.tsx:331-423 | rendered as minimal: "Your Name", the entry under "Experience", and no summary, education, skills or achievements section |
| `Scenarios.FirstJobProfileShape` | src/components/InputForm.tsx:37-59 | the form's edits produce exactly the one-entry profile |
| `Scenarios.FirstJobExport` | src/components/ExportPage.tsx:52-164 | its file is "CV_minimal.pdf" and its card shows no name, template Minimal and one position |
| `Scenarios.AddRemoveHidesAgain` | src/components/InputForm.tsx:37-66 | adding an entry to a profile without experience shows the section; removing it again hides it, in every layout |

## Left out

- The landing page is static markup with one callback. Only its
  `onGetStarted` is modelled (`AppState.GetStarted`).
- Markup, CSS classes, colours, icons and grids are left out. One
  consequence is that the classic layout's upper-cased headings
  (`uppercase`) are a style, so headings keep the source's text.
- `jsPDF`, DOM anchors, `alert`, `navigator.share` and `navigator.clipboard`
  are foreign calls and I/O (src/components/ExportPage.tsx:55-89). Only the
  filename they would receive is modelled.
- `Date.now()` as the id source is a clock. New ids are a parameter of
  `AddExperience`/`AddEducation`, and nothing makes them unique. That is
  why `RemoveExperience` is stated for every entry carrying the id.
- Ids would be expected to be unique among the live entries. The code gives
  no such guarantee, and the model follows the code.
- `new Date(...).toLocaleDateString` is a foreign call. It is modelled by
  the month table over "YYYY-MM" tokens with a four-digit year of at least
  1, and by "Invalid Date" for a token of that shape whose month is 00 or
  above 12, as the code prints for a date that does not parse. Three
  consequences:
  - The time-zone effect is not reproduced: "YYYY-MM-01" is read as UTC but
    printed in local time, so west of UTC the browser shows the previous
    month.
  - Year "0000" with a legal month is valid ISO, so the code prints a date
    for it; the model shows the token itself.
  - Any other non-empty token is shown as it is. The code's output for
    such a token depends on the engine's date parser. The fields are
    `<Input type="month">` boxes (src/components/InputForm.tsx:312): a
    browser with a month picker can deliver a year of five or more digits,
    such as "20245-03", and a browser without one shows a plain text box
    where anything can be typed.
- The progress bar widget and `Math.round` are display only.
  `ProgressPercent` is the exact integer percentage.
- The form's own state (current step and both input boxes) is reset in
  the source whenever the form screen is entered again, because
  `InputForm` is mounted afresh after preview and back. The model's
  `Wizard` object outlives screen changes, so this reset is not modelled.
- In the source each `AppState` callback exists only while its own screen
  is shown. The model's methods can be called from any screen, so this
  restriction is not modelled.
- React hooks, re-rendering and the Enter key handler are framework
  mechanics. The Enter key handler calls the same `addSkill`/`addAchievement`
  the buttons do.
- The `value: any` of `updateExperience`/`updateEducation` writes arbitrary
  keys and values. The model takes a field name from the six fields and a
  value of that field's type (text, or a flag for `current`), which is what
  the form's inputs pass.
- `getTemplateName` has a JavaScript edge case: it is a plain-object lookup,
  so an id like "toString" would find an inherited property. The model
  treats every id other than the four as unknown ("Modern").
- In the classic header a separator would be expected only between two
  present fields. The code puts a bullet before phone and before location whenever each is
  present, so an empty email gives a leading bullet. The model follows the
  code (`ClassicLeadingBullet`).
- `MinimalContactLinePair`: the exact " • "-joined text is proved for two
  fields; the general shape for any number of fields is stated by
  `MinimalContactLineShape` and `MinimalContactLineEnds`.
