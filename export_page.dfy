/** The export page's pure parts: the download filename, the template badge
    and the CV summary card. The download itself is not modelled. */
module ExportPage {
  import opened Builtins
  import opened App
  import CVPreview
  import ProfileEdits

  // ---------------------------------------------------------------------------
  // Filename

  /** `s.replace(/\s+/g, '_')`, scanning left to right: a whitespace
      character that starts a run becomes an underscore, one that continues a
      run (`inRun`) is dropped, and any other character is kept. */
  function ReplaceRuns(s: string, inRun: bool): (r: string)
    ensures |r| <= |s|
    ensures s != [] && !inRun ==> r != []
  {
    if s == [] then []
    else if IsWhitespace(s[0]) then (if inRun then "" else "_") + ReplaceRuns(s[1..], true)
    else [s[0]] + ReplaceRuns(s[1..], false)
  }

  function ReplaceWhitespaceRuns(s: string): (r: string)
    ensures r == [] <==> s == []
    ensures |r| <= |s|
  {
    ReplaceRuns(s, false)
  }

  /** Whether the scan is inside a whitespace run after reading `s`. */
  function EndsInRun(s: string, inRun: bool): bool {
    if s == [] then inRun else IsWhitespace(s[|s| - 1])
  }

  /** The scan of `a + b` is the scan of `a` followed by the scan of `b`
      started in the state `a` left it in. */
  lemma {:induction false} ReplaceRunsAppend(a: string, b: string, inRun: bool)
    ensures ReplaceRuns(a + b, inRun) == ReplaceRuns(a, inRun) + ReplaceRuns(b, EndsInRun(a, inRun))
  {
    if a == [] {
      assert a + b == b;
    } else {
      var c, t := a[0], a[1..];
      var next := IsWhitespace(c);
      assert a == [c] + t && a + b == [c] + (t + b);
      ReplaceRunsCons(c, t, inRun);
      ReplaceRunsCons(c, t + b, inRun);
      ReplaceRunsAppend(t, b, next);
      assert EndsInRun(t, next) == EndsInRun(a, inRun) by {
        if t != [] {
          assert t[|t| - 1] == a[|a| - 1];
        }
      }
      ConcatAssoc(Emitted(c, inRun), ReplaceRuns(t, next), ReplaceRuns(b, EndsInRun(t, next)));
    }
  }

  /** What the scan writes for the character `c`. */
  function Emitted(c: char, inRun: bool): string {
    if !IsWhitespace(c) then [c] else if inRun then "" else "_"
  }

  /** One step of the scan, on a string given as its first character and the rest. */
  lemma ReplaceRunsCons(c: char, s: string, inRun: bool)
    ensures ReplaceRuns([c] + s, inRun) == Emitted(c, inRun) + ReplaceRuns(s, IsWhitespace(c))
  {
    assert ([c] + s)[0] == c && ([c] + s)[1..] == s;
  }

  lemma ConcatAssoc(x: string, y: string, z: string)
    ensures x + (y + z) == (x + y) + z
  {
  }

  /** No whitespace is left after the replacement. */
  lemma {:induction false} ReplaceLeavesNoWhitespace(s: string, inRun: bool)
    ensures NoWhitespace(ReplaceRuns(s, inRun))
  {
    if s != [] {
      var next := IsWhitespace(s[0]);
      ReplaceLeavesNoWhitespace(s[1..], next);
      var head := if next then (if inRun then "" else "_") else [s[0]];
      var tail := ReplaceRuns(s[1..], next);
      assert ReplaceRuns(s, inRun) == head + tail;
      forall i | 0 <= i < |head + tail| ensures !IsWhitespace((head + tail)[i]) {
        if i >= |head| {
          assert (head + tail)[i] == tail[i - |head|];
        }
      }
    }
  }

  /** A string without whitespace is left as it is. */
  lemma {:induction false} ReplaceKeepsWord(s: string, inRun: bool)
    requires NoWhitespace(s)
    ensures ReplaceRuns(s, inRun) == s
  {
    if s != [] {
      assert !IsWhitespace(s[0]);
      ReplaceKeepsWord(s[1..], false);
      assert [s[0]] + s[1..] == s;
    }
  }

  /** A non-empty blank string becomes a single underscore. */
  lemma {:induction false} BlankBecomesUnderscore(s: string, inRun: bool)
    requires AllWhitespace(s)
    ensures ReplaceRuns(s, inRun) == if s == [] || inRun then "" else "_"
  {
    if s != [] {
      BlankBecomesUnderscore(s[1..], true);
    }
  }

  /** Two words with whitespace between them become the words joined by one
      underscore. */
  lemma TwoWords(w1: string, gap: string, w2: string)
    requires w1 != [] && NoWhitespace(w1) && NoWhitespace(w2)
    requires gap != [] && AllWhitespace(gap)
    ensures ReplaceWhitespaceRuns(w1 + gap + w2) == w1 + "_" + w2
  {
    assert !IsWhitespace(w1[|w1| - 1]);
    assert EndsInRun(w1, false) == false;
    assert EndsInRun(w1 + gap, false) by {
      assert (w1 + gap)[|w1 + gap| - 1] == gap[|gap| - 1];
    }
    ReplaceRunsAppend(w1, gap, false);
    ReplaceKeepsWord(w1, false);
    BlankBecomesUnderscore(gap, false);
    assert ReplaceRuns(w1 + gap, false) == w1 + "_";
    ReplaceRunsAppend(w1 + gap, w2, false);
    ReplaceKeepsWord(w2, true);
  }

  /** The name part of the filename: the name with its whitespace runs
      replaced, or "CV" when that is empty, which happens only for an empty
      name (a blank name gives "_"). */
  function FileStem(fullName: string): (stem: string)
    ensures stem != [] && NoWhitespace(stem)
    ensures fullName == "" ==> stem == "CV"
    ensures fullName != "" ==> stem == ReplaceWhitespaceRuns(fullName)
  {
    var replaced := ReplaceWhitespaceRuns(fullName);
    ReplaceLeavesNoWhitespace(fullName, false);
    if replaced == "" then "CV" else replaced
  }

  /** The extension chosen by the export option's id: ".pdf" for "pdf",
      ".docx" for "word" and ".html" for anything else, the print option
      included. */
  function Extension(format: string): (ext: string)
    ensures ext in {".pdf", ".docx", ".html"}
    ensures ext == ".pdf" <==> format == "pdf"
    ensures ext == ".docx" <==> format == "word"
  {
    if format == "pdf" then ".pdf" else if format == "word" then ".docx" else ".html"
  }

  /** `filename` in `handleExport`. */
  function ExportFilename(d: CVData, selectedTemplate: string, format: string): (f: string)
    ensures FileStem(d.personalInfo.fullName) + "_" <= f
    ensures |f| == |FileStem(d.personalInfo.fullName)| + 1 + |selectedTemplate| + |Extension(format)|
  {
    FileStem(d.personalInfo.fullName) + "_" + selectedTemplate + Extension(format)
  }

  /** The filename is the name part, an underscore, the template id and the
      extension; it has whitespace only where the template id does. */
  lemma FilenameShape(d: CVData, selectedTemplate: string, format: string)
    ensures var f := ExportFilename(d, selectedTemplate, format);
      var stem := FileStem(d.personalInfo.fullName);
      && |stem| < |f| && f[..|stem|] == stem && f[|stem|] == '_'
      && |Extension(format)| <= |f| && f[|f| - |Extension(format)|..] == Extension(format)
    ensures NoWhitespace(selectedTemplate) ==> NoWhitespace(ExportFilename(d, selectedTemplate, format))
  {
    var ext := Extension(format);
    assert NoWhitespace(ext);
    FilenameParts(FileStem(d.personalInfo.fullName), selectedTemplate, ext);
  }

  /** The layout of `stem + "_" + template + ext`. */
  lemma FilenameParts(stem: string, template: string, ext: string)
    requires NoWhitespace(stem) && NoWhitespace(ext)
    ensures var f := stem + "_" + template + ext;
      && |stem| < |f| && f[..|stem|] == stem && f[|stem|] == '_'
      && |ext| <= |f| && f[|f| - |ext|..] == ext
    ensures NoWhitespace(template) ==> NoWhitespace(stem + "_" + template + ext)
  {
    var f := stem + "_" + template + ext;
    assert f == stem + ("_" + template + ext);
    assert f == (stem + "_" + template) + ext;
    if NoWhitespace(template) {
      NoWhitespaceAppend(stem, "_");
      NoWhitespaceAppend(stem + "_", template);
      NoWhitespaceAppend(stem + "_" + template, ext);
    }
  }

  /** The filename's ending tells the format apart: it ends in ".pdf"
      exactly for "pdf" and in ".docx" exactly for "word". */
  lemma FilenameExtension(d: CVData, selectedTemplate: string, format: string)
    ensures var f := ExportFilename(d, selectedTemplate, format);
      (|f| >= 4 && f[|f| - 4..] == ".pdf") <==> format == "pdf"
    ensures var f := ExportFilename(d, selectedTemplate, format);
      (|f| >= 5 && f[|f| - 5..] == ".docx") <==> format == "word"
  {
    var f := ExportFilename(d, selectedTemplate, format);
    var ext := Extension(format);
    FilenameShape(d, selectedTemplate, format);
    var tail := f[|f| - |ext|..];
    assert tail == ext;
    assert f[|f| - 1] == ext[|ext| - 1];
    if format != "pdf" {
      assert |ext| == 5;
      assert f[|f| - 4] == ext[1];
      assert f[|f| - 4..][0] == f[|f| - 4];
    }
    if format != "word" && |f| >= 5 {
      assert f[|f| - 5..][4] == f[|f| - 1];
    }
  }

  lemma FilenameOfName(d: CVData)
    requires d.personalInfo.fullName == "Jane Doe"
    ensures ExportFilename(d, "modern", "pdf") == "Jane_Doe_modern.pdf"
  {
    JaneDoeStem(d.personalInfo.fullName);
    FilenameOfParts(d, "modern", "pdf", "Jane_Doe", ".pdf");
    FilenameLiterals();
  }

  lemma JaneDoeStem(name: string)
    requires name == "Jane Doe"
    ensures FileStem(name) == "Jane_Doe"
  {
    TwoWords("Jane", " ", "Doe");
    assert "Jane" + " " + "Doe" == name;
    assert "Jane" + "_" + "Doe" == "Jane_Doe";
  }

  /** Without a name the file is called "CV_…"; a blank name is not
      trimmed and leaves a lone underscore. */
  lemma FilenameWithoutName(d: CVData)
    ensures d.personalInfo.fullName == "" ==> ExportFilename(d, "classic", "word") == "CV_classic.docx"
    ensures d.personalInfo.fullName == "   " ==> ExportFilename(d, "minimal", "print") == "__minimal.html"
  {
    if d.personalInfo.fullName == "" {
      FilenameOfParts(d, "classic", "word", "CV", ".docx");
      FilenameLiterals();
    }
    if d.personalInfo.fullName == "   " {
      BlankStem(d.personalInfo.fullName);
      FilenameOfParts(d, "minimal", "print", "_", ".html");
      FilenameLiterals();
    }
  }

  lemma BlankStem(name: string)
    requires name == "   "
    ensures FileStem(name) == "_"
  {
    BlankBecomesUnderscore(name, false);
  }

  /** The filenames of the examples, written out in full. */
  lemma FilenameLiterals()
    ensures "CV" + "_" + "classic" + ".docx" == "CV_classic.docx"
    ensures "_" + "_" + "minimal" + ".html" == "__minimal.html"
    ensures "Jane_Doe" + "_" + "modern" + ".pdf" == "Jane_Doe_modern.pdf"
    ensures "CV" + "_" + "minimal" + ".pdf" == "CV_minimal.pdf"
  {
  }

  lemma FilenameOfParts(d: CVData, selectedTemplate: string, format: string, stem: string, ext: string)
    requires FileStem(d.personalInfo.fullName) == stem && Extension(format) == ext
    ensures ExportFilename(d, selectedTemplate, format) == stem + "_" + selectedTemplate + ext
  {
  }

  // ---------------------------------------------------------------------------
  // Template badge

  /** `getTemplateName`: the display names of the four templates, and
      "Modern" for any other id. */
  function TemplateName(selectedTemplate: string): (name: string)
    ensures name in {"Modern", "Classic", "Creative", "Minimal"}
    ensures selectedTemplate !in {"modern", "classic", "creative", "minimal"} ==> name == "Modern"
  {
    match selectedTemplate
    case "modern" => "Modern"
    case "classic" => "Classic"
    case "creative" => "Creative"
    case "minimal" => "Minimal"
    case _ => "Modern"
  }

  function LayoutName(l: CVPreview.Layout): string {
    match l
    case Modern => "Modern"
    case Classic => "Classic"
    case Creative => "Creative"
    case Minimal => "Minimal"
  }

  /** The badge names the layout the preview renders for the same id, known
      or unknown. */
  lemma {:induction false} BadgeMatchesPreview(selectedTemplate: string)
    ensures TemplateName(selectedTemplate) == LayoutName(CVPreview.LayoutOf(selectedTemplate))
  {
    match CVPreview.LayoutOf(selectedTemplate)
    case Modern =>
    case Classic =>
    case Creative =>
    case Minimal =>
  }

  // ---------------------------------------------------------------------------
  // Summary card

  datatype SummaryCard = SummaryCard(
    name: string,
    email: string,
    template: string,
    positions: nat,
    educationEntries: nat,
    skillsListed: nat)

  /** The "CV Summary" card: name and email, or "Not provided" when empty,
      the template badge, and the number of experience entries, education
      entries and skills. */
  function SummaryCardOf(d: CVData, selectedTemplate: string): (card: SummaryCard)
    ensures card.name == (if d.personalInfo.fullName == "" then "Not provided" else d.personalInfo.fullName)
    ensures card.email == (if d.personalInfo.email == "" then "Not provided" else d.personalInfo.email)
    ensures card.name != "" && card.email != ""
    ensures card.template == TemplateName(selectedTemplate)
    ensures card.positions == |d.experience| && card.educationEntries == |d.education|
    ensures card.skillsListed == |d.skills|
  {
    var p := d.personalInfo;
    SummaryCard(
      if p.fullName != "" then p.fullName else "Not provided",
      if p.email != "" then p.email else "Not provided",
      TemplateName(selectedTemplate),
      |d.experience|, |d.education|, |d.skills|)
  }

  /** The card's count texts: "{n} positions", "{n} entries", "{n} skills listed". */
  function CountLines(card: SummaryCard): (r: seq<string>)
    ensures |r| == 3
    ensures DecimalString(card.positions) <= r[0]
    ensures DecimalString(card.educationEntries) <= r[1]
    ensures DecimalString(card.skillsListed) <= r[2]
  {
    [ DecimalString(card.positions) + " positions",
      DecimalString(card.educationEntries) + " entries",
      DecimalString(card.skillsListed) + " skills listed" ]
  }

  /** The counts follow the form's edits: adding an entry raises its count by
      one and removing by an id that is not stored leaves it, while the other
      counts stay. */
  lemma CountsFollowEdits(d: CVData, t: string, id: string, skill: string)
    ensures SummaryCardOf(ProfileEdits.AddExperience(d, id), t).positions == SummaryCardOf(d, t).positions + 1
    ensures SummaryCardOf(ProfileEdits.AddEducation(d, id), t).educationEntries == SummaryCardOf(d, t).educationEntries + 1
    ensures SummaryCardOf(ProfileEdits.AddEducation(d, id), t).positions == SummaryCardOf(d, t).positions
    ensures !AllWhitespace(skill) ==> SummaryCardOf(ProfileEdits.AddSkill(d, skill), t).skillsListed == SummaryCardOf(d, t).skillsListed + 1
    ensures AllWhitespace(skill) ==> SummaryCardOf(ProfileEdits.AddSkill(d, skill), t) == SummaryCardOf(d, t)
    ensures (forall i :: 0 <= i < |d.experience| ==> d.experience[i].id != id) ==>
      SummaryCardOf(ProfileEdits.RemoveExperience(d, id), t) == SummaryCardOf(d, t)
  {
  }

  /** The card of the untouched initial profile. */
  lemma InitialSummaryCard(t: string)
    ensures SummaryCardOf(InitialCVData(), t) == SummaryCard("Not provided", "Not provided", TemplateName(t), 0, 0, 0)
    ensures CountLines(SummaryCardOf(InitialCVData(), t)) == ["0 positions", "0 entries", "0 skills listed"]
  {
    ZeroCountLines(SummaryCardOf(InitialCVData(), t));
  }

  lemma ZeroCountLines(card: SummaryCard)
    requires card.positions == 0 && card.educationEntries == 0 && card.skillsListed == 0
    ensures CountLines(card) == ["0 positions", "0 entries", "0 skills listed"]
  {
    assert DecimalString(0) == "0";
    assert "0" + " positions" == "0 positions";
    assert "0" + " entries" == "0 entries";
    assert "0" + " skills listed" == "0 skills listed";
  }
}
