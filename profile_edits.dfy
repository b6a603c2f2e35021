/** The snapshot builders of the data-entry form: each takes the current
    profile and returns a new one, changing one list (or one field) and
    copying everything else, as the form's spread/`map`/`filter` updates do. */
module ProfileEdits {
  import opened Builtins
  import opened App

  // ---------------------------------------------------------------------------
  // Personal information and summary

  datatype PersonalField = FullName | Email | Phone | Location | Linkedin | Website

  function GetPersonalField(p: PersonalInfo, f: PersonalField): string {
    match f
    case FullName => p.fullName
    case Email => p.email
    case Phone => p.phone
    case Location => p.location
    case Linkedin => p.linkedin
    case Website => p.website
  }

  /** `{ ...cvData.personalInfo, [f]: value }`: field `f` now holds `value`
      and the other five fields are as before. */
  function SetPersonalField(p: PersonalInfo, f: PersonalField, value: string): (r: PersonalInfo)
    ensures GetPersonalField(r, f) == value
    ensures forall g :: g != f ==> GetPersonalField(r, g) == GetPersonalField(p, g)
  {
    match f
    case FullName => p.(fullName := value)
    case Email => p.(email := value)
    case Phone => p.(phone := value)
    case Location => p.(location := value)
    case Linkedin => p.(linkedin := value)
    case Website => p.(website := value)
  }

  /** An input box's `onChange` on the personal-information step. */
  function EditPersonalInfo(d: CVData, f: PersonalField, value: string): (r: CVData)
    ensures GetPersonalField(r.personalInfo, f) == value
    ensures forall g :: g != f ==> GetPersonalField(r.personalInfo, g) == GetPersonalField(d.personalInfo, g)
    ensures r.(personalInfo := d.personalInfo) == d
  {
    d.(personalInfo := SetPersonalField(d.personalInfo, f, value))
  }

  // ---------------------------------------------------------------------------
  // Fields of an entry, addressed by name

  /** What an input writes into an entry: text boxes pass a string, the
      "current" checkbox passes a boolean. */
  datatype FieldValue = Text(text: string) | Flag(flag: bool)

  datatype ExperienceField = Title | Company | StartDate | EndDate | Current | Description

  datatype EducationField = Degree | School | StartDate | EndDate | Current | Description

  predicate ExperienceValueFits(f: ExperienceField, v: FieldValue) {
    if f.Current? then v.Flag? else v.Text?
  }

  predicate EducationValueFits(f: EducationField, v: FieldValue) {
    if f.Current? then v.Flag? else v.Text?
  }

  function GetExperienceField(e: Experience, f: ExperienceField): (v: FieldValue)
    ensures ExperienceValueFits(f, v)
  {
    match f
    case Title => Text(e.title)
    case Company => Text(e.company)
    case StartDate => Text(e.startDate)
    case EndDate => Text(e.endDate)
    case Current => Flag(e.current)
    case Description => Text(e.description)
  }

  function GetEducationField(e: Education, f: EducationField): (v: FieldValue)
    ensures EducationValueFits(f, v)
  {
    match f
    case Degree => Text(e.degree)
    case School => Text(e.school)
    case StartDate => Text(e.startDate)
    case EndDate => Text(e.endDate)
    case Current => Flag(e.current)
    case Description => Text(e.description)
  }

  /** `{ ...exp, [field]: value }`: the named field takes the value, the id
      and every other field are kept. */
  function SetExperienceField(e: Experience, f: ExperienceField, v: FieldValue): (r: Experience)
    requires ExperienceValueFits(f, v)
    ensures r.id == e.id
    ensures GetExperienceField(r, f) == v
    ensures forall g :: g != f ==> GetExperienceField(r, g) == GetExperienceField(e, g)
  {
    match f
    case Title => e.(title := v.text)
    case Company => e.(company := v.text)
    case StartDate => e.(startDate := v.text)
    case EndDate => e.(endDate := v.text)
    case Current => e.(current := v.flag)
    case Description => e.(description := v.text)
  }

  /** `{ ...edu, [field]: value }`: the named field takes the value, the id
      and every other field are kept. */
  function SetEducationField(e: Education, f: EducationField, v: FieldValue): (r: Education)
    requires EducationValueFits(f, v)
    ensures r.id == e.id
    ensures GetEducationField(r, f) == v
    ensures forall g :: g != f ==> GetEducationField(r, g) == GetEducationField(e, g)
  {
    match f
    case Degree => e.(degree := v.text)
    case School => e.(school := v.text)
    case StartDate => e.(startDate := v.text)
    case EndDate => e.(endDate := v.text)
    case Current => e.(current := v.flag)
    case Description => e.(description := v.text)
  }

  /** Writing back the value a field already holds changes nothing. */
  lemma {:induction false} SetExperienceFieldToItself(e: Experience, f: ExperienceField)
    ensures SetExperienceField(e, f, GetExperienceField(e, f)) == e
  {
    match f
    case Title =>
    case Company =>
    case StartDate =>
    case EndDate =>
    case Current =>
    case Description =>
  }

  // ---------------------------------------------------------------------------
  // Experience entries

  /** The entry `addExperience` appends: all text empty, not current. */
  function NewExperience(id: string): (e: Experience)
    ensures e.id == id && !e.current
    ensures e.title == "" && e.company == "" && e.startDate == "" && e.endDate == "" && e.description == ""
  {
    Experience(id, "", "", "", "", false, "")
  }

  /** `addExperience`, with the `Date.now()` id passed in: one blank entry is
      appended after the existing ones, which stay as they were. */
  function AddExperience(d: CVData, id: string): (r: CVData)
    ensures |r.experience| == |d.experience| + 1
    ensures r.experience[..|d.experience|] == d.experience
    ensures r.experience[|d.experience|] == NewExperience(id)
    ensures r.(experience := d.experience) == d
  {
    d.(experience := d.experience + [NewExperience(id)])
  }

  /** `updateExperience`: the same entries in the same order, where every
      entry carrying `id` has field `f` set to `v` and all others are kept;
      no entry changes its id. */
  function UpdateExperience(d: CVData, id: string, f: ExperienceField, v: FieldValue): (r: CVData)
    requires ExperienceValueFits(f, v)
    ensures |r.experience| == |d.experience|
    ensures forall i :: 0 <= i < |d.experience| ==> r.experience[i].id == d.experience[i].id
    ensures forall i :: 0 <= i < |d.experience| ==>
      r.experience[i] == if d.experience[i].id == id then SetExperienceField(d.experience[i], f, v) else d.experience[i]
    ensures r.(experience := d.experience) == d
  {
    var es := d.experience;
    d.(experience := seq(|es|, i requires 0 <= i < |es| =>
      if es[i].id == id then SetExperienceField(es[i], f, v) else es[i]))
  }

  /** An update addressed to an id no entry carries leaves the profile as it was. */
  lemma UpdateExperienceUnknownId(d: CVData, id: string, f: ExperienceField, v: FieldValue)
    requires ExperienceValueFits(f, v)
    requires forall i :: 0 <= i < |d.experience| ==> d.experience[i].id != id
    ensures UpdateExperience(d, id, f, v) == d
  {
    var r := UpdateExperience(d, id, f, v);
    assert r.experience == d.experience;
  }

  function OtherExperienceId(id: string): Experience -> bool {
    (e: Experience) => e.id != id
  }

  /** `removeExperience`: every entry carrying `id` is dropped (ids come from a
      clock and may repeat), every other entry is kept, and nothing is added. */
  function RemoveExperience(d: CVData, id: string): (r: CVData)
    ensures forall i :: 0 <= i < |r.experience| ==> r.experience[i].id != id && r.experience[i] in d.experience
    ensures forall i :: 0 <= i < |d.experience| && d.experience[i].id != id ==> d.experience[i] in r.experience
    ensures (exists i :: 0 <= i < |d.experience| && d.experience[i].id == id) ==> |r.experience| < |d.experience|
    ensures (forall i :: 0 <= i < |d.experience| ==> d.experience[i].id != id) ==> r == d
    ensures r.(experience := d.experience) == d
  {
    d.(experience := Filter(d.experience, OtherExperienceId(id)))
  }

  /** Removing an entry right after adding it under an id no other entry
      carries gives back the profile exactly. */
  lemma {:induction false} AddThenRemoveExperience(d: CVData, id: string)
    requires forall i :: 0 <= i < |d.experience| ==> d.experience[i].id != id
    ensures RemoveExperience(AddExperience(d, id), id) == d
  {
    FilterAppend(d.experience, [NewExperience(id)], OtherExperienceId(id));
    assert Filter([NewExperience(id)], OtherExperienceId(id)) == [];
  }

  // ---------------------------------------------------------------------------
  // Education entries

  /** The entry `addEducation` appends: all text empty, not current. */
  function NewEducation(id: string): (e: Education)
    ensures e.id == id && !e.current
    ensures e.degree == "" && e.school == "" && e.startDate == "" && e.endDate == "" && e.description == ""
  {
    Education(id, "", "", "", "", false, "")
  }

  /** `addEducation`, with the `Date.now()` id passed in. */
  function AddEducation(d: CVData, id: string): (r: CVData)
    ensures |r.education| == |d.education| + 1
    ensures r.education[..|d.education|] == d.education
    ensures r.education[|d.education|] == NewEducation(id)
    ensures r.(education := d.education) == d
  {
    d.(education := d.education + [NewEducation(id)])
  }

  /** `updateEducation`: as `UpdateExperience`, over the education list. */
  function UpdateEducation(d: CVData, id: string, f: EducationField, v: FieldValue): (r: CVData)
    requires EducationValueFits(f, v)
    ensures |r.education| == |d.education|
    ensures forall i :: 0 <= i < |d.education| ==> r.education[i].id == d.education[i].id
    ensures forall i :: 0 <= i < |d.education| ==>
      r.education[i] == if d.education[i].id == id then SetEducationField(d.education[i], f, v) else d.education[i]
    ensures r.(education := d.education) == d
  {
    var es := d.education;
    d.(education := seq(|es|, i requires 0 <= i < |es| =>
      if es[i].id == id then SetEducationField(es[i], f, v) else es[i]))
  }

  lemma UpdateEducationUnknownId(d: CVData, id: string, f: EducationField, v: FieldValue)
    requires EducationValueFits(f, v)
    requires forall i :: 0 <= i < |d.education| ==> d.education[i].id != id
    ensures UpdateEducation(d, id, f, v) == d
  {
    var r := UpdateEducation(d, id, f, v);
    assert r.education == d.education;
  }

  function OtherEducationId(id: string): Education -> bool {
    (e: Education) => e.id != id
  }

  /** `removeEducation`: as `RemoveExperience`, over the education list. */
  function RemoveEducation(d: CVData, id: string): (r: CVData)
    ensures forall i :: 0 <= i < |r.education| ==> r.education[i].id != id && r.education[i] in d.education
    ensures forall i :: 0 <= i < |d.education| && d.education[i].id != id ==> d.education[i] in r.education
    ensures (exists i :: 0 <= i < |d.education| && d.education[i].id == id) ==> |r.education| < |d.education|
    ensures (forall i :: 0 <= i < |d.education| ==> d.education[i].id != id) ==> r == d
    ensures r.(education := d.education) == d
  {
    d.(education := Filter(d.education, OtherEducationId(id)))
  }

  lemma {:induction false} AddThenRemoveEducation(d: CVData, id: string)
    requires forall i :: 0 <= i < |d.education| ==> d.education[i].id != id
    ensures RemoveEducation(AddEducation(d, id), id) == d
  {
    FilterAppend(d.education, [NewEducation(id)], OtherEducationId(id));
    assert Filter([NewEducation(id)], OtherEducationId(id)) == [];
  }

  // ---------------------------------------------------------------------------
  // Skills and achievements

  /** The list after `addSkill`/`addAchievement` with input `text`: the
      trimmed text is appended, unless it is empty. */
  function AppendTrimmed(items: seq<string>, text: string): (r: seq<string>)
    ensures AllWhitespace(text) ==> r == items
    ensures !AllWhitespace(text) ==> |r| == |items| + 1 && r[..|items|] == items && r[|items|] == Trim(text)
    ensures !AllWhitespace(text) ==> r[|items|] != "" && !IsWhitespace(r[|items|][0])
  {
    var t := Trim(text);
    if t != "" then items + [t] else items
  }

  /** `addSkill`: the trimmed input is appended to the skills; blank input
      is ignored. Nothing but the skills changes. */
  function AddSkill(d: CVData, input: string): (r: CVData)
    ensures AllWhitespace(input) ==> r == d
    ensures !AllWhitespace(input) ==> r.skills == d.skills + [Trim(input)]
    ensures r.(skills := d.skills) == d
  {
    d.(skills := AppendTrimmed(d.skills, input))
  }

  /** `removeSkill`: exactly position `index` is dropped; an index outside
      the list changes nothing. */
  function RemoveSkill(d: CVData, index: int): (r: CVData)
    ensures 0 <= index < |d.skills| ==> |r.skills| == |d.skills| - 1 && r.skills == d.skills[..index] + d.skills[index + 1..]
    ensures !(0 <= index < |d.skills|) ==> r == d
    ensures r.(skills := d.skills) == d
  {
    d.(skills := DropIndex(d.skills, index))
  }

  /** `addAchievement`: as `AddSkill`, over the achievements. */
  function AddAchievement(d: CVData, input: string): (r: CVData)
    ensures AllWhitespace(input) ==> r == d
    ensures !AllWhitespace(input) ==> r.achievements == d.achievements + [Trim(input)]
    ensures r.(achievements := d.achievements) == d
  {
    d.(achievements := AppendTrimmed(d.achievements, input))
  }

  /** `removeAchievement`: as `RemoveSkill`, over the achievements. */
  function RemoveAchievement(d: CVData, index: int): (r: CVData)
    ensures 0 <= index < |d.achievements| ==>
      |r.achievements| == |d.achievements| - 1 && r.achievements == d.achievements[..index] + d.achievements[index + 1..]
    ensures !(0 <= index < |d.achievements|) ==> r == d
    ensures r.(achievements := d.achievements) == d
  {
    d.(achievements := DropIndex(d.achievements, index))
  }

  /** Appending with trimming and then dropping the last position gives the
      list back. */
  lemma {:induction false} AppendTrimmedThenDrop(items: seq<string>, text: string)
    ensures DropIndex(AppendTrimmed(items, text), |items|) == items
  {
    var r := AppendTrimmed(items, text);
    if !AllWhitespace(text) {
      assert r[..|items|] == items;
      assert r[|items| + 1..] == [];
    }
  }

  /** Removing the skill just added (at the end) restores the profile. */
  lemma {:induction false} AddThenRemoveSkill(d: CVData, input: string)
    ensures RemoveSkill(AddSkill(d, input), |d.skills|) == d
  {
    AppendTrimmedThenDrop(d.skills, input);
  }

  lemma {:induction false} AddThenRemoveAchievement(d: CVData, input: string)
    ensures RemoveAchievement(AddAchievement(d, input), |d.achievements|) == d
  {
    AppendTrimmedThenDrop(d.achievements, input);
  }

  /** Empty and whitespace-only input is rejected. */
  lemma AddSkillRejectsBlank(d: CVData)
    ensures AddSkill(d, "") == d
    ensures AddSkill(d, "   ") == d
  {
    assert AllWhitespace("   ") by {
      forall i | 0 <= i < 3 ensures IsWhitespace("   "[i]) {
        assert "   "[i] == ' ';
      }
    }
  }

  /** "Go" is appended as is, and surrounding blanks are trimmed away. */
  lemma AddSkillAppendsTrimmed(d: CVData)
    ensures AddSkill(d, "Go").skills == d.skills + ["Go"]
    ensures AddSkill(d, "  Go\t").skills == d.skills + ["Go"]
  {
    GoTrims();
    AddSkillOfTrim(d, "Go", "Go");
    AddSkillOfTrim(d, "  Go\t", "Go");
  }

  lemma GoTrims()
    ensures Trim("Go") == "Go" && Trim("  Go\t") == "Go"
  {
    assert !IsWhitespace("Go"[0]);
    TrimOfTrimmed("Go");
    PaddedGo("  Go\t");
  }

  lemma PaddedGo(s: string)
    requires s == "  Go\t"
    ensures Trim(s) == "Go"
  {
    assert s == [' '] + ([' '] + ("Go" + ['\t']));
    PaddedTrim(' ', '\t', "Go");
  }

  /** Input whose trim is a non-empty word appends that word. */
  lemma AddSkillOfTrim(d: CVData, input: string, w: string)
    requires Trim(input) == w && w != ""
    ensures AddSkill(d, input).skills == d.skills + [w]
  {
  }

  /** Two leading blanks and one trailing blank around a word are trimmed away. */
  lemma PaddedTrim(lead: char, trail: char, w: string)
    requires IsWhitespace(lead) && IsWhitespace(trail)
    requires w != [] && !IsWhitespace(w[0]) && !IsWhitespace(w[|w| - 1])
    ensures Trim([lead] + ([lead] + (w + [trail]))) == w
  {
    TrimStartSkips(lead, [lead] + (w + [trail]));
    TrimStartSkips(lead, w + [trail]);
    assert (w + [trail])[0] == w[0];
    assert TrimStart(w + [trail]) == w + [trail];
    TrimEndSkips(w, trail);
    assert TrimEnd(w) == w;
  }
}
