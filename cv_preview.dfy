/** The template rendering engine: a pure function from a profile and a
    template id to a document description. A document is the sequence of its
    sections (which region they sit in, their heading and their lines or
    entries) rather than markup; styling is not modelled. */
module CVPreview {
  import opened Builtins
  import opened App

  // ---------------------------------------------------------------------------
  // formatDate

  const MonthAbbreviations: seq<string> :=
    ["Jan", "Feb", "Mar", "Apr", "May", "Jun", "Jul", "Aug", "Sep", "Oct", "Nov", "Dec"]

  datatype YearMonth = YearMonth(year: nat, month: nat)

  /** Four digits, a dash and two digits: the ISO shape of a year and month. */
  predicate IsMonthShaped(t: string) {
    |t| == 7 && t[4] == '-' && IsDigit(t[0]) && IsDigit(t[1]) && IsDigit(t[2]) && IsDigit(t[3])
    && IsDigit(t[5]) && IsDigit(t[6])
  }

  /** The two-digit month field of a month-shaped token. */
  function MonthField(t: string): nat
    requires IsMonthShaped(t)
  {
    10 * DigitValue(t[5]) + DigitValue(t[6])
  }

  /** Reads a `"YYYY-MM"` token as stored by a month input: four digits, a
      dash, two digits, with year at least 1 and month 1 to 12. */
  function ParseMonthToken(t: string): (r: Option<YearMonth>)
    ensures r.Some? ==> 1 <= r.value.year <= 9999 && 1 <= r.value.month <= 12
    ensures r.Some? ==> |t| == 7 && t[4] == '-'
  {
    if IsMonthShaped(t) then
      var y := 1000 * DigitValue(t[0]) + 100 * DigitValue(t[1]) + 10 * DigitValue(t[2]) + DigitValue(t[3]);
      var m := MonthField(t);
      if 1 <= y && 1 <= m <= 12 then Some(YearMonth(y, m)) else None
    else
      None
  }

  /** The `"YYYY-MM"` token for a year and a month, zero-padded. */
  function MonthToken(year: nat, month: nat): (t: string)
    requires year <= 9999 && month <= 99
  {
    var q1 := year / 10;
    var q2 := q1 / 10;
    [DigitChar(q2 / 10), DigitChar(q2 % 10), DigitChar(q1 % 10), DigitChar(year % 10),
     '-', DigitChar(month / 10), DigitChar(month % 10)]
  }

  lemma DigitCharOfValue(c: char)
    requires IsDigit(c)
    ensures DigitChar(DigitValue(c)) == c
  {
  }

  /** Division by ten of a number written as `10 * q + r` with a digit `r`. */
  lemma DivTen(n: nat, q: nat, r: nat)
    requires r < 10 && n == 10 * q + r
    ensures n / 10 == q && n % 10 == r
  {
  }

  /** Tokens and year-month pairs are in one-to-one correspondence: parsing
      the token of a pair gives the pair back, and every token that parses is
      the token of what it parses to. */
  lemma MonthTokenRoundTrip(year: nat, month: nat)
    requires 1 <= year <= 9999 && 1 <= month <= 12
    ensures ParseMonthToken(MonthToken(year, month)) == Some(YearMonth(year, month))
  {
    var q1 := year / 10;
    var q2 := q1 / 10;
    assert year == 10 * q1 + year % 10;
    assert q1 == 10 * q2 + q1 % 10;
    assert q2 == 10 * (q2 / 10) + q2 % 10;
    assert month == 10 * (month / 10) + month % 10;
  }

  lemma ParsedTokenRoundTrip(t: string)
    requires ParseMonthToken(t).Some?
    ensures var ym := ParseMonthToken(t).value; MonthToken(ym.year, ym.month) == t
  {
    var ym := ParseMonthToken(t).value;
    var a, b, c, d := DigitValue(t[0]), DigitValue(t[1]), DigitValue(t[2]), DigitValue(t[3]);
    var e, f := DigitValue(t[5]), DigitValue(t[6]);
    var q1 := 100 * a + 10 * b + c;
    var q2 := 10 * a + b;
    DivTen(ym.year, q1, d);
    DivTen(q1, q2, c);
    DivTen(q2, a, b);
    DivTen(ym.month, e, f);
    DigitCharOfValue(t[0]); DigitCharOfValue(t[1]); DigitCharOfValue(t[2]); DigitCharOfValue(t[3]);
    DigitCharOfValue(t[5]); DigitCharOfValue(t[6]);
    var u := MonthToken(ym.year, ym.month);
    assert forall k :: 0 <= k < 7 ==> u[k] == t[k];
  }

  /** What `toLocaleDateString` prints for a date that did not parse. */
  const InvalidDate: string := "Invalid Date"

  /** `formatDate`: the empty token renders as "", a month token as the
      abbreviated month, a space and the year (what
      `toLocaleDateString('en-US', { month: 'short', year: 'numeric' })`
      prints for the first of that month), and a token of that shape whose
      month is not 01 to 12 as "Invalid Date"; any other token is shown as
      it is. */
  function FormatDate(token: string): (r: string)
    ensures token == "" <==> r == ""
    ensures IsMonthShaped(token) && !(1 <= MonthField(token) <= 12) ==> r == InvalidDate
  {
    if token == "" then ""
    else
      match ParseMonthToken(token)
      case Some(ym) => MonthAbbreviations[ym.month - 1] + " " + DecimalString(ym.year)
      case None => if IsMonthShaped(token) && !(1 <= MonthField(token) <= 12) then InvalidDate else token
  }

  /** Month 13 and month 00 do not make a date. */
  lemma InvalidMonthExamples()
    ensures FormatDate("2024-13") == InvalidDate
    ensures FormatDate("2024-00") == InvalidDate
  {
    IllegalMonth("2024-13");
    IllegalMonth("2024-00");
  }

  lemma IllegalMonth(t: string)
    requires t == "2024-13" || t == "2024-00"
    ensures IsMonthShaped(t) && !(1 <= MonthField(t) <= 12)
  {
  }

  /** The formatted date of a month token names the month and the year. */
  lemma FormatMonthToken(year: nat, month: nat)
    requires 1 <= year <= 9999 && 1 <= month <= 12
    ensures FormatDate(MonthToken(year, month)) == MonthAbbreviations[month - 1] + " " + DecimalString(year)
  {
    MonthTokenRoundTrip(year, month);
  }

  /** A token that parses is formatted from what it parses to. */
  lemma FormatParsed(t: string, year: nat, month: nat)
    requires t != "" && ParseMonthToken(t) == Some(YearMonth(year, month))
    ensures FormatDate(t) == MonthAbbreviations[month - 1] + " " + DecimalString(year)
  {
  }

  lemma DecimalString202()
    ensures DecimalString(202) == "202"
  {
    assert DecimalString(2) == "2";
    assert DecimalString(20) == "2" + "0";
    assert DecimalString(202) == "20" + "2";
  }

  lemma FormatDateExamples()
    ensures FormatDate("2024-03") == "Mar 2024"
    ensures FormatDate("2022-01") == "Jan 2022"
  {
    var march := "2024-03";
    assert ParseMonthToken(march) == Some(YearMonth(2024, 3));
    FormatParsed(march, 2024, 3);
    DecimalString202();
    assert DecimalString(2024) == "202" + "4";
    var january := "2022-01";
    assert ParseMonthToken(january) == Some(YearMonth(2022, 1));
    FormatParsed(january, 2022, 1);
    assert DecimalString(2022) == "202" + "2";
  }

  // ---------------------------------------------------------------------------
  // Documents

  datatype Layout = Modern | Classic | Creative | Minimal

  /** Creative puts some sections in a sidebar; the other layouts have one column. */
  datatype Region = Main | Sidebar

  datatype SectionKind =
    | ContactSection | SummarySection | ExperienceSection | EducationSection | SkillsSection | AchievementsSection

  /** A line is the sequence of texts it shows side by side; an entry is one
      experience or education item. */
  datatype Item =
    | Line(spans: seq<string>)
    | Entry(heading: string, organisation: string, dates: string, details: seq<string>)

  datatype Section = Section(kind: SectionKind, region: Region, title: Option<string>, items: seq<Item>)

  datatype Document = Document(layout: Layout, name: string, sections: seq<Section>)

  /** The condition each section of a template is wrapped in: the contact
      block is unconditional, the others need their data to be non-empty. */
  predicate HasData(d: CVData, k: SectionKind) {
    match k
    case ContactSection => true
    case SummarySection => d.summary != ""
    case ExperienceSection => |d.experience| > 0
    case EducationSection => |d.education| > 0
    case SkillsSection => |d.skills| > 0
    case AchievementsSection => |d.achievements| > 0
  }

  /** The sections of a template in the order it writes them, each shown only
      when its condition holds. */
  function Assemble(d: CVData, specs: seq<Section>): (ss: seq<Section>)
    ensures |ss| <= |specs|
    ensures forall i :: 0 <= i < |ss| ==> ss[i] in specs && HasData(d, ss[i].kind)
  {
    if specs == [] then []
    else (if HasData(d, specs[0].kind) then [specs[0]] else []) + Assemble(d, specs[1..])
  }

  /** The kinds of a template's sections, in order. */
  function KindsOf(specs: seq<Section>): (ks: seq<SectionKind>)
    ensures |ks| == |specs| && forall i :: 0 <= i < |specs| ==> ks[i] == specs[i].kind
  {
    seq(|specs|, i requires 0 <= i < |specs| => specs[i].kind)
  }

  /** A section of kind `k` is among `ss`. */
  predicate HasKind(ss: seq<Section>, k: SectionKind) {
    exists s :: s in ss && s.kind == k
  }

  predicate Shows(doc: Document, k: SectionKind) {
    HasKind(doc.sections, k)
  }

  // ---------------------------------------------------------------------------
  // Rules shared by the layouts

  /** `fullName || 'Your Name'`. */
  function DisplayName(p: PersonalInfo): (name: string)
    ensures name != ""
    ensures p.fullName != "" ==> name == p.fullName
  {
    if p.fullName != "" then p.fullName else "Your Name"
  }

  predicate Present(s: string) {
    s != ""
  }

  /** The contact fields in their fixed order. */
  function ContactFields(p: PersonalInfo): seq<string> {
    [p.email, p.phone, p.location, p.linkedin, p.website]
  }

  /** The non-empty contact fields, in the fixed order (`filter(Boolean)`). */
  function PresentContacts(p: PersonalInfo): (r: seq<string>)
    ensures |r| <= 5
    ensures forall i :: 0 <= i < |r| ==> r[i] != "" && r[i] in ContactFields(p)
    ensures forall i :: 0 <= i < 5 && ContactFields(p)[i] != "" ==> ContactFields(p)[i] in r
  {
    Filter(ContactFields(p), Present)
  }

  /** "Start - End" of an entry, where a current entry ends in "Present"
      whatever its stored end date. */
  function DateRange(startDate: string, endDate: string, current: bool): (r: string)
    ensures current ==> r == FormatDate(startDate) + " - Present"
    ensures !current ==> r == FormatDate(startDate) + " - " + FormatDate(endDate)
    ensures startDate == "" ==> r[..3] == " - "
  {
    FormatDate(startDate) + " - " + (if current then "Present" else FormatDate(endDate))
  }

  /** `{description && <p>…</p>}`: the description line only when there is one. */
  function Details(description: string): (r: seq<string>)
    ensures |r| <= 1 && (r == [] <==> description == "")
    ensures r != [] ==> r[0] == description
  {
    if description != "" then [description] else []
  }

  /** An experience entry: title, company, its date range and its description
      line, if any. */
  function ExperienceItem(e: Experience): (r: Item)
    ensures r.Entry? && r.heading == e.title && r.organisation == e.company
    ensures r.details == [] <==> e.description == ""
  {
    Entry(e.title, e.company, DateRange(e.startDate, e.endDate, e.current), Details(e.description))
  }

  /** An education entry: degree, school, its date range and its description
      line, if any. */
  function EducationItem(e: Education): (r: Item)
    ensures r.Entry? && r.heading == e.degree && r.organisation == e.school
    ensures r.details == [] <==> e.description == ""
  {
    Entry(e.degree, e.school, DateRange(e.startDate, e.endDate, e.current), Details(e.description))
  }

  /** `experience.map(...)`: one entry per stored entry, in stored order. */
  function ExperienceItems(es: seq<Experience>): (r: seq<Item>)
    ensures |r| == |es| && forall i :: 0 <= i < |es| ==> r[i] == ExperienceItem(es[i])
  {
    seq(|es|, i requires 0 <= i < |es| => ExperienceItem(es[i]))
  }

  function EducationItems(es: seq<Education>): (r: seq<Item>)
    ensures |r| == |es| && forall i :: 0 <= i < |es| ==> r[i] == EducationItem(es[i])
  {
    seq(|es|, i requires 0 <= i < |es| => EducationItem(es[i]))
  }

  /** One line per text, in order. */
  function TextLines(xs: seq<string>): (r: seq<Item>)
    ensures |r| == |xs| && forall i :: 0 <= i < |xs| ==> r[i] == Line([xs[i]])
  {
    seq(|xs|, i requires 0 <= i < |xs| => Line([xs[i]]))
  }

  const Bullet: string := "\U{2022}"
  const BulletSeparator: string := " \U{2022} "

  /** `• {text}` lines, one per text, in order. */
  function BulletLines(xs: seq<string>): (r: seq<Item>)
    ensures |r| == |xs| && forall i :: 0 <= i < |xs| ==> r[i] == Line([Bullet + " " + xs[i]])
  {
    seq(|xs|, i requires 0 <= i < |xs| => Line([Bullet + " " + xs[i]]))
  }

  function ExperienceSectionOf(d: CVData, region: Region, title: string): Section {
    Section(ExperienceSection, region, Some(title), ExperienceItems(d.experience))
  }

  function EducationSectionOf(d: CVData, region: Region): Section {
    Section(EducationSection, region, Some("Education"), EducationItems(d.education))
  }

  /** The creative layout puts its lists in the sidebar. */
  function ListRegion(layout: Layout): Region {
    if layout == Creative then Sidebar else Main
  }

  /** The lines of a layout's skills section: one per skill in stored order,
      each behind a bullet in the classic layout, and a single " • "-joined
      line in the minimal one. */
  function SkillItems(skills: seq<string>, layout: Layout): (r: seq<Item>)
    ensures layout == Minimal ==> r == [Line([Join(skills, BulletSeparator)])]
    ensures layout != Minimal ==> |r| == |skills|
    ensures layout != Minimal ==> forall i :: 0 <= i < |skills| ==>
      r[i] == Line([if layout == Classic then Bullet + " " + skills[i] else skills[i]])
  {
    match layout
    case Classic => BulletLines(skills)
    case Minimal => [Line([Join(skills, BulletSeparator)])]
    case _ => TextLines(skills)
  }

  function SkillsSectionOf(d: CVData, layout: Layout): Section {
    Section(SkillsSection, ListRegion(layout), Some("Skills"), SkillItems(d.skills, layout))
  }

  /** Every layout lists the achievements as bullet lines in stored order. */
  function AchievementsSectionOf(d: CVData, layout: Layout): Section {
    Section(AchievementsSection, ListRegion(layout), Some("Achievements"), BulletLines(d.achievements))
  }

  // ---------------------------------------------------------------------------
  // The four layouts

  /** Six specs: contact, summary, experience, education, skills, achievements. */
  predicate InColumnOrder(r: seq<Section>) {
    && |r| == 6
    && r[0].kind == ContactSection && r[1].kind == SummarySection && r[2].kind == ExperienceSection
    && r[3].kind == EducationSection && r[4].kind == SkillsSection && r[5].kind == AchievementsSection
  }

  /** Six specs: contact, skills, achievements, summary, experience, education. */
  predicate InSidebarFirstOrder(r: seq<Section>) {
    && |r| == 6
    && r[0].kind == ContactSection && r[1].kind == SkillsSection && r[2].kind == AchievementsSection
    && r[3].kind == SummarySection && r[4].kind == ExperienceSection && r[5].kind == EducationSection
  }

  /** The section specs of the modern layout, top to bottom. */
  function ModernSections(d: CVData): (r: seq<Section>)
    ensures InColumnOrder(r)
  {
    [ Section(ContactSection, Main, None, TextLines(PresentContacts(d.personalInfo))),
      Section(SummarySection, Main, Some("Professional Summary"), [Line([d.summary])]),
      ExperienceSectionOf(d, Main, "Work Experience"),
      EducationSectionOf(d, Main),
      SkillsSectionOf(d, Modern),
      AchievementsSectionOf(d, Modern) ]
  }

  /** The first contact line of the classic header: email, then a bullet
      before phone and before location whenever each is present. */
  function ClassicContactLine(p: PersonalInfo): (r: seq<string>)
    ensures r == [] <==> p.email == "" && p.phone == "" && p.location == ""
    ensures p.email != "" ==> r[0] == p.email
    ensures p.email == "" && (p.phone != "" || p.location != "") ==> r[0] == Bullet
    ensures |r| == (if p.email != "" then 1 else 0) + (if p.phone != "" then 2 else 0) + (if p.location != "" then 2 else 0)
  {
    (if p.email != "" then [p.email] else [])
    + (if p.phone != "" then [Bullet, p.phone] else [])
    + (if p.location != "" then [Bullet, p.location] else [])
  }

  /** The second contact line of the classic header: linkedin and website,
      separated only when both are present. */
  function ClassicLinksLine(p: PersonalInfo): (r: seq<string>)
    ensures r == [] <==> p.linkedin == "" && p.website == ""
    ensures |r| == 3 <==> p.linkedin != "" && p.website != ""
    ensures p.linkedin != "" ==> r[0] == p.linkedin
    ensures p.website != "" ==> r[|r| - 1] == p.website
  {
    (if p.linkedin != "" then [p.linkedin] else [])
    + (if p.website != "" && p.linkedin != "" then [BulletSeparator] else [])
    + (if p.website != "" then [p.website] else [])
  }

  /** The classic header: the contact line, and the links line when either
      link is present. */
  function ClassicContact(p: PersonalInfo): (r: seq<Item>)
    ensures 1 <= |r| <= 2 && r[0] == Line(ClassicContactLine(p))
    ensures |r| == 2 <==> p.linkedin != "" || p.website != ""
  {
    [Line(ClassicContactLine(p))]
    + (if p.linkedin != "" || p.website != "" then [Line(ClassicLinksLine(p))] else [])
  }

  function ClassicSections(d: CVData): (r: seq<Section>)
    ensures InColumnOrder(r)
  {
    [ Section(ContactSection, Main, None, ClassicContact(d.personalInfo)),
      Section(SummarySection, Main, Some("Summary"), [Line([d.summary])]),
      ExperienceSectionOf(d, Main, "Experience"),
      EducationSectionOf(d, Main),
      SkillsSectionOf(d, Classic),
      AchievementsSectionOf(d, Classic) ]
  }

  /** The creative layout writes its sidebar (contact, skills, achievements)
      before its main column (summary, experience, education). */
  function CreativeSections(d: CVData): (r: seq<Section>)
    ensures InSidebarFirstOrder(r)
    ensures forall i :: 0 <= i < 6 ==> (r[i].region == Sidebar <==> i < 3)
  {
    [ Section(ContactSection, Sidebar, Some("Contact"), TextLines(PresentContacts(d.personalInfo))),
      SkillsSectionOf(d, Creative),
      AchievementsSectionOf(d, Creative),
      Section(SummarySection, Main, Some("Professional Summary"), [Line([d.summary])]),
      ExperienceSectionOf(d, Main, "Experience"),
      EducationSectionOf(d, Main) ]
  }

  /** The minimal header's single contact line: the present contact fields
      joined by " • ". */
  function MinimalContactLine(p: PersonalInfo): (line: string)
    ensures PresentContacts(p) == [] ==> line == ""
    ensures |PresentContacts(p)| == 1 ==> line == PresentContacts(p)[0]
  {
    Join(PresentContacts(p), BulletSeparator)
  }

  /** The minimal layout's summary has no heading and its skills are one
      " • "-joined line. */
  function MinimalSections(d: CVData): (r: seq<Section>)
    ensures InColumnOrder(r)
  {
    [ Section(ContactSection, Main, None, [Line([MinimalContactLine(d.personalInfo)])]),
      Section(SummarySection, Main, None, [Line([d.summary])]),
      ExperienceSectionOf(d, Main, "Experience"),
      EducationSectionOf(d, Main),
      SkillsSectionOf(d, Minimal),
      AchievementsSectionOf(d, Minimal) ]
  }

  /** The specs of a layout: one of each kind, in the layout's order, and in
      the creative layout the first three in the sidebar. */
  function LayoutSections(d: CVData, layout: Layout): (r: seq<Section>)
    ensures if layout == Creative then InSidebarFirstOrder(r) else InColumnOrder(r)
    ensures layout == Creative ==> forall i :: 0 <= i < 6 ==> (r[i].region == Sidebar <==> i < 3)
  {
    match layout
    case Modern => ModernSections(d)
    case Classic => ClassicSections(d)
    case Creative => CreativeSections(d)
    case Minimal => MinimalSections(d)
  }

  /** The four `render…Template` functions: the name heading over the
      sections whose data is present. */
  function Render(d: CVData, layout: Layout): (doc: Document)
    ensures doc.layout == layout
  {
    Document(layout, DisplayName(d.personalInfo), Assemble(d, LayoutSections(d, layout)))
  }

  /** The `switch` of `renderTemplate`: three ids pick their layout and
      every other id, known or not, picks modern. */
  function LayoutOf(templateId: string): (l: Layout)
    ensures l == Classic <==> templateId == "classic"
    ensures l == Creative <==> templateId == "creative"
    ensures l == Minimal <==> templateId == "minimal"
  {
    match templateId
    case "classic" => Classic
    case "creative" => Creative
    case "minimal" => Minimal
    case _ => Modern
  }

  /** `renderTemplate` for the selected template. */
  function RenderTemplate(d: CVData, templateId: string): (doc: Document)
    ensures doc.layout == LayoutOf(templateId) && doc.name == DisplayName(d.personalInfo)
    ensures templateId !in {"classic", "creative", "minimal"} ==> doc.layout == Modern
  {
    Render(d, LayoutOf(templateId))
  }

  // ---------------------------------------------------------------------------
  // Properties of the rendering

  /** Any id other than the three named ones renders exactly as "modern" does. */
  lemma UnknownTemplateIsModern(d: CVData, templateId: string)
    requires templateId !in {"classic", "creative", "minimal"}
    ensures RenderTemplate(d, templateId) == RenderTemplate(d, "modern")
    ensures RenderTemplate(d, templateId).layout == Modern
  {
  }

  /** Every layout shows the full name, or "Your Name" when there is none. */
  lemma NameFallback(d: CVData, layout: Layout)
    ensures Render(d, layout).name == if d.personalInfo.fullName == "" then "Your Name" else d.personalInfo.fullName
  {
  }

  /** A kind is shown exactly when its condition holds and the template has
      a spec of that kind. */
  lemma {:induction false} AssembleShows(d: CVData, specs: seq<Section>)
    ensures forall k :: HasKind(Assemble(d, specs), k) <==> HasData(d, k) && k in KindsOf(specs)
  {
    if specs != [] {
      AssembleShows(d, specs[1..]);
      var head := if HasData(d, specs[0].kind) then [specs[0]] else [];
      var rest := Assemble(d, specs[1..]);
      assert KindsOf(specs) == [specs[0].kind] + KindsOf(specs[1..]);
      forall k ensures HasKind(head + rest, k) <==> HasData(d, k) && k in KindsOf(specs) {
        if HasKind(head + rest, k) {
          var s: Section :| s in head + rest && s.kind == k;
          if s in head {
            assert s == specs[0];
          } else {
            assert HasKind(rest, k);
          }
        }
        if HasData(d, k) && k in KindsOf(specs) {
          if k == specs[0].kind {
            assert specs[0] in head + rest;
          } else {
            assert HasKind(rest, k);
            var s: Section :| s in rest && s.kind == k;
            assert s in head + rest;
          }
        }
      }
    }
  }

  /** The shown sections are the specs filtered by their conditions, so by
      `FilterAppend` they keep the template's order. */
  lemma {:induction false} AssembleIsFilter(d: CVData, specs: seq<Section>)
    ensures Assemble(d, specs) == Filter(specs, (s: Section) => HasData(d, s.kind))
  {
    if specs != [] {
      AssembleIsFilter(d, specs[1..]);
    }
  }

  /** The kinds in the order of the single-column layouts, and in the order
      of the creative layout (sidebar first). */
  const ColumnKinds: seq<SectionKind> :=
    [ContactSection, SummarySection, ExperienceSection, EducationSection, SkillsSection, AchievementsSection]
  const SidebarFirstKinds: seq<SectionKind> :=
    [ContactSection, SkillsSection, AchievementsSection, SummarySection, ExperienceSection, EducationSection]

  lemma {:induction false} KindsListed(ks: seq<SectionKind>)
    requires ks == ColumnKinds || ks == SidebarFirstKinds
    ensures forall k :: k in ks
  {
    forall k ensures k in ks {
      var i :=
        match k
        case ContactSection => 0
        case SummarySection => if ks == SidebarFirstKinds then 3 else 1
        case ExperienceSection => if ks == SidebarFirstKinds then 4 else 2
        case EducationSection => if ks == SidebarFirstKinds then 5 else 3
        case SkillsSection => if ks == SidebarFirstKinds then 1 else 4
        case AchievementsSection => if ks == SidebarFirstKinds then 2 else 5;
      assert ks[i] == k;
    }
  }

  lemma KindsInColumns(specs: seq<Section>)
    requires InColumnOrder(specs)
    ensures KindsOf(specs) == ColumnKinds
  {
  }

  lemma KindsSidebarFirst(specs: seq<Section>)
    requires InSidebarFirstOrder(specs)
    ensures KindsOf(specs) == SidebarFirstKinds
  {
  }

  /** Every template has one spec of each kind. */
  lemma {:induction false} LayoutCoversKinds(d: CVData, layout: Layout)
    ensures forall k :: k in KindsOf(LayoutSections(d, layout))
  {
    match layout
    case Modern => ModernKinds(d); KindsListed(ColumnKinds);
    case Classic => ClassicKinds(d); KindsListed(ColumnKinds);
    case Creative => CreativeKinds(d); KindsListed(SidebarFirstKinds);
    case Minimal => MinimalKinds(d); KindsListed(ColumnKinds);
  }

  /** The kinds of each layout's specs, in order. */
  lemma ModernKinds(d: CVData)
    ensures KindsOf(ModernSections(d)) == ColumnKinds
  {
    KindsInColumns(ModernSections(d));
  }

  lemma ClassicKinds(d: CVData)
    ensures KindsOf(ClassicSections(d)) == ColumnKinds
  {
    KindsInColumns(ClassicSections(d));
  }

  lemma CreativeKinds(d: CVData)
    ensures KindsOf(CreativeSections(d)) == SidebarFirstKinds
  {
    KindsSidebarFirst(CreativeSections(d));
  }

  lemma MinimalKinds(d: CVData)
    ensures KindsOf(MinimalSections(d)) == ColumnKinds
  {
    KindsInColumns(MinimalSections(d));
  }

  /** In every layout a section is shown exactly when its condition holds. */
  lemma ShownIffData(d: CVData, layout: Layout)
    ensures forall k :: Shows(Render(d, layout), k) <==> HasData(d, k)
  {
    AssembleShows(d, LayoutSections(d, layout));
    LayoutCoversKinds(d, layout);
  }

  /** In every layout the contact block is always shown and each of summary,
      experience, education, skills and achievements is shown exactly when
      its data is non-empty. */
  lemma SectionSuppression(d: CVData, layout: Layout)
    ensures Shows(Render(d, layout), ContactSection)
    ensures Shows(Render(d, layout), SummarySection) <==> d.summary != ""
    ensures Shows(Render(d, layout), ExperienceSection) <==> |d.experience| > 0
    ensures Shows(Render(d, layout), EducationSection) <==> |d.education| > 0
    ensures Shows(Render(d, layout), SkillsSection) <==> |d.skills| > 0
    ensures Shows(Render(d, layout), AchievementsSection) <==> |d.achievements| > 0
  {
    ShownIffData(d, layout);
    ShownKinds(d, Render(d, layout));
  }

  lemma ShownKinds(d: CVData, doc: Document)
    requires forall k :: Shows(doc, k) <==> HasData(d, k)
    ensures Shows(doc, ContactSection)
    ensures Shows(doc, SummarySection) <==> d.summary != ""
    ensures Shows(doc, ExperienceSection) <==> |d.experience| > 0
    ensures Shows(doc, EducationSection) <==> |d.education| > 0
    ensures Shows(doc, SkillsSection) <==> |d.skills| > 0
    ensures Shows(doc, AchievementsSection) <==> |d.achievements| > 0
  {
    assert HasData(d, ContactSection);
  }

  /** A spec whose condition holds is one of the sections shown. */
  lemma {:induction false} AssembleKeeps(d: CVData, specs: seq<Section>, i: nat)
    requires i < |specs| && HasData(d, specs[i].kind)
    ensures specs[i] in Assemble(d, specs)
  {
    if i > 0 {
      AssembleKeeps(d, specs[1..], i - 1);
      assert specs[1..][i - 1] == specs[i];
    }
  }

  /** The heading of the experience section: "Work Experience" in the modern
      layout and "Experience" in the others. */
  function ExperienceTitle(layout: Layout): string {
    if layout == Modern then "Work Experience" else "Experience"
  }

  /** With at least one entry stored, every layout shows an experience
      section holding one entry per stored experience, in stored order, and
      an education section likewise; with at least one skill or achievement,
      it shows the layout's skills or achievements section, which lists them
      all in stored order. */
  lemma EntriesShown(d: CVData, layout: Layout)
    ensures |d.experience| > 0 ==> ExperienceSectionOf(d, Main, ExperienceTitle(layout)) in Render(d, layout).sections
    ensures |d.education| > 0 ==> EducationSectionOf(d, Main) in Render(d, layout).sections
    ensures |d.skills| > 0 ==> SkillsSectionOf(d, layout) in Render(d, layout).sections
    ensures |d.achievements| > 0 ==> AchievementsSectionOf(d, layout) in Render(d, layout).sections
  {
    EntrySpecs(d, layout);
    KeepEntries(d, LayoutSections(d, layout), if layout == Creative then 4 else 2, ExperienceTitle(layout));
    ListSpecs(d, layout);
    KeepLists(d, layout, LayoutSections(d, layout), if layout == Creative then 1 else 4);
  }

  /** Where a layout places its skills and achievements specs. */
  lemma ListSpecs(d: CVData, layout: Layout)
    ensures var specs := LayoutSections(d, layout);
      var k := if layout == Creative then 1 else 4;
      && |specs| == 6
      && specs[k] == SkillsSectionOf(d, layout)
      && specs[k + 1] == AchievementsSectionOf(d, layout)
  {
    match layout
    case Modern => assert ModernSections(d)[4] == SkillsSectionOf(d, Modern);
    case Classic => assert ClassicSections(d)[4] == SkillsSectionOf(d, Classic);
    case Creative => assert CreativeSections(d)[1] == SkillsSectionOf(d, Creative);
    case Minimal => assert MinimalSections(d)[4] == SkillsSectionOf(d, Minimal);
  }

  lemma KeepLists(d: CVData, layout: Layout, specs: seq<Section>, k: nat)
    requires k + 1 < |specs|
    requires specs[k] == SkillsSectionOf(d, layout) && specs[k + 1] == AchievementsSectionOf(d, layout)
    ensures |d.skills| > 0 ==> SkillsSectionOf(d, layout) in Assemble(d, specs)
    ensures |d.achievements| > 0 ==> AchievementsSectionOf(d, layout) in Assemble(d, specs)
  {
    if |d.skills| > 0 {
      AssembleKeeps(d, specs, k);
    }
    if |d.achievements| > 0 {
      AssembleKeeps(d, specs, k + 1);
    }
  }

  /** Where a layout places its experience and education specs. */
  lemma EntrySpecs(d: CVData, layout: Layout)
    ensures var specs := LayoutSections(d, layout);
      var e := if layout == Creative then 4 else 2;
      && |specs| == 6
      && specs[e] == ExperienceSectionOf(d, Main, ExperienceTitle(layout))
      && specs[e + 1] == EducationSectionOf(d, Main)
  {
    match layout
    case Modern => ModernEntrySpecs(d);
    case Classic => ClassicEntrySpecs(d);
    case Creative => CreativeEntrySpecs(d);
    case Minimal => MinimalEntrySpecs(d);
  }

  lemma ModernEntrySpecs(d: CVData)
    ensures |ModernSections(d)| == 6
    ensures ModernSections(d)[2] == ExperienceSectionOf(d, Main, "Work Experience")
    ensures ModernSections(d)[3] == EducationSectionOf(d, Main)
  {
  }

  lemma ClassicEntrySpecs(d: CVData)
    ensures |ClassicSections(d)| == 6
    ensures ClassicSections(d)[2] == ExperienceSectionOf(d, Main, "Experience")
    ensures ClassicSections(d)[3] == EducationSectionOf(d, Main)
  {
  }

  lemma CreativeEntrySpecs(d: CVData)
    ensures |CreativeSections(d)| == 6
    ensures CreativeSections(d)[4] == ExperienceSectionOf(d, Main, "Experience")
    ensures CreativeSections(d)[5] == EducationSectionOf(d, Main)
  {
  }

  lemma MinimalEntrySpecs(d: CVData)
    ensures |MinimalSections(d)| == 6
    ensures MinimalSections(d)[2] == ExperienceSectionOf(d, Main, "Experience")
    ensures MinimalSections(d)[3] == EducationSectionOf(d, Main)
  {
  }

  lemma KeepEntries(d: CVData, specs: seq<Section>, e: nat, title: string)
    requires e + 1 < |specs|
    requires specs[e] == ExperienceSectionOf(d, Main, title) && specs[e + 1] == EducationSectionOf(d, Main)
    ensures |d.experience| > 0 ==> ExperienceSectionOf(d, Main, title) in Assemble(d, specs)
    ensures |d.education| > 0 ==> EducationSectionOf(d, Main) in Assemble(d, specs)
  {
    if |d.experience| > 0 {
      AssembleKeeps(d, specs, e);
    }
    if |d.education| > 0 {
      AssembleKeeps(d, specs, e + 1);
    }
  }

  /** A current experience entry ends in "Present" and its stored end date is
      not shown; a finished one ends with its formatted end date. */
  lemma CurrentEntryIgnoresEnd(e: Experience, otherEnd: string)
    ensures e.current ==> ExperienceItem(e).dates == FormatDate(e.startDate) + " - Present"
    ensures e.current ==> ExperienceItem(e.(endDate := otherEnd)) == ExperienceItem(e)
    ensures !e.current ==> ExperienceItem(e).dates == FormatDate(e.startDate) + " - " + FormatDate(e.endDate)
  {
  }

  /** The same rule for education entries. */
  lemma CurrentEducationIgnoresEnd(e: Education, otherEnd: string)
    ensures e.current ==> EducationItem(e).dates == FormatDate(e.startDate) + " - Present"
    ensures e.current ==> EducationItem(e.(endDate := otherEnd)) == EducationItem(e)
    ensures !e.current ==> EducationItem(e).dates == FormatDate(e.startDate) + " - " + FormatDate(e.endDate)
  {
  }

  /** The contact list is empty exactly when all five contact fields are. */
  lemma PresentContactsEmpty(p: PersonalInfo)
    ensures PresentContacts(p) == [] <==> (p.email == "" && p.phone == "" && p.location == "" && p.linkedin == "" && p.website == "")
  {
    var r := PresentContacts(p);
    var fs := ContactFields(p);
    if r != [] {
      assert r[0] in fs;
    }
    if p.email != "" { assert fs[0] in r; }
    if p.phone != "" { assert fs[1] in r; }
    if p.location != "" { assert fs[2] in r; }
    if p.linkedin != "" { assert fs[3] in r; }
    if p.website != "" { assert fs[4] in r; }
  }

  /** The minimal contact line is empty exactly when no contact field is
      filled in; otherwise it starts with the first filled-in field and ends
      with the last one, so no separator leads or trails (an email, when
      given, comes first and a website last). */
  lemma MinimalContactLineShape(p: PersonalInfo)
    ensures MinimalContactLine(p) == "" <==>
      (p.email == "" && p.phone == "" && p.location == "" && p.linkedin == "" && p.website == "")
    ensures p.email != "" ==> MinimalContactLine(p)[..|p.email|] == p.email
    ensures p.website != "" ==>
      |p.website| <= |MinimalContactLine(p)| && MinimalContactLine(p)[|MinimalContactLine(p)| - |p.website|..] == p.website
  {
    PresentContactsEmpty(p);
    var r := PresentContacts(p);
    var line := MinimalContactLine(p);
    if r != [] {
      MinimalContactLineEnds(p, r, line);
      assert r[0] != "";
    }
    if p.email != "" {
      EmailFirst(p);
    }
    if p.website != "" {
      WebsiteLast(p);
    }
  }

  lemma EmailFirst(p: PersonalInfo)
    requires p.email != ""
    ensures PresentContacts(p) != [] && PresentContacts(p)[0] == p.email
  {
    KeepFirst(p.email, [p.phone, p.location, p.linkedin, p.website]);
    assert ContactFields(p) == [p.email] + [p.phone, p.location, p.linkedin, p.website];
  }

  lemma WebsiteLast(p: PersonalInfo)
    requires p.website != ""
    ensures var r := PresentContacts(p); r != [] && r[|r| - 1] == p.website
  {
    KeepLast([p.email, p.phone, p.location, p.linkedin], p.website);
    assert ContactFields(p) == [p.email, p.phone, p.location, p.linkedin] + [p.website];
  }

  /** A present first field is the first one kept. */
  lemma KeepFirst(a: string, rest: seq<string>)
    requires a != ""
    ensures Filter([a] + rest, Present) == [a] + Filter(rest, Present)
  {
    assert ([a] + rest)[1..] == rest;
  }

  /** A present last field is the last one kept. */
  lemma KeepLast(init: seq<string>, w: string)
    requires w != ""
    ensures Filter(init + [w], Present) == Filter(init, Present) + [w]
  {
    FilterAppend(init, [w], Present);
    assert [w][1..] == [];
  }

  lemma AllContactsPresent(p: PersonalInfo)
    requires p.email != "" && p.phone != "" && p.location != "" && p.linkedin != "" && p.website != ""
    ensures PresentContacts(p) == [p.email, p.phone, p.location, p.linkedin, p.website]
  {
    var fs := ContactFields(p);
    assert forall i :: 0 <= i < |fs| ==> Present(fs[i]);
  }

  /** The minimal contact line starts with the first filled-in contact
      field and ends with the last one. */
  lemma MinimalContactLineEnds(p: PersonalInfo, r: seq<string>, line: string)
    requires r == PresentContacts(p) && line == MinimalContactLine(p) && r != []
    ensures |r[0]| <= |line| && line[..|r[0]|] == r[0]
    ensures |r[|r| - 1]| <= |line| && line[|line| - |r[|r| - 1]|..] == r[|r| - 1]
  {
  }

  /** Two filled-in contact fields are shown with " • " between them. */
  lemma MinimalContactLinePair(p: PersonalInfo)
    requires p.email != "" && p.phone != "" && p.location == "" && p.linkedin == "" && p.website == ""
    ensures MinimalContactLine(p) == p.email + BulletSeparator + p.phone
  {
    PairContacts(p);
    JoinPair(p.email, p.phone, BulletSeparator);
  }

  lemma PairContacts(p: PersonalInfo)
    requires p.email != "" && p.phone != "" && p.location == "" && p.linkedin == "" && p.website == ""
    ensures PresentContacts(p) == [p.email, p.phone]
  {
    KeepPresentPair(p.email, p.phone);
  }

  /** Two present fields followed by three empty ones filter to the two. */
  lemma KeepPresentPair(a: string, b: string)
    requires a != "" && b != ""
    ensures Filter([a, b, "", "", ""], Present) == [a, b]
  {
    KeepBothDropBlanks(a, b);
    assert [a, b, "", "", ""] == [a, b] + ["", "", ""];
  }

  lemma KeepBothDropBlanks(a: string, b: string)
    requires a != "" && b != ""
    ensures Filter([a, b] + ["", "", ""], Present) == [a, b]
  {
    FilterAppend([a, b], ["", "", ""], Present);
    FilterNone(["", "", ""], Present);
    KeepBoth(a, b);
  }

  lemma KeepBoth(a: string, b: string)
    requires a != "" && b != ""
    ensures Filter([a, b], Present) == [a, b]
  {
    assert [a, b][1..] == [b];
    assert [b][1..] == [];
    assert Filter([b], Present) == [b];
  }

  /** The classic contact line opens with a bullet when the email is missing
      and a phone number or a location is present. */
  lemma ClassicLeadingBullet(p: PersonalInfo)
    requires p.email == "" && (p.phone != "" || p.location != "")
    ensures ClassicContactLine(p)[0] == Bullet
  {
  }

  /** The classic layout's link line: it exists exactly when a link is
      present, and holds the " • " separator (as its middle of three spans)
      exactly when both are. */
  lemma ClassicLinks(p: PersonalInfo)
    ensures |ClassicContact(p)| == 2 <==> p.linkedin != "" || p.website != ""
    ensures |ClassicLinksLine(p)| == 3 <==> p.linkedin != "" && p.website != ""
    ensures |ClassicLinksLine(p)| == 3 ==> ClassicLinksLine(p) == [p.linkedin, BulletSeparator, p.website]
    ensures |ClassicLinksLine(p)| == 1 ==> ClassicLinksLine(p) == [if p.linkedin != "" then p.linkedin else p.website]
  {
  }
}
