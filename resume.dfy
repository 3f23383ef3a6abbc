/**
 * The PDF résumé generator (lib/resume.ts). One vertical cursor walks down
 * the page: text advances it by half the font size plus two, a section
 * header adds a fixed amount and starts a new page past 270, and each entry
 * starts a new page when the cursor is past its section's threshold. The
 * drawing calls themselves are not modelled; instead the document keeps a
 * log of where every section header and every entry was placed.
 */
module Resume {
  import opened Wrappers
  import opened Text
  import opened Types

  datatype Rgb = Rgb(r: nat, g: nat, b: nat)

  datatype Palette = Palette(primary: Rgb, text: Rgb, name: string)

  const DefaultPalette: string := "Classic Blue"

  /** `THEMES`: ten palettes, each filed under its own name. */
  function Palettes(): (m: map<string, Palette>)
    ensures DefaultPalette in m && m[DefaultPalette].primary == Rgb(0, 51, 102)
    ensures forall name :: name in m ==> m[name].name == name
  {
    var m := map[
      "Classic Blue" := Palette(Rgb(0, 51, 102), Rgb(0, 0, 0), "Classic Blue"),
      "Modern Black" := Palette(Rgb(0, 0, 0), Rgb(30, 30, 30), "Modern Black"),
      "Emerald Green" := Palette(Rgb(5, 150, 105), Rgb(0, 0, 0), "Emerald Green"),
      "Royal Purple" := Palette(Rgb(124, 58, 237), Rgb(0, 0, 0), "Royal Purple"),
      "Crimson Red" := Palette(Rgb(220, 38, 38), Rgb(0, 0, 0), "Crimson Red"),
      "Slate Gray" := Palette(Rgb(71, 85, 105), Rgb(0, 0, 0), "Slate Gray"),
      "Ocean Teal" := Palette(Rgb(13, 148, 136), Rgb(0, 0, 0), "Ocean Teal"),
      "Sunset Orange" := Palette(Rgb(234, 88, 12), Rgb(0, 0, 0), "Sunset Orange"),
      "Midnight Indigo" := Palette(Rgb(49, 46, 129), Rgb(0, 0, 0), "Midnight Indigo"),
      "Chocolate Brown" := Palette(Rgb(120, 53, 15), Rgb(0, 0, 0), "Chocolate Brown")
    ];
    m
  }

  /** The names of the ten palettes. */
  const PaletteNames: set<string> :=
    {"Classic Blue", "Modern Black", "Emerald Green", "Royal Purple", "Crimson Red",
     "Slate Gray", "Ocean Teal", "Sunset Orange", "Midnight Indigo", "Chocolate Brown"}

  /** `THEMES` holds exactly the ten named palettes. */
  lemma PaletteCount()
    ensures Palettes().Keys == PaletteNames && |Palettes()| == 10
  {
    assert Palettes().Keys == PaletteNames;
    PaletteNamesCount();
  }

  lemma PaletteNamesCount()
    ensures |PaletteNames| == 10
  {
  }

  /**
   * `THEMES[profile.theme || "Classic Blue"] || THEMES["Classic Blue"]`:
   * a known name gives its own palette; no name, an empty name or an
   * unknown one gives Classic Blue.
   */
  function ResolvePalette(theme: Option<string>): (p: Palette)
    ensures p in Palettes().Values
    ensures theme.Some? && theme.value in Palettes() ==> p == Palettes()[theme.value]
    ensures !(theme.Some? && theme.value in Palettes()) ==> p == Palettes()[DefaultPalette]
    ensures theme.Some? && theme.value != "" ==> (p.name == theme.value <==> theme.value in Palettes())
  {
    var name := if theme.Some? && theme.value != "" then theme.value else DefaultPalette;
    if name in Palettes() then Palettes()[name] else Palettes()[DefaultPalette]
  }

  /** `${userName.replace(/\s+/g, '_')}_Resume.pdf`. */
  function FileName(userName: string): (name: string)
    ensures NoSpace(name)
    ensures |name| >= 11 && name[|name| - 11..] == "_Resume.pdf"
  {
    CollapseSpace(userName) + "_Resume.pdf"
  }

  /** A name of two words keeps both words, joined by one underscore. */
  lemma FileNameOfTwoWords(first: string, gap: string, last: string)
    requires NoSpace(first) && NoSpace(last) && gap != [] && AllSpace(gap)
    ensures FileName(first + gap + last) == first + "_" + last + "_Resume.pdf"
  {
    CollapseSpaceRun(first, gap, last);
    CollapseSpaceIdentity(last);
  }

  /** A name without white space is kept as it is. */
  lemma FileNameOfOneWord(name: string)
    requires NoSpace(name)
    ensures FileName(name) == name + "_Resume.pdf"
  {
    CollapseSpaceIdentity(name);
  }

  // Page geometry in millimetres: an A4 page, 20 mm margins.
  const PageWidth: real := 210.0
  const Margin: real := 20.0
  const Top: real := 20.0
  /** Width of full-width wrapped text. */
  const FullWidth: real := PageWidth - 2.0 * Margin
  /** Width of the wrapped text beside a skill label. */
  const LabelledWidth: real := PageWidth - Margin - 40.0
  /** Past this cursor a section header, or a short entry, starts a new page. */
  const PageBreakAt: real := 270.0
  /** Past this cursor a long entry (experience, internship, project) starts a new page. */
  const LongEntryBreakAt: real := 260.0

  datatype FontStyle = Normal | Bold

  /** The font in effect when a text is measured: its size in points and its style. */
  datatype Font = Font(size: nat, style: FontStyle)

  /** The 10 pt body font every description, skill list and the social line are set in. */
  const BodyFont: Font := Font(10, Normal)

  /**
   * The font a section title leaves behind (12 pt bold). The summary and
   * extracurricular texts are wrapped before the body font is set again, so
   * they are measured in it.
   */
  const TitleFont: Font := Font(12, Bold)

  /** The lines `splitTextToSize` wraps a text into at a given width, in the font in effect. */
  type Wrapper = (string, real, Font) -> nat

  datatype Section =
    | Summary | EducationSection | ExperienceSection | InternshipsSection
    | ProjectsSection | CertificationsSection | SkillsSection | ExtracurricularSection

  function Title(s: Section): string {
    match s
    case Summary => "Professional Summary"
    case EducationSection => "Education"
    case ExperienceSection => "Professional Experience"
    case InternshipsSection => "Internships"
    case ProjectsSection => "Projects"
    case CertificationsSection => "Certifications & Courses"
    case SkillsSection => "Skills & Languages"
    case ExtracurricularSection => "Extracurricular Activities"
  }

  /** Position of a section in the fixed order of the document. */
  function Rank(s: Section): nat {
    match s
    case Summary => 0
    case EducationSection => 1
    case ExperienceSection => 2
    case InternshipsSection => 3
    case ProjectsSection => 4
    case CertificationsSection => 5
    case SkillsSection => 6
    case ExtracurricularSection => 7
  }

  /** The sections in document order. */
  const AllSections: seq<Section> := [Summary, EducationSection, ExperienceSection, InternshipsSection,
                                      ProjectsSection, CertificationsSection, SkillsSection, ExtracurricularSection]

  /** Whether the data behind a section is there: a non-empty string or list. */
  predicate Present(p: Profile, s: Section) {
    match s
    case Summary => p.about != ""
    case EducationSection => |p.education| > 0
    case ExperienceSection => |p.experience| > 0
    case InternshipsSection => |p.internships| > 0
    case ProjectsSection => |p.projects| > 0
    case CertificationsSection => |p.certificates| > 0 || |p.courses| > 0
    case SkillsSection => |p.technicalSkills| > 0 || |p.skills| > 0 || |p.languages| > 0
    case ExtracurricularSection => |p.extracurricular| > 0
  }

  /** The header a section contributes: the section when present, nothing otherwise. */
  function Part(p: Profile, s: Section): seq<Section> {
    if Present(p, s) then [s] else []
  }

  /** The sections whose headers the résumé of `p` carries, top to bottom. */
  function ExpectedOutline(p: Profile): seq<Section> {
    Part(p, Summary) + Part(p, EducationSection) + Part(p, ExperienceSection) + Part(p, InternshipsSection)
    + Part(p, ProjectsSection) + Part(p, CertificationsSection) + Part(p, SkillsSection)
    + Part(p, ExtracurricularSection)
  }

  /** Every section in `o` ranks below `bound`. */
  predicate RanksBelow(o: seq<Section>, bound: nat) {
    forall i :: 0 <= i < |o| ==> Rank(o[i]) < bound
  }

  /** Sections appear in strictly increasing document order. */
  predicate RanksIncrease(o: seq<Section>) {
    forall i, j :: 0 <= i < j < |o| ==> Rank(o[i]) < Rank(o[j])
  }

  /** Appending a later section, or nothing, keeps the outline in order. */
  lemma AppendOrdered(o: seq<Section>, q: seq<Section>, s: Section) returns (r: seq<Section>)
    requires RanksBelow(o, Rank(s)) && RanksIncrease(o)
    requires q == [] || q == [s]
    ensures r == o + q
    ensures RanksBelow(r, Rank(s) + 1) && RanksIncrease(r)
  {
    r := o + q;
    forall i | 0 <= i < |r| ensures Rank(r[i]) < Rank(s) + 1 {
      if i < |o| {
        assert r[i] == o[i];
      }
    }
    forall i, j | 0 <= i < j < |r| ensures Rank(r[i]) < Rank(r[j]) {
      if j < |o| {
        assert r[i] == o[i] && r[j] == o[j];
      } else {
        assert r[i] == o[i];
      }
    }
  }

  /** Eight headers, each present or absent, stacked in rank order, stay in rank order. */
  lemma StackedInOrder(q1: seq<Section>, q2: seq<Section>, q3: seq<Section>, q4: seq<Section>,
                       q5: seq<Section>, q6: seq<Section>, q7: seq<Section>, q8: seq<Section>)
    requires q1 == [] || q1 == [Summary]
    requires q2 == [] || q2 == [EducationSection]
    requires q3 == [] || q3 == [ExperienceSection]
    requires q4 == [] || q4 == [InternshipsSection]
    requires q5 == [] || q5 == [ProjectsSection]
    requires q6 == [] || q6 == [CertificationsSection]
    requires q7 == [] || q7 == [SkillsSection]
    requires q8 == [] || q8 == [ExtracurricularSection]
    ensures RanksIncrease(q1 + q2 + q3 + q4 + q5 + q6 + q7 + q8)
  {
    assert RanksBelow(q1, Rank(Summary) + 1) && RanksIncrease(q1);
    var o2 := AppendOrdered(q1, q2, EducationSection);
    var o3 := AppendOrdered(o2, q3, ExperienceSection);
    var o4 := AppendOrdered(o3, q4, InternshipsSection);
    var o5 := AppendOrdered(o4, q5, ProjectsSection);
    var o6 := AppendOrdered(o5, q6, CertificationsSection);
    var o7 := AppendOrdered(o6, q7, SkillsSection);
    var o8 := AppendOrdered(o7, q8, ExtracurricularSection);
  }

  /** The résumé's headers come in the fixed document order, each at most once. */
  lemma OutlineInDocumentOrder(p: Profile)
    ensures RanksIncrease(ExpectedOutline(p))
    ensures forall i, j :: 0 <= i < j < |ExpectedOutline(p)| ==> ExpectedOutline(p)[i] != ExpectedOutline(p)[j]
  {
    StackedInOrder(Part(p, Summary), Part(p, EducationSection), Part(p, ExperienceSection), Part(p, InternshipsSection),
                   Part(p, ProjectsSection), Part(p, CertificationsSection), Part(p, SkillsSection),
                   Part(p, ExtracurricularSection));
    var e := ExpectedOutline(p);
    forall i, j | 0 <= i < j < |e| ensures e[i] != e[j] {
      assert Rank(e[i]) < Rank(e[j]);
    }
  }

  /** A header appears exactly when the data behind its section is there. */
  lemma HeaderIffPresent(p: Profile, s: Section)
    ensures s in ExpectedOutline(p) <==> Present(p, s)
  {
    InStack(s, Part(p, Summary), Part(p, EducationSection), Part(p, ExperienceSection), Part(p, InternshipsSection),
            Part(p, ProjectsSection), Part(p, CertificationsSection), Part(p, SkillsSection),
            Part(p, ExtracurricularSection));
  }

  /** Membership in eight stacked parts is membership in one of them. */
  lemma InStack(x: Section, q1: seq<Section>, q2: seq<Section>, q3: seq<Section>, q4: seq<Section>,
                q5: seq<Section>, q6: seq<Section>, q7: seq<Section>, q8: seq<Section>)
    ensures x in q1 + q2 + q3 + q4 + q5 + q6 + q7 + q8 <==>
      x in q1 || x in q2 || x in q3 || x in q4 || x in q5 || x in q6 || x in q7 || x in q8
  {
  }

  /** An empty profile gives a résumé with the header block only. */
  lemma EmptyProfileHasNoSections()
    ensures ExpectedOutline(EmptyProfile()) == []
  {
  }

  /** The kinds of entry that each start with a page-break check. */
  datatype EntryKind =
    | EducationEntry | ExperienceEntry | InternshipEntry | ProjectEntry
    | CertificateEntry | CourseEntry | TechnicalLine | SoftSkillLine | LanguageLine

  /** The cursor past which an entry of this kind starts on a new page. */
  function Threshold(kind: EntryKind): (limit: real)
    ensures limit == LongEntryBreakAt <==> kind in {ExperienceEntry, InternshipEntry, ProjectEntry}
    ensures limit != LongEntryBreakAt ==> limit == PageBreakAt
  {
    match kind
    case ExperienceEntry => LongEntryBreakAt
    case InternshipEntry => LongEntryBreakAt
    case ProjectEntry => LongEntryBreakAt
    case _ => PageBreakAt
  }

  /** The section an entry kind belongs to. */
  function SectionOf(kind: EntryKind): Section {
    match kind
    case EducationEntry => EducationSection
    case ExperienceEntry => ExperienceSection
    case InternshipEntry => InternshipsSection
    case ProjectEntry => ProjectsSection
    case CertificateEntry => CertificationsSection
    case CourseEntry => CertificationsSection
    case TechnicalLine => SkillsSection
    case SoftSkillLine => SkillsSection
    case LanguageLine => SkillsSection
  }

  /** How many entries of a kind the résumé of `p` holds. */
  function ExpectedEntries(p: Profile, kind: EntryKind): nat {
    match kind
    case EducationEntry => |p.education|
    case ExperienceEntry => |p.experience|
    case InternshipEntry => |p.internships|
    case ProjectEntry => |p.projects|
    case CertificateEntry => |p.certificates|
    case CourseEntry => |p.courses|
    case TechnicalLine => if |p.technicalSkills| > 0 then 1 else 0
    case SoftSkillLine => if |p.skills| > 0 then 1 else 0
    case LanguageLine => if |p.languages| > 0 then 1 else 0
  }

  /** Entries are only placed under a header: a kind with entries has its section present. */
  lemma EntriesNeedHeader(p: Profile, kind: EntryKind)
    requires ExpectedEntries(p, kind) > 0
    ensures SectionOf(kind) in ExpectedOutline(p)
  {
    HeaderIffPresent(p, SectionOf(kind));
  }

  /** What the document records: where each header and each entry was placed. */
  datatype Mark =
    | SectionMark(section: Section, page: nat, y: real)
    | EntryMark(kind: EntryKind, page: nat, y: real)

  /** The sections whose headers a log holds, in order. */
  function Outline(marks: seq<Mark>): seq<Section> {
    if marks == [] then []
    else
      var last := marks[|marks| - 1];
      Outline(marks[..|marks| - 1]) + (if last.SectionMark? then [last.section] else [])
  }

  /** The number of entries of `kind` in a log. */
  function EntryCount(marks: seq<Mark>, kind: EntryKind): nat {
    if marks == [] then 0
    else
      var last := marks[|marks| - 1];
      EntryCount(marks[..|marks| - 1], kind) + (if last.EntryMark? && last.kind == kind then 1 else 0)
  }

  lemma LogAppend(marks: seq<Mark>, m: Mark)
    ensures Outline(marks + [m]) == Outline(marks) + (if m.SectionMark? then [m.section] else [])
    ensures forall k :: EntryCount(marks + [m], k) == EntryCount(marks, k) + (if m.EntryMark? && m.kind == k then 1 else 0)
  {
    assert (marks + [m])[..|marks|] == marks;
  }

  /** From `before` to `after`, exactly the entries of section `s` were added. */
  predicate Grows(before: seq<Mark>, after: seq<Mark>, p: Profile, s: Section) {
    forall k :: EntryCount(after, k) == EntryCount(before, k) + (if SectionOf(k) == s then ExpectedEntries(p, k) else 0)
  }

  /** A placed header or entry lies on an existing page, below the top margin and above its break line. */
  predicate MarkWithin(m: Mark, pages: nat) {
    && 1 <= m.page <= pages
    && Top <= m.y
    && (m.SectionMark? ==> m.y <= PageBreakAt)
    && (m.EntryMark? ==> m.y <= Threshold(m.kind))
  }

  /** Height of a wrapped description: five per line, nothing when empty. */
  function DescriptionHeight(description: string, wrap: Wrapper): real {
    if description != "" then (wrap(description, FullWidth, BodyFont) as real) * 5.0 else 0.0
  }

  function EducationHeight(): real { 12.0 }

  /** Role line, company line, description, then a gap of 4. */
  function ExperienceHeight(e: Experience, wrap: Wrapper): real {
    10.0 + DescriptionHeight(e.description, wrap) + 4.0
  }

  function InternshipHeight(e: Internship, wrap: Wrapper): real {
    10.0 + DescriptionHeight(e.description, wrap) + 4.0
  }

  /** Title line, a technologies line when there are any, description, then a gap of 3. */
  function ProjectHeight(pr: Project, wrap: Wrapper): real {
    5.0 + (if |pr.technologies| > 0 then 5.0 else 0.0) + DescriptionHeight(pr.description, wrap) + 3.0
  }

  /** The text of the social line: `platform: url` pieces joined by " | ". */
  function SocialText(profiles: seq<SocialProfile>): string {
    Join(seq(|profiles|, i requires 0 <= i < |profiles| => profiles[i].platform + ": " + profiles[i].url), " | ")
  }

  /** The height of the social block: its wrapped lines and a gap of 5, or just the gap. */
  function SocialHeight(p: Profile, wrap: Wrapper): real {
    if |p.socialProfiles| > 0 then (wrap(SocialText(p.socialProfiles), FullWidth, BodyFont) as real) * 5.0 + 5.0 else 5.0
  }

  /** Name (13), a gap of 2, the contact line (6), then the social block. */
  function HeaderHeight(p: Profile, wrap: Wrapper): real {
    13.0 + 2.0 + 6.0 + SocialHeight(p, wrap)
  }

  /** Where the next line goes: the cursor and the page it is on. */
  datatype Cursor = Cursor(y: real, page: nat)

  /** `yPos += d`. */
  function Down(c: Cursor, d: real): Cursor {
    Cursor(c.y + d, c.page)
  }

  /**
   * The cursor after `addSection`: 5 down, a new page when that passes 270
   * (the title then sits at 20), and a net 13 below the title.
   */
  function Headed(c: Cursor): Cursor {
    if c.y + 5.0 > PageBreakAt then Cursor(Top + 13.0, c.page + 1) else Cursor(c.y + 5.0 + 13.0, c.page)
  }

  /** Where an entry starts: at the top of a new page when the cursor is past the kind's threshold. */
  function EntryStart(c: Cursor, kind: EntryKind): Cursor {
    if c.y > Threshold(kind) then Cursor(Top, c.page + 1) else c
  }

  /** The cursor after one entry of the given height. */
  function AfterEntry(c: Cursor, kind: EntryKind, height: real): Cursor {
    Down(EntryStart(c, kind), height)
  }

  /** The cursor after entries of the given heights, one after the other. */
  function Flow(c: Cursor, kind: EntryKind, heights: seq<real>): Cursor {
    if heights == [] then c
    else AfterEntry(Flow(c, kind, heights[..|heights| - 1]), kind, heights[|heights| - 1])
  }

  predicate NonNegative(heights: seq<real>) {
    forall i :: 0 <= i < |heights| ==> heights[i] >= 0.0
  }

  function Sum(heights: seq<real>): real {
    if heights == [] then 0.0 else Sum(heights[..|heights| - 1]) + heights[|heights| - 1]
  }

  function EducationHeights(p: Profile): seq<real> {
    seq(|p.education|, _ => EducationHeight())
  }

  function ExperienceHeights(p: Profile, wrap: Wrapper): seq<real> {
    seq(|p.experience|, i requires 0 <= i < |p.experience| => ExperienceHeight(p.experience[i], wrap))
  }

  function InternshipHeights(p: Profile, wrap: Wrapper): seq<real> {
    seq(|p.internships|, i requires 0 <= i < |p.internships| => InternshipHeight(p.internships[i], wrap))
  }

  function ProjectHeights(p: Profile, wrap: Wrapper): seq<real> {
    seq(|p.projects|, i requires 0 <= i < |p.projects| => ProjectHeight(p.projects[i], wrap))
  }

  /** A certificate or course bullet is one line of 5. */
  function BulletHeights(n: nat): seq<real> {
    seq(n, _ => 5.0)
  }

  /** A skill line: the comma-joined list wrapped beside its label, then a gap of 2. */
  function SkillLineHeight(items: seq<string>, wrap: Wrapper): real {
    (wrap(Join(items, ", "), LabelledWidth, BodyFont) as real) * 5.0 + 2.0
  }

  /** The cursor after a skill line, which is drawn only for a non-empty list. */
  function SkillLine(c: Cursor, kind: EntryKind, items: seq<string>, wrap: Wrapper): Cursor {
    if |items| > 0 then AfterEntry(c, kind, SkillLineHeight(items, wrap)) else c
  }

  /** A full-width block wrapped right after a section title, so in the title font: five per line, then a gap of 5. */
  function BlockHeight(text: string, wrap: Wrapper): real {
    (wrap(text, FullWidth, TitleFont) as real) * 5.0 + 5.0
  }

  /** The cursor after section `s` of the résumé of `p`; an absent section leaves it where it was. */
  function SectionFlow(c: Cursor, p: Profile, wrap: Wrapper, s: Section): Cursor {
    if !Present(p, s) then c
    else
      var h := Headed(c);
      match s
      case Summary => Down(h, BlockHeight(p.about, wrap))
      case EducationSection => Flow(h, EducationEntry, EducationHeights(p))
      case ExperienceSection => Flow(h, ExperienceEntry, ExperienceHeights(p, wrap))
      case InternshipsSection => Flow(h, InternshipEntry, InternshipHeights(p, wrap))
      case ProjectsSection => Flow(h, ProjectEntry, ProjectHeights(p, wrap))
      case CertificationsSection =>
        Flow(Flow(h, CertificateEntry, BulletHeights(|p.certificates|)), CourseEntry, BulletHeights(|p.courses|))
      case SkillsSection =>
        SkillLine(SkillLine(SkillLine(h, TechnicalLine, p.technicalSkills, wrap), SoftSkillLine, p.skills, wrap),
                  LanguageLine, p.languages, wrap)
      case ExtracurricularSection => Down(h, BlockHeight(Join(p.extracurricular, ", "), wrap))
  }

  /** The cursor once the whole résumé of `p` is drawn: the header block, then every section in order. */
  function DocumentFlow(p: Profile, wrap: Wrapper): Cursor {
    var c0 := Cursor(Top + HeaderHeight(p, wrap), 1);
    var c1 := SectionFlow(c0, p, wrap, Summary);
    var c2 := SectionFlow(c1, p, wrap, EducationSection);
    var c3 := SectionFlow(c2, p, wrap, ExperienceSection);
    var c4 := SectionFlow(c3, p, wrap, InternshipsSection);
    var c5 := SectionFlow(c4, p, wrap, ProjectsSection);
    var c6 := SectionFlow(c5, p, wrap, CertificationsSection);
    var c7 := SectionFlow(c6, p, wrap, SkillsSection);
    SectionFlow(c7, p, wrap, ExtracurricularSection)
  }

  /** Unfolding `Flow` one entry further. */
  lemma FlowStep(c: Cursor, kind: EntryKind, heights: seq<real>, i: nat)
    requires i < |heights|
    ensures Flow(c, kind, heights[..i + 1]) == AfterEntry(Flow(c, kind, heights[..i]), kind, heights[i])
  {
    assert heights[..i + 1][..i] == heights[..i];
  }

  /** Each entry adds at most one page, and pages are never taken away. */
  lemma {:induction false} FlowPages(c: Cursor, kind: EntryKind, heights: seq<real>)
    ensures c.page <= Flow(c, kind, heights).page <= c.page + |heights|
  {
    if heights != [] {
      FlowPages(c, kind, heights[..|heights| - 1]);
    }
  }

  /**
   * Entries that fit above the threshold from where the cursor stands flow
   * without a page break: the cursor just moves down by their total height.
   */
  lemma {:induction false} FlowFits(c: Cursor, kind: EntryKind, heights: seq<real>)
    requires NonNegative(heights)
    requires c.y + Sum(heights) <= Threshold(kind)
    ensures Flow(c, kind, heights) == Down(c, Sum(heights))
  {
    if heights != [] {
      var init := heights[..|heights| - 1];
      assert NonNegative(init) by {
        forall i | 0 <= i < |init| ensures init[i] >= 0.0 {
          assert init[i] == heights[i];
        }
      }
      FlowFits(c, kind, init);
    }
  }

  /** The number of entries section `s` of the résumé of `p` places. */
  function SectionEntries(p: Profile, s: Section): nat {
    match s
    case Summary => 0
    case EducationSection => ExpectedEntries(p, EducationEntry)
    case ExperienceSection => ExpectedEntries(p, ExperienceEntry)
    case InternshipsSection => ExpectedEntries(p, InternshipEntry)
    case ProjectsSection => ExpectedEntries(p, ProjectEntry)
    case CertificationsSection => ExpectedEntries(p, CertificateEntry) + ExpectedEntries(p, CourseEntry)
    case SkillsSection =>
      ExpectedEntries(p, TechnicalLine) + ExpectedEntries(p, SoftSkillLine) + ExpectedEntries(p, LanguageLine)
    case ExtracurricularSection => 0
  }

  /** The number of entries of every kind in the résumé of `p`. */
  function EntryTotal(p: Profile): nat {
    ExpectedEntries(p, EducationEntry) + ExpectedEntries(p, ExperienceEntry) + ExpectedEntries(p, InternshipEntry)
    + ExpectedEntries(p, ProjectEntry) + ExpectedEntries(p, CertificateEntry) + ExpectedEntries(p, CourseEntry)
    + ExpectedEntries(p, TechnicalLine) + ExpectedEntries(p, SoftSkillLine) + ExpectedEntries(p, LanguageLine)
  }

  /** A section adds at most one page for its header and one for each of its entries. */
  lemma SectionPages(c: Cursor, p: Profile, wrap: Wrapper, s: Section)
    ensures c.page <= SectionFlow(c, p, wrap, s).page <= c.page + Allowance(p, s)
  {
    if Present(p, s) {
      var h := Headed(c);
      match s
      case Summary =>
      case EducationSection => FlowPages(h, EducationEntry, EducationHeights(p));
      case ExperienceSection => FlowPages(h, ExperienceEntry, ExperienceHeights(p, wrap));
      case InternshipsSection => FlowPages(h, InternshipEntry, InternshipHeights(p, wrap));
      case ProjectsSection => FlowPages(h, ProjectEntry, ProjectHeights(p, wrap));
      case CertificationsSection =>
        FlowPages(h, CertificateEntry, BulletHeights(|p.certificates|));
        FlowPages(Flow(h, CertificateEntry, BulletHeights(|p.certificates|)), CourseEntry, BulletHeights(|p.courses|));
      case SkillsSection =>
      case ExtracurricularSection =>
    }
  }

  /**
   * The whole résumé ends on a page no later than one per header and one
   * per entry after the first: a page break only ever happens before a
   * header or an entry.
   */
  lemma DocumentPages(p: Profile, wrap: Wrapper)
    ensures 1 <= DocumentFlow(p, wrap).page <= 1 + |ExpectedOutline(p)| + EntryTotal(p)
  {
    var c0 := Cursor(Top + HeaderHeight(p, wrap), 1);
    var c1 := SectionFlow(c0, p, wrap, Summary);
    var c2 := SectionFlow(c1, p, wrap, EducationSection);
    var c3 := SectionFlow(c2, p, wrap, ExperienceSection);
    var c4 := SectionFlow(c3, p, wrap, InternshipsSection);
    var c5 := SectionFlow(c4, p, wrap, ProjectsSection);
    var c6 := SectionFlow(c5, p, wrap, CertificationsSection);
    var c7 := SectionFlow(c6, p, wrap, SkillsSection);
    var c8 := SectionFlow(c7, p, wrap, ExtracurricularSection);
    DocumentFlowSteps(p, wrap, c0, c1, c2, c3, c4, c5, c6, c7, c8);
    ChainPages(p, wrap, c0, c1, c2, c3, c4, c5, c6, c7, c8);
  }

  /** The eight sections in turn add at most their allowances, and together at most the sum of them. */
  lemma ChainPages(p: Profile, wrap: Wrapper, c0: Cursor, c1: Cursor, c2: Cursor, c3: Cursor,
                   c4: Cursor, c5: Cursor, c6: Cursor, c7: Cursor, c8: Cursor)
    requires c1 == SectionFlow(c0, p, wrap, Summary)
    requires c2 == SectionFlow(c1, p, wrap, EducationSection)
    requires c3 == SectionFlow(c2, p, wrap, ExperienceSection)
    requires c4 == SectionFlow(c3, p, wrap, InternshipsSection)
    requires c5 == SectionFlow(c4, p, wrap, ProjectsSection)
    requires c6 == SectionFlow(c5, p, wrap, CertificationsSection)
    requires c7 == SectionFlow(c6, p, wrap, SkillsSection)
    requires c8 == SectionFlow(c7, p, wrap, ExtracurricularSection)
    ensures c0.page <= c8.page <= c0.page + |ExpectedOutline(p)| + EntryTotal(p)
  {
    SectionPages(c0, p, wrap, Summary);
    SectionPages(c1, p, wrap, EducationSection);
    SectionPages(c2, p, wrap, ExperienceSection);
    SectionPages(c3, p, wrap, InternshipsSection);
    SectionPages(c4, p, wrap, ProjectsSection);
    SectionPages(c5, p, wrap, CertificationsSection);
    SectionPages(c6, p, wrap, SkillsSection);
    SectionPages(c7, p, wrap, ExtracurricularSection);
    PagesAdd(c0.page, c1.page, c2.page, c3.page, c4.page, c5.page, c6.page, c7.page, c8.page,
             Allowance(p, Summary), Allowance(p, EducationSection), Allowance(p, ExperienceSection),
             Allowance(p, InternshipsSection), Allowance(p, ProjectsSection), Allowance(p, CertificationsSection),
             Allowance(p, SkillsSection), Allowance(p, ExtracurricularSection));
    AllowancesAdd(p);
  }

  /** The pages a section may add: one for its header, one per entry. */
  function Allowance(p: Profile, s: Section): nat {
    |Part(p, s)| + SectionEntries(p, s)
  }

  lemma AllowancesAdd(p: Profile)
    ensures Allowance(p, Summary) + Allowance(p, EducationSection) + Allowance(p, ExperienceSection)
      + Allowance(p, InternshipsSection) + Allowance(p, ProjectsSection) + Allowance(p, CertificationsSection)
      + Allowance(p, SkillsSection) + Allowance(p, ExtracurricularSection)
      == |ExpectedOutline(p)| + EntryTotal(p)
  {
  }

  /** Eight steps, each adding at most its allowance, add at most the sum of the allowances. */
  lemma PagesAdd(a0: nat, a1: nat, a2: nat, a3: nat, a4: nat, a5: nat, a6: nat, a7: nat, a8: nat,
                 b1: nat, b2: nat, b3: nat, b4: nat, b5: nat, b6: nat, b7: nat, b8: nat)
    requires a0 <= a1 <= a0 + b1 && a1 <= a2 <= a1 + b2 && a2 <= a3 <= a2 + b3 && a3 <= a4 <= a3 + b4
    requires a4 <= a5 <= a4 + b5 && a5 <= a6 <= a5 + b6 && a6 <= a7 <= a6 + b7 && a7 <= a8 <= a7 + b8
    ensures a0 <= a8 <= a0 + b1 + b2 + b3 + b4 + b5 + b6 + b7 + b8
  {
  }

  /** An empty profile's résumé is the header block alone, on the first page. */
  lemma EmptyProfileOnePage(wrap: Wrapper)
    ensures DocumentFlow(EmptyProfile(), wrap) == Cursor(Top + HeaderHeight(EmptyProfile(), wrap), 1)
  {
  }

  /** The document being drawn: its palette, the cursor, the page count and the placement log. */
  class ResumeDoc {
    const palette: Palette
    var yPos: real
    var page: nat
    var marks: seq<Mark>
    var photoPlaced: bool

    ghost predicate Valid()
      reads this
    {
      && Top <= yPos && 1 <= page
      && forall i :: 0 <= i < |marks| ==> MarkWithin(marks[i], page)
    }

    /** The cursor and the page it is on. */
    function At(): Cursor
      reads this
    {
      Cursor(yPos, page)
    }

    constructor (palette: Palette)
      ensures this.palette == palette
      ensures yPos == Top && page == 1 && marks == [] && !photoPlaced
      ensures Valid()
    {
      this.palette := palette;
      yPos := Top;
      page := 1;
      marks := [];
      photoPlaced := false;
    }

    /** Moves the cursor down by `d`. */
    method Advance(d: real)
      requires Valid() && d >= 0.0
      modifies this
      ensures Valid()
      ensures yPos == old(yPos) + d
      ensures page == old(page) && marks == old(marks) && photoPlaced == old(photoPlaced)
    {
      yPos := yPos + d;
    }

    /** `addText`: the cursor advances by half the font size plus two. */
    method AddText(size: nat)
      requires Valid()
      modifies this
      ensures Valid()
      ensures yPos == old(yPos) + (size as real) / 2.0 + 2.0
      ensures page == old(page) && marks == old(marks) && photoPlaced == old(photoPlaced)
    {
      yPos := yPos + (size as real) / 2.0 + 2.0;
    }

    /** `doc.addPage(); yPos = 20`. */
    method NewPage()
      requires Valid()
      modifies this
      ensures Valid()
      ensures page == old(page) + 1 && yPos == Top
      ensures marks == old(marks) && photoPlaced == old(photoPlaced)
    {
      page := page + 1;
      yPos := Top;
    }

    /** Records a placement at the cursor. */
    method Log(m: Mark)
      requires Valid() && MarkWithin(m, page)
      modifies this
      ensures Valid()
      ensures marks == old(marks) + [m]
      ensures Outline(marks) == Outline(old(marks)) + (if m.SectionMark? then [m.section] else [])
      ensures forall k :: EntryCount(marks, k) == EntryCount(old(marks), k) + (if m.EntryMark? && m.kind == k then 1 else 0)
      ensures yPos == old(yPos) && page == old(page) && photoPlaced == old(photoPlaced)
    {
      LogAppend(marks, m);
      marks := marks + [m];
    }

    /**
     * `addSection`: 5 down, a new page if that passes 270, the title at
     * the cursor (12 pt), then a net 13 below where the title sits.
     */
    method AddSection(section: Section)
      requires Valid()
      modifies this
      ensures Valid()
      ensures At() == Headed(old(At()))
      ensures marks == old(marks) + [SectionMark(section, page, yPos - 13.0)]
      ensures Outline(marks) == Outline(old(marks)) + [section]
      ensures forall k :: EntryCount(marks, k) == EntryCount(old(marks), k)
      ensures photoPlaced == old(photoPlaced)
    {
      Advance(5.0);
      if yPos > PageBreakAt {
        NewPage();
      }
      Log(SectionMark(section, page, yPos));
      AddText(12);
      yPos := yPos - 1.0;
      Advance(6.0);
    }

    /** The check every entry starts with: a new page when the cursor is past the kind's threshold. */
    method StartEntry(kind: EntryKind)
      requires Valid()
      modifies this
      ensures Valid()
      ensures At() == EntryStart(old(At()), kind)
      ensures yPos <= Threshold(kind)
      ensures marks == old(marks) + [EntryMark(kind, page, yPos)]
      ensures Outline(marks) == Outline(old(marks))
      ensures forall k :: EntryCount(marks, k) == EntryCount(old(marks), k) + (if k == kind then 1 else 0)
      ensures photoPlaced == old(photoPlaced)
    {
      if yPos > Threshold(kind) {
        NewPage();
      }
      Log(EntryMark(kind, page, yPos));
    }

    /** One entry: the break check, then the entry's own height below its start. */
    method AddEntry(kind: EntryKind, height: real)
      requires Valid() && height >= 0.0
      modifies this
      ensures Valid()
      ensures At() == AfterEntry(old(At()), kind, height)
      ensures marks == old(marks) + [EntryMark(kind, EntryStart(old(At()), kind).page, EntryStart(old(At()), kind).y)]
      ensures Outline(marks) == Outline(old(marks))
      ensures forall k :: EntryCount(marks, k) == EntryCount(old(marks), k) + (if k == kind then 1 else 0)
      ensures photoPlaced == old(photoPlaced)
    {
      StartEntry(kind);
      Advance(height);
    }

    /** A `forEach` over a section's items: one entry of the kind per height, in order. */
    method AddEntries(kind: EntryKind, heights: seq<real>)
      requires Valid() && NonNegative(heights)
      modifies this
      ensures Valid()
      ensures At() == Flow(old(At()), kind, heights)
      ensures old(marks) <= marks
      ensures Outline(marks) == Outline(old(marks))
      ensures forall k :: EntryCount(marks, k) == EntryCount(old(marks), k) + (if k == kind then |heights| else 0)
      ensures photoPlaced == old(photoPlaced)
    {
      var i := 0;
      while i < |heights|
        invariant 0 <= i <= |heights|
        invariant Valid()
        invariant At() == Flow(old(At()), kind, heights[..i])
        invariant old(marks) <= marks
        invariant Outline(marks) == Outline(old(marks))
        invariant forall k :: EntryCount(marks, k) == EntryCount(old(marks), k) + (if k == kind then i else 0)
        invariant photoPlaced == old(photoPlaced)
      {
        FlowStep(old(At()), kind, heights, i);
        AddEntry(kind, heights[i]);
        i := i + 1;
      }
      assert heights[..i] == heights;
    }

    /**
     * The header block: the name in 22 pt, a gap of 2, the photo (which
     * never moves the cursor, and whose failure is swallowed), the contact
     * line, and the social block.
     */
    method AddHeader(p: Profile, wrap: Wrapper, photoAccepted: bool)
      requires Valid() && yPos == Top && marks == [] && page == 1
      modifies this
      ensures Valid()
      ensures yPos == Top + HeaderHeight(p, wrap)
      ensures page == 1 && marks == []
      ensures photoPlaced == (p.profilePhoto.Some? && p.profilePhoto.value != "" && photoAccepted)
    {
      AddText(22);
      Advance(2.0);
      photoPlaced := p.profilePhoto.Some? && p.profilePhoto.value != "" && photoAccepted;
      Advance(6.0);
      Advance(SocialHeight(p, wrap));
    }

    /** A block of wrapped text: five per line and a gap. */
    method AddWrapped(lineCount: nat, gap: real)
      requires Valid() && gap >= 0.0
      modifies this
      ensures Valid()
      ensures yPos == old(yPos) + (lineCount as real) * 5.0 + gap
      ensures page == old(page) && marks == old(marks) && photoPlaced == old(photoPlaced)
    {
      Advance((lineCount as real) * 5.0 + gap);
    }

    /** Professional Summary: header and the wrapped `about` text, when there is one. */
    method AddSummary(p: Profile, wrap: Wrapper)
      requires Valid()
      modifies this
      ensures Valid()
      ensures At() == SectionFlow(old(At()), p, wrap, Summary)
      ensures old(marks) <= marks
      ensures !Present(p, Summary) ==> marks == old(marks)
      ensures Outline(marks) == Outline(old(marks)) + Part(p, Summary)
      ensures forall k :: EntryCount(marks, k) == EntryCount(old(marks), k)
      ensures photoPlaced == old(photoPlaced)
    {
      if p.about != "" {
        AddSection(Summary);
        AddWrapped(wrap(p.about, FullWidth, TitleFont), 5.0);
      }
    }

    method AddEducation(p: Profile, wrap: Wrapper)
      requires Valid()
      modifies this
      ensures Valid()
      ensures At() == SectionFlow(old(At()), p, wrap, EducationSection)
      ensures old(marks) <= marks
      ensures !Present(p, EducationSection) ==> marks == old(marks)
      ensures Outline(marks) == Outline(old(marks)) + Part(p, EducationSection)
      ensures Grows(old(marks), marks, p, EducationSection)
      ensures photoPlaced == old(photoPlaced)
    {
      if |p.education| > 0 {
        AddSection(EducationSection);
        AddEntries(EducationEntry, EducationHeights(p));
      }
    }

    method AddExperience(p: Profile, wrap: Wrapper)
      requires Valid()
      modifies this
      ensures Valid()
      ensures At() == SectionFlow(old(At()), p, wrap, ExperienceSection)
      ensures old(marks) <= marks
      ensures !Present(p, ExperienceSection) ==> marks == old(marks)
      ensures Outline(marks) == Outline(old(marks)) + Part(p, ExperienceSection)
      ensures Grows(old(marks), marks, p, ExperienceSection)
      ensures photoPlaced == old(photoPlaced)
    {
      if |p.experience| > 0 {
        AddSection(ExperienceSection);
        AddEntries(ExperienceEntry, ExperienceHeights(p, wrap));
      }
    }

    method AddInternships(p: Profile, wrap: Wrapper)
      requires Valid()
      modifies this
      ensures Valid()
      ensures At() == SectionFlow(old(At()), p, wrap, InternshipsSection)
      ensures old(marks) <= marks
      ensures !Present(p, InternshipsSection) ==> marks == old(marks)
      ensures Outline(marks) == Outline(old(marks)) + Part(p, InternshipsSection)
      ensures Grows(old(marks), marks, p, InternshipsSection)
      ensures photoPlaced == old(photoPlaced)
    {
      if |p.internships| > 0 {
        AddSection(InternshipsSection);
        AddEntries(InternshipEntry, InternshipHeights(p, wrap));
      }
    }

    method AddProjects(p: Profile, wrap: Wrapper)
      requires Valid()
      modifies this
      ensures Valid()
      ensures At() == SectionFlow(old(At()), p, wrap, ProjectsSection)
      ensures old(marks) <= marks
      ensures !Present(p, ProjectsSection) ==> marks == old(marks)
      ensures Outline(marks) == Outline(old(marks)) + Part(p, ProjectsSection)
      ensures Grows(old(marks), marks, p, ProjectsSection)
      ensures photoPlaced == old(photoPlaced)
    {
      if |p.projects| > 0 {
        AddSection(ProjectsSection);
        AddEntries(ProjectEntry, ProjectHeights(p, wrap));
      }
    }

    /** One bullet line per certificate, then one per course, under a shared header. */
    method AddCertifications(p: Profile, wrap: Wrapper)
      requires Valid()
      modifies this
      ensures Valid()
      ensures At() == SectionFlow(old(At()), p, wrap, CertificationsSection)
      ensures old(marks) <= marks
      ensures !Present(p, CertificationsSection) ==> marks == old(marks)
      ensures Outline(marks) == Outline(old(marks)) + Part(p, CertificationsSection)
      ensures Grows(old(marks), marks, p, CertificationsSection)
      ensures photoPlaced == old(photoPlaced)
    {
      if |p.certificates| > 0 || |p.courses| > 0 {
        ghost var m0 := marks;
        AddSection(CertificationsSection);
        ghost var m1 := marks;
        AddEntries(CertificateEntry, BulletHeights(|p.certificates|));
        ghost var m2 := marks;
        AddEntries(CourseEntry, BulletHeights(|p.courses|));
        forall k
          ensures EntryCount(marks, k) == EntryCount(m0, k) + (if SectionOf(k) == CertificationsSection then ExpectedEntries(p, k) else 0)
        {
          CertificationsAdd(p, k, EntryCount(m0, k), EntryCount(m1, k), EntryCount(m2, k), EntryCount(marks, k));
        }
      }
    }

    /** Certificates, then courses: each loop adds to the count of its own kind only. */
    static lemma CertificationsAdd(p: Profile, k: EntryKind, c0: nat, c1: nat, c2: nat, c3: nat)
      requires c1 == c0
      requires c2 == c1 + (if k == CertificateEntry then |p.certificates| else 0)
      requires c3 == c2 + (if k == CourseEntry then |p.courses| else 0)
      ensures c3 == c0 + (if SectionOf(k) == CertificationsSection then ExpectedEntries(p, k) else 0)
    {
    }

    /** One labelled line of skills: the comma-joined list wrapped beside its label, then a gap of 2. */
    method AddSkillLine(kind: EntryKind, items: seq<string>, wrap: Wrapper)
      requires Valid()
      modifies this
      ensures Valid()
      ensures At() == SkillLine(old(At()), kind, items, wrap)
      ensures old(marks) <= marks
      ensures |items| == 0 ==> marks == old(marks)
      ensures Outline(marks) == Outline(old(marks))
      ensures forall k :: EntryCount(marks, k) == EntryCount(old(marks), k) + (if k == kind && |items| > 0 then 1 else 0)
      ensures photoPlaced == old(photoPlaced)
    {
      if |items| > 0 {
        AddEntry(kind, SkillLineHeight(items, wrap));
      }
    }

    /** The three skill lines add one entry each to the count of their own kind. */
    static lemma SkillLinesAdd(p: Profile, k: EntryKind, c0: nat, c1: nat, c2: nat, c3: nat, c4: nat)
      requires c1 == c0
      requires c2 == c1 + (if k == TechnicalLine && |p.technicalSkills| > 0 then 1 else 0)
      requires c3 == c2 + (if k == SoftSkillLine && |p.skills| > 0 then 1 else 0)
      requires c4 == c3 + (if k == LanguageLine && |p.languages| > 0 then 1 else 0)
      ensures c4 == c0 + (if SectionOf(k) == SkillsSection then ExpectedEntries(p, k) else 0)
    {
    }

    method AddSkills(p: Profile, wrap: Wrapper)
      requires Valid()
      modifies this
      ensures Valid()
      ensures At() == SectionFlow(old(At()), p, wrap, SkillsSection)
      ensures old(marks) <= marks
      ensures !Present(p, SkillsSection) ==> marks == old(marks)
      ensures Outline(marks) == Outline(old(marks)) + Part(p, SkillsSection)
      ensures Grows(old(marks), marks, p, SkillsSection)
      ensures photoPlaced == old(photoPlaced)
    {
      if |p.technicalSkills| > 0 || |p.skills| > 0 || |p.languages| > 0 {
        ghost var m0 := marks;
        AddSection(SkillsSection);
        ghost var m1, h := marks, At();
        AddSkillLine(TechnicalLine, p.technicalSkills, wrap);
        ghost var m2, t := marks, At();
        AddSkillLine(SoftSkillLine, p.skills, wrap);
        ghost var m3, u := marks, At();
        AddSkillLine(LanguageLine, p.languages, wrap);
        assert At() == SkillLine(SkillLine(SkillLine(h, TechnicalLine, p.technicalSkills, wrap), SoftSkillLine, p.skills, wrap),
                                 LanguageLine, p.languages, wrap);
        PrefixChain(m0, m1, m2, m3, marks);
        assert Outline(marks) == Outline(m1);
        forall k
          ensures EntryCount(marks, k) == EntryCount(m0, k) + (if SectionOf(k) == SkillsSection then ExpectedEntries(p, k) else 0)
        {
          SkillLinesAdd(p, k, EntryCount(m0, k), EntryCount(m1, k), EntryCount(m2, k), EntryCount(m3, k), EntryCount(marks, k));
        }
      }
    }

    method AddExtracurricular(p: Profile, wrap: Wrapper)
      requires Valid()
      modifies this
      ensures Valid()
      ensures At() == SectionFlow(old(At()), p, wrap, ExtracurricularSection)
      ensures old(marks) <= marks
      ensures !Present(p, ExtracurricularSection) ==> marks == old(marks)
      ensures Outline(marks) == Outline(old(marks)) + Part(p, ExtracurricularSection)
      ensures forall k :: EntryCount(marks, k) == EntryCount(old(marks), k)
      ensures photoPlaced == old(photoPlaced)
    {
      if |p.extracurricular| > 0 {
        AddSection(ExtracurricularSection);
        AddWrapped(wrap(Join(p.extracurricular, ", "), FullWidth, TitleFont), 5.0);
      }
    }
  }

  /** A log only ever grows at its end. */
  lemma PrefixChain(m0: seq<Mark>, m1: seq<Mark>, m2: seq<Mark>, m3: seq<Mark>, m4: seq<Mark>)
    requires m0 <= m1 && m1 <= m2 && m2 <= m3 && m3 <= m4
    ensures m0 <= m4
  {
  }

  /** Section by section, the entries of each kind add up to the expected count. */
  lemma SectionsAdd(p: Profile, k: EntryKind, c0: nat, c1: nat, c2: nat, c3: nat, c4: nat,
                    c5: nat, c6: nat, c7: nat, c8: nat)
    requires c0 == 0 && c1 == c0
    requires c2 == c1 + (if SectionOf(k) == EducationSection then ExpectedEntries(p, k) else 0)
    requires c3 == c2 + (if SectionOf(k) == ExperienceSection then ExpectedEntries(p, k) else 0)
    requires c4 == c3 + (if SectionOf(k) == InternshipsSection then ExpectedEntries(p, k) else 0)
    requires c5 == c4 + (if SectionOf(k) == ProjectsSection then ExpectedEntries(p, k) else 0)
    requires c6 == c5 + (if SectionOf(k) == CertificationsSection then ExpectedEntries(p, k) else 0)
    requires c7 == c6 + (if SectionOf(k) == SkillsSection then ExpectedEntries(p, k) else 0)
    requires c8 == c7
    ensures c8 == ExpectedEntries(p, k)
  {
  }

  /** Outlines logged after each section stack up to `ExpectedOutline`. */
  lemma OutlineSteps(p: Profile, o0: seq<Section>, o1: seq<Section>, o2: seq<Section>, o3: seq<Section>,
                     o4: seq<Section>, o5: seq<Section>, o6: seq<Section>, o7: seq<Section>, o8: seq<Section>)
    requires o0 == []
    requires o1 == o0 + Part(p, Summary)
    requires o2 == o1 + Part(p, EducationSection)
    requires o3 == o2 + Part(p, ExperienceSection)
    requires o4 == o3 + Part(p, InternshipsSection)
    requires o5 == o4 + Part(p, ProjectsSection)
    requires o6 == o5 + Part(p, CertificationsSection)
    requires o7 == o6 + Part(p, SkillsSection)
    requires o8 == o7 + Part(p, ExtracurricularSection)
    ensures o8 == ExpectedOutline(p)
  {
    assert o1 == Part(p, Summary);
  }

  /** Cursor snapshots taken after each section are the steps of `DocumentFlow`. */
  lemma DocumentFlowSteps(p: Profile, wrap: Wrapper, a0: Cursor, a1: Cursor, a2: Cursor, a3: Cursor,
                          a4: Cursor, a5: Cursor, a6: Cursor, a7: Cursor, a8: Cursor)
    requires a0 == Cursor(Top + HeaderHeight(p, wrap), 1)
    requires a1 == SectionFlow(a0, p, wrap, Summary)
    requires a2 == SectionFlow(a1, p, wrap, EducationSection)
    requires a3 == SectionFlow(a2, p, wrap, ExperienceSection)
    requires a4 == SectionFlow(a3, p, wrap, InternshipsSection)
    requires a5 == SectionFlow(a4, p, wrap, ProjectsSection)
    requires a6 == SectionFlow(a5, p, wrap, CertificationsSection)
    requires a7 == SectionFlow(a6, p, wrap, SkillsSection)
    requires a8 == SectionFlow(a7, p, wrap, ExtracurricularSection)
    ensures DocumentFlow(p, wrap) == a8
  {
  }

  /**
   * `generateResume`: the palette from the profile's theme, the header
   * block, then each section in the fixed order, and the file name.
   * The wrapper stands for `splitTextToSize`; `photoAccepted` says whether
   * the PDF library takes the photo.
   */
  method GenerateResume(p: Profile, userName: string, wrap: Wrapper, photoAccepted: bool)
    returns (doc: ResumeDoc, fileName: string)
    ensures doc.Valid()
    ensures doc.palette == ResolvePalette(p.theme)
    ensures doc.At() == DocumentFlow(p, wrap)
    ensures Outline(doc.marks) == ExpectedOutline(p)
    ensures forall k :: EntryCount(doc.marks, k) == ExpectedEntries(p, k)
    ensures doc.photoPlaced == (p.profilePhoto.Some? && p.profilePhoto.value != "" && photoAccepted)
    ensures fileName == FileName(userName)
  {
    doc := new ResumeDoc(ResolvePalette(p.theme));
    doc.AddHeader(p, wrap, photoAccepted);
    ghost var m0, a0 := doc.marks, doc.At();
    doc.AddSummary(p, wrap);
    ghost var m1, a1 := doc.marks, doc.At();
    doc.AddEducation(p, wrap);
    ghost var m2, a2 := doc.marks, doc.At();
    doc.AddExperience(p, wrap);
    ghost var m3, a3 := doc.marks, doc.At();
    doc.AddInternships(p, wrap);
    ghost var m4, a4 := doc.marks, doc.At();
    doc.AddProjects(p, wrap);
    ghost var m5, a5 := doc.marks, doc.At();
    doc.AddCertifications(p, wrap);
    ghost var m6, a6 := doc.marks, doc.At();
    doc.AddSkills(p, wrap);
    ghost var m7, a7 := doc.marks, doc.At();
    doc.AddExtracurricular(p, wrap);
    DocumentFlowSteps(p, wrap, a0, a1, a2, a3, a4, a5, a6, a7, doc.At());
    OutlineSteps(p, Outline(m0), Outline(m1), Outline(m2), Outline(m3), Outline(m4), Outline(m5), Outline(m6),
                 Outline(m7), Outline(doc.marks));
    forall k
      ensures EntryCount(doc.marks, k) == ExpectedEntries(p, k)
    {
      assert EntryCount(m0, k) == 0;
      SectionsAdd(p, k, EntryCount(m0, k), EntryCount(m1, k), EntryCount(m2, k), EntryCount(m3, k), EntryCount(m4, k),
                  EntryCount(m5, k), EntryCount(m6, k), EntryCount(m7, k), EntryCount(doc.marks, k));
    }
    fileName := FileName(userName);
  }
}
