/**
 * The rendered output as a structure: a header and the content sections, each holding
 * the entries it lists and the fields each entry shows. Markup, styling and icons are not
 * part of it. Also the reference description, independent of any renderer, of which
 * sections a profile shows and what each shows.
 */
module Views {
  import opened Options
  import opened Profile
  import Seqs
  import Text

  datatype Avatar = Photo(src: string) | Letter(letter: string) | NoAvatar

  datatype ContactKind = EmailContact | PhoneContact | LocationContact

  datatype Contact = Contact(kind: ContactKind, text: string)

  datatype SocialKind = WebsiteLink | LinkedInLink | GitHubLink

  datatype SocialLink = SocialLink(kind: SocialKind, href: string)

  datatype Header = Header(avatar: Avatar, name: string, title: string, contacts: seq<Contact>, links: seq<SocialLink>)

  /** How a project's technologies appear: omitted, as tags, or as the raw text. */
  datatype Technologies = NoTechnologies | Tags(tags: seq<string>) | RawText(text: string)

  datatype ExperienceItem = ExperienceItem(title: string, company: string, duration: string, description: Option<string>)

  datatype EducationItem = EducationItem(degree: string, institution: string, year: string)

  datatype ProjectItem = ProjectItem(name: string, description: Option<string>, technologies: Technologies, link: Option<string>)

  datatype Section =
    | AboutSection(bio: string)
    | SkillsSection(skills: seq<string>)
    | ExperienceSection(experienceItems: seq<ExperienceItem>)
    | EducationSection(educationItems: seq<EducationItem>)
    | ProjectsSection(projectItems: seq<ProjectItem>)

  datatype SectionKind = AboutKind | SkillsKind | ExperienceKind | EducationKind | ProjectsKind

  function KindOf(s: Section): SectionKind {
    match s
    case AboutSection(_) => AboutKind
    case SkillsSection(_) => SkillsKind
    case ExperienceSection(_) => ExperienceKind
    case EducationSection(_) => EducationKind
    case ProjectsSection(_) => ProjectsKind
  }

  function Kinds(ss: seq<Section>): (r: seq<SectionKind>)
    ensures |r| == |ss| && forall i :: 0 <= i < |ss| ==> r[i] == KindOf(ss[i])
  {
    seq(|ss|, i requires 0 <= i < |ss| => KindOf(ss[i]))
  }

  /** Position in the fixed section order About, Skills, Experience, Education, Projects. */
  function Rank(k: SectionKind): int {
    match k
    case AboutKind => 0
    case SkillsKind => 1
    case ExperienceKind => 2
    case EducationKind => 3
    case ProjectsKind => 4
  }

  const SectionOrder: seq<SectionKind> := [AboutKind, SkillsKind, ExperienceKind, EducationKind, ProjectsKind]

  /** When a section is shown. */
  predicate Visible(d: PortfolioData, k: SectionKind) {
    match k
    case AboutKind => Truthy(d.personalInfo.bio)
    case SkillsKind => Seqs.Any(d.skills, SkillRenderable)
    case ExperienceKind => Seqs.Any(d.experience, ExperienceRenderable)
    case EducationKind => Seqs.Any(d.education, EducationRenderable)
    case ProjectsKind => Seqs.Any(d.projects, ProjectRenderable)
  }

  /** The sections a profile shows: the visible ones, in the fixed order. */
  function VisibleKinds(d: PortfolioData): seq<SectionKind> {
    Seqs.Filter(SectionOrder, k => Visible(d, k))
  }

  /** A section kind is listed exactly when it is visible, and the list is in the fixed order. */
  lemma VisibleKindsSpec(d: PortfolioData)
    ensures forall k :: k in VisibleKinds(d) <==> Visible(d, k)
    ensures forall i, j :: 0 <= i < j < |VisibleKinds(d)| ==> Rank(VisibleKinds(d)[i]) < Rank(VisibleKinds(d)[j])
  {
    FilterSectionOrderSpec(k => Visible(d, k));
  }

  /** Filtering the fixed order keeps each kind that passes, and only those, in rank order. */
  lemma FilterSectionOrderSpec(p: SectionKind -> bool)
    ensures forall k :: k in Seqs.Filter(SectionOrder, p) <==> p(k)
    ensures forall i, j :: 0 <= i < j < |Seqs.Filter(SectionOrder, p)| ==>
      Rank(Seqs.Filter(SectionOrder, p)[i]) < Rank(Seqs.Filter(SectionOrder, p)[j])
  {
    Seqs.FilterMembership(SectionOrder, p);
    forall k ensures k in SectionOrder {
      assert SectionOrder[Rank(k)] == k;
    }
    Seqs.FilterKeepsIncreasing(SectionOrder, p, Rank);
  }

  /** The one-element list of a shown kind, or nothing. */
  function KindIf(shown: bool, k: SectionKind): seq<SectionKind> {
    if shown then [k] else []
  }

  /** Filtering the fixed order, unrolled: each kind in its place exactly when it passes. */
  lemma FilterSectionOrder(p: SectionKind -> bool)
    ensures Seqs.Filter(SectionOrder, p) == KindIf(p(AboutKind), AboutKind) + (KindIf(p(SkillsKind), SkillsKind)
      + (KindIf(p(ExperienceKind), ExperienceKind) + (KindIf(p(EducationKind), EducationKind)
      + KindIf(p(ProjectsKind), ProjectsKind))))
  {
    var s := SectionOrder;
    assert s[1..] == [SkillsKind, ExperienceKind, EducationKind, ProjectsKind];
    assert s[1..][1..] == [ExperienceKind, EducationKind, ProjectsKind];
    assert s[1..][1..][1..] == [EducationKind, ProjectsKind];
    assert s[1..][1..][1..][1..] == [ProjectsKind];
    assert Seqs.Filter([ProjectsKind], p) == KindIf(p(ProjectsKind), ProjectsKind) by {
      assert [ProjectsKind][1..] == [];
    }
  }

  /** `technologies.split(',').map(tech => tech.trim())`. */
  function TechTags(technologies: string): (tags: seq<string>)
    ensures |tags| == |Text.Split(technologies, ',')|
    ensures forall i :: 0 <= i < |tags| ==> tags[i] == Text.Trim(Text.Split(technologies, ',')[i])
  {
    var pieces := Text.Split(technologies, ',');
    seq(|pieces|, i requires 0 <= i < |pieces| => Text.Trim(pieces[i]))
  }

  /**
   * The tags: one more than there are commas, each trimmed at both ends, each the trim of
   * one comma-free piece, and the pieces joined by commas give back the text. Empty pieces
   * are kept as empty tags.
   */
  lemma TechTagsSpec(technologies: string)
    ensures |TechTags(technologies)| == Text.Occurrences(technologies, ',') + 1
    ensures forall i :: 0 <= i < |TechTags(technologies)| ==>
      var t := TechTags(technologies)[i];
      t == [] || (!Text.IsSpace(t[0]) && !Text.IsSpace(t[|t| - 1]))
    ensures forall i :: 0 <= i < |TechTags(technologies)| ==> ',' !in TechTags(technologies)[i]
    ensures Text.Join(Text.Split(technologies, ','), ',') == technologies
  {
    Text.JoinSplit(technologies, ',');
    var pieces := Text.Split(technologies, ',');
    forall i | 0 <= i < |pieces| ensures ',' !in Text.Trim(pieces[i]) {
      TrimIsInfix(pieces[i]);
    }
  }

  /**
   * A piece of blanks between two commas (as in " React, , Node.js ") is not dropped: it
   * becomes an empty tag in its place.
   */
  lemma BlankPieceGivesEmptyTag(t: string, i: int)
    requires 0 <= i < |Text.Split(t, ',')| && Text.AllSpace(Text.Split(t, ',')[i])
    ensures |TechTags(t)| == |Text.Split(t, ',')| && TechTags(t)[i] == ""
  {
  }

  /** Every character of `Trim(s)` is a character of `s`. */
  lemma TrimIsInfix(s: string)
    ensures forall c :: c in Text.Trim(s) ==> c in s
  {
    var t := Text.TrimStart(s);
    Text.TrimStartSpec(s);
    Text.TrimEndSpec(t);
    forall c | c in Text.Trim(s) ensures c in s {
      var i :| 0 <= i < |Text.Trim(s)| && Text.Trim(s)[i] == c;
      assert Text.Trim(s)[i] == t[i];
      assert t[i] == s[|s| - |t| + i];
    }
  }

  /** What an experience entry shows: its three fields, and the description when non-empty. */
  predicate ShowsExperience(item: ExperienceItem, e: Experience) {
    && item.title == e.title && item.company == e.company && item.duration == e.duration
    && (item.description.Some? <==> Truthy(e.description))
    && (item.description.Some? ==> item.description.value == e.description)
  }

  predicate ShowsEducation(item: EducationItem, e: Education) {
    item.degree == e.degree && item.institution == e.institution && item.year == e.year
  }

  /**
   * What a project entry shows: its name; the description and the link when non-empty, the
   * link used verbatim; the technologies when non-empty, as trimmed tags (`tagged`) or as the
   * raw text.
   */
  predicate ShowsProject(item: ProjectItem, p: Project, tagged: bool) {
    && item.name == p.name
    && (item.description.Some? <==> Truthy(p.description))
    && (item.description.Some? ==> item.description.value == p.description)
    && (item.link.Some? <==> Truthy(p.link))
    && (item.link.Some? ==> item.link.value == p.link)
    && (item.technologies.NoTechnologies? <==> !Truthy(p.technologies))
    && (Truthy(p.technologies) ==>
          item.technologies == if tagged then Tags(TechTags(p.technologies)) else RawText(p.technologies))
  }

  /** What a section shows: the bio, or the renderable entries of its list in their original order. */
  predicate SectionShows(d: PortfolioData, s: Section, tagged: bool) {
    match s
    case AboutSection(b) => b == d.personalInfo.bio
    case SkillsSection(xs) => xs == Seqs.Filter(d.skills, SkillRenderable)
    case ExperienceSection(items) =>
      var es := Seqs.Filter(d.experience, ExperienceRenderable);
      |items| == |es| && forall i :: 0 <= i < |items| ==> ShowsExperience(items[i], es[i])
    case EducationSection(items) =>
      var es := Seqs.Filter(d.education, EducationRenderable);
      |items| == |es| && forall i :: 0 <= i < |items| ==> ShowsEducation(items[i], es[i])
    case ProjectsSection(items) =>
      var ps := Seqs.Filter(d.projects, ProjectRenderable);
      |items| == |ps| && forall i :: 0 <= i < |items| ==> ShowsProject(items[i], ps[i], tagged)
  }

  /** A renderer's sections are the visible ones, in the fixed order, each showing what it should. */
  predicate FaithfulSections(d: PortfolioData, ss: seq<Section>, tagged: bool) {
    Kinds(ss) == VisibleKinds(d) && forall i :: 0 <= i < |ss| ==> SectionShows(d, ss[i], tagged)
  }

  /** The contact line: email, phone and location, each present exactly when non-empty, in that order. */
  function ContactCandidates(info: PersonalInfo): seq<Contact> {
    [Contact(EmailContact, info.email), Contact(PhoneContact, info.phone), Contact(LocationContact, info.location)]
  }

  predicate HasText(c: Contact) {
    Truthy(c.text)
  }

  predicate FaithfulContacts(info: PersonalInfo, cs: seq<Contact>) {
    cs == Seqs.Filter(ContactCandidates(info), HasText)
  }

  /** The contact line as every layout and the export build it. */
  function ContactLine(info: PersonalInfo): seq<Contact> {
    (if Truthy(info.email) then [Contact(EmailContact, info.email)] else [])
    + (if Truthy(info.phone) then [Contact(PhoneContact, info.phone)] else [])
    + (if Truthy(info.location) then [Contact(LocationContact, info.location)] else [])
  }

  lemma ContactLineFaithful(info: PersonalInfo)
    ensures FaithfulContacts(info, ContactLine(info))
  {
    var cs := ContactCandidates(info);
    var email, phone, location := Contact(EmailContact, info.email), Contact(PhoneContact, info.phone),
      Contact(LocationContact, info.location);
    var e, ph, l := KeepIf(email), KeepIf(phone), KeepIf(location);
    var tail := [phone] + [location];
    assert cs == [email] + tail;
    assert Seqs.Filter(tail, HasText) == ph + l by {
      Seqs.FilterConcat([phone], [location], HasText);
      Seqs.FilterSingleton(phone, HasText);
      Seqs.FilterSingleton(location, HasText);
    }
    assert Seqs.Filter(cs, HasText) == e + (ph + l) by {
      Seqs.FilterConcat([email], tail, HasText);
      Seqs.FilterSingleton(email, HasText);
    }
    assert ContactLine(info) == e + ph + l;
    Seqs.AppendAssoc(e, ph, l);
  }

  /** The one-element contact list when the contact has text, otherwise nothing. */
  function KeepIf(c: Contact): seq<Contact> {
    if HasText(c) then [c] else []
  }

  /** `s && <element>`: the value when it is non-empty, nothing otherwise. */
  function WhenTruthy(s: string): (r: Option<string>)
    ensures r.Some? <==> Truthy(s)
    ensures r.Some? ==> r.value == s
  {
    if Truthy(s) then Some(s) else None
  }

  lemma {:induction false} KindsConcat(a: seq<Section>, b: seq<Section>)
    ensures Kinds(a + b) == Kinds(a) + Kinds(b)
  {
    assert forall i :: 0 <= i < |a + b| ==> Kinds(a + b)[i] == (Kinds(a) + Kinds(b))[i];
  }

  /** Every section shows what it should. */
  predicate AllShow(d: PortfolioData, ss: seq<Section>, tagged: bool) {
    forall i :: 0 <= i < |ss| ==> SectionShows(d, ss[i], tagged)
  }

  /**
   * A renderer's fragment for one kind: nothing when the kind is not visible, otherwise the
   * one section of that kind, showing what it should.
   */
  predicate Slot(d: PortfolioData, k: SectionKind, part: seq<Section>, tagged: bool) {
    Kinds(part) == KindIf(Visible(d, k), k) && AllShow(d, part, tagged)
  }

  lemma AllShowConcat(d: PortfolioData, a: seq<Section>, b: seq<Section>, tagged: bool)
    requires AllShow(d, a, tagged) && AllShow(d, b, tagged)
    ensures AllShow(d, a + b, tagged)
  {
    forall i | 0 <= i < |a + b| ensures SectionShows(d, (a + b)[i], tagged) {
      if i >= |a| {
        assert (a + b)[i] == b[i - |a|];
      }
    }
  }

  /** Five fragments in the fixed order, each right for its kind, make faithful sections. */
  lemma AssembleFaithful(d: PortfolioData, tagged: bool, about: seq<Section>, skills: seq<Section>,
                         experience: seq<Section>, education: seq<Section>, projects: seq<Section>)
    requires Slot(d, AboutKind, about, tagged) && Slot(d, SkillsKind, skills, tagged)
    requires Slot(d, ExperienceKind, experience, tagged) && Slot(d, EducationKind, education, tagged)
    requires Slot(d, ProjectsKind, projects, tagged)
    ensures FaithfulSections(d, about + (skills + (experience + (education + projects))), tagged)
  {
    KindsConcat(education, projects);
    KindsConcat(experience, education + projects);
    KindsConcat(skills, experience + (education + projects));
    KindsConcat(about, skills + (experience + (education + projects)));
    FilterSectionOrder(k => Visible(d, k));
    AllShowConcat(d, education, projects, tagged);
    AllShowConcat(d, experience, education + projects, tagged);
    AllShowConcat(d, skills, experience + (education + projects), tagged);
    AllShowConcat(d, about, skills + (experience + (education + projects)), tagged);
  }

  // ----- the section list, given how a layout renders one entry -----

  function AboutFragment(d: PortfolioData): seq<Section> {
    if Truthy(d.personalInfo.bio) then [AboutSection(d.personalInfo.bio)] else []
  }

  /** Skills are filtered by their trimmed value and shown as written. */
  function SkillsFragment(d: PortfolioData): seq<Section> {
    if Seqs.Any(d.skills, SkillRenderable) then [SkillsSection(Seqs.Filter(d.skills, SkillRenderable))] else []
  }

  function ExperienceFragment(d: PortfolioData, item: Experience -> ExperienceItem): seq<Section> {
    var es := Seqs.Filter(d.experience, ExperienceRenderable);
    if Seqs.Any(d.experience, ExperienceRenderable)
    then [ExperienceSection(seq(|es|, i requires 0 <= i < |es| => item(es[i])))]
    else []
  }

  function EducationFragment(d: PortfolioData, item: Education -> EducationItem): seq<Section> {
    var es := Seqs.Filter(d.education, EducationRenderable);
    if Seqs.Any(d.education, EducationRenderable)
    then [EducationSection(seq(|es|, i requires 0 <= i < |es| => item(es[i])))]
    else []
  }

  function ProjectsFragment(d: PortfolioData, item: Project -> ProjectItem): seq<Section> {
    var ps := Seqs.Filter(d.projects, ProjectRenderable);
    if Seqs.Any(d.projects, ProjectRenderable)
    then [ProjectsSection(seq(|ps|, i requires 0 <= i < |ps| => item(ps[i])))]
    else []
  }

  /** The five optional sections in the fixed order; layouts differ only in how they render an entry. */
  function Sections(d: PortfolioData, experienceItem: Experience -> ExperienceItem,
                    educationItem: Education -> EducationItem, projectItem: Project -> ProjectItem): seq<Section> {
    AboutFragment(d) + (SkillsFragment(d) + (ExperienceFragment(d, experienceItem)
      + (EducationFragment(d, educationItem) + ProjectsFragment(d, projectItem))))
  }

  lemma AboutSlot(d: PortfolioData, tagged: bool)
    ensures Slot(d, AboutKind, AboutFragment(d), tagged)
  {
  }

  lemma SkillsSlot(d: PortfolioData, tagged: bool)
    ensures Slot(d, SkillsKind, SkillsFragment(d), tagged)
  {
  }

  lemma ExperienceSlot(d: PortfolioData, item: Experience -> ExperienceItem, tagged: bool)
    requires forall e :: ShowsExperience(item(e), e)
    ensures Slot(d, ExperienceKind, ExperienceFragment(d, item), tagged)
  {
  }

  lemma EducationSlot(d: PortfolioData, item: Education -> EducationItem, tagged: bool)
    requires forall e :: ShowsEducation(item(e), e)
    ensures Slot(d, EducationKind, EducationFragment(d, item), tagged)
  {
  }

  lemma ProjectsSlot(d: PortfolioData, item: Project -> ProjectItem, tagged: bool)
    requires forall p :: ShowsProject(item(p), p, tagged)
    ensures Slot(d, ProjectsKind, ProjectsFragment(d, item), tagged)
  {
  }

  /**
   * Whatever the layout, if it renders each entry faithfully, the section list holds exactly
   * the visible sections in the fixed order, each with its filtered entries in order.
   */
  lemma SectionsFaithful(d: PortfolioData, experienceItem: Experience -> ExperienceItem,
                         educationItem: Education -> EducationItem, projectItem: Project -> ProjectItem, tagged: bool)
    requires forall e :: ShowsExperience(experienceItem(e), e)
    requires forall e :: ShowsEducation(educationItem(e), e)
    requires forall p :: ShowsProject(projectItem(p), p, tagged)
    ensures FaithfulSections(d, Sections(d, experienceItem, educationItem, projectItem), tagged)
  {
    AboutSlot(d, tagged);
    SkillsSlot(d, tagged);
    ExperienceSlot(d, experienceItem, tagged);
    EducationSlot(d, educationItem, tagged);
    ProjectsSlot(d, projectItem, tagged);
    AssembleFaithful(d, tagged, AboutFragment(d), SkillsFragment(d), ExperienceFragment(d, experienceItem),
                     EducationFragment(d, educationItem), ProjectsFragment(d, projectItem));
  }

  /** `data.personalInfo.name` is empty after trimming. */
  predicate BlankName(p: Portfolio) {
    Text.Trim(p.data.personalInfo.name) == ""
  }
}
