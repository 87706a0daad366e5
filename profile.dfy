/**
 * The profile data model shared by the form, the preview and the export: nine free-text
 * personal-info fields, four ordered lists, and (outside the form) an optional image.
 * Also the per-entry "renderable" predicates that decide which list entries are shown.
 */
module Profile {
  import opened Options
  import Text

  datatype PersonalInfo = PersonalInfo(
    name: string, title: string, email: string, phone: string, location: string,
    website: string, linkedin: string, github: string, bio: string)

  /** The keys `updatePersonalInfo` is called with. */
  datatype PersonalField = Name | Title | Email | Phone | Location | Website | LinkedIn | GitHub | Bio

  datatype Experience = Experience(title: string, company: string, duration: string, description: string)

  datatype ExperienceField = JobTitle | Company | Duration | JobDescription

  datatype Education = Education(degree: string, institution: string, year: string)

  datatype EducationField = Degree | Institution | Year

  datatype Project = Project(name: string, description: string, technologies: string, link: string)

  datatype ProjectField = ProjectName | ProjectDescription | Technologies | ProjectLink

  /** The form's value: everything but the image. */
  datatype PortfolioData = PortfolioData(
    personalInfo: PersonalInfo,
    skills: seq<string>,
    experience: seq<Experience>,
    education: seq<Education>,
    projects: seq<Project>)

  /**
   * The value the application shell stores and the renderers read: the form's value plus
   * `profileImage`, which is `null` initially and `undefined` when it has been dropped.
   */
  datatype Portfolio = Portfolio(data: PortfolioData, profileImage: Option<string>)

  /** `data.personalInfo[field]`. */
  function PersonalValue(info: PersonalInfo, f: PersonalField): string {
    match f
    case Name => info.name
    case Title => info.title
    case Email => info.email
    case Phone => info.phone
    case Location => info.location
    case Website => info.website
    case LinkedIn => info.linkedin
    case GitHub => info.github
    case Bio => info.bio
  }

  /** `{ ...info, [field]: value }`: sets one field and keeps the eight others. */
  function WithPersonal(info: PersonalInfo, f: PersonalField, value: string): (r: PersonalInfo)
    ensures PersonalValue(r, f) == value
    ensures forall g :: g != f ==> PersonalValue(r, g) == PersonalValue(info, g)
  {
    match f
    case Name => info.(name := value)
    case Title => info.(title := value)
    case Email => info.(email := value)
    case Phone => info.(phone := value)
    case Location => info.(location := value)
    case Website => info.(website := value)
    case LinkedIn => info.(linkedin := value)
    case GitHub => info.(github := value)
    case Bio => info.(bio := value)
  }

  function ExperienceValue(e: Experience, f: ExperienceField): string {
    match f
    case JobTitle => e.title
    case Company => e.company
    case Duration => e.duration
    case JobDescription => e.description
  }

  /** `{ ...entry, [field]: value }` on an experience entry. */
  function WithExperience(e: Experience, f: ExperienceField, value: string): (r: Experience)
    ensures ExperienceValue(r, f) == value
    ensures forall g :: g != f ==> ExperienceValue(r, g) == ExperienceValue(e, g)
  {
    match f
    case JobTitle => e.(title := value)
    case Company => e.(company := value)
    case Duration => e.(duration := value)
    case JobDescription => e.(description := value)
  }

  function EducationValue(e: Education, f: EducationField): string {
    match f
    case Degree => e.degree
    case Institution => e.institution
    case Year => e.year
  }

  /** `{ ...entry, [field]: value }` on an education entry. */
  function WithEducation(e: Education, f: EducationField, value: string): (r: Education)
    ensures EducationValue(r, f) == value
    ensures forall g :: g != f ==> EducationValue(r, g) == EducationValue(e, g)
  {
    match f
    case Degree => e.(degree := value)
    case Institution => e.(institution := value)
    case Year => e.(year := value)
  }

  function ProjectValue(p: Project, f: ProjectField): string {
    match f
    case ProjectName => p.name
    case ProjectDescription => p.description
    case Technologies => p.technologies
    case ProjectLink => p.link
  }

  /** `{ ...entry, [field]: value }` on a project entry. */
  function WithProject(p: Project, f: ProjectField, value: string): (r: Project)
    ensures ProjectValue(r, f) == value
    ensures forall g :: g != f ==> ProjectValue(r, g) == ProjectValue(p, g)
  {
    match f
    case ProjectName => p.(name := value)
    case ProjectDescription => p.(description := value)
    case Technologies => p.(technologies := value)
    case ProjectLink => p.(link := value)
  }

  const BlankPersonalInfo := PersonalInfo("", "", "", "", "", "", "", "", "")
  const BlankExperience := Experience("", "", "", "")
  const BlankEducation := Education("", "", "")
  const BlankProject := Project("", "", "", "")

  /** Every repeatable list holds at least one entry. */
  predicate WellFormed(d: PortfolioData) {
    |d.skills| >= 1 && |d.experience| >= 1 && |d.education| >= 1 && |d.projects| >= 1
  }

  /** The `useState` initial value: blank fields, one blank entry per list. */
  function Initial(): (d: PortfolioData)
    ensures WellFormed(d)
    ensures forall f :: PersonalValue(d.personalInfo, f) == ""
    ensures d.skills == [""] && d.experience == [BlankExperience]
    ensures d.education == [BlankEducation] && d.projects == [BlankProject]
  {
    PortfolioData(BlankPersonalInfo, [""], [BlankExperience], [BlankEducation], [BlankProject])
  }

  /** A JavaScript string is truthy exactly when it is non-empty. */
  predicate Truthy(s: string) {
    s != ""
  }

  /** `skill.trim()` is truthy. */
  predicate SkillRenderable(skill: string) {
    Truthy(Text.Trim(skill))
  }

  /** `exp.title || exp.company` (no trimming). */
  predicate ExperienceRenderable(e: Experience) {
    Truthy(e.title) || Truthy(e.company)
  }

  /** `edu.degree || edu.institution` (no trimming). */
  predicate EducationRenderable(e: Education) {
    Truthy(e.degree) || Truthy(e.institution)
  }

  /** `project.name` (no trimming). */
  predicate ProjectRenderable(p: Project) {
    Truthy(p.name)
  }

  /** `profileImage` is truthy: present and non-empty. */
  predicate HasImage(p: Portfolio) {
    p.profileImage.Some? && Truthy(p.profileImage.value)
  }
}
