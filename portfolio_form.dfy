/**
 * The profile editor. Each handler builds a new value from the old one (spread, index
 * write on a copy, append, `filter` by index), stores it and reports it to the parent.
 * The new values are the functions below; the stored state is the class `Form`.
 */
module PortfolioForm {
  import opened Profile
  import Seqs

  /** Only the personal info may differ. */
  predicate ListsUnchanged(r: PortfolioData, d: PortfolioData) {
    r.skills == d.skills && r.experience == d.experience && r.education == d.education && r.projects == d.projects
  }

  /** Only the skills may differ. */
  predicate AllButSkillsUnchanged(r: PortfolioData, d: PortfolioData) {
    r.personalInfo == d.personalInfo && r.experience == d.experience && r.education == d.education && r.projects == d.projects
  }

  /** Only the experience list may differ. */
  predicate AllButExperienceUnchanged(r: PortfolioData, d: PortfolioData) {
    r.personalInfo == d.personalInfo && r.skills == d.skills && r.education == d.education && r.projects == d.projects
  }

  /** Only the education list may differ. */
  predicate AllButEducationUnchanged(r: PortfolioData, d: PortfolioData) {
    r.personalInfo == d.personalInfo && r.skills == d.skills && r.experience == d.experience && r.projects == d.projects
  }

  /** Only the project list may differ. */
  predicate AllButProjectsUnchanged(r: PortfolioData, d: PortfolioData) {
    r.personalInfo == d.personalInfo && r.skills == d.skills && r.experience == d.experience && r.education == d.education
  }

  // ----- personal info -----

  /** The value `updatePersonalInfo(field, value)` stores. */
  function PersonalInfoUpdated(d: PortfolioData, f: PersonalField, value: string): (r: PortfolioData)
    ensures PersonalValue(r.personalInfo, f) == value
    ensures forall g :: g != f ==> PersonalValue(r.personalInfo, g) == PersonalValue(d.personalInfo, g)
    ensures ListsUnchanged(r, d)
  {
    d.(personalInfo := WithPersonal(d.personalInfo, f, value))
  }

  // ----- skills -----

  /** The value `updateSkills(index, value)` stores. */
  function SkillUpdated(d: PortfolioData, index: int, value: string): (r: PortfolioData)
    requires 0 <= index < |d.skills|
    ensures |r.skills| == |d.skills| && r.skills[index] == value
    ensures forall j :: 0 <= j < |d.skills| && j != index ==> r.skills[j] == d.skills[j]
    ensures AllButSkillsUnchanged(r, d)
  {
    d.(skills := d.skills[index := value])
  }

  /** The value `addSkill()` stores. */
  function SkillAdded(d: PortfolioData): (r: PortfolioData)
    ensures |r.skills| == |d.skills| + 1
    ensures r.skills[..|d.skills|] == d.skills && r.skills[|d.skills|] == ""
    ensures AllButSkillsUnchanged(r, d)
  {
    d.(skills := d.skills + [""])
  }

  /** The value `removeSkill(index)` stores. */
  function SkillRemoved(d: PortfolioData, index: int): (r: PortfolioData)
    ensures 0 <= index < |d.skills| ==> r.skills == d.skills[..index] + d.skills[index + 1..]
    ensures !(0 <= index < |d.skills|) ==> r.skills == d.skills
    ensures AllButSkillsUnchanged(r, d)
  {
    Seqs.FilterOutIndexDeletes(d.skills, index);
    d.(skills := Seqs.FilterOutIndex(d.skills, index))
  }

  // ----- experience -----

  /** The value `updateExperience(index, field, value)` stores. */
  function ExperienceUpdated(d: PortfolioData, index: int, f: ExperienceField, value: string): (r: PortfolioData)
    requires 0 <= index < |d.experience|
    ensures |r.experience| == |d.experience|
    ensures ExperienceValue(r.experience[index], f) == value
    ensures forall g :: g != f ==> ExperienceValue(r.experience[index], g) == ExperienceValue(d.experience[index], g)
    ensures forall j :: 0 <= j < |d.experience| && j != index ==> r.experience[j] == d.experience[j]
    ensures AllButExperienceUnchanged(r, d)
  {
    d.(experience := d.experience[index := WithExperience(d.experience[index], f, value)])
  }

  /** The value `addExperience()` stores. */
  function ExperienceAdded(d: PortfolioData): (r: PortfolioData)
    ensures |r.experience| == |d.experience| + 1
    ensures r.experience[..|d.experience|] == d.experience && r.experience[|d.experience|] == BlankExperience
    ensures AllButExperienceUnchanged(r, d)
  {
    d.(experience := d.experience + [BlankExperience])
  }

  /** The value `removeExperience(index)` stores. */
  function ExperienceRemoved(d: PortfolioData, index: int): (r: PortfolioData)
    ensures 0 <= index < |d.experience| ==> r.experience == d.experience[..index] + d.experience[index + 1..]
    ensures !(0 <= index < |d.experience|) ==> r.experience == d.experience
    ensures AllButExperienceUnchanged(r, d)
  {
    Seqs.FilterOutIndexDeletes(d.experience, index);
    d.(experience := Seqs.FilterOutIndex(d.experience, index))
  }

  // ----- education -----

  /** The value `updateEducation(index, field, value)` stores. */
  function EducationUpdated(d: PortfolioData, index: int, f: EducationField, value: string): (r: PortfolioData)
    requires 0 <= index < |d.education|
    ensures |r.education| == |d.education|
    ensures EducationValue(r.education[index], f) == value
    ensures forall g :: g != f ==> EducationValue(r.education[index], g) == EducationValue(d.education[index], g)
    ensures forall j :: 0 <= j < |d.education| && j != index ==> r.education[j] == d.education[j]
    ensures AllButEducationUnchanged(r, d)
  {
    d.(education := d.education[index := WithEducation(d.education[index], f, value)])
  }

  /** The value `addEducation()` stores. */
  function EducationAdded(d: PortfolioData): (r: PortfolioData)
    ensures |r.education| == |d.education| + 1
    ensures r.education[..|d.education|] == d.education && r.education[|d.education|] == BlankEducation
    ensures AllButEducationUnchanged(r, d)
  {
    d.(education := d.education + [BlankEducation])
  }

  /** The value `removeEducation(index)` stores. */
  function EducationRemoved(d: PortfolioData, index: int): (r: PortfolioData)
    ensures 0 <= index < |d.education| ==> r.education == d.education[..index] + d.education[index + 1..]
    ensures !(0 <= index < |d.education|) ==> r.education == d.education
    ensures AllButEducationUnchanged(r, d)
  {
    Seqs.FilterOutIndexDeletes(d.education, index);
    d.(education := Seqs.FilterOutIndex(d.education, index))
  }

  // ----- projects -----

  /** The value `updateProject(index, field, value)` stores. */
  function ProjectUpdated(d: PortfolioData, index: int, f: ProjectField, value: string): (r: PortfolioData)
    requires 0 <= index < |d.projects|
    ensures |r.projects| == |d.projects|
    ensures ProjectValue(r.projects[index], f) == value
    ensures forall g :: g != f ==> ProjectValue(r.projects[index], g) == ProjectValue(d.projects[index], g)
    ensures forall j :: 0 <= j < |d.projects| && j != index ==> r.projects[j] == d.projects[j]
    ensures AllButProjectsUnchanged(r, d)
  {
    d.(projects := d.projects[index := WithProject(d.projects[index], f, value)])
  }

  /** The value `addProject()` stores. */
  function ProjectAdded(d: PortfolioData): (r: PortfolioData)
    ensures |r.projects| == |d.projects| + 1
    ensures r.projects[..|d.projects|] == d.projects && r.projects[|d.projects|] == BlankProject
    ensures AllButProjectsUnchanged(r, d)
  {
    d.(projects := d.projects + [BlankProject])
  }

  /** The value `removeProject(index)` stores. */
  function ProjectRemoved(d: PortfolioData, index: int): (r: PortfolioData)
    ensures 0 <= index < |d.projects| ==> r.projects == d.projects[..index] + d.projects[index + 1..]
    ensures !(0 <= index < |d.projects|) ==> r.projects == d.projects
    ensures AllButProjectsUnchanged(r, d)
  {
    Seqs.FilterOutIndexDeletes(d.projects, index);
    d.(projects := Seqs.FilterOutIndex(d.projects, index))
  }

  // ----- the edits a user can make -----

  /** One user action on the form: a keystroke in a field, an Add button, a Remove button. */
  datatype Edit =
    | EditPersonal(field: PersonalField, value: string)
    | EditSkill(index: int, value: string)
    | AddSkillEntry
    | RemoveSkillEntry(index: int)
    | EditExperience(index: int, experienceField: ExperienceField, value: string)
    | AddExperienceEntry
    | RemoveExperienceEntry(index: int)
    | EditEducation(index: int, educationField: EducationField, value: string)
    | AddEducationEntry
    | RemoveEducationEntry(index: int)
    | EditProject(index: int, projectField: ProjectField, value: string)
    | AddProjectEntry
    | RemoveProjectEntry(index: int)

  /**
   * The action is offered by the rendered form: inputs and Remove buttons exist only for
   * the entries that are listed, and a Remove button is disabled when its list has one entry.
   */
  predicate Enabled(d: PortfolioData, e: Edit) {
    match e
    case EditPersonal(_, _) => true
    case EditSkill(i, _) => 0 <= i < |d.skills|
    case AddSkillEntry => true
    case RemoveSkillEntry(i) => 0 <= i < |d.skills| && |d.skills| != 1
    case EditExperience(i, _, _) => 0 <= i < |d.experience|
    case AddExperienceEntry => true
    case RemoveExperienceEntry(i) => 0 <= i < |d.experience| && |d.experience| != 1
    case EditEducation(i, _, _) => 0 <= i < |d.education|
    case AddEducationEntry => true
    case RemoveEducationEntry(i) => 0 <= i < |d.education| && |d.education| != 1
    case EditProject(i, _, _) => 0 <= i < |d.projects|
    case AddProjectEntry => true
    case RemoveProjectEntry(i) => 0 <= i < |d.projects| && |d.projects| != 1
  }

  /** The value the handler for `e` stores. */
  function Apply(d: PortfolioData, e: Edit): PortfolioData
    requires Enabled(d, e)
  {
    match e
    case EditPersonal(f, v) => PersonalInfoUpdated(d, f, v)
    case EditSkill(i, v) => SkillUpdated(d, i, v)
    case AddSkillEntry => SkillAdded(d)
    case RemoveSkillEntry(i) => SkillRemoved(d, i)
    case EditExperience(i, f, v) => ExperienceUpdated(d, i, f, v)
    case AddExperienceEntry => ExperienceAdded(d)
    case RemoveExperienceEntry(i) => ExperienceRemoved(d, i)
    case EditEducation(i, f, v) => EducationUpdated(d, i, f, v)
    case AddEducationEntry => EducationAdded(d)
    case RemoveEducationEntry(i) => EducationRemoved(d, i)
    case EditProject(i, f, v) => ProjectUpdated(d, i, f, v)
    case AddProjectEntry => ProjectAdded(d)
    case RemoveProjectEntry(i) => ProjectRemoved(d, i)
  }

  /** A click on a disabled button does nothing. */
  function Step(d: PortfolioData, e: Edit): PortfolioData {
    if Enabled(d, e) then Apply(d, e) else d
  }

  /** The state after a session of user actions. */
  function Run(d: PortfolioData, es: seq<Edit>): PortfolioData
    decreases |es|
  {
    if es == [] then d else Run(Step(d, es[0]), es[1..])
  }

  /** One enabled action keeps every list non-empty. */
  lemma ApplyKeepsWellFormed(d: PortfolioData, e: Edit)
    requires WellFormed(d) && Enabled(d, e)
    ensures WellFormed(Apply(d, e))
  {
  }

  /** Every session of user actions keeps every list non-empty. */
  lemma {:induction false} RunKeepsWellFormed(d: PortfolioData, es: seq<Edit>)
    requires WellFormed(d)
    ensures WellFormed(Run(d, es))
    decreases |es|
  {
    if es != [] {
      if Enabled(d, es[0]) {
        ApplyKeepsWellFormed(d, es[0]);
      }
      RunKeepsWellFormed(Step(d, es[0]), es[1..]);
    }
  }

  /** Without the disabled guard, removing the only skill would leave none. */
  lemma UnguardedRemoveEmptiesList(d: PortfolioData, index: int)
    requires |d.skills| == 1 && 0 <= index < 1
    ensures SkillRemoved(d, index).skills == []
  {
  }

  /** The editor's state: the `data` held by `useState`, replaced by every handler. */
  class Form {
    var data: PortfolioData

    ghost predicate Valid()
      reads this
    {
      WellFormed(data)
    }

    constructor ()
      ensures Valid()
      ensures data == Initial()
    {
      data := Initial();
    }

    /** `updatePersonalInfo`; `notified` is the value passed to `onDataChange`. */
    method UpdatePersonalInfo(field: PersonalField, value: string) returns (notified: PortfolioData)
      requires Valid()
      modifies this
      ensures Valid()
      ensures data == PersonalInfoUpdated(old(data), field, value)
      ensures notified == data
    {
      var newData := data.(personalInfo := WithPersonal(data.personalInfo, field, value));
      data := newData;
      notified := newData;
    }

    method UpdateSkills(index: int, value: string) returns (notified: PortfolioData)
      requires Valid()
      requires 0 <= index < |data.skills|
      modifies this
      ensures Valid()
      ensures data == SkillUpdated(old(data), index, value)
      ensures notified == data
    {
      var newSkills := data.skills;
      newSkills := newSkills[index := value];
      var newData := data.(skills := newSkills);
      data := newData;
      notified := newData;
    }

    method AddSkill() returns (notified: PortfolioData)
      requires Valid()
      modifies this
      ensures Valid()
      ensures data == SkillAdded(old(data))
      ensures notified == data
    {
      var newData := data.(skills := data.skills + [""]);
      data := newData;
      notified := newData;
    }

    /** `removeSkill`; the button is rendered per listed entry and disabled at length 1. */
    method RemoveSkill(index: int) returns (notified: PortfolioData)
      requires Valid()
      requires 0 <= index < |data.skills| && |data.skills| != 1
      modifies this
      ensures Valid()
      ensures data == SkillRemoved(old(data), index)
      ensures notified == data
    {
      var newSkills := Seqs.FilterOutIndex(data.skills, index);
      Seqs.FilterOutIndexDeletes(data.skills, index);
      var newData := data.(skills := newSkills);
      data := newData;
      notified := newData;
    }

    method UpdateExperience(index: int, field: ExperienceField, value: string) returns (notified: PortfolioData)
      requires Valid()
      requires 0 <= index < |data.experience|
      modifies this
      ensures Valid()
      ensures data == ExperienceUpdated(old(data), index, field, value)
      ensures notified == data
    {
      var newExperience := data.experience;
      newExperience := newExperience[index := WithExperience(newExperience[index], field, value)];
      var newData := data.(experience := newExperience);
      data := newData;
      notified := newData;
    }

    method AddExperience() returns (notified: PortfolioData)
      requires Valid()
      modifies this
      ensures Valid()
      ensures data == ExperienceAdded(old(data))
      ensures notified == data
    {
      var newData := data.(experience := data.experience + [Experience("", "", "", "")]);
      data := newData;
      notified := newData;
    }

    method RemoveExperience(index: int) returns (notified: PortfolioData)
      requires Valid()
      requires 0 <= index < |data.experience| && |data.experience| != 1
      modifies this
      ensures Valid()
      ensures data == ExperienceRemoved(old(data), index)
      ensures notified == data
    {
      var newExperience := Seqs.FilterOutIndex(data.experience, index);
      Seqs.FilterOutIndexDeletes(data.experience, index);
      var newData := data.(experience := newExperience);
      data := newData;
      notified := newData;
    }

    method UpdateEducation(index: int, field: EducationField, value: string) returns (notified: PortfolioData)
      requires Valid()
      requires 0 <= index < |data.education|
      modifies this
      ensures Valid()
      ensures data == EducationUpdated(old(data), index, field, value)
      ensures notified == data
    {
      var newEducation := data.education;
      newEducation := newEducation[index := WithEducation(newEducation[index], field, value)];
      var newData := data.(education := newEducation);
      data := newData;
      notified := newData;
    }

    method AddEducation() returns (notified: PortfolioData)
      requires Valid()
      modifies this
      ensures Valid()
      ensures data == EducationAdded(old(data))
      ensures notified == data
    {
      var newData := data.(education := data.education + [Education("", "", "")]);
      data := newData;
      notified := newData;
    }

    method RemoveEducation(index: int) returns (notified: PortfolioData)
      requires Valid()
      requires 0 <= index < |data.education| && |data.education| != 1
      modifies this
      ensures Valid()
      ensures data == EducationRemoved(old(data), index)
      ensures notified == data
    {
      var newEducation := Seqs.FilterOutIndex(data.education, index);
      Seqs.FilterOutIndexDeletes(data.education, index);
      var newData := data.(education := newEducation);
      data := newData;
      notified := newData;
    }

    method UpdateProject(index: int, field: ProjectField, value: string) returns (notified: PortfolioData)
      requires Valid()
      requires 0 <= index < |data.projects|
      modifies this
      ensures Valid()
      ensures data == ProjectUpdated(old(data), index, field, value)
      ensures notified == data
    {
      var newProjects := data.projects;
      newProjects := newProjects[index := WithProject(newProjects[index], field, value)];
      var newData := data.(projects := newProjects);
      data := newData;
      notified := newData;
    }

    method AddProject() returns (notified: PortfolioData)
      requires Valid()
      modifies this
      ensures Valid()
      ensures data == ProjectAdded(old(data))
      ensures notified == data
    {
      var newData := data.(projects := data.projects + [Project("", "", "", "")]);
      data := newData;
      notified := newData;
    }

    method RemoveProject(index: int) returns (notified: PortfolioData)
      requires Valid()
      requires 0 <= index < |data.projects| && |data.projects| != 1
      modifies this
      ensures Valid()
      ensures data == ProjectRemoved(old(data), index)
      ensures notified == data
    {
      var newProjects := Seqs.FilterOutIndex(data.projects, index);
      Seqs.FilterOutIndexDeletes(data.projects, index);
      var newData := data.(projects := newProjects);
      data := newData;
      notified := newData;
    }
  }
}
