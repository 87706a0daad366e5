/**
 * The downloaded document and its file name. The document's markup is modelled by its
 * content: the page title, the header (avatar, name, title, contact line) and the sections.
 * The export always uses its own fixed layout, whatever template is selected.
 */
module Export {
  import opened Options
  import opened Profile
  import opened Views
  import Seqs
  import Text

  datatype Document = Document(pageTitle: string, header: Header, sections: seq<Section>)

  /** `<img>` when there is an image, otherwise the name's first character. */
  function ExportAvatar(p: Portfolio): Avatar {
    if HasImage(p) then Photo(p.profileImage.value) else Letter(Text.FirstChar(p.data.personalInfo.name))
  }

  /** The header carries no website, LinkedIn or GitHub links. */
  function ExportHeader(p: Portfolio): Header {
    var info := p.data.personalInfo;
    Header(ExportAvatar(p), info.name, info.title, ContactLine(info), [])
  }

  function ExportExperienceItem(e: Experience): ExperienceItem {
    ExperienceItem(e.title, e.company, e.duration, WhenTruthy(e.description))
  }

  function ExportEducationItem(e: Education): EducationItem {
    EducationItem(e.degree, e.institution, e.year)
  }

  /** Technologies as tags, split at commas and trimmed; the link used verbatim. */
  function ExportProjectItem(p: Project): ProjectItem {
    ProjectItem(p.name, WhenTruthy(p.description),
                if Truthy(p.technologies) then Tags(TechTags(p.technologies)) else NoTechnologies,
                WhenTruthy(p.link))
  }

  /** The document content of `htmlContent`. */
  function ExportDocument(p: Portfolio): Document {
    Document(p.data.personalInfo.name + " - Portfolio", ExportHeader(p),
             Sections(p.data, ExportExperienceItem, ExportEducationItem, ExportProjectItem))
  }

  /**
   * The document shows the visible sections in the fixed order, each with its filtered
   * entries in their original order, optional fields only when non-empty and technologies as
   * trimmed tags; its header shows the image or the initial, the name, the title and the
   * contact line, and no social links.
   */
  lemma ExportFaithful(p: Portfolio)
    ensures FaithfulSections(p.data, ExportDocument(p).sections, true)
    ensures ExportDocument(p).pageTitle == p.data.personalInfo.name + " - Portfolio"
    ensures HasImage(p) ==> ExportDocument(p).header.avatar == Photo(p.profileImage.value)
    ensures !HasImage(p) ==> ExportDocument(p).header.avatar == Letter(Text.FirstChar(p.data.personalInfo.name))
    ensures ExportDocument(p).header.name == p.data.personalInfo.name
    ensures ExportDocument(p).header.title == p.data.personalInfo.title
    ensures FaithfulContacts(p.data.personalInfo, ExportDocument(p).header.contacts)
    ensures ExportDocument(p).header.links == []
  {
    SectionsFaithful(p.data, ExportExperienceItem, ExportEducationItem, ExportProjectItem, true);
    ContactLineFaithful(p.data.personalInfo);
  }

  /**
   * A profile named Jane Doe, an engineer, with the one skill Go and one job (Dev at Acme,
   * 2020-2021, no description); the other lists are left blank.
   */
  const JaneDoe: PortfolioData :=
    PortfolioData(BlankPersonalInfo.(name := "Jane Doe", title := "Engineer"), ["Go"],
                  [Experience("Dev", "Acme", "2020-2021", "")], [BlankEducation], [BlankProject])

  /**
   * Jane Doe's export has a header with her name and title, a Skills section with Go, an
   * Experience section with the job, and nothing else.
   */
  lemma JaneDoeExport()
    ensures ExportDocument(Portfolio(JaneDoe, None)).header.name == "Jane Doe"
    ensures ExportDocument(Portfolio(JaneDoe, None)).header.title == "Engineer"
    ensures ExportDocument(Portfolio(JaneDoe, None)).sections
      == [SkillsSection(["Go"]), ExperienceSection([ExperienceItem("Dev", "Acme", "2020-2021", None)])]
  {
    JaneDoeSkills();
    JaneDoeExperience();
    JaneDoeNoOtherSections();
    var skills, jobs := [SkillsSection(["Go"])], [ExperienceSection([ExperienceItem("Dev", "Acme", "2020-2021", None)])];
    assert Sections(JaneDoe, ExportExperienceItem, ExportEducationItem, ExportProjectItem) == [] + (skills + (jobs + ([] + [])));
  }

  lemma JaneDoeSkills()
    ensures AboutFragment(JaneDoe) == []
    ensures SkillsFragment(JaneDoe) == [SkillsSection(["Go"])]
  {
    assert Text.Trim("Go") == "Go" by {
      Text.TrimOfPadded("", "Go", "");
      assert "" + "Go" + "" == "Go";
    }
    Seqs.FilterSingleton("Go", SkillRenderable);
  }

  lemma JaneDoeExperience()
    ensures ExperienceFragment(JaneDoe, ExportExperienceItem) == [ExperienceSection([ExperienceItem("Dev", "Acme", "2020-2021", None)])]
  {
    var job := JaneDoe.experience[0];
    assert JaneDoe.experience == [job];
    Seqs.FilterSingleton(job, ExperienceRenderable);
    var es := Seqs.Filter(JaneDoe.experience, ExperienceRenderable);
    assert es == [job];
    assert Seqs.Any(JaneDoe.experience, ExperienceRenderable);
    var f := ExperienceFragment(JaneDoe, ExportExperienceItem);
    assert |f| == 1 && f[0].ExperienceSection?;
    assert |f[0].experienceItems| == 1;
    assert f[0].experienceItems[0] == ExportExperienceItem(job);
    assert f[0].experienceItems == [ExperienceItem("Dev", "Acme", "2020-2021", None)];
  }

  lemma JaneDoeNoOtherSections()
    ensures EducationFragment(JaneDoe, ExportEducationItem) == []
    ensures ProjectsFragment(JaneDoe, ExportProjectItem) == []
  {
  }

  // ----- file name -----

  /**
   * `name.replace(/\s+/g, '_') + '_Portfolio.html'`: a blank-free stem followed by the fixed
   * suffix; the stem is never longer than the name and another replacement leaves it alone.
   */
  function FileName(name: string): (file: string)
    ensures |file| >= |"_Portfolio.html"|
    ensures var stem := file[..|file| - |"_Portfolio.html"|];
      && file == stem + "_Portfolio.html"
      && Text.NoSpace(stem) && |stem| <= |name|
      && Text.ReplaceSpaceRuns(stem) == stem
  {
    var stem := Text.ReplaceSpaceRuns(name);
    Text.ReplaceSpaceRunsHasNoSpace(name);
    Text.ReplaceSpaceRunsIdempotent(name);
    assert (stem + "_Portfolio.html")[..|stem|] == stem;
    stem + "_Portfolio.html"
  }

  /** A name without blanks is kept as it is. */
  lemma FileNameOfWord(name: string)
    requires Text.NoSpace(name)
    ensures FileName(name) == name + "_Portfolio.html"
  {
    Text.ReplaceSpaceRunsNoSpace(name);
  }

  /** A blank run between a word and the rest becomes one underscore, however long the run. */
  lemma FileNameJoinsWords(word: string, run: string, rest: string)
    requires Text.NoSpace(word) && run != [] && Text.AllSpace(run)
    requires rest == [] || !Text.IsSpace(rest[0])
    ensures Text.ReplaceSpaceRuns(word + run + rest) == word + "_" + Text.ReplaceSpaceRuns(rest)
  {
    var r := Text.ReplaceSpaceRuns(rest);
    var tail := run + rest;
    assert Text.ReplaceSpaceRuns(tail) == "_" + r by {
      Text.ReplaceSpaceRunsConcat(run, rest);
      Text.ReplaceSpaceRunsOfRun(run);
    }
    assert word + run + rest == word + tail;
    assert Text.ReplaceSpaceRuns(word + tail) == word + Text.ReplaceSpaceRuns(tail) by {
      Text.ReplaceSpaceRunsNoSpace(word);
      if word == [] {
        assert word + tail == tail;
      } else {
        assert !Text.IsSpace(word[|word| - 1]);
        Text.ReplaceSpaceRunsConcat(word, tail);
      }
    }
    assert word + ("_" + r) == word + "_" + r;
  }

  /** "Jane  Doe" (two blanks) is saved as "Jane_Doe_Portfolio.html". */
  lemma FileNameExample()
    ensures FileName("Jane  Doe") == "Jane_Doe" + "_Portfolio.html"
  {
    JaneDoeStem();
  }

  lemma JaneDoeStem()
    ensures Text.ReplaceSpaceRuns("Jane  Doe") == "Jane_Doe"
  {
    var first, run, last := "Jane", "  ", "Doe";
    assert Text.NoSpace(first) && Text.NoSpace(last) && Text.AllSpace(run);
    FileNameJoinsWords(first, run, last);
    Text.ReplaceSpaceRunsNoSpace(last);
    assert first + run + last == "Jane  Doe";
    assert first + "_" + last == "Jane_Doe";
  }
}
