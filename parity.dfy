/**
 * The live preview and the downloaded document agree. The section list a layout must show
 * is determined by the profile alone, so the modern preview and the export list the same
 * sections and entries, and the minimalist preview differs from them only in how a
 * project's technologies are written.
 */
module Parity {
  import opened Profile
  import opened Views
  import PortfolioPreview
  import Export
  import Text

  /** Two entry views of one project agree on everything but the form of the technologies. */
  predicate SameProjectButTechnologies(a: ProjectItem, b: ProjectItem) {
    a.name == b.name && a.description == b.description && a.link == b.link
    && (a.technologies.NoTechnologies? <==> b.technologies.NoTechnologies?)
  }

  /** Two sections are equal, or both list projects that agree up to the form of the technologies. */
  predicate SameSectionButTechnologies(a: Section, b: Section) {
    if a.ProjectsSection? && b.ProjectsSection? then
      |a.projectItems| == |b.projectItems|
      && forall i :: 0 <= i < |a.projectItems| ==> SameProjectButTechnologies(a.projectItems[i], b.projectItems[i])
    else a == b
  }

  predicate SameButTechnologies(ss: seq<Section>, ts: seq<Section>) {
    |ss| == |ts| && forall i :: 0 <= i < |ss| ==> SameSectionButTechnologies(ss[i], ts[i])
  }

  /** Two sections of one kind that both show what they should, technologies aside, agree. */
  lemma ShowsDetermined(d: PortfolioData, a: Section, b: Section, taggedA: bool, taggedB: bool)
    requires KindOf(a) == KindOf(b)
    requires SectionShows(d, a, taggedA) && SectionShows(d, b, taggedB)
    ensures SameSectionButTechnologies(a, b)
    ensures taggedA == taggedB ==> a == b
  {
    match a
    case AboutSection(_) =>
    case SkillsSection(_) =>
    case ExperienceSection(xs) =>
      var ys := b.experienceItems;
      assert forall i :: 0 <= i < |xs| ==> xs[i] == ys[i];
    case EducationSection(xs) =>
      var ys := b.educationItems;
      assert forall i :: 0 <= i < |xs| ==> xs[i] == ys[i];
    case ProjectsSection(xs) =>
      var ys := b.projectItems;
      if taggedA == taggedB {
        assert forall i :: 0 <= i < |xs| ==> xs[i] == ys[i];
      }
  }

  /**
   * The profile determines the section list: two section lists that are both faithful agree
   * up to the form of the technologies, and are equal when they write technologies alike.
   */
  lemma FaithfulDetermined(d: PortfolioData, ss: seq<Section>, ts: seq<Section>, taggedS: bool, taggedT: bool)
    requires FaithfulSections(d, ss, taggedS) && FaithfulSections(d, ts, taggedT)
    ensures SameButTechnologies(ss, ts)
    ensures taggedS == taggedT ==> ss == ts
  {
    assert |ss| == |Kinds(ss)| == |Kinds(ts)| == |ts|;
    forall i | 0 <= i < |ss|
      ensures SameSectionButTechnologies(ss[i], ts[i]) && (taggedS == taggedT ==> ss[i] == ts[i])
    {
      assert KindOf(ss[i]) == Kinds(ss)[i] == Kinds(ts)[i] == KindOf(ts[i]);
      ShowsDetermined(d, ss[i], ts[i], taggedS, taggedT);
    }
  }

  /** The modern preview page shows what the download contains: the same sections, contacts and avatar. */
  lemma ModernPreviewMatchesExport(p: Portfolio, template: string)
    requires PortfolioPreview.Render(p, template).Page?
    requires PortfolioPreview.LayoutFor(template) == PortfolioPreview.Modern
    ensures PortfolioPreview.Render(p, template).sections == Export.ExportDocument(p).sections
    ensures PortfolioPreview.Render(p, template).header.contacts == Export.ExportDocument(p).header.contacts
    ensures PortfolioPreview.Render(p, template).header.avatar == Export.ExportDocument(p).header.avatar
  {
    PortfolioPreview.ModernSectionsFaithful(p.data);
    Export.ExportFaithful(p);
    FaithfulDetermined(p.data, PortfolioPreview.ModernSections(p.data), Export.ExportDocument(p).sections, true, true);
  }

  /**
   * The minimalist preview page lists the export's sections and entries, with technologies
   * written differently, and the same contact line. The avatars agree only when there is an
   * image: without one the export shows the initial and the minimalist page shows nothing.
   */
  lemma MinimalistPreviewMatchesExport(p: Portfolio)
    requires Truthy(p.data.personalInfo.name)
    ensures SameButTechnologies(PortfolioPreview.Render(p, "minimalist").sections, Export.ExportDocument(p).sections)
    ensures PortfolioPreview.Render(p, "minimalist").header.contacts == Export.ExportDocument(p).header.contacts
    ensures HasImage(p) ==> PortfolioPreview.Render(p, "minimalist").header.avatar == Export.ExportDocument(p).header.avatar
    ensures !HasImage(p) ==>
      (PortfolioPreview.Render(p, "minimalist").header.avatar == NoAvatar
       && Export.ExportDocument(p).header.avatar == Letter(Text.FirstChar(p.data.personalInfo.name)))
  {
    PortfolioPreview.MinimalistSectionsFaithful(p.data);
    Export.ExportFaithful(p);
    FaithfulDetermined(p.data, PortfolioPreview.MinimalistSections(p.data), Export.ExportDocument(p).sections, false, true);
  }

  /** Whatever template is selected, the preview page shows the same kinds of section, in the same order, as the download. */
  lemma PreviewKindsMatchExport(p: Portfolio, template: string)
    requires PortfolioPreview.Render(p, template).Page?
    ensures Kinds(PortfolioPreview.Render(p, template).sections) == Kinds(Export.ExportDocument(p).sections)
  {
    PortfolioPreview.RenderFaithful(p, template);
    Export.ExportFaithful(p);
  }
}
