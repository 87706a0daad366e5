/**
 * The live preview: a placeholder while the name is empty, otherwise the page of the
 * layout the template id picks. Two layouts exist; every id but "minimalist" gets the
 * modern one.
 */
module PortfolioPreview {
  import opened Profile
  import opened Views
  import Text
  import TemplateSelector

  datatype Layout = Modern | Minimalist

  datatype Preview = Placeholder | Page(layout: Layout, header: Header, sections: seq<Section>)

  /** The template switch: "minimalist" picks the minimalist layout, any other id the modern one. */
  function LayoutFor(template: string): (layout: Layout)
    ensures layout == Minimalist <==> template == "minimalist"
  {
    if template == "minimalist" then Minimalist else Modern
  }

  /** The preview of a portfolio under a template id. */
  function Render(p: Portfolio, template: string): (r: Preview)
    ensures r.Placeholder? <==> p.data.personalInfo.name == ""
    ensures r.Page? ==> r.layout == LayoutFor(template)
  {
    if !Truthy(p.data.personalInfo.name) then Placeholder
    else if template == "minimalist" then Page(Minimalist, MinimalistHeader(p), MinimalistSections(p.data))
    else Page(Modern, ModernHeader(p), ModernSections(p.data))
  }

  // ----- modern layout -----

  /** Image when there is one, otherwise the name's first character. */
  function ModernAvatar(p: Portfolio): Avatar {
    if HasImage(p) then Photo(p.profileImage.value) else Letter(Text.FirstChar(p.data.personalInfo.name))
  }

  /** The website is linked verbatim; LinkedIn and GitHub get an `https://` prefix. */
  function ModernLinks(info: PersonalInfo): seq<SocialLink> {
    (if Truthy(info.website) then [SocialLink(WebsiteLink, info.website)] else [])
    + (if Truthy(info.linkedin) then [SocialLink(LinkedInLink, "https://" + info.linkedin)] else [])
    + (if Truthy(info.github) then [SocialLink(GitHubLink, "https://" + info.github)] else [])
  }

  function ModernHeader(p: Portfolio): Header {
    var info := p.data.personalInfo;
    Header(ModernAvatar(p), info.name, info.title, ContactLine(info), ModernLinks(info))
  }

  function ModernExperienceItem(e: Experience): ExperienceItem {
    ExperienceItem(e.title, e.company, e.duration, WhenTruthy(e.description))
  }

  function ModernEducationItem(e: Education): EducationItem {
    EducationItem(e.degree, e.institution, e.year)
  }

  /** Technologies as badges, one per comma-separated piece, each trimmed. */
  function ModernProjectItem(p: Project): ProjectItem {
    ProjectItem(p.name, WhenTruthy(p.description),
                if Truthy(p.technologies) then Tags(TechTags(p.technologies)) else NoTechnologies,
                WhenTruthy(p.link))
  }

  function ModernSections(d: PortfolioData): seq<Section> {
    Sections(d, ModernExperienceItem, ModernEducationItem, ModernProjectItem)
  }

  // ----- minimalist layout -----

  /** Image when there is one, otherwise no avatar at all. */
  function MinimalistAvatar(p: Portfolio): Avatar {
    if HasImage(p) then Photo(p.profileImage.value) else NoAvatar
  }

  /** No social links in this layout. */
  function MinimalistHeader(p: Portfolio): Header {
    var info := p.data.personalInfo;
    Header(MinimalistAvatar(p), info.name, info.title, ContactLine(info), [])
  }

  function MinimalistExperienceItem(e: Experience): ExperienceItem {
    ExperienceItem(e.title, e.company, e.duration, WhenTruthy(e.description))
  }

  function MinimalistEducationItem(e: Education): EducationItem {
    EducationItem(e.degree, e.institution, e.year)
  }

  /** Technologies as the raw text. */
  function MinimalistProjectItem(p: Project): ProjectItem {
    ProjectItem(p.name, WhenTruthy(p.description),
                if Truthy(p.technologies) then RawText(p.technologies) else NoTechnologies,
                WhenTruthy(p.link))
  }

  function MinimalistSections(d: PortfolioData): seq<Section> {
    Sections(d, MinimalistExperienceItem, MinimalistEducationItem, MinimalistProjectItem)
  }

  // ----- properties -----

  /** The modern page lists the visible sections in order, each with its filtered entries; technologies as trimmed tags. */
  lemma ModernSectionsFaithful(d: PortfolioData)
    ensures FaithfulSections(d, ModernSections(d), true)
  {
    SectionsFaithful(d, ModernExperienceItem, ModernEducationItem, ModernProjectItem, true);
  }

  /** The minimalist page lists the same sections and entries; technologies as the raw text. */
  lemma MinimalistSectionsFaithful(d: PortfolioData)
    ensures FaithfulSections(d, MinimalistSections(d), false)
  {
    SectionsFaithful(d, MinimalistExperienceItem, MinimalistEducationItem, MinimalistProjectItem, false);
  }

  /** Where a social link points: the website as typed, LinkedIn and GitHub behind `https://`. */
  function LinkTarget(info: PersonalInfo, kind: SocialKind): string {
    match kind
    case WebsiteLink => info.website
    case LinkedInLink => "https://" + info.linkedin
    case GitHubLink => "https://" + info.github
  }

  function LinkValue(info: PersonalInfo, kind: SocialKind): string {
    match kind
    case WebsiteLink => info.website
    case LinkedInLink => info.linkedin
    case GitHubLink => info.github
  }

  function LinkRank(kind: SocialKind): int {
    match kind
    case WebsiteLink => 0
    case LinkedInLink => 1
    case GitHubLink => 2
  }

  /**
   * The social links: one per non-empty website, LinkedIn or GitHub value and none for an
   * empty one, in that order, each pointing at its target.
   */
  predicate FaithfulLinks(info: PersonalInfo, links: seq<SocialLink>) {
    && (forall kind :: (exists i :: 0 <= i < |links| && links[i].kind == kind) <==> Truthy(LinkValue(info, kind)))
    && (forall i :: 0 <= i < |links| ==> links[i].href == LinkTarget(info, links[i].kind))
    && (forall i, j :: 0 <= i < j < |links| ==> LinkRank(links[i].kind) < LinkRank(links[j].kind))
  }

  lemma ModernLinksFaithful(info: PersonalInfo)
    ensures FaithfulLinks(info, ModernLinks(info))
  {
    var links := ModernLinks(info);
    forall kind ensures (exists i :: 0 <= i < |links| && links[i].kind == kind) <==> Truthy(LinkValue(info, kind)) {
      if Truthy(LinkValue(info, kind)) {
        var w := if Truthy(info.website) then 1 else 0;
        var l := if Truthy(info.linkedin) then 1 else 0;
        match kind
        case WebsiteLink => assert links[0].kind == kind;
        case LinkedInLink => assert links[w].kind == kind;
        case GitHubLink => assert links[w + l].kind == kind;
      }
    }
  }

  /** The modern header: image or initial, name, title, contact line and social links. */
  lemma ModernHeaderSpec(p: Portfolio)
    ensures HasImage(p) ==> ModernHeader(p).avatar == Photo(p.profileImage.value)
    ensures !HasImage(p) ==> ModernHeader(p).avatar == Letter(Text.FirstChar(p.data.personalInfo.name))
    ensures ModernHeader(p).name == p.data.personalInfo.name && ModernHeader(p).title == p.data.personalInfo.title
    ensures FaithfulContacts(p.data.personalInfo, ModernHeader(p).contacts)
    ensures FaithfulLinks(p.data.personalInfo, ModernHeader(p).links)
  {
    ContactLineFaithful(p.data.personalInfo);
    ModernLinksFaithful(p.data.personalInfo);
  }

  /** The minimalist header: the image only when there is one, never an initial, and no social links. */
  lemma MinimalistHeaderSpec(p: Portfolio)
    ensures HasImage(p) ==> MinimalistHeader(p).avatar == Photo(p.profileImage.value)
    ensures !HasImage(p) ==> MinimalistHeader(p).avatar == NoAvatar
    ensures MinimalistHeader(p).name == p.data.personalInfo.name && MinimalistHeader(p).title == p.data.personalInfo.title
    ensures FaithfulContacts(p.data.personalInfo, MinimalistHeader(p).contacts)
    ensures MinimalistHeader(p).links == []
  {
    ContactLineFaithful(p.data.personalInfo);
  }

  /**
   * A page, whichever layout, shows the visible sections in order with their filtered entries;
   * technologies are tags exactly in the modern layout.
   */
  lemma RenderFaithful(p: Portfolio, template: string)
    requires Render(p, template).Page?
    ensures FaithfulSections(p.data, Render(p, template).sections, Render(p, template).layout == Modern)
    ensures FaithfulContacts(p.data.personalInfo, Render(p, template).header.contacts)
    ensures Render(p, template).header.name == p.data.personalInfo.name
  {
    ModernSectionsFaithful(p.data);
    MinimalistSectionsFaithful(p.data);
    ContactLineFaithful(p.data.personalInfo);
  }

  /** A name of blanks is not empty, so it gets a full page although it trims to nothing. */
  lemma BlankNameRendersPage(p: Portfolio, template: string)
    requires p.data.personalInfo.name != "" && Text.AllSpace(p.data.personalInfo.name)
    ensures BlankName(p) && Render(p, template).Page?
  {
  }

  /** Of the eight catalog templates only the second, "minimalist", gets the minimalist layout. */
  lemma CatalogLayouts()
    ensures forall i :: 0 <= i < |TemplateSelector.Catalog| ==>
      (LayoutFor(TemplateSelector.Catalog[i].id) == Minimalist <==> i == 1)
  {
    TemplateSelector.CatalogShape();
    var c := TemplateSelector.Catalog;
    assert c[1].id == "minimalist";
    forall i | 0 <= i < |c| && i != 1 ensures c[i].id != "minimalist" {
      if i < 1 { assert c[i].id != c[1].id; } else { assert c[1].id != c[i].id; }
    }
  }

  /** A LinkedIn handle gets the prefix; a website that already has one is left as typed. */
  lemma SocialLinkExample()
    ensures
      var info := BlankPersonalInfo.(website := "https://jane.dev", linkedin := "linkedin.com/in/jane");
      ModernLinks(info) == [SocialLink(WebsiteLink, "https://jane.dev"), SocialLink(LinkedInLink, "https://" + "linkedin.com/in/jane")]
  {
  }
}
