/**
 * The application shell: the stored portfolio, the selected template and the active tab,
 * and the handlers the form, the template gallery, the tabs and the buttons call.
 */
module AppShell {
  import opened Options
  import opened Profile
  import opened Views
  import Text
  import PortfolioPreview
  import Export

  datatype Tab = FormTab | TemplateTab | PreviewTab

  /** The notification a handler raises, by its title. */
  datatype Toast = MissingInformation | PortfolioGenerated

  /** What a download saves: the file name and the document. */
  datatype Artifact = Artifact(fileName: string, document: Export.Document)

  /**
   * `handleDataChange` as written: the form's value replaces the stored one, and the form's
   * value has no `profileImage`, so an uploaded image is dropped.
   */
  function DataChangeAsWritten(p: Portfolio, data: PortfolioData): (r: Portfolio)
    ensures r.data == data && !HasImage(r)
  {
    Portfolio(data, None)
  }

  /** Uploading an image and then typing one character in the form loses the image. */
  lemma DataChangeAsWrittenDropsImage(p: Portfolio, data: PortfolioData)
    requires HasImage(p)
    ensures HasImage(p) && !HasImage(DataChangeAsWritten(p, data))
  {
  }

  lemma DataChangeAsWrittenCounterexample()
    ensures
      var uploaded := ImageChanged(Portfolio(Initial(), None), Some("data:image/png;base64,AA"));
      var edited := WithPersonal(Initial().personalInfo, Name, "J");
      HasImage(uploaded) && !HasImage(DataChangeAsWritten(uploaded, Initial().(personalInfo := edited)))
  {
  }

  /** `handleDataChange` corrected: the form's value replaces the data and the image is kept. */
  function AcceptFormData(p: Portfolio, data: PortfolioData): (r: Portfolio)
    ensures r.data == data && r.profileImage == p.profileImage
  {
    p.(data := data)
  }

  /** `handleProfileImageChange`: the image is replaced, `null` included, and nothing else. */
  function ImageChanged(p: Portfolio, image: Option<string>): (r: Portfolio)
    ensures r.data == p.data && r.profileImage == image
  {
    p.(profileImage := image)
  }

  /** With the correction an uploaded image survives any number of form edits. */
  lemma ImageSurvivesFormEdits(p: Portfolio, image: string, edits: seq<PortfolioData>)
    requires image != ""
    ensures HasImage(AcceptAll(ImageChanged(p, Some(image)), edits))
    ensures AcceptAll(ImageChanged(p, Some(image)), edits).profileImage == Some(image)
  {
    AcceptAllKeepsImage(ImageChanged(p, Some(image)), edits);
  }

  /** The stored portfolio after the form reported each value of `edits` in turn. */
  function AcceptAll(p: Portfolio, edits: seq<PortfolioData>): Portfolio
    decreases |edits|
  {
    if edits == [] then p else AcceptAll(AcceptFormData(p, edits[0]), edits[1..])
  }

  lemma {:induction false} AcceptAllKeepsImage(p: Portfolio, edits: seq<PortfolioData>)
    ensures AcceptAll(p, edits).profileImage == p.profileImage
    ensures edits != [] ==> AcceptAll(p, edits).data == edits[|edits| - 1]
    decreases |edits|
  {
    if edits != [] {
      AcceptAllKeepsImage(AcceptFormData(p, edits[0]), edits[1..]);
    }
  }

  /** A name that trims to something is never empty, so the preview then shows a page. */
  lemma GeneratedPreviewIsPage(p: Portfolio, template: string)
    requires !BlankName(p)
    ensures PortfolioPreview.Render(p, template).Page?
  {
  }

  class App {
    var portfolio: Portfolio
    var selectedTemplate: string
    var activeTab: Tab

    /** The initial state: the blank profile without an image, the modern template, the form tab. */
    constructor ()
      ensures portfolio == Portfolio(Initial(), None)
      ensures selectedTemplate == "modern" && activeTab == FormTab
    {
      portfolio := Portfolio(Initial(), None);
      selectedTemplate := "modern";
      activeTab := FormTab;
    }

    /**
     * `onDataChange` from the form, with the correction applied: the image is kept. As
     * written, the handler drops it (`DataChangeAsWritten`).
     */
    method HandleDataChange(data: PortfolioData)
      modifies this
      ensures portfolio == AcceptFormData(old(portfolio), data)
      ensures selectedTemplate == old(selectedTemplate) && activeTab == old(activeTab)
    {
      portfolio := AcceptFormData(portfolio, data);
    }

    /** `onProfileImageChange` from the gallery. */
    method HandleProfileImageChange(image: Option<string>)
      modifies this
      ensures portfolio == ImageChanged(old(portfolio), image)
      ensures selectedTemplate == old(selectedTemplate) && activeTab == old(activeTab)
    {
      portfolio := portfolio.(profileImage := image);
    }

    /**
     * `handleGenerate`: rejected, with the tab unchanged, exactly when the trimmed name is
     * empty; otherwise the preview tab is opened.
     */
    method HandleGenerate() returns (toast: Toast)
      modifies this
      ensures BlankName(old(portfolio)) ==> toast == MissingInformation && activeTab == old(activeTab)
      ensures !BlankName(old(portfolio)) ==> toast == PortfolioGenerated && activeTab == PreviewTab
      ensures portfolio == old(portfolio) && selectedTemplate == old(selectedTemplate)
    {
      if Text.Trim(portfolio.data.personalInfo.name) == "" {
        toast := MissingInformation;
        return;
      }
      activeTab := PreviewTab;
      toast := PortfolioGenerated;
    }

    /** `onTemplateChange` from the gallery. */
    method SelectTemplate(id: string)
      modifies this
      ensures selectedTemplate == id
      ensures portfolio == old(portfolio) && activeTab == old(activeTab)
    {
      selectedTemplate := id;
    }

    /** `onValueChange` from the tab bar. */
    method SetActiveTab(tab: Tab)
      modifies this
      ensures activeTab == tab
      ensures portfolio == old(portfolio) && selectedTemplate == old(selectedTemplate)
    {
      activeTab := tab;
    }

    /**
     * The download button: disabled while the trimmed name is empty; otherwise it saves the
     * exported document under the derived file name. The selected template plays no part.
     */
    method Download() returns (artifact: Option<Artifact>)
      ensures artifact.None? <==> BlankName(portfolio)
      ensures artifact.Some? ==> artifact.value.fileName == Export.FileName(portfolio.data.personalInfo.name)
      ensures artifact.Some? ==> artifact.value.document == Export.ExportDocument(portfolio)
    {
      if Text.Trim(portfolio.data.personalInfo.name) == "" {
        return None;
      }
      var name := portfolio.data.personalInfo.name;
      artifact := Some(Artifact(Export.FileName(name), Export.ExportDocument(portfolio)));
    }

    /** What the preview panes show. */
    function CurrentPreview(): (r: PortfolioPreview.Preview)
      reads this
      ensures r.Placeholder? <==> portfolio.data.personalInfo.name == ""
    {
      PortfolioPreview.Render(portfolio, selectedTemplate)
    }
  }
}
