# Portfolio generator: a verified model of its profile editor, renderers and export

The application lets a user fill in a profile made of nine personal-info strings and four
ordered lists: skills, work experience, education and projects. The user picks one of eight
templates and optionally uploads a profile picture. The app shows a live preview and can
download the portfolio as a single HTML file. This project models the logic behind those
screens and proves properties of the model.

- **Profile editor** (`portfolio_form.dfy`).
  - The profile is a datatype.
  - Every handler of the form (update a field, add a blank entry, remove an entry) is a pure
    function giving the value the handler stores.
  - The editor's mutable `data` state is the class `PortfolioForm.Form`. Each of its methods
    stores that value and returns the value it reports to the parent.
  - A user session is a sequence of `Edit`s. Remove buttons are disabled while their list
    has one entry.
- **Application shell** (`app_shell.dfy`). The class `AppShell.App` holds the stored
  portfolio, the selected template and the active tab. It has the handlers for:
  - form changes;
  - image uploads;
  - the Generate button;
  - template choice;
  - tab changes;
  - the Download button.
- **Rendering** (`views.dfy`, `portfolio_preview.dfy`, `export.dfy`).
  - A rendered page is modelled by its content, not by its markup. The content is a header
    (avatar, name, title, contact line, social links) and a list of sections, each holding
    the entries it shows.
  - `Views.FaithfulSections` is an independent statement of what every renderer must show:
    - the visible sections, in the fixed order About, Skills, Experience, Education,
      Projects;
    - in each section, the entries that pass its filter, in their original order;
    - optional fields shown only when non-empty;
    - technologies as trimmed tags or as raw text.
  - The modern preview, the minimalist preview and the downloaded document are proved to
    meet it. `Parity` derives from this that they agree with each other.
- **Template gallery** (`template_selector.dfy`): the eight-entry catalog, the category
  filter, the selected-card rule and what a card click reports.
- **Helpers**:
  - `seqs.dfy` holds `filter`/`some`/delete-at-index on sequences.
  - `text.dfy` holds `trim`, `split(',')`, `join`, `charAt(0)` and `replace(/\s+/g, '_')`.

Whitespace for `trim` and `\s` is a fixed set: the ECMAScript WhiteSpace and
LineTerminator code points (`Text.IsSpace`). Strings are sequences of characters. The image
is an optional string (the data URL).

Behaviours of the code that the model keeps:
- Only skills are trimmed before the visibility test. Experience, education and project
  entries are tested on their raw fields.
- A technologies string such as `"React, , Node.js"` keeps its empty middle piece as an empty
  tag.
- The preview's placeholder test is on the untrimmed name, so a name of blanks renders a full
  page even though Generate rejects it (`PortfolioPreview.BlankNameRendersPage`).
- The only guard on downloading is the Download button being disabled while the trimmed name
  is empty. `AppShell.App.Download` models that guard as returning no file.
- No text is escaped before it is put into the HTML.

One behaviour is deliberately corrected. The form-change handler at `src/pages/Index.tsx:69-71` drops the
uploaded image (see "## Findings"). `AppShell.DataChangeAsWritten` models it as written, and
`AppShell.App` uses the corrected handler `AppShell.AcceptFormData`.

## Model

| member | source | states |
|---|---|---|
| Profile.Initial | src/components/PortfolioForm.tsx:48-64 | every personal-info field is empty and each of the four lists holds exactly one blank entry |
| Profile.WithPersonal | src/components/PortfolioForm.tsx:66-73 | the chosen field gets the value and every other field keeps its value |
| Profile.WithExperience | src/components/PortfolioForm.tsx:98 | the chosen field of the experience entry gets the value and its other fields keep theirs |
| Profile.WithEducation | src/components/PortfolioForm.tsx:122 | the chosen field of the education entry gets the value and its other fields keep theirs |
| Profile.WithProject | src/components/PortfolioForm.tsx:146 | the chosen field of the project gets the value and its other fields keep theirs |
| Profile.SkillRenderable | src/pages/Index.tsx:168-172 | a skill is shown when it is non-empty after trimming |
| Profile.ExperienceRenderable | src/pages/Index.tsx:177-180 | an experience is shown when its raw title or its raw company is non-empty; its other fields play no part |
| Profile.EducationRenderable | src/pages/Index.tsx:191-194 | an education entry is shown when its raw degree or its raw institution is non-empty |
| Profile.ProjectRenderable | src/pages/Index.tsx:204-207 | a project is shown when its raw name is non-empty |
| PortfolioForm.PersonalInfoUpdated | src/components/PortfolioForm.tsx:66-73 | the field is set, every other personal-info field and all four lists are unchanged |
| PortfolioForm.SkillUpdated | src/components/PortfolioForm.tsx:75-81 | same length, the entry at the index is the value, every other entry and every other part unchanged |
| PortfolioForm.SkillAdded | src/components/PortfolioForm.tsx:83-87 | one entry longer, the old list is a prefix, the new last entry is blank, the rest unchanged |
| PortfolioForm.SkillRemoved | src/components/PortfolioForm.tsx:89-94 | an in-range index deletes exactly that position keeping the order of the rest; an out-of-range index leaves the list as it was |
| PortfolioForm.ExperienceUpdated | src/components/PortfolioForm.tsx:96-102 | same length, only the chosen field of the entry at the index changes, all other entries and parts unchanged |
| PortfolioForm.ExperienceAdded | src/components/PortfolioForm.tsx:104-111 | one entry longer, old list a prefix, new last entry all blank |
| PortfolioForm.ExperienceRemoved | src/components/PortfolioForm.tsx:113-118 | deletion at an in-range index, order kept; out-of-range index changes nothing |
| PortfolioForm.EducationUpdated | src/components/PortfolioForm.tsx:120-126 | same length, only the chosen field of the entry at the index changes, all other entries and parts unchanged |
| PortfolioForm.EducationAdded | src/components/PortfolioForm.tsx:128-135 | one entry longer, old list a prefix, new last entry all blank |
| PortfolioForm.EducationRemoved | src/components/PortfolioForm.tsx:137-142 | deletion at an in-range index, order kept; out-of-range index changes nothing |
| PortfolioForm.ProjectUpdated | src/components/PortfolioForm.tsx:144-150 | same length, only the chosen field of the entry at the index changes, all other entries and parts unchanged |
| PortfolioForm.ProjectAdded | src/components/PortfolioForm.tsx:152-159 | one entry longer, old list a prefix, new last entry all blank |
| PortfolioForm.ProjectRemoved | src/components/PortfolioForm.tsx:161-166 | deletion at an in-range index, order kept; out-of-range index changes nothing |
| PortfolioForm.ApplyKeepsWellFormed | src/components/PortfolioForm.tsx:292 | any action the rendered form offers keeps every list non-empty |
| PortfolioForm.RunKeepsWellFormed | src/components/PortfolioForm.tsx:292-467 | because Remove is disabled at length 1, every list keeps at least one entry across any sequence of user actions |
| PortfolioForm.UnguardedRemoveEmptiesList | src/components/PortfolioForm.tsx:89-94 | without the disabled guard, removing the only skill would leave the list empty |
| PortfolioForm.Enabled | src/components/PortfolioForm.tsx:292-467 | an action the rendered form offers: any personal-info edit or Add; an entry edit only for a listed index; a Remove only for a listed index of a list with more than one entry |
| PortfolioForm.Step | src/components/PortfolioForm.tsx:292-467 | an offered action stores its handler's value, and a click on a disabled Remove button changes nothing |
| PortfolioForm.Form.constructor | src/components/PortfolioForm.tsx:48-64 | the editor starts from the initial profile |
| PortfolioForm.Form.UpdatePersonalInfo | src/components/PortfolioForm.tsx:66-73 | stores the updated profile and reports exactly the value it stored |
| PortfolioForm.Form.UpdateSkills | src/components/PortfolioForm.tsx:75-81 | stores the profile with the skill at the index replaced, reports it, keeps every list non-empty |
| PortfolioForm.Form.AddSkill | src/components/PortfolioForm.tsx:83-87 | stores the profile with a blank skill appended and reports it |
| PortfolioForm.Form.RemoveSkill | src/components/PortfolioForm.tsx:89-94 | offered only for a listed entry of a list longer than one; stores the list without that entry and reports it |
| PortfolioForm.Form.UpdateExperience | src/components/PortfolioForm.tsx:96-102 | stores the profile with the entry's field replaced and reports it |
| PortfolioForm.Form.AddExperience | src/components/PortfolioForm.tsx:104-111 | stores the profile with a blank entry appended and reports it |
| PortfolioForm.Form.RemoveExperience | src/components/PortfolioForm.tsx:113-118 | stores the list without the entry and reports it; offered only at length above one |
| PortfolioForm.Form.UpdateEducation | src/components/PortfolioForm.tsx:120-126 | stores the profile with the entry's field replaced and reports it |
| PortfolioForm.Form.AddEducation | src/components/PortfolioForm.tsx:128-135 | stores the profile with a blank entry appended and reports it |
| PortfolioForm.Form.RemoveEducation | src/components/PortfolioForm.tsx:137-142 | stores the list without the entry and reports it; offered only at length above one |
| PortfolioForm.Form.UpdateProject | src/components/PortfolioForm.tsx:144-150 | stores the profile with the entry's field replaced and reports it |
| PortfolioForm.Form.AddProject | src/components/PortfolioForm.tsx:152-159 | stores the profile with a blank entry appended and reports it |
| PortfolioForm.Form.RemoveProject | src/components/PortfolioForm.tsx:161-166 | stores the list without the entry and reports it; offered only at length above one |
| AppShell.DataChangeAsWritten | src/pages/Index.tsx:69-71 | as written, the stored portfolio becomes the form's value, which carries no image |
| AppShell.DataChangeAsWrittenDropsImage | src/pages/Index.tsx:69-71 | after an upload, any form edit leaves the stored portfolio without its image |
| AppShell.DataChangeAsWrittenCounterexample | src/pages/Index.tsx:69-78 | uploading an image and then typing "J" as the name loses the image |
| AppShell.AcceptFormData | src/pages/Index.tsx:69-71 | corrected: the form's value replaces the data and the stored image is kept |
| AppShell.ImageChanged | src/pages/Index.tsx:73-78 | the image is set to the given value, null included, and the data is unchanged |
| AppShell.ImageSurvivesFormEdits | src/pages/Index.tsx:69-78 | with the correction, an uploaded image is still there after any number of form edits |
| AppShell.AcceptAllKeepsImage | src/pages/Index.tsx:69-71 | a run of form edits keeps the image and leaves the last reported value as the data |
| AppShell.App.constructor | src/pages/Index.tsx:47-67 | starts with the blank profile, no image, the modern template and the form tab |
| AppShell.App.HandleDataChange | src/pages/Index.tsx:69-71 | the corrected handler: stores the reported value and keeps the uploaded image, with template and tab unchanged. As written the source drops the image: see `AppShell.DataChangeAsWritten` and "## Findings" |
| AppShell.App.HandleProfileImageChange | src/pages/Index.tsx:73-78 | sets only the image; data, template and tab unchanged |
| AppShell.App.HandleGenerate | src/pages/Index.tsx:80-95 | rejects with "Missing Information" and leaves the tab unchanged exactly when the trimmed name is empty; otherwise switches to the preview tab and reports success; nothing else changes |
| AppShell.GeneratedPreviewIsPage | src/pages/Index.tsx:80-95 | whenever Generate accepts the name and opens the preview tab, the preview shows a page rather than the placeholder |
| AppShell.App.SelectTemplate | src/pages/Index.tsx:336-338 | a card click's id becomes the selected template and nothing else changes |
| AppShell.App.SetActiveTab | src/pages/Index.tsx:278 | the tab bar sets only the active tab |
| AppShell.App.Download | src/pages/Index.tsx:97-240 | no file exactly when the trimmed name is empty (the button is disabled then, line 355); otherwise the exported document under the derived file name, whatever template is selected |
| AppShell.App.CurrentPreview | src/pages/Index.tsx:318-321 | the preview panes show the placeholder exactly when the name is empty |
| Export.ExportDocument | src/pages/Index.tsx:111-224 | the content of the downloaded HTML: title, header and sections; what it shows is stated by `Export.ExportFaithful` |
| Export.ExportHeader | src/pages/Index.tsx:149-158 | the header of the downloaded page: avatar, name, title and contact line, no social links; stated by `Export.ExportFaithful` |
| Export.ExportAvatar | src/pages/Index.tsx:101-109 | the image when there is one, otherwise the name's first character; stated by `Export.ExportFaithful` |
| Export.ExportFaithful | src/pages/Index.tsx:101-220 | the document's title is the name plus " - Portfolio"; its header shows the image or the name's first character, the name, the title and the contact line, and no social links; its sections meet the reference rule with technologies as tags |
| Export.JaneDoeExport | src/pages/Index.tsx:149-220 | a profile with a name, a title, one skill and one job exports that header, a Skills section and an Experience section, and nothing else |
| Export.FileName | src/pages/Index.tsx:230 | the file name is a stem followed by `_Portfolio.html`; the stem contains no whitespace, is no longer than the name, and is unchanged by another replacement |
| Export.FileNameOfWord | src/pages/Index.tsx:230 | a name without whitespace is kept as it is |
| Export.FileNameJoinsWords | src/pages/Index.tsx:230 | a whitespace run of any length between a word and the rest becomes exactly one underscore |
| Export.FileNameExample | src/pages/Index.tsx:230 | "Jane  Doe" is saved as "Jane_Doe" followed by the suffix |
| Export.JaneDoeStem | src/pages/Index.tsx:230 | the two-blank run in "Jane  Doe" collapses to one underscore |
| Views.VisibleKinds | src/pages/Index.tsx:161-220 | the section kinds a profile shows; stated by `Views.VisibleKindsSpec` |
| Views.Visible | src/pages/Index.tsx:161-204 | About when the bio is non-empty; Skills, Experience, Education and Projects when some entry of the list passes its section's test |
| Views.Sections | src/pages/Index.tsx:160-221 | the section list a renderer builds from its entry renderers; stated by `Views.SectionsFaithful` |
| Views.TechTags | src/pages/Index.tsx:213 | `technologies.split(',').map(trim)`; its meaning (one tag per piece, each trimmed, comma-free, joining back to the text, empty pieces kept) is stated by `Views.TechTagsSpec` and `Views.BlankPieceGivesEmptyTag` |
| Views.ContactLine | src/pages/Index.tsx:153-157 | the contact line; stated by `Views.ContactLineFaithful` |
| Views.VisibleKindsSpec | src/pages/Index.tsx:161-220 | a section is listed exactly when its visibility rule holds, in the fixed order |
| Views.TechTagsSpec | src/pages/Index.tsx:211-215 | one tag per comma plus one; each tag trimmed at both ends; no tag contains a comma; joining the pieces by commas gives back the text |
| Views.BlankPieceGivesEmptyTag | src/pages/Index.tsx:213 | a blank piece between commas is kept as an empty tag in its place |
| Views.ContactLineFaithful | src/pages/Index.tsx:154-156 | the contact line holds email, phone and location, each exactly when non-empty, in that order |
| Views.WhenTruthy | src/pages/Index.tsx:185-216 | an optional field is shown exactly when non-empty, and shown verbatim |
| Views.SectionsFaithful | src/pages/Index.tsx:161-220 | any renderer built from faithful entry renderers lists exactly the visible sections, in the fixed order, with each section's filtered entries in order |
| PortfolioPreview.LayoutFor | src/components/PortfolioPreview.tsx:353 | "minimalist" picks the minimalist layout and every other id the modern one |
| PortfolioPreview.Render | src/components/PortfolioPreview.tsx:45-353 | the placeholder exactly when the untrimmed name is empty; otherwise a page in the layout the id picks |
| PortfolioPreview.ModernHeader | src/components/PortfolioPreview.tsx:58-116 | the modern header; stated by `PortfolioPreview.ModernHeaderSpec` |
| PortfolioPreview.ModernLinks | src/components/PortfolioPreview.tsx:98-114 | the modern header's social links; stated by `PortfolioPreview.ModernLinksFaithful` |
| PortfolioPreview.ModernSections | src/components/PortfolioPreview.tsx:118-230 | the modern page's sections; stated by `PortfolioPreview.ModernSectionsFaithful` |
| PortfolioPreview.MinimalistHeader | src/components/PortfolioPreview.tsx:239-256 | the minimalist header; stated by `PortfolioPreview.MinimalistHeaderSpec` |
| PortfolioPreview.MinimalistSections | src/components/PortfolioPreview.tsx:258-346 | the minimalist page's sections; stated by `PortfolioPreview.MinimalistSectionsFaithful` |
| PortfolioPreview.ModernSectionsFaithful | src/components/PortfolioPreview.tsx:118-230 | the modern page meets the reference rule, technologies as trimmed tags |
| PortfolioPreview.MinimalistSectionsFaithful | src/components/PortfolioPreview.tsx:259-346 | the minimalist page meets the reference rule, technologies as raw text |
| PortfolioPreview.ModernLinksFaithful | src/components/PortfolioPreview.tsx:98-114 | one link per non-empty website, LinkedIn or GitHub value and none for an empty one, in that order; website verbatim, the others behind `https://` |
| PortfolioPreview.ModernHeaderSpec | src/components/PortfolioPreview.tsx:61-114 | image if present, otherwise the name's first character; name, title, contact line and social links |
| PortfolioPreview.MinimalistHeaderSpec | src/components/PortfolioPreview.tsx:240-255 | image only if present and no initial otherwise; name, title, contact line, no social links |
| PortfolioPreview.RenderFaithful | src/components/PortfolioPreview.tsx:56-353 | whichever layout is chosen, a page shows the name, the contact line and the reference sections, with tags exactly in the modern layout |
| PortfolioPreview.BlankNameRendersPage | src/components/PortfolioPreview.tsx:45 | any non-empty name made only of whitespace trims to nothing yet renders a full page |
| PortfolioPreview.CatalogLayouts | src/components/PortfolioPreview.tsx:353 | of the eight catalog ids only the second, "minimalist", gets the minimalist layout |
| PortfolioPreview.SocialLinkExample | src/components/PortfolioPreview.tsx:99-108 | a website already starting with `https://` stays as typed; a LinkedIn handle gets the prefix |
| Parity.FaithfulDetermined | src/components/PortfolioPreview.tsx:128-230 | two section lists that both meet the reference rule agree up to the form of technologies, and are equal when both use tags |
| Parity.ModernPreviewMatchesExport | src/pages/Index.tsx:150-220 | the modern preview shows exactly the export's sections, contact line and avatar |
| Parity.MinimalistPreviewMatchesExport | src/components/PortfolioPreview.tsx:239-346 | the minimalist preview lists the export's sections and entries, differing within the sections only in the form of technologies, and shows the same contact line; the avatars agree when there is an image, and without one the export shows the name's initial while the minimalist page shows no avatar |
| Parity.PreviewKindsMatchExport | src/components/PortfolioPreview.tsx:353 | for any template, the preview shows the same kinds of section in the same order as the export |
| TemplateSelector.OnCardClick | src/components/TemplateSelector.tsx:208 | a click reports the card's id, which marks that card selected |
| TemplateSelector.CatalogShape | src/components/TemplateSelector.tsx:20-153 | eight templates, pairwise-distinct ids, each in Professional, Creative or Tech |
| TemplateSelector.Filtered | src/components/TemplateSelector.tsx:158-160 | the cards shown for a category; stated by `TemplateSelector.FilteredAll`, `FilteredCategory` and `FilteredUnknownCategory` |
| TemplateSelector.FilteredAll | src/components/TemplateSelector.tsx:158-159 | "All" shows the whole catalog unchanged |
| TemplateSelector.FilteredCategory | src/components/TemplateSelector.tsx:160 | any other category shows exactly the catalog's templates of that category, as a subsequence of the catalog |
| TemplateSelector.FilteredUnknownCategory | src/components/TemplateSelector.tsx:155-160 | a category no button offers shows nothing |
| TemplateSelector.CategoriesPartition | src/components/TemplateSelector.tsx:155-160 | each template is under exactly one of the three non-All buttons: its own category |
| TemplateSelector.CategoriesCoverCatalog | src/components/TemplateSelector.tsx:155-160 | the three category views together hold as many cards as the catalog |
| TemplateSelector.AtMostOneMarked | src/components/TemplateSelector.tsx:203-216 | whatever category is shown, at most one card is marked selected |
| TemplateSelector.ClickMarksExactlyThatCard | src/components/TemplateSelector.tsx:203-208 | after a click on a shown card, that card and no other shown card is marked |
| Seqs.Filter | src/pages/Index.tsx:168-207 | the kept elements pass the predicate and come from the input, and every passing element is kept |
| Seqs.FilterIsSubsequence | src/components/PortfolioPreview.tsx:128-197 | the filtered entries are a subsequence of the list: nothing is reordered |
| Seqs.FilterIdempotent | src/components/PortfolioPreview.tsx:128-197 | filtering twice by the same rule is filtering once |
| Seqs.AnyIffFilterNonEmpty | src/pages/Index.tsx:168-204 | a section's `some` test holds exactly when its filter keeps something, so no section is shown empty |
| Seqs.FilterOutIndex | src/components/PortfolioForm.tsx:90 | one element shorter for an index in range and the same length otherwise, with no new elements; the exact result is stated by `Seqs.FilterOutIndexDeletes` |
| Seqs.Any | src/pages/Index.tsx:168 | true exactly when some element passes the predicate |
| Seqs.FilterOutIndexDeletes | src/components/PortfolioForm.tsx:89-94 | filtering out one index in range deletes exactly that position; out of range it keeps the list |
| Text.FirstChar | src/pages/Index.tsx:107 | the empty string for an empty name, otherwise the name's first character alone |
| Text.Split | src/pages/Index.tsx:213 | one piece more than there are separators, and no piece contains the separator |
| Text.ReplaceSpaceRuns | src/pages/Index.tsx:230 | never longer than the input; its properties are stated by the `Text.ReplaceSpaceRuns…` lemmas |
| Text.Trim | src/pages/Index.tsx:81 | the result has no whitespace at either end and is empty exactly when the input is all whitespace |
| Text.TrimIdempotent | src/pages/Index.tsx:81 | trimming twice is trimming once |
| Text.JoinSplit | src/pages/Index.tsx:213 | joining the comma-split pieces gives back the text |
| Text.SplitJoin | src/pages/Index.tsx:213 | splitting a join of comma-free pieces gives back the pieces |
| Text.ReplaceSpaceRunsHasNoSpace | src/pages/Index.tsx:230 | the replacement leaves no whitespace |
| Text.ReplaceSpaceRunsIdempotent | src/pages/Index.tsx:230 | replacing whitespace runs twice is replacing once |
| Text.ReplaceSpaceRunsConcat | src/pages/Index.tsx:230 | the replacement works piece by piece across a split outside a whitespace run |

## Left out

- Markup and style: the HTML text, CSS, Tailwind classes, icons and template thumbnails are
  not modelled. A page is modelled by the content it shows.
- HTML escaping is not modelled, because the code does none: names and links are
  interpolated raw.
- Browser I/O in the download handler is not modelled: Blob and object URL, the anchor and
  its click, URL revocation, and the early return when no `.portfolio-preview` element is in
  the page. `AppShell.App.Download` returns the file name and document instead.
- Toasts are modelled only as the tag `HandleGenerate` returns. The "Portfolio Downloaded!"
  toast after a save is not modelled.
- `ImageUpload.tsx` is not part of this model: its FileReader read is asynchronous I/O. The
  image reaches the model as the value given to `HandleProfileImageChange`.
- The navigation header, About-us, contact, fill-information and reviews components are not
  part of this model: they are static page content.
- Unicode: `trim` and `\s` use the fixed whitespace set named above.
- Text.FirstChar: returns the whole first character. JavaScript's `charAt(0)` returns one UTF-16 code unit, so for a name that starts with a character outside the Basic Multilingual Plane (an emoji, say) the source shows a lone surrogate and the model shows the whole character. Strings here are sequences of characters, not of UTF-16 code units.
- Tab remounting: what the tab widget does to the form's local state when a tab's content is
  unmounted is library behaviour and is not modelled.
- The gallery's own `selectedCategory` state is a parameter of `Filtered` rather than a field.
- PortfolioForm.Form.RemoveSkill and the other Remove methods require the index to be in range
  and the list to have more than one entry: the form renders a Remove button only for a listed
  entry and disables it at length one. The pure `SkillRemoved` family also covers an
  out-of-range index.
- PortfolioForm.Form.UpdateSkills and the other Update methods require the index to be in
  range: an input exists only for a listed entry.

## Findings

| source | as written | input that shows it | evidently intended | confidence | as-written member | corrected member |
|---|---|---|---|---|---|---|
| src/pages/Index.tsx:69-71 | `handleDataChange` replaces the whole stored portfolio with the form's value, and the form's data has no `profileImage`, so the uploaded image is dropped | upload an image on the template tab, then type "J" in the name field | keep the stored image and replace only the profile fields | not executed | AppShell.DataChangeAsWritten | AppShell.AcceptFormData |
