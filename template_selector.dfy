/**
 * The template gallery: a fixed catalog of eight templates, a category filter over it,
 * the rule that marks the selected card, and what a click on a card reports.
 */
module TemplateSelector {
  import Seqs

  /** A catalog entry; the thumbnail preview is presentation and is not kept. */
  datatype Template = Template(id: string, name: string, description: string, category: string)

  const Catalog: seq<Template> := [
    Template("modern", "Modern", "Colorful gradient design with cards and modern styling", "Creative"),
    Template("minimalist", "Minimalist", "Clean, simple design with elegant typography", "Professional"),
    Template("creative", "Creative", "Bold design with vibrant colors and creative layouts", "Creative"),
    Template("professional", "Professional", "Corporate design perfect for business professionals", "Professional"),
    Template("tech", "Tech", "Modern tech-inspired design with clean lines", "Tech"),
    Template("elegant", "Elegant", "Sophisticated design with subtle animations", "Professional"),
    Template("executive", "Executive", "Premium design for senior professionals and executives", "Professional"),
    Template("startup", "Startup", "Dynamic design perfect for entrepreneurs and innovators", "Creative")
  ]

  /** The filter buttons, in display order; "All" is the initial choice. */
  const Categories: seq<string> := ["All", "Professional", "Creative", "Tech"]

  function InCategory(category: string): Template -> bool {
    (t: Template) => t.category == category
  }

  /** The cards of `ts` a category button shows: all of them for "All". */
  function FilterBy(ts: seq<Template>, selectedCategory: string): seq<Template> {
    if selectedCategory == "All" then ts else Seqs.Filter(ts, InCategory(selectedCategory))
  }

  /** The cards shown for the selected category. */
  function Filtered(selectedCategory: string): seq<Template> {
    FilterBy(Catalog, selectedCategory)
  }

  /** A card carries the selected ring and badge exactly when its id is the selected template. */
  predicate IsSelected(selectedTemplate: string, t: Template) {
    selectedTemplate == t.id
  }

  /** The value a click on card `t` hands to `onTemplateChange`. */
  function OnCardClick(t: Template): (selection: string)
    ensures IsSelected(selection, t)
  {
    t.id
  }

  /** Every template is in exactly one of the three non-All categories. */
  predicate OneOfThree(t: Template) {
    (InCategory("Professional")(t) && !InCategory("Creative")(t) && !InCategory("Tech")(t))
    || (!InCategory("Professional")(t) && InCategory("Creative")(t) && !InCategory("Tech")(t))
    || (!InCategory("Professional")(t) && !InCategory("Creative")(t) && InCategory("Tech")(t))
  }

  predicate KnownCategories(ts: seq<Template>) {
    forall i :: 0 <= i < |ts| ==> ts[i].category in Categories[1..]
  }

  /** The four button labels are pairwise different. */
  lemma CategoryLabelsDistinct()
    ensures forall i, j :: 0 <= i < j < |Categories| ==> Categories[i] != Categories[j]
  {
    assert |Categories[0]| == 3 && |Categories[1]| == 12 && |Categories[2]| == 8 && |Categories[3]| == 4;
  }

  lemma KnownCategoryIsOneOfThree(t: Template)
    requires t.category in Categories[1..]
    ensures OneOfThree(t)
  {
    CategoryLabelsDistinct();
  }

  /** Eight templates, pairwise-distinct ids, each in one of the three non-All categories. */
  lemma CatalogShape()
    ensures |Catalog| == 8
    ensures IdsDistinct(Catalog)
    ensures KnownCategories(Catalog)
  {
    CatalogIdsDistinct();
    CatalogCategoriesKnown();
  }

  /** The ids already differ in their length or their first letter. */
  lemma CatalogIdsDistinct()
    ensures IdsDistinct(Catalog)
  {
    var lengths := [6, 10, 8, 12, 4, 7, 9, 7];
    var initials := "mmcptees";
    forall i | 0 <= i < 8 ensures |Catalog[i].id| == lengths[i] && Catalog[i].id[0] == initials[i] {
    }
  }

  lemma CatalogCategoriesKnown()
    ensures KnownCategories(Catalog)
  {
  }

  lemma FilteredAll()
    ensures Filtered("All") == Catalog
  {
  }

  lemma FilterByCategory(ts: seq<Template>, c: string)
    requires c != "All"
    ensures forall t :: t in FilterBy(ts, c) <==> t in ts && t.category == c
    ensures Seqs.IsSubsequence(FilterBy(ts, c), ts)
  {
    Seqs.FilterMembership(ts, InCategory(c));
    Seqs.FilterIsSubsequence(ts, InCategory(c));
  }

  /**
   * Any other category shows exactly the catalog's templates in that category, in catalog
   * order.
   */
  lemma FilteredCategory(c: string)
    requires c != "All"
    ensures forall t :: t in Filtered(c) <==> t in Catalog && t.category == c
    ensures Seqs.IsSubsequence(Filtered(c), Catalog)
  {
    FilterByCategory(Catalog, c);
  }

  lemma FilterByUnknown(ts: seq<Template>, c: string)
    requires KnownCategories(ts) && c !in Categories
    ensures FilterBy(ts, c) == []
  {
    forall i | 0 <= i < |ts| ensures !InCategory(c)(ts[i]) {
      assert ts[i].category in Categories;
    }
    Seqs.FilterNonePass(ts, InCategory(c));
  }

  /** A category that no template has (none of the three buttons) shows nothing. */
  lemma FilteredUnknownCategory(c: string)
    requires c !in Categories
    ensures Filtered(c) == []
  {
    CatalogCategoriesKnown();
    FilterByUnknown(Catalog, c);
  }

  lemma FilterByPartition(ts: seq<Template>)
    requires KnownCategories(ts)
    ensures forall t, c :: t in ts && c in Categories[1..] ==> (t in FilterBy(ts, c) <==> c == t.category)
  {
    CategoryLabelsDistinct();
    forall c | c in Categories[1..] ensures forall t :: t in FilterBy(ts, c) <==> t in ts && t.category == c {
      FilterByCategory(ts, c);
    }
  }

  /**
   * The three category views split the catalog: each template is in one of the three
   * categories and is shown under that button and under neither of the other two.
   */
  lemma CategoriesPartition()
    ensures forall t :: t in Catalog ==> t.category in Categories[1..]
    ensures forall t, c :: t in Catalog && c in Categories[1..] ==> (t in Filtered(c) <==> c == t.category)
  {
    CatalogCategoriesKnown();
    forall t | t in Catalog ensures t.category in Categories[1..] {
      var i :| 0 <= i < |Catalog| && Catalog[i] == t;
    }
    FilterByPartition(Catalog);
  }

  lemma FilterByCover(ts: seq<Template>)
    requires KnownCategories(ts)
    ensures |FilterBy(ts, "Professional")| + |FilterBy(ts, "Creative")| + |FilterBy(ts, "Tech")| == |ts|
  {
    CategoryLabelsDistinct();
    forall i | 0 <= i < |ts| ensures OneOfThree(ts[i]) {
      KnownCategoryIsOneOfThree(ts[i]);
    }
    Seqs.FilterPartitionLength(ts, InCategory("Professional"), InCategory("Creative"), InCategory("Tech"));
  }

  /** Together the three category views hold as many cards as the catalog. */
  lemma CategoriesCoverCatalog()
    ensures |Filtered("Professional")| + |Filtered("Creative")| + |Filtered("Tech")| == |Catalog|
  {
    CatalogCategoriesKnown();
    FilterByCover(Catalog);

  }

  /** Whatever category is shown, at most one card is marked selected. */
  lemma AtMostOneMarked(selectedCategory: string, selectedTemplate: string)
    ensures forall i, j ::
      (0 <= i < |Filtered(selectedCategory)| && 0 <= j < |Filtered(selectedCategory)|
       && IsSelected(selectedTemplate, Filtered(selectedCategory)[i])
       && IsSelected(selectedTemplate, Filtered(selectedCategory)[j])) ==> i == j
  {
    CatalogIdsDistinct();
    FilterByKeepsIdsDistinct(Catalog, selectedCategory);
  }

  predicate IdsDistinct(ts: seq<Template>) {
    forall i, j :: 0 <= i < j < |ts| ==> ts[i].id != ts[j].id
  }

  lemma FilterByKeepsIdsDistinct(ts: seq<Template>, c: string)
    requires IdsDistinct(ts)
    ensures IdsDistinct(FilterBy(ts, c))
  {
    if c != "All" {
      Seqs.FilterKeepsKeysDistinct(ts, InCategory(c), (t: Template) => t.id);
    }
  }

  /** After a click on a shown card, that card and no other shown card is marked. */
  lemma ClickMarksExactlyThatCard(selectedCategory: string, i: int)
    requires 0 <= i < |Filtered(selectedCategory)|
    ensures forall j :: 0 <= j < |Filtered(selectedCategory)| ==>
      (IsSelected(OnCardClick(Filtered(selectedCategory)[i]), Filtered(selectedCategory)[j]) <==> j == i)
  {
    AtMostOneMarked(selectedCategory, OnCardClick(Filtered(selectedCategory)[i]));
  }
}
