/** The ProjectDetail card: the background tint looked up from the project's `bgColor`,
    the article class, and the link and label strings built from the project record. */
module ProjectDetail {
  import opened Text
  import opened Tokens
  import Presets
  import Heading

  /** A project as the site describes it. */
  datatype Project = Project(
    id: string, title: string, description: string,
    imageUrl: string, bgColor: string, appUrl: string)

  /** `bgColorMap`: five declared colour names, two of which share the gold tint. */
  const bgColorMap: map<string, string> := map[
    "red" := "bg-bg-tint-red",
    "goldenrod" := "bg-bg-tint-gold",
    "rgba(0, 255, 38, 0.838)" := "bg-bg-tint-green",
    "rgba(242, 255, 0, 0.838)" := "bg-bg-tint-gold",
    "bronze" := "bg-bg-tint-bronze"
  ]

  /** The class used when the lookup yields nothing truthy. */
  const fallbackTint: string := "bg-gray-100"

  /** `bgColorMap[project.bgColor] || 'bg-gray-100'` */
  function BgColorClass(bgColor: string): string {
    var found: Option<string> := if bgColor in bgColorMap then Some(bgColorMap[bgColor]) else None;
    if Truthy(found) then found.value else fallbackTint
  }

  /** The article's classes: the tint, then the large section padding. */
  function ArticleClass(bgColor: string): string {
    Cn([Some(BgColorClass(bgColor)), Some(spacing.section.yLarge)])
  }

  const sourcePrefix: string := "https://github.com/"
  const articlePrefix: string := "Project: "

  /** The source link's target. */
  function SourceUrl(id: string): string {
    sourcePrefix + id
  }

  /** The article's accessible name. */
  function ArticleLabel(title: string): string {
    articlePrefix + title
  }

  /** The source link's accessible name. */
  function SourceLabel(title: string): string {
    "View " + title + " source code on GitHub"
  }

  /** The demo link's accessible name. */
  function DemoLabel(title: string): string {
    "View live demo of " + title
  }

  /** The fixed class lists of the card's inner elements. */
  const sourceLinkClasses: seq<string> :=
    ["inline-block text-black no-underline hover:underline", transitions.all, focus.default]
  const titleClasses: seq<string> := [typography.display, spacing.mb.responsive.small]
  const descriptionClasses: seq<string> :=
    [typography.bodyLarge, colors.text.secondary, spacing.mb.responsive.medium, layout.container.sm, layout.center]
  const demoLinkClasses: seq<string> := ["block", focus.default, radius.lg]

  /** What the card renders that this model keeps: every class string, every link
      target, every accessible name, and the hover preset of both links. */
  datatype Rendered = Rendered(
    articleClass: string, articleLabel: string,
    sourceHref: string, sourceClass: string, sourceLabel: string,
    titleClass: string, descriptionClass: string,
    demoHref: string, demoClass: string, demoLabel: string, imageSrc: string,
    linkHover: Presets.Interaction)

  function Render(p: Project): Rendered {
    Rendered(
      ArticleClass(p.bgColor), ArticleLabel(p.title),
      SourceUrl(p.id), Cn(Present(sourceLinkClasses)), SourceLabel(p.title),
      Cn(Present(titleClasses)), Cn(Present(descriptionClasses)),
      p.appUrl, Cn(Present(demoLinkClasses)), DemoLabel(p.title), p.imageUrl,
      Presets.cardHover)
  }

  // ---------------------------------------------------------------------------

  /** Each declared colour name maps to its listed tint, and those are all the names. */
  lemma DeclaredTints()
    ensures bgColorMap.Keys == {"red", "goldenrod", "rgba(0, 255, 38, 0.838)", "rgba(242, 255, 0, 0.838)", "bronze"}
    ensures BgColorClass("red") == "bg-bg-tint-red"
    ensures BgColorClass("goldenrod") == "bg-bg-tint-gold"
    ensures BgColorClass("rgba(0, 255, 38, 0.838)") == "bg-bg-tint-green"
    ensures BgColorClass("rgba(242, 255, 0, 0.838)") == "bg-bg-tint-gold"
    ensures BgColorClass("bronze") == "bg-bg-tint-bronze"
  {
  }

  /** Every declared tint is non-empty, so the `||` only ever fires for an undeclared name. */
  lemma TintsTruthy(bgColor: string)
    ensures bgColor in bgColorMap ==> BgColorClass(bgColor) == bgColorMap[bgColor]
    ensures bgColor !in bgColorMap ==> BgColorClass(bgColor) == fallbackTint
  {
  }

  /** The result is always one of the four tints or the grey fallback. */
  lemma TintRange(bgColor: string)
    ensures BgColorClass(bgColor) in
      {"bg-bg-tint-red", "bg-bg-tint-gold", "bg-bg-tint-green", "bg-bg-tint-bronze", fallbackTint}
    ensures BgColorClass(bgColor) == fallbackTint <==> bgColor !in bgColorMap
  {
  }

  /** The lookup is not injective: two different names share the gold tint. */
  lemma TintsNotInjective()
    ensures "goldenrod" != "rgba(242, 255, 0, 0.838)"
    ensures BgColorClass("goldenrod") == BgColorClass("rgba(242, 255, 0, 0.838)")
  {
    assert "goldenrod"[0] != "rgba(242, 255, 0, 0.838)"[0];
  }

  /** The tint first, then `py-section-y-lg`. */
  lemma ArticleClassShape(bgColor: string)
    ensures ArticleClass(bgColor) == BgColorClass(bgColor) + " " + spacing.section.yLarge
  {
    CnCons(BgColorClass(bgColor), [Some(spacing.section.yLarge)]);
    CnSingle(spacing.section.yLarge);
    assert [Some(BgColorClass(bgColor))] + [Some(spacing.section.yLarge)] ==
      [Some(BgColorClass(bgColor)), Some(spacing.section.yLarge)];
  }

  /** The source URL is the GitHub prefix and the id, which can be read back off it. */
  lemma SourceUrlRoundTrip(id: string, id': string)
    ensures StartsWith(SourceUrl(id), sourcePrefix)
    ensures SourceUrl(id)[|sourcePrefix|..] == id
    ensures SourceUrl(id) == SourceUrl(id') ==> id == id'
  {
    assert SourceUrl(id)[|sourcePrefix|..] == id;
    assert SourceUrl(id')[|sourcePrefix|..] == id';
  }

  /** The article label is `Project: ` and the title, which can be read back off it. */
  lemma ArticleLabelRoundTrip(title: string, title': string)
    ensures StartsWith(ArticleLabel(title), articlePrefix)
    ensures ArticleLabel(title)[|articlePrefix|..] == title
    ensures ArticleLabel(title) == ArticleLabel(title') ==> title == title'
  {
    assert ArticleLabel(title)[|articlePrefix|..] == title;
    assert ArticleLabel(title')[|articlePrefix|..] == title';
  }

  /** Both link labels name the project. */
  lemma LinkLabelsNameProject(title: string)
    ensures Contains(SourceLabel(title), title)
    ensures EndsWith(DemoLabel(title), title)
  {
    OccursAtPart("View ", title, " source code on GitHub", title);
  }

  /** The card title uses the registry's display style (bold) at the small responsive
      margin, which is not the cursive class the Heading component gives `display`. */
  lemma TitleIsBoldDisplay()
    ensures Cn(Present(titleClasses)) == typography.display + " " + spacing.mb.responsive.small
    ensures Cn(Present(titleClasses)) != Heading.VariantClass(Heading.Variant.Display.Key())
  {
    CnPresent(titleClasses);
    var t := typography.display + " " + spacing.mb.responsive.small;
    assert titleClasses[1..] == [spacing.mb.responsive.small];
    assert t[18] == 'b';
    assert Heading.VariantClass("display")[18] == 'c';
  }

  /** Only the tint and the labels depend on the project; the class strings of the inner
      elements are the same for every project. */
  lemma RenderDependsOnlyOn(p: Project, q: Project)
    ensures Render(p).sourceClass == Render(q).sourceClass
    ensures Render(p).titleClass == Render(q).titleClass
    ensures Render(p).descriptionClass == Render(q).descriptionClass
    ensures Render(p).demoClass == Render(q).demoClass
    ensures p.bgColor == q.bgColor ==> Render(p).articleClass == Render(q).articleClass
    ensures Render(p).sourceHref == SourceUrl(p.id) && Render(p).demoHref == p.appUrl
    ensures Render(p).linkHover.whileTap.None?
  {
  }
}
