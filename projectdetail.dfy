/**
 * The Project Detail page: one project loaded by slug, shown as a hero image,
 * a gallery and three tabs whose contents fall back from the project's
 * `content` object to its top-level fields.
 */
module ProjectDetail {
  import opened Js
  import opened Loading

  datatype Tab = Overview | Features | Impact

  /** The fields of a project the page reads; any of them may be missing or of any type. */
  datatype Project = Project(
    description: Value,
    images: Option<seq<string>>,
    features: Value,
    content: Value)

  /** What `renderContent` produces. */
  datatype Rendered = Nothing | Paragraph(text: string) | List(items: seq<Value>)

  /**
   * `renderContent`: a string becomes a paragraph of it, a non-empty array a
   * list of its items, and everything else (null included) nothing.
   */
  function RenderContent(v: Value): (r: Rendered)
    ensures r.Paragraph? <==> v.Str?
    ensures r.List? <==> v.Arr? && |v.items| > 0
    ensures r.Paragraph? ==> r.text == v.s
    ensures r.List? ==> r.items == v.items
  {
    if v.Nullish? then Nothing
    else if v.Str? then Paragraph(v.s)
    else if v.Arr? && |v.items| > 0 then List(v.items)
    else Nothing
  }

  /** `images?.[0] ?? null`. */
  function HeroImage(images: Option<seq<string>>): (hero: Option<string>)
    ensures hero.Some? <==> images.Some? && |images.value| > 0
  {
    if images.Some? && |images.value| > 0 then Some(images.value[0]) else None
  }

  /** The gallery: every image after the first, and nothing unless there are at least two. */
  function Gallery(images: Option<seq<string>>): (gallery: seq<string>)
    ensures images.Some? ==> |gallery| == if |images.value| > 1 then |images.value| - 1 else 0
    ensures images.None? ==> gallery == []
  {
    if images.Some? && |images.value| > 1 then images.value[1..] else []
  }

  /** The hero image followed by the gallery is the whole image list: none lost, none repeated. */
  lemma HeroAndGalleryPartitionImages(images: seq<string>)
    ensures |images| > 0 ==> [HeroImage(Some(images)).value] + Gallery(Some(images)) == images
    ensures |images| == 0 ==> HeroImage(Some(images)).None? && Gallery(Some(images)) == []
  {
    if |images| > 0 {
      assert images == [images[0]] + images[1..];
    }
  }

  /** `content.overview ?? description`: the content's overview, else the top-level description. */
  function OverviewContent(p: Project): (v: Value)
    ensures !Field(p.content, "overview").Nullish? ==> v == Field(p.content, "overview")
    ensures Field(p.content, "overview").Nullish? ==> v == p.description
  {
    Coalesce(Field(p.content, "overview"), p.description)
  }

  /**
   * `content.features ?? features ?? []`: the content's features, else the
   * top-level features, else the empty list; never null.
   */
  function FeaturesContent(p: Project): (v: Value)
    ensures !v.Nullish?
    ensures !Field(p.content, "features").Nullish? ==> v == Field(p.content, "features")
    ensures Field(p.content, "features").Nullish? && !p.features.Nullish? ==> v == p.features
    ensures Field(p.content, "features").Nullish? && p.features.Nullish? ==> v == Arr([])
  {
    Coalesce(Coalesce(Field(p.content, "features"), p.features), Arr([]))
  }

  /** `content.impact`: there is no top-level fallback, so without a `content` object there is no impact. */
  function ImpactContent(p: Project): (v: Value)
    ensures p.content.Obj? && "impact" in p.content.fields ==> v == p.content.fields["impact"]
    ensures !(p.content.Obj? && "impact" in p.content.fields) ==> v.Nullish?
  {
    Field(p.content, "impact")
  }

  /** `overviewText`: the overview when it is a string. */
  function OverviewText(p: Project): (text: Option<string>)
    ensures text.Some? <==> OverviewContent(p).Str?
    ensures text.Some? ==> text.value == OverviewContent(p).s
  {
    var v := OverviewContent(p);
    if v.Str? then Some(v.s) else None
  }

  /** `overviewList`: the overview when it is an array, else the features when they are, else empty. */
  function OverviewList(p: Project): (items: seq<Value>)
    ensures OverviewContent(p).Arr? ==> items == OverviewContent(p).items
    ensures !OverviewContent(p).Arr? && FeaturesContent(p).Arr? ==> items == FeaturesContent(p).items
    ensures !OverviewContent(p).Arr? && !FeaturesContent(p).Arr? ==> items == []
  {
    var overview := OverviewContent(p);
    var features := FeaturesContent(p);
    var details := if features.Arr? then features.items else [];
    if overview.Arr? then overview.items else details
  }

  /**
   * Without a `content` object (`content` undefined, or not an object) the
   * tabs show the top-level description and features (or `[]`), and there is
   * no impact at all.
   */
  lemma TopLevelFallback(p: Project)
    requires !p.content.Obj?
    ensures OverviewContent(p) == p.description
    ensures FeaturesContent(p) == if p.features.Nullish? then Arr([]) else p.features
    ensures ImpactContent(p).Nullish?
  {
  }

  /** What a tab panel shows: rendered content, or its "no content yet" note. */
  datatype PanelView =
    | OverviewPanel(text: Option<string>, details: Rendered, emptyNote: bool)
    | ContentPanel(body: Rendered)
    | Placeholder(note: string)

  const NoOverview: string := "No overview content yet."
  const NoFeatures: string := "No features content yet."
  const NoImpact: string := "No impact content yet."

  /**
   * The panel of a tab. The overview shows `overviewText` when non-empty, a
   * "Project Details" list of `overviewList` when that is non-empty, and its
   * note exactly when neither; the other two render their content
   * (`featuresContent`, `impactContent`) under their conditions, else their
   * note.
   */
  function Panel(p: Project, tab: Tab): (view: PanelView)
    ensures tab == Overview ==> view.OverviewPanel?
    ensures view.OverviewPanel? ==>
      && (view.text.Some? <==> Present(OverviewText(p)))
      && (view.details.List? <==> |OverviewList(p)| > 0)
      && (view.emptyNote <==> view.text.None? && !view.details.List?)
    ensures tab == Features ==>
      (view.ContentPanel? <==> FeaturesContent(p).Arr? && |FeaturesContent(p).items| > 0)
    ensures tab == Impact ==>
      (view.ContentPanel? <==> ImpactContent(p).Str? || (ImpactContent(p).Arr? && |ImpactContent(p).items| > 0))
    ensures view.OverviewPanel? && view.text.Some? ==> view.text == OverviewText(p)
    ensures view.OverviewPanel? && view.details.List? ==> view.details.items == OverviewList(p)
    ensures view.OverviewPanel? && !view.details.List? ==> view.details == Nothing
    ensures tab == Features && view.ContentPanel? ==> view.body == RenderContent(FeaturesContent(p))
    ensures tab == Features && !view.ContentPanel? ==> view == Placeholder(NoFeatures)
    ensures tab == Impact && view.ContentPanel? ==> view.body == RenderContent(ImpactContent(p))
    ensures tab == Impact && !view.ContentPanel? ==> view == Placeholder(NoImpact)
  {
    match tab
    case Overview =>
      var text := OverviewText(p);
      var list := OverviewList(p);
      var shownText := if Present(text) then text else None;
      var shownList := if |list| > 0 then RenderContent(Arr(list)) else Nothing;
      OverviewPanel(shownText, shownList, !Present(text) && !(|list| > 0))
    case Features =>
      var features := FeaturesContent(p);
      if features.Arr? && |features.items| > 0 then ContentPanel(RenderContent(features))
      else Placeholder(NoFeatures)
    case Impact =>
      var impact := ImpactContent(p);
      if !impact.Nullish? && (impact.Str? || (impact.Arr? && |impact.items| > 0)) then ContentPanel(RenderContent(impact))
      else Placeholder(NoImpact)
  }

  /**
   * A tab is blank in one case only. The Impact test is `typeof impact ===
   * 'string'` where the Overview test is truthiness, so an `impact` of `''`
   * renders an empty paragraph rather than its note. Every other panel shows
   * a non-empty text, a non-empty list or its note.
   */
  lemma PanelBlankOnlyForEmptyImpact(p: Project, tab: Tab)
    ensures var view := Panel(p, tab);
      && (view.OverviewPanel? ==>
            && (view.text.Some? ==> view.text.value != "")
            && (view.details.List? ==> |view.details.items| > 0)
            && (view.text.Some? || view.details.List? || view.emptyNote))
      && (view.ContentPanel? ==> !view.body.Nothing?)
      && (view.ContentPanel? && view.body.List? ==> |view.body.items| > 0)
      && (view.ContentPanel? && view.body.Paragraph? && view.body.text == "" <==>
            tab == Impact && ImpactContent(p) == Str(""))
      && (view.Placeholder? ==> view.note in {NoFeatures, NoImpact})
  {
  }

  const NoSlug: string := "No project specified"
  const NotFound: string := "Project not found"
  const LoadFailed: string := "Failed to load project"

  /**
   * The page's state: the project, the loading flag, the error and the
   * selected tab.
   */
  class ProjectDetailPage {
    var project: Option<Project>
    var loading: bool
    var error: Option<string>
    var activeTab: Tab

    /** A stored error is never empty. */
    ghost predicate Valid()
      reads this
    {
      error.Some? ==> error.value != ""
    }

    constructor ()
      ensures Valid()
      ensures project == None && loading && error == None && activeTab == Overview
    {
      project := None;
      loading := true;
      error := None;
      activeTab := Overview;
    }

    /** Clicking a tab of the tab bar. */
    method SelectTab(tab: Tab)
      requires Valid()
      modifies this
      ensures Valid()
      ensures activeTab == tab
      ensures project == old(project) && loading == old(loading) && error == old(error)
    {
      activeTab := tab;
    }

    /**
     * The slug effect as far as it runs synchronously: a missing slug is an
     * error; a present one starts loading afresh on the Overview tab.
     */
    method OnSlugChange(slug: Option<string>)
      requires Valid()
      modifies this
      ensures Valid()
      ensures project == old(project)
      ensures !Present(slug) ==> error == Some(NoSlug) && !loading && activeTab == old(activeTab)
      ensures Present(slug) ==> loading && error == None && activeTab == Overview
    {
      if !Present(slug) {
        error := Some(NoSlug);
        loading := false;
        return;
      }
      loading := true;
      error := None;
      activeTab := Overview;
    }

    /** The request resolved with `res.data` (`None` for a falsy one); then loading ends. */
    method OnLoaded(data: Option<Project>)
      requires Valid()
      modifies this
      ensures Valid()
      ensures project == data && !loading
      ensures error == old(error) && activeTab == old(activeTab)
    {
      project := data;
      loading := false;
    }

    /** The request was rejected; then loading ends. */
    method OnFailed(err: FetchError)
      requires Valid()
      modifies this
      ensures Valid()
      ensures error == Some(ErrorMessage(err, NotFound, LoadFailed)) && !loading
      ensures project == old(project) && activeTab == old(activeTab)
      ensures Screen() == Failure(ErrorMessage(err, NotFound, LoadFailed))
    {
      error := Some(ErrorMessage(err, NotFound, LoadFailed));
      loading := false;
    }

    /**
     * Which screen renders: the skeleton while loading, the failure card
     * without a project (a falsy `res.data` is held as no project), and the
     * project only when nothing is loading and there is no error.
     */
    function Screen(): (s: Screen)
      reads this
      ensures s.Skeleton? <==> loading
      ensures s.Ready? <==> !loading && !Present(error) && project.Some?
      ensures s.Failure? && Present(error) ==> s.message == error.value
    {
      DetailScreen(loading, error, project.Some?)
    }
  }

  /**
   * The screen for a loading flag, an error and whether a project is held:
   * the project only renders when nothing is loading and there is no error.
   */
  function DetailScreen(loading: bool, error: Option<string>, hasProject: bool): (s: Screen)
    ensures s.Skeleton? <==> loading
    ensures s.Ready? <==> !loading && !Present(error) && hasProject
    ensures s.Failure? ==> s.message == OrElse(error, "")
  {
    if loading then Skeleton
    else if Present(error) || !hasProject then Failure(OrElse(error, ""))
    else Ready
  }

  /** After a failed request the page shows the failure card with a non-empty message. */
  lemma FailureIsExplained(err: FetchError, hasProject: bool)
    ensures DetailScreen(false, Some(ErrorMessage(err, NotFound, LoadFailed)), hasProject)
         == Failure(ErrorMessage(err, NotFound, LoadFailed))
    ensures ErrorMessage(err, NotFound, LoadFailed) != ""
  {
  }
}
