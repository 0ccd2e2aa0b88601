/**
 * The Trip Detail page: one trip loaded by slug, its day-by-day timeline, its
 * trip-type badge, and the image component that tracks whether its picture
 * has loaded or failed.
 */
module TravelDetail {
  import opened Js
  import opened Text
  import opened Loading
  import Travel

  /** `Array.isArray(trip.days) ? trip.days : []`. */
  function Days(trip: Value): (days: seq<Value>)
    ensures Field(trip, "days").Arr? ==> days == Field(trip, "days").items
    ensures !Field(trip, "days").Arr? ==> days == []
  {
    var d := Field(trip, "days");
    if d.Arr? then d.items else []
  }

  /** `hasDays`: the timeline is shown exactly when some day is listed. */
  function HasDays(trip: Value): (r: bool)
    ensures r <==> Field(trip, "days").Arr? && |Field(trip, "days").items| > 0
  {
    |Days(trip)| > 0
  }

  /**
   * The badge of the day at `index`: its own `dayNumber`, else its position
   * counted from 1. Reading `dayNumber` of a null or undefined entry throws,
   * which is `None`.
   */
  function DayBadge(day: Value, index: nat): (badge: Option<Value>)
    ensures badge.None? <==> day.Nullish?
    ensures badge.Some? ==> !badge.value.Nullish?
    ensures badge.Some? && !Field(day, "dayNumber").Nullish? ==> badge.value == Field(day, "dayNumber")
    ensures badge.Some? && Field(day, "dayNumber").Nullish? ==> badge.value == Num(index + 1)
  {
    if day.Nullish? then None else Some(Coalesce(Field(day, "dayNumber"), Num(index + 1)))
  }

  /** Some listed day is null or undefined. */
  predicate HasNullDay(days: seq<Value>) {
    exists i :: 0 <= i < |days| && days[i].Nullish?
  }

  /**
   * The badges of the whole timeline, in order; the timeline throws, which
   * is `None`, exactly when some listed day is null or undefined.
   */
  function DayBadges(days: seq<Value>): (badges: Option<seq<Value>>)
    ensures badges.None? <==> HasNullDay(days)
    ensures badges.Some? ==> |badges.value| == |days|
    ensures badges.Some? ==> forall i :: 0 <= i < |days| ==> Some(badges.value[i]) == DayBadge(days[i], i)
  {
    if HasNullDay(days) then None
    else Some(seq(|days|, i requires 0 <= i < |days| => Coalesce(Field(days[i], "dayNumber"), Num(i + 1))))
  }

  /** A timeline whose days are objects without numbers is numbered 1, 2, 3, ... */
  lemma UnnumberedDaysCountFromOne(days: seq<Value>)
    requires forall i :: 0 <= i < |days| ==> !days[i].Nullish? && Field(days[i], "dayNumber").Nullish?
    ensures DayBadges(days).Some?
    ensures forall i :: 0 <= i < |days| ==> DayBadges(days).value[i] == Num(i + 1)
  {
  }

  const MultiDay: string := "Multi-day"
  const OneDay: string := "One-day"

  /**
   * The trip-type badge: absent when the trip type is falsy, `Multi-day` for
   * exactly the string `multi-day`, and `One-day` for anything else.
   */
  function TripTypeLabel(tripType: Value): (badge: Option<string>)
    ensures badge.Some? <==> Truthy(tripType)
    ensures badge.Some? ==> (badge.value == MultiDay <==> tripType == Str("multi-day"))
    ensures badge.Some? ==> badge.value == MultiDay || badge.value == OneDay
  {
    if !Truthy(tripType) then None
    else if tripType == Str("multi-day") then Some(MultiDay)
    else Some(OneDay)
  }

  /** What `OptimizedImage` renders. */
  datatype ImageView =
    | NoImage
    | Frame(pulse: bool, unavailable: bool, imageVisible: bool)

  /**
   * The rendering of `OptimizedImage` for a normalised URL and its two
   * flags: "No image" for an empty URL; otherwise the pulse placeholder
   * exactly while neither flag is set, "Image unavailable" exactly after an
   * error, and a visible picture exactly once it has loaded without error.
   */
  function ImageViewOf(url: string, loaded: bool, error: bool): (view: ImageView)
    ensures view.NoImage? <==> url == ""
    ensures view.Frame? ==> (view.pulse <==> !loaded && !error)
    ensures view.Frame? ==> (view.unavailable <==> error)
    ensures view.Frame? ==> (view.imageVisible <==> loaded && !error)
  {
    if url == "" then NoImage
    else Frame(!loaded && !error, error, !error && loaded)
  }

  /** The image component's state: its normalised URL and the two flags. */
  class OptimizedImage {
    var url: string
    var loaded: bool
    var error: bool

    /** The flags are never both set, and the URL is always normalised. */
    ghost predicate Valid()
      reads this
    {
      !(loaded && error) && IsTrimmed(url)
    }

    function View(): ImageView
      reads this
    {
      ImageViewOf(url, loaded, error)
    }

    constructor (src: Option<string>)
      ensures Valid()
      ensures url == Travel.NormalizeImageUrl(src) && !loaded && !error
    {
      url := Travel.NormalizeImageUrl(src);
      loaded := false;
      error := false;
    }

    /** A new `src`: the reset effect runs only when the normalised URL actually changes. */
    method SetSrc(src: Option<string>)
      requires Valid()
      modifies this
      ensures Valid()
      ensures url == Travel.NormalizeImageUrl(src)
      ensures url != old(url) ==> !loaded && !error
      ensures url == old(url) ==> loaded == old(loaded) && error == old(error)
    {
      var next := Travel.NormalizeImageUrl(src);
      if next != url {
        url := next;
        loaded := false;
        error := false;
      }
    }

    /** `onLoad`; the handler exists only while the picture element is rendered. */
    method OnLoad()
      requires Valid() && url != "" && !error
      modifies this
      ensures Valid()
      ensures loaded && !error && url == old(url)
      ensures View() == Frame(false, false, true)
    {
      loaded := true;
    }

    /** `onError`: the failure replaces the picture and clears `loaded`. */
    method OnError()
      requires Valid() && url != "" && !error
      modifies this
      ensures Valid()
      ensures error && !loaded && url == old(url)
      ensures View() == Frame(false, true, false)
    {
      error := true;
      loaded := false;
    }
  }

  const NoSlug: string := "No trip specified"
  const NotFound: string := "Trip not found"
  const LoadFailed: string := "Failed to load trip"
  const NotFoundFallback: string := "Trip not found."

  /**
   * The screen: the skeleton while loading, the error text (or "Trip not
   * found." when there is none) without a trip, else the trip. The error
   * text shown is never empty.
   */
  function TripScreen(loading: bool, error: Option<string>, hasTrip: bool): (s: Screen)
    ensures s.Skeleton? <==> loading
    ensures s.Ready? <==> !loading && !Present(error) && hasTrip
    ensures s.Failure? ==> s.message != ""
    ensures s.Failure? && Present(error) ==> s.message == error.value
    ensures s.Failure? && !Present(error) ==> s.message == NotFoundFallback
  {
    if loading then Skeleton
    else if Present(error) || !hasTrip then Failure(OrElse(error, NotFoundFallback))
    else Ready
  }

  /** The page's state: the trip, the loading flag and the error. */
  class TravelDetailPage {
    var trip: Option<Value>
    var loading: bool
    var error: Option<string>

    ghost predicate Valid()
      reads this
    {
      error.Some? ==> error.value != ""
    }

    constructor ()
      ensures Valid()
      ensures trip == None && loading && error == None
    {
      trip := None;
      loading := true;
      error := None;
    }

    /**
     * Which screen renders. `!trip` holds for a falsy `res.data` too (`null`,
     * `''`, `0`, `false`), so the trip shows only when it is truthy; without
     * one, and without an error, "Trip not found." shows.
     */
    function Screen(): (s: Screen)
      reads this
      ensures s.Ready? <==> !loading && !Present(error) && trip.Some? && Truthy(trip.value)
      ensures s.Failure? && !Present(error) ==> s.message == NotFoundFallback
    {
      TripScreen(loading, error, trip.Some? && Truthy(trip.value))
    }

    /** The slug effect as far as it runs synchronously. */
    method OnSlugChange(slug: Option<string>)
      requires Valid()
      modifies this
      ensures Valid()
      ensures trip == old(trip)
      ensures !Present(slug) ==> error == Some(NoSlug) && !loading && Screen() == Failure(NoSlug)
      ensures Present(slug) ==> loading && error == None && Screen() == Skeleton
    {
      if !Present(slug) {
        error := Some(NoSlug);
        loading := false;
        return;
      }
      loading := true;
      error := None;
    }

    /** The request resolved with `res.data`; then loading ends. */
    method OnLoaded(data: Option<Value>)
      requires Valid()
      modifies this
      ensures Valid()
      ensures trip == data && !loading && error == old(error)
      ensures !Present(error) && data.Some? && Truthy(data.value) ==> Screen() == Ready
      ensures !Present(error) && (data.None? || !Truthy(data.value)) ==> Screen() == Failure(NotFoundFallback)
    {
      trip := data;
      loading := false;
    }

    /** The request was rejected; then loading ends. */
    method OnFailed(err: FetchError)
      requires Valid()
      modifies this
      ensures Valid()
      ensures error == Some(ErrorMessage(err, NotFound, LoadFailed)) && !loading
      ensures trip == old(trip)
      ensures Screen() == Failure(ErrorMessage(err, NotFound, LoadFailed))
    {
      error := Some(ErrorMessage(err, NotFound, LoadFailed));
      loading := false;
    }
  }
}
