/**
 * The Travel page: the hero slideshow derived from the first trip (or from a
 * separately fetched background image), and the index of the slide on show,
 * advanced by a timer and pulled back into range when the slides change.
 */
module Travel {
  import opened Js
  import opened Text
  import opened Seqs

  /**
   * `normalizeImageUrl`: null or undefined gives `''`, a string gives its
   * trimmed self. The result never has whitespace at either end, and is empty
   * exactly when there was no URL or only whitespace.
   */
  function NormalizeImageUrl(url: Option<string>): (r: string)
    ensures IsTrimmed(r)
    ensures r == "" <==> url.None? || AllWhitespace(url.value)
  {
    if url.None? then "" else Trim(url.value)
  }

  /** A URL with whitespace around it normalises to the URL itself. */
  lemma NormalizeImageUrlStripsPadding(p: string, u: string, q: string)
    requires AllWhitespace(p) && AllWhitespace(q) && IsTrimmed(u)
    ensures NormalizeImageUrl(Some(p + u + q)) == u
  {
    TrimOfPadded(p, u, q);
  }

  /** Normalising a normalised URL changes nothing. */
  lemma NormalizeImageUrlIdempotent(url: Option<string>)
    ensures NormalizeImageUrl(Some(NormalizeImageUrl(url))) == NormalizeImageUrl(url)
  {
    var r := NormalizeImageUrl(url);
    assert [] + r + [] == r;
    TrimOfPadded([], r, []);
  }

  /** A slide as stored on a trip: every field may be missing. */
  datatype RawSlide = RawSlide(
    image: Option<string>,
    heading: Option<string>,
    subheading: Option<string>,
    description: Option<string>)

  /** A hero slide as the page builds it; `image` is already normalised. */
  datatype Slide = Slide(
    image: string,
    heading: Option<string>,
    subheading: Option<string>,
    description: Option<string>)

  /** The fields of a trip that the hero derivation reads (`location?.name` as `locationName`). */
  datatype Trip = Trip(
    heroSlides: Option<seq<RawSlide>>,
    coverImage: Option<string>,
    title: Option<string>,
    locationName: Option<string>,
    shortDescription: Option<string>)

  const DefaultHeading: string := "Travel Journal"
  const DefaultDescription: string := "Places I've visited and journeys I want to remember."

  /** The `map` step: the image normalised, the texts as they are. */
  function NormalizeSlide(raw: RawSlide): (s: Slide)
    ensures IsTrimmed(s.image)
    ensures s.image == "" <==> raw.image.None? || AllWhitespace(raw.image.value)
    ensures s.heading == raw.heading && s.subheading == raw.subheading && s.description == raw.description
  {
    Slide(NormalizeImageUrl(raw.image), raw.heading, raw.subheading, raw.description)
  }

  /** The `filter` condition: a slide can be shown when it has an image and a heading. */
  predicate Presentable(s: Slide) {
    s.image != "" && Present(s.heading)
  }

  function NormalizeSlides(raws: seq<RawSlide>): (slides: seq<Slide>)
    ensures |slides| == |raws|
    ensures forall i :: 0 <= i < |raws| ==> slides[i] == NormalizeSlide(raws[i])
  {
    seq(|raws|, i requires 0 <= i < |raws| => NormalizeSlide(raws[i]))
  }

  /** Is there a first trip with a non-empty `heroSlides` array? */
  predicate HasTripSlides(trips: seq<Trip>) {
    |trips| > 0 && trips[0].heroSlides.Some? && |trips[0].heroSlides.value| > 0
  }

  /**
   * The single slide made from a trip that has no slides of its own: none
   * when neither the cover nor the background image is usable, else one
   * presentable slide showing the cover when it is usable.
   */
  function TripFallback(trip: Trip, mainImage: Option<string>): (slides: seq<Slide>)
    ensures |slides| <= 1
    ensures slides == [] <==> NormalizeImageUrl(trip.coverImage) == "" && NormalizeImageUrl(mainImage) == ""
    ensures slides != [] ==> Presentable(slides[0])
    ensures slides != [] && NormalizeImageUrl(trip.coverImage) != "" ==> slides[0].image == NormalizeImageUrl(trip.coverImage)
  {
    var cover := NormalizeImageUrl(trip.coverImage);
    var fallbackImage := if cover != "" then cover else NormalizeImageUrl(mainImage);
    if fallbackImage == "" then []
    else [Slide(
      fallbackImage,
      Some(OrElse(trip.title, DefaultHeading)),
      OrNull(trip.locationName),
      Some(OrElse(trip.shortDescription, DefaultDescription)))]
  }

  /**
   * The single slide made from the background image when there are no
   * trips: one presentable "Travel Journal" slide exactly when that image
   * is usable.
   */
  function MainImageFallback(mainImage: Option<string>): (slides: seq<Slide>)
    ensures |slides| <= 1
    ensures slides == [] <==> NormalizeImageUrl(mainImage) == ""
    ensures slides != [] ==> Presentable(slides[0]) && slides[0].heading == Some(DefaultHeading)
  {
    if !Present(mainImage) then []
    else
      var img := NormalizeImageUrl(mainImage);
      if img == "" then [] else [Slide(img, Some(DefaultHeading), None, Some(DefaultDescription))]
  }

  /**
   * The hero slides: the first trip's own slides when it has some, else one
   * slide built from that trip, else one built from the background image.
   * Every slide that comes out has an image and a heading.
   */
  function HeroSlides(trips: seq<Trip>, mainImage: Option<string>): (slides: seq<Slide>)
    ensures forall i :: 0 <= i < |slides| ==> slides[i].image != "" && Present(slides[i].heading)
  {
    var r :=
      if HasTripSlides(trips) then Filter(Presentable, NormalizeSlides(trips[0].heroSlides.value))
      else if |trips| > 0 then TripFallback(trips[0], mainImage)
      else MainImageFallback(mainImage);
    assert forall i :: 0 <= i < |r| ==> r[i] in r;
    r
  }

  /**
   * With slides on the first trip: the result is exactly those slides
   * normalised and then filtered, so it keeps every presentable one, in the
   * trip's order, and nothing else; no more slides than the trip has, and
   * all of them when all are presentable.
   */
  lemma HeroSlidesFromTrip(trips: seq<Trip>, mainImage: Option<string>)
    requires HasTripSlides(trips)
    ensures var normalized := NormalizeSlides(trips[0].heroSlides.value);
      var shown := HeroSlides(trips, mainImage);
      && shown == Filter(Presentable, normalized)
      && |shown| <= |normalized|
      && (forall i :: 0 <= i < |normalized| && Presentable(normalized[i]) ==> normalized[i] in shown)
      && (forall s :: s in shown ==> Presentable(s) && s in normalized)
      && ((forall i :: 0 <= i < |normalized| ==> Presentable(normalized[i])) ==> shown == normalized)
  {
    var normalized := NormalizeSlides(trips[0].heroSlides.value);
    if forall i :: 0 <= i < |normalized| ==> Presentable(normalized[i]) {
      FilterAll(Presentable, normalized);
    }
  }

  /**
   * A first trip without slides gives at most one slide: the trip's cover,
   * else the background image; its title, else "Travel Journal"; its
   * location name, else none; its short description, else the default
   * sentence. No slide when neither image is usable.
   */
  lemma HeroSlidesFromTripFields(trips: seq<Trip>, mainImage: Option<string>)
    requires |trips| > 0 && !HasTripSlides(trips)
    ensures var slides := HeroSlides(trips, mainImage);
      var trip := trips[0];
      && |slides| <= 1
      && (slides == [] <==> NormalizeImageUrl(trip.coverImage) == "" && NormalizeImageUrl(mainImage) == "")
      && (slides != [] ==>
            && slides[0].image == (if NormalizeImageUrl(trip.coverImage) != "" then NormalizeImageUrl(trip.coverImage) else NormalizeImageUrl(mainImage))
            && slides[0].heading == Some(if Present(trip.title) then trip.title.value else DefaultHeading)
            && slides[0].subheading == (if Present(trip.locationName) then trip.locationName else None)
            && slides[0].description == Some(if Present(trip.shortDescription) then trip.shortDescription.value else DefaultDescription))
  {
  }

  /** With no trips, one "Travel Journal" slide exactly when the background image is usable. */
  lemma HeroSlidesWithoutTrips(mainImage: Option<string>)
    ensures var slides := HeroSlides([], mainImage);
      && (slides == [] <==> NormalizeImageUrl(mainImage) == "")
      && (slides != [] ==> slides == [Slide(NormalizeImageUrl(mainImage), Some(DefaultHeading), None, Some(DefaultDescription))])
  {
  }

  /** One timer tick: the next index, wrapping to 0 past the last slide. */
  function NextSlide(current: nat, count: nat): (next: nat)
    ensures current < count ==> next < count && next == (current + 1) % count
  {
    var n := current + 1;
    if n >= count then 0 else n
  }

  /** `n` ticks in a row. */
  function AdvanceBy(current: nat, count: nat, n: nat): nat
    decreases n
  {
    if n == 0 then current else AdvanceBy(NextSlide(current, count), count, n - 1)
  }

  lemma MulAtLeast(a: int, c: int)
    requires a >= 1 && c > 0
    ensures a * c >= c
  {
  }

  /** A remainder in `[0, c)` that completes a multiple of `c` to `x` is `x % c`. */
  lemma ModUnique(x: int, c: int, q: int, r: int)
    requires c > 0 && x == q * c + r && 0 <= r < c
    ensures x % c == r
  {
    var q0, r0 := x / c, x % c;
    assert x == q0 * c + r0;
    assert (q - q0) * c == r0 - r;
    if q > q0 {
      MulAtLeast(q - q0, c);
    } else if q < q0 {
      MulAtLeast(q0 - q, c);
    }
  }

  /**
   * `x` reduced into `[0, count)` by repeatedly going once round the slides:
   * the remainder `x % count`, reached without multiplying.
   */
  function Wrap(x: nat, count: nat): (r: nat)
    requires count > 0
    ensures r < count && r <= x
    ensures r == x % count
    decreases x
  {
    if x < count then ModUnique(x, count, 0, x); x
    else
      var r := Wrap(x - count, count);
      ModUnique(x - count, count, (x - count) / count, r);
      ModUnique(x, count, (x - count) / count + 1, r);
      r
  }

  /** `n` ticks from a valid index move it forward by `n`, going round as often as needed. */
  lemma {:induction false} AdvanceByWraps(current: nat, count: nat, n: nat)
    requires current < count
    ensures AdvanceBy(current, count, n) == Wrap(current + n, count)
    decreases n
  {
    if n > 0 {
      var next := NextSlide(current, count);
      AdvanceByWraps(next, count, n - 1);
      if current + 1 == count {
        assert Wrap(current + n, count) == Wrap(n - 1, count);
      }
    }
  }

  /** Fewer ticks than it takes to reach the end never wrap. */
  lemma AdvanceWithinRange(current: nat, count: nat, n: nat)
    requires current + n < count
    ensures AdvanceBy(current, count, n) == current + n
  {
    AdvanceByWraps(current, count, n);
  }

  /** As many ticks as there are slides bring the show back to where it was. */
  lemma FullCycleReturns(current: nat, count: nat)
    requires current < count
    ensures AdvanceBy(current, count, count) == current
  {
    AdvanceByWraps(current, count, count);
    assert Wrap(current + count, count) == Wrap(current, count);
  }

  /**
   * The bounds effect: back to 0 exactly when the index is past the end of a
   * non-empty slide list; otherwise untouched.
   */
  function ClampSlide(current: nat, count: nat): (r: nat)
    ensures r == 0 || r == current
    ensures r != current <==> current >= count && count > 0
    ensures count > 0 ==> r < count
  {
    if current >= count && count > 0 then 0 else current
  }

  /**
   * The fetched background image: `mainImage`, else `mainimage`, kept only
   * when it is a string that is not blank, and then trimmed.
   */
  function MainImageFromData(data: Value): (r: Option<string>)
    ensures var raw := Coalesce(Field(data, "mainImage"), Field(data, "mainimage"));
      && (r.Some? <==> raw.Str? && !AllWhitespace(raw.s))
      && (r.Some? ==> r.value == Trim(raw.s) && r.value != "" && IsTrimmed(r.value))
  {
    var raw := Coalesce(Coalesce(Field(data, "mainImage"), Field(data, "mainimage")), Nullish);
    if raw.Str? && Trim(raw.s) != "" then Some(Trim(raw.s)) else None
  }

  /** `mainimage` is only a fallback: once `mainImage` is set, even to a non-string, it decides. */
  lemma MainImageKeyPrecedence(data: Value)
    requires data.Obj? && "mainImage" in data.fields && !data.fields["mainImage"].Nullish?
    ensures MainImageFromData(data) == MainImageFromData(Obj(map["mainImage" := data.fields["mainImage"]]))
  {
  }

  /**
   * The Travel page's state: the trips, the background image and the index
   * of the hero slide on show.
   */
  class TravelPage {
    var trips: seq<Trip>
    var mainImage: Option<string>
    var currentSlide: nat

    function Slides(): seq<Slide>
      reads this
    {
      HeroSlides(trips, mainImage)
    }

    /** The index is a valid position whenever there is a slide to show. */
    ghost predicate Valid()
      reads this
    {
      |Slides()| > 0 ==> currentSlide < |Slides()|
    }

    constructor ()
      ensures Valid()
      ensures trips == [] && mainImage == None && currentSlide == 0
    {
      trips := [];
      mainImage := None;
      currentSlide := 0;
    }

    /** The trips arrive (`res.data || []`), then the bounds effect runs. */
    method ReceiveTrips(data: Option<seq<Trip>>)
      modifies this
      ensures Valid()
      ensures trips == (if data.Some? then data.value else [])
      ensures mainImage == old(mainImage)
      ensures currentSlide == ClampSlide(old(currentSlide), |HeroSlides(trips, mainImage)|)
    {
      trips := if data.Some? then data.value else [];
      ClampEffect();
    }

    /** The background image arrives, then the bounds effect runs. */
    method ReceiveMainImage(data: Value)
      modifies this
      ensures Valid()
      ensures trips == old(trips)
      ensures mainImage == MainImageFromData(data)
      ensures currentSlide == ClampSlide(old(currentSlide), |HeroSlides(trips, mainImage)|)
    {
      mainImage := MainImageFromData(data);
      ClampEffect();
    }

    /** Fetching the background image failed: no image, then the bounds effect runs. */
    method MainImageFailed()
      modifies this
      ensures Valid()
      ensures trips == old(trips) && mainImage == None
      ensures currentSlide == ClampSlide(old(currentSlide), |HeroSlides(trips, mainImage)|)
    {
      mainImage := None;
      ClampEffect();
    }

    /** The bounds effect. */
    method ClampEffect()
      modifies this
      ensures Valid()
      ensures trips == old(trips) && mainImage == old(mainImage)
      ensures currentSlide == ClampSlide(old(currentSlide), |Slides()|)
    {
      var count := |Slides()|;
      if currentSlide >= count && count > 0 {
        currentSlide := 0;
      }
    }

    /** The interval callback; the interval only exists while there are at least two slides. */
    method Tick()
      requires Valid() && |Slides()| > 1
      modifies this
      ensures Valid()
      ensures trips == old(trips) && mainImage == old(mainImage)
      ensures currentSlide == NextSlide(old(currentSlide), |Slides()|)
    {
      var next := currentSlide + 1;
      currentSlide := if next >= |Slides()| then 0 else next;
    }
  }
}
