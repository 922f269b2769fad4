/**
  The homepage hero slider (js/slider.js): which slides and dots `loadSliderImagesToHomepage`
  builds, and the carousel that `initSliderManually` drives through `showSlide`,
  `nextSlide` and `prevSlide`.

  The `active` class of every slide and every dot is an array of flags. Timers and event
  listeners are left out: the 5000 ms interval calls `nextSlide`, the click handlers call
  `nextSlide`, `prevSlide` or `showSlide` and then restart that interval, and the 100 ms
  start timer calls `initHeroSlider` (not part of this model) or `initSliderManually`.
*/
module Slider {
  import opened Wrappers

  /** The slides shown when the database has no slider images. */
  const FallbackImages: seq<string> := [
    "https://images.unsplash.com/photo-1436491865332-7a61a109cc05?w=1920&q=80",
    "https://images.unsplash.com/photo-1540962351504-03099e0a754b?w=1920&q=80",
    "https://d3sftlgbtusmnv.cloudfront.net/blog/wp-content/uploads/2024/08/Skydiving-Malaysia-Cover-Photo-840x425.jpg"
  ]

  /** A row of the `slider_images` table, as far as the slider reads it. */
  datatype SliderImage = SliderImage(imageUrl: string)

  /** A `.hero-slide` element: its background image and whether it has the `active` class. */
  datatype Slide = Slide(backgroundImage: string, active: bool)

  /** A `.dot` element: its `data-slide` attribute and whether it has the `active` class. */
  datatype Dot = Dot(dataSlide: nat, active: bool)

  /** The slides and, when the page has a dots container, the dots. */
  datatype Hero = Hero(slides: seq<Slide>, dots: Option<seq<Dot>>)

  /** The image URLs the slides are built from: the fallbacks when the list is missing or empty. */
  function SlideSources(images: Option<seq<SliderImage>>): (urls: seq<string>)
    ensures images.None? || images.value == [] ==> urls == FallbackImages
    ensures images.Some? && images.value != [] ==>
              |urls| == |images.value| && forall i :: 0 <= i < |urls| ==> urls[i] == images.value[i].imageUrl
  {
    if images.None? || images.value == [] then FallbackImages
    else seq(|images.value|, i requires 0 <= i < |images.value| => images.value[i].imageUrl)
  }

  /** The slides get a fallback count of three, or one per database image, and always at least one. */
  lemma SlideCount(images: Option<seq<SliderImage>>)
    ensures |SlideSources(images)| == if images.None? || images.value == [] then 3 else |images.value|
    ensures |SlideSources(images)| > 0
  {
  }

  /**
    `loadSliderImagesToHomepage` once the images are fetched: nothing without a slider
    container; otherwise one slide per source URL, in order, and one dot per slide whose
    `data-slide` is its index, with only index 0 active.
  */
  method LoadSliderImages(hasSliderContainer: bool, hasDotsContainer: bool, images: Option<seq<SliderImage>>)
    returns (hero: Option<Hero>)
    ensures hero.Some? <==> hasSliderContainer
    ensures hero.Some? ==>
              var urls := SlideSources(images);
              && |hero.value.slides| == |urls|
              && (forall i :: 0 <= i < |urls| ==> hero.value.slides[i] == Slide(urls[i], i == 0))
              && (hero.value.dots.Some? <==> hasDotsContainer)
              && (hero.value.dots.Some? ==>
                    |hero.value.dots.value| == |urls|
                    && forall i :: 0 <= i < |urls| ==> hero.value.dots.value[i] == Dot(i, i == 0))
  {
    if !hasSliderContainer {
      return None;
    }
    var urls := SlideSources(images);
    var slides: seq<Slide> := [];
    for index := 0 to |urls|
      invariant |slides| == index
      invariant forall i :: 0 <= i < index ==> slides[i] == Slide(urls[i], i == 0)
    {
      slides := slides + [Slide(urls[index], index == 0)];
    }
    var dots: Option<seq<Dot>> := None;
    if hasDotsContainer {
      var created: seq<Dot> := [];
      for index := 0 to |urls|
        invariant |created| == index
        invariant forall i :: 0 <= i < index ==> created[i] == Dot(i, i == 0)
      {
        created := created + [Dot(index, index == 0)];
      }
      dots := Some(created);
    }
    hero := Some(Hero(slides, dots));
  }

  /** `(current + 1) % n`, the index `nextSlide` moves to. */
  function NextIndex(current: nat, n: nat): (r: nat)
    requires n > 0
    ensures r < n
  {
    (current + 1) % n
  }

  /** `(current - 1 + n) % n`, the index `prevSlide` moves to. */
  function PrevIndex(current: nat, n: nat): (r: nat)
    requires n > 0
    ensures r < n
  {
    (current - 1 + n) % n
  }

  /** On a non-negative index below twice the slide count, `%` is at most one wrap-around. */
  lemma WrapOnce(x: int, n: int)
    requires 0 <= x < 2 * n
    ensures x % n == if x < n then x else x - n
  {
    if x < n {
      assert x == 0 * n + x;
    } else {
      assert x == 1 * n + (x - n);
    }
  }

  /** From a valid index, `nextSlide` steps forward and wraps from the last slide to the first. */
  lemma NextStep(current: nat, n: nat)
    requires current < n
    ensures NextIndex(current, n) == if current + 1 == n then 0 else current + 1
  {
    WrapOnce(current + 1, n);
  }

  /** From a valid index, `prevSlide` steps back and wraps from the first slide to the last. */
  lemma PrevStep(current: nat, n: nat)
    requires current < n
    ensures PrevIndex(current, n) == if current == 0 then n - 1 else current - 1
  {
    WrapOnce(current - 1 + n, n);
  }

  /** `prevSlide` undoes `nextSlide`, and the other way round. */
  lemma PrevUndoesNext(current: nat, n: nat)
    requires current < n
    ensures PrevIndex(NextIndex(current, n), n) == current
    ensures NextIndex(PrevIndex(current, n), n) == current
  {
    NextStep(current, n);
    PrevStep(NextIndex(current, n), n);
    PrevStep(current, n);
    NextStep(PrevIndex(current, n), n);
  }

  /** The index after `k` calls of `nextSlide`. */
  function Advance(current: nat, n: nat, k: nat): nat
    requires n > 0
  {
    if k == 0 then current else NextIndex(Advance(current, n, k - 1), n)
  }

  /** Up to one full turn, `k` calls of `nextSlide` move `k` slides forward, wrapping once past the end. */
  lemma {:induction false} AdvanceWraps(current: nat, n: nat, k: nat)
    requires current < n && k <= n
    ensures Advance(current, n, k) == if current + k < n then current + k else current + k - n
  {
    if k > 0 {
      AdvanceWraps(current, n, k - 1);
      NextStep(Advance(current, n, k - 1), n);
    }
  }

  /** `n` calls of `nextSlide` on `n` slides come back to the starting slide. */
  lemma FullCycle(current: nat, n: nat)
    requires current < n
    ensures Advance(current, n, n) == current
  {
    AdvanceWraps(current, n, n);
  }

  /** The carousel state of `initSliderManually`. */
  class Carousel {
    const slides: array<bool>   // the `active` class of each `.hero-slide`
    const dots: array<bool>     // the `active` class of each `.slider-dots .dot`
    var currentSlide: nat

    ghost predicate Valid()
      reads this
    {
      slides.Length > 0 && slides != dots
    }

    /** Exactly one slide, the current one, is active, and so is the dot of the same index if there is one. */
    ghost predicate ShowsCurrent()
      reads this, slides, dots
    {
      && (forall k :: 0 <= k < slides.Length ==> slides[k] == (k == currentSlide))
      && (forall k :: 0 <= k < dots.Length ==> dots[k] == (k == currentSlide))
    }

    constructor (slides: array<bool>, dots: array<bool>)
      requires slides.Length > 0 && slides != dots
      ensures Valid() && this.slides == slides && this.dots == dots && currentSlide == 0
    {
      this.slides := slides;
      this.dots := dots;
      currentSlide := 0;
    }

    /** `showSlide(index)`: clears every `active` flag, then marks slide and dot `index` where they exist. */
    method ShowSlide(index: nat)
      requires Valid()
      modifies this, slides, dots
      ensures Valid() && currentSlide == index
      ensures forall k :: 0 <= k < slides.Length ==> slides[k] == (k == index)
      ensures forall k :: 0 <= k < dots.Length ==> dots[k] == (k == index)
    {
      for k := 0 to slides.Length
        invariant forall j :: 0 <= j < k ==> !slides[j]
      {
        slides[k] := false;
      }
      for k := 0 to dots.Length
        invariant forall j :: 0 <= j < slides.Length ==> !slides[j]
        invariant forall j :: 0 <= j < k ==> !dots[j]
      {
        dots[k] := false;
      }
      if index < slides.Length {
        slides[index] := true;
      }
      if index < dots.Length {
        dots[index] := true;
      }
      currentSlide := index;
    }

    /** `nextSlide`: shows the following slide, wrapping from the last to the first. */
    method NextSlide()
      requires Valid()
      modifies this, slides, dots
      ensures Valid() && currentSlide == NextIndex(old(currentSlide), slides.Length)
      ensures currentSlide < slides.Length && ShowsCurrent()
    {
      ShowSlide(NextIndex(currentSlide, slides.Length));
    }

    /** `prevSlide`: shows the preceding slide, wrapping from the first to the last. */
    method PrevSlide()
      requires Valid()
      modifies this, slides, dots
      ensures Valid() && currentSlide == PrevIndex(old(currentSlide), slides.Length)
      ensures currentSlide < slides.Length && ShowsCurrent()
    {
      ShowSlide(PrevIndex(currentSlide, slides.Length));
    }
  }

  /** `initSliderManually`: no carousel without slides; otherwise one that starts on slide 0. */
  method InitSliderManually(slides: array<bool>, dots: array<bool>) returns (carousel: Carousel?)
    requires slides != dots
    ensures carousel == null <==> slides.Length == 0
    ensures carousel != null ==>
              && fresh(carousel)
              && carousel.Valid() && carousel.slides == slides && carousel.dots == dots && carousel.currentSlide == 0
  {
    if slides.Length == 0 {
      return null;
    }
    carousel := new Carousel(slides, dots);
  }

  /**
    Three slides with three dots, driven as the page drives them: the 5000 ms interval
    calls `nextSlide`, the arrow buttons call `nextSlide` or `prevSlide`, and a dot click
    calls `showSlide` with the dot's index.
  */
  method ThreeSlidesDrivenByHandlers()
  {
    var slides := new bool[3](i => i == 0);
    var dots := new bool[3](i => i == 0);
    var carousel := InitSliderManually(slides, dots);
    assert carousel != null;
    carousel.NextSlide();
    carousel.NextSlide();
    carousel.NextSlide();
    assert carousel.currentSlide == 0 && slides[0] && !slides[2];
    carousel.PrevSlide();
    assert carousel.currentSlide == 2 && slides[2] && dots[2] && !dots[0];
    carousel.ShowSlide(1);
    assert slides[1] && dots[1] && !slides[2];
  }
}
