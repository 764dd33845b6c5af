/** The home page's carousel: three slides and a cyclic current index. */
module ImageSlider {

  datatype Slide = Slide(image: string, title: string, subtitle: string)

  /** The slides, in display order. */
  const Slides: seq<Slide> := [
    Slide("https://images.unsplash.com/photo-1611162617474-5b21e879e113?w=1200&q=80",
          "Premium IPTV Service", "Best Quality Streaming"),
    Slide("https://images.unsplash.com/photo-1574375927938-d5a98e8ffe85?w=1200&q=80",
          "45,000+ Channels and movies", "Watch Your Favorite Shows"),
    Slide("https://images.unsplash.com/photo-1593359677879-a4bb92f829d1?w=1200&q=80",
          "4k ultra HD Quality", "Crystal Clear Picture")
  ]

  /** `slides.length`. */
  const SlideCount: nat := 3

  lemma SlideCountIsLength()
    ensures |Slides| == SlideCount
  {
  }

  /** `prev === count - 1 ? 0 : prev + 1`. */
  function Next(i: int, count: nat): (r: int)
    ensures 0 <= i < count ==> 0 <= r < count
  {
    if i == count - 1 then 0 else i + 1
  }

  /** `prev === 0 ? count - 1 : prev - 1`. */
  function Previous(i: int, count: nat): (r: int)
    ensures 0 <= i < count ==> 0 <= r < count
  {
    if i == 0 then count - 1 else i - 1
  }

  /** Next undoes Previous and Previous undoes Next, on every valid index. */
  lemma NextPreviousInverse(i: int, count: nat)
    requires 0 <= i < count
    ensures Next(Previous(i, count), count) == i
    ensures Previous(Next(i, count), count) == i
  {
  }

  /** The index after `k` steps forward. */
  function Advance(i: int, k: nat, count: nat): int
  {
    if k == 0 then i else Next(Advance(i, k - 1, count), count)
  }

  /** Below the last slide, `k` steps forward just add `k`. */
  lemma {:induction false} AdvanceWithoutWrap(i: int, k: nat, count: nat)
    requires 0 <= i && i + k < count
    ensures Advance(i, k, count) == i + k
  {
    if k > 0 {
      AdvanceWithoutWrap(i, k - 1, count);
    }
  }

  /** Stepping `a` then `b` times is stepping `a + b` times. */
  lemma {:induction false} AdvanceAdds(i: int, a: nat, b: nat, count: nat)
    ensures Advance(Advance(i, a, count), b, count) == Advance(i, a + b, count)
  {
    if b > 0 {
      AdvanceAdds(i, a, b - 1, count);
    }
  }

  /** Going forward once per slide (`n` steps over `n` slides) comes back to where it started. */
  lemma {:induction false} FullCycle(i: int, n: nat)
    requires 0 <= i < n
    ensures Advance(i, n, n) == i
  {
    AdvanceWithoutWrap(i, n - 1 - i, n);
    assert Advance(i, n - i, n) == 0;
    if i > 0 {
      AdvanceWithoutWrap(0, i - 1, n);
      assert Advance(0, i, n) == i;
    }
    AdvanceAdds(i, n - i, i, n);
  }

  /** The indices the dot buttons pass to `goToSlide`: one per slide. */
  function DotTargets(): (r: seq<int>)
    ensures |r| == |Slides|
    ensures forall k :: 0 <= k < |r| ==> r[k] == k && 0 <= r[k] < SlideCount
  {
    seq(|Slides|, k requires 0 <= k < |Slides| => k)
  }

  class Slider {
    var currentIndex: int

    ghost predicate Valid()
      reads this
    {
      0 <= currentIndex < SlideCount
    }

    /** `useState(0)`. */
    constructor ()
      ensures Valid() && currentIndex == 0
    {
      currentIndex := 0;
    }

    /** `goToSlide(index)`; its only callers, the dots, pass a slide's position. */
    method GoToSlide(index: int)
      requires 0 <= index < |DotTargets()|
      modifies this
      ensures Valid() && currentIndex == index == DotTargets()[index]
    {
      currentIndex := index;
    }

    /** `goToNext`: the last slide wraps to the first. */
    method GoToNext()
      requires Valid()
      modifies this
      ensures Valid() && currentIndex == Next(old(currentIndex), SlideCount)
      ensures currentIndex == if old(currentIndex) == SlideCount - 1 then 0 else old(currentIndex) + 1
    {
      currentIndex := Next(currentIndex, SlideCount);
    }

    /** `goToPrevious`: the first slide wraps to the last. */
    method GoToPrevious()
      requires Valid()
      modifies this
      ensures Valid() && currentIndex == Previous(old(currentIndex), SlideCount)
      ensures currentIndex == if old(currentIndex) == 0 then SlideCount - 1 else old(currentIndex) - 1
    {
      currentIndex := Previous(currentIndex, SlideCount);
    }

    /** The five-second interval's tick: the same successor as `goToNext`. */
    method Tick()
      requires Valid()
      modifies this
      ensures Valid() && currentIndex == Next(old(currentIndex), SlideCount)
    {
      currentIndex := Next(currentIndex, SlideCount);
    }
  }

  /** Clicking next then previous, or three ticks, leaves the carousel where it was. */
  method Rounds()
  {
    var s := new Slider();
    s.GoToSlide(2);
    s.GoToNext();
    assert s.currentIndex == 0;
    s.GoToPrevious();
    assert s.currentIndex == 2;
    s.Tick();
    s.Tick();
    s.Tick();
    assert s.currentIndex == 2;
  }
}
