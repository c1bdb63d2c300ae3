/**
 * The testimonial carousel: a current index over the six testimonials that
 * steps forward and backward modulo their number, jumps to a chosen dot, and
 * advances on its own while auto-play is on; plus the five-star rating row.
 *
 * The 5-second interval is one atomic `Tick` step; the timer itself is not
 * modelled.
 */
module Testimonials {

  /** The fields the carousel logic reads; the quote text and roles are display only. */
  datatype Testimonial = Testimonial(id: nat, name: string, rating: int)

  const AllTestimonials: seq<Testimonial> := [
    Testimonial(1, "Sarah Johnson", 5),
    Testimonial(2, "Michael Chen", 5),
    Testimonial(3, "Dr. Emily Rodriguez", 5),
    Testimonial(4, "James Wilson", 5),
    Testimonial(5, "Lisa Thompson", 5),
    Testimonial(6, "David Park", 5)
  ]

  /** Number of stars in a rating row. */
  const StarCount: nat := 5

  /** `(prev + 1) % testimonials.length`: one step forward, wrapping from the last to the first. */
  function NextIndex(i: nat, n: nat): (r: nat)
    requires i < n
    ensures r < n
    ensures i + 1 < n ==> r == i + 1
    ensures i + 1 == n ==> r == 0
  {
    (i + 1) % n
  }

  /** `(prev - 1 + testimonials.length) % testimonials.length`: one step back, wrapping from the first to the last. */
  function PrevIndex(i: nat, n: nat): (r: nat)
    requires i < n
    ensures r < n
    ensures i > 0 ==> r == i - 1
    ensures i == 0 ==> r == n - 1
  {
    (i - 1 + n) % n
  }

  /** Stepping back undoes stepping forward. */
  lemma PrevUndoesNext(i: nat, n: nat)
    requires i < n
    ensures PrevIndex(NextIndex(i, n), n) == i
  {
  }

  /** Stepping forward undoes stepping back. */
  lemma NextUndoesPrev(i: nat, n: nat)
    requires i < n
    ensures NextIndex(PrevIndex(i, n), n) == i
  {
  }

  /** The index reached after `k` forward steps (manual or automatic) from `i`. */
  function Advance(i: nat, n: nat, k: nat): (r: nat)
    requires i < n
    ensures r < n
  {
    if k == 0 then i else NextIndex(Advance(i, n, k - 1), n)
  }

  /** Without passing the last testimonial, `k` steps move exactly `k` places. */
  lemma {:induction false} AdvanceWithoutWrap(i: nat, n: nat, k: nat)
    requires i + k < n
    ensures Advance(i, n, k) == i + k
  {
    if k > 0 {
      AdvanceWithoutWrap(i, n, k - 1);
    }
  }

  /** `a` steps followed by `b` steps are `a + b` steps. */
  lemma {:induction false} AdvanceCompose(i: nat, n: nat, a: nat, b: nat)
    requires i < n
    ensures Advance(i, n, a + b) == Advance(Advance(i, n, a), n, b)
  {
    if b > 0 {
      AdvanceCompose(i, n, a, b - 1);
      assert a + b - 1 == a + (b - 1);
    }
  }

  /** `n` forward steps bring the carousel back to where it started. */
  lemma FullCycleReturns(i: nat, n: nat)
    requires i < n
    ensures Advance(i, n, n) == i
  {
    AdvanceWithoutWrap(i, n, n - 1 - i);
    assert Advance(i, n, n - i) == 0;
    AdvanceCompose(i, n, n - i, i);
    if i > 0 {
      AdvanceWithoutWrap(0, n, i);
    }
  }

  /** Stars `i` to 4 of a rating row: star `j` is filled exactly when `j < rating`. */
  function StarsFrom(i: nat, rating: int): (r: seq<bool>)
    requires i <= StarCount
    ensures |r| == StarCount - i
    ensures forall j :: 0 <= j < |r| ==> (r[j] <==> i + j < rating)
    decreases StarCount - i
  {
    if i == StarCount then [] else [i < rating] + StarsFrom(i + 1, rating)
  }

  /** `renderStars`: exactly five stars, star `i` filled exactly when `i < rating`. */
  function RenderStars(rating: int): (r: seq<bool>)
    ensures |r| == StarCount
    ensures forall i :: 0 <= i < StarCount ==> (r[i] <==> i < rating)
  {
    StarsFrom(0, rating)
  }

  function FilledCount(stars: seq<bool>): nat
  {
    if stars == [] then 0 else (if stars[0] then 1 else 0) + FilledCount(stars[1..])
  }

  /** A rating row fills `rating` stars, clamped to the range 0..5. */
  lemma FilledStarsMatchRating(rating: int)
    ensures FilledCount(RenderStars(rating)) == if rating <= 0 then 0 else if rating >= 5 then 5 else rating
  {
    FilledFrom(0, rating);
  }

  lemma {:induction false} FilledFrom(i: nat, rating: int)
    requires i <= StarCount
    ensures FilledCount(StarsFrom(i, rating)) ==
      if rating <= i then 0 else if rating >= StarCount then StarCount - i else rating - i
    decreases StarCount - i
  {
    if i < StarCount {
      FilledFrom(i + 1, rating);
      assert StarsFrom(i, rating)[1..] == StarsFrom(i + 1, rating);
    }
  }

  /** The carousel's two state fields over the fixed testimonial list. */
  class Carousel {
    var currentIndex: nat
    var isAutoPlaying: bool

    /** Number of testimonials (`testimonials.length`). */
    const count: nat

    ghost predicate Valid()
      reads this
    {
      0 < count && currentIndex < count
    }

    /** Initial state: first testimonial, auto-play on. */
    constructor ()
      ensures Valid()
      ensures count == |AllTestimonials|
      ensures currentIndex == 0 && isAutoPlaying
    {
      count := |AllTestimonials|;
      currentIndex := 0;
      isAutoPlaying := true;
    }

    /** The testimonial on screen. */
    function Current(): (t: Testimonial)
      reads this
      requires Valid() && count == |AllTestimonials|
      ensures t in AllTestimonials
    {
      AllTestimonials[currentIndex]
    }

    /** One firing of the 5-second interval; the interval only exists while auto-play is on. */
    method Tick()
      requires Valid()
      modifies this
      ensures Valid()
      ensures isAutoPlaying == old(isAutoPlaying)
      ensures old(isAutoPlaying) ==> currentIndex == NextIndex(old(currentIndex), count)
      ensures !old(isAutoPlaying) ==> currentIndex == old(currentIndex)
    {
      if !isAutoPlaying {
        return;
      }
      currentIndex := (currentIndex + 1) % count;
    }

    /** `nextTestimonial`: step forward and stop auto-play. */
    method Next()
      requires Valid()
      modifies this
      ensures Valid()
      ensures currentIndex == NextIndex(old(currentIndex), count)
      ensures !isAutoPlaying
    {
      currentIndex := (currentIndex + 1) % count;
      isAutoPlaying := false;
    }

    /** `prevTestimonial`: step back and stop auto-play. */
    method Prev()
      requires Valid()
      modifies this
      ensures Valid()
      ensures currentIndex == PrevIndex(old(currentIndex), count)
      ensures !isAutoPlaying
    {
      currentIndex := (currentIndex - 1 + count) % count;
      isAutoPlaying := false;
    }

    /** `goToTestimonial`: a dot click; the dots only offer indices of existing testimonials. */
    method GoTo(index: nat)
      requires Valid() && index < count
      modifies this
      ensures Valid()
      ensures currentIndex == index
      ensures !isAutoPlaying
    {
      currentIndex := index;
      isAutoPlaying := false;
    }
  }
}
