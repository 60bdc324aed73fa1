/** The onboarding carousel (src/components/Onboarding.tsx): a slide counter
    that Next advances up to the last slide, where Next completes; Skip
    completes from any slide. Completion is the onComplete callback, here a
    returned flag. */
module Onboarding {

  /** The slide titles, in order. */
  const Slides: seq<string> := ["Welcome to BuildCost", "Estimate Materials", "Manage Projects", "Organize Documents"]

  class Carousel {
    var currentSlide: nat

    predicate Valid()
      reads this
    {
      currentSlide < |Slides|
    }

    constructor ()
      ensures Valid() && currentSlide == 0
    {
      currentSlide := 0;
    }

    /** The Skip button is offered on every slide but the last. */
    function ShowsSkip(): (shown: bool)
      reads this
      ensures Valid() ==> (shown <==> Slides[currentSlide] != Slides[|Slides| - 1])
    {
      currentSlide < |Slides| - 1
    }

    /** The title of the slide being shown. */
    function Title(): (t: string)
      reads this
      requires Valid()
      ensures t in Slides
      ensures t == Slides[|Slides| - 1] <==> !ShowsSkip()
    {
      Slides[currentSlide]
    }

    method HandleNext() returns (completed: bool)
      requires Valid()
      modifies this
      ensures Valid()
      ensures completed <==> old(currentSlide) == |Slides| - 1
      ensures completed <==> !old(ShowsSkip())
      ensures currentSlide == if completed then old(currentSlide) else old(currentSlide) + 1
    {
      if currentSlide < |Slides| - 1 {
        currentSlide := currentSlide + 1;
        completed := false;
      } else {
        completed := true;
      }
    }

    method HandleSkip() returns (completed: bool)
      requires Valid()
      ensures completed
    {
      completed := true;
    }
  }

  /** From the first slide, Next three times shows the other slides and the
      fourth Next completes without leaving the last one. */
  method NextThroughAll() returns (titles: seq<string>, completions: seq<bool>)
    ensures titles == Slides
    ensures completions == [false, false, false, true]
  {
    var c := new Carousel();
    var t0 := c.Title();
    var d1 := c.HandleNext();
    var t1 := c.Title();
    var d2 := c.HandleNext();
    var t2 := c.Title();
    var d3 := c.HandleNext();
    var t3 := c.Title();
    var d4 := c.HandleNext();
    titles := [t0, t1, t2, t3];
    completions := [d1, d2, d3, d4];
  }
}
