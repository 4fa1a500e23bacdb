/** The onboarding carousel: a pager over a fixed list of slides with a
    "Next"/"Get Started" button and a "Skip" button. Scrolling is requested
    by the button and reported back by the list's scroll-end event, which is
    the only thing that moves the current index. Requests to the list and
    the completion callback are returned as action values. */
module Onboarding {

  /** One slide of the carousel (its emoji icon and gradient are presentation). */
  datatype Slide = Slide(id: string, title: string, description: string)

  const Slides: seq<Slide> := [
    Slide("1", "Explore the Unseen",
      "Discover deep ocean biodiversity through AI-driven eDNA analysis without dependency on limited databases"),
    Slide("2", "AI-Powered Insights",
      "Get ecological insights, species abundance, and conservation metrics through advanced machine learning"),
    Slide("3", "Conservation Ready",
      "Identify novel taxa and understand ecological interactions for better marine conservation strategies")
  ]

  /** What pressing a button asks for: the list to scroll to a slide, or the
      `onComplete` callback to fire. */
  datatype PagerAction = ScrollToIndex(index: nat) | Complete

  /** The "Next" button on slide `current`: it scrolls one slide forward,
      never past the last slide, and completes exactly when it does not
      scroll. */
  function NextAction(current: nat): (a: PagerAction)
    ensures a.ScrollToIndex? ==> a.index == current + 1 && a.index < |Slides|
    ensures a == Complete <==> current >= |Slides| - 1
  {
    if current < |Slides| - 1 then ScrollToIndex(current + 1) else Complete
  }

  function ButtonLabel(current: nat): string
  {
    if current == |Slides| - 1 then "Get Started" else "Next"
  }

  predicate SkipVisible(current: nat)
  {
    current < |Slides| - 1
  }

  /** The carousel holds exactly three slides, numbered 0 to 2, with
      distinct identifiers. */
  lemma SlideDeck()
    ensures |Slides| == 3
    ensures forall i, j :: 0 <= i < j < |Slides| ==> Slides[i].id != Slides[j].id
  {
  }

  /** On a slide of the carousel, the label reads "Get Started" exactly on
      the last slide, that is exactly when "Next" completes, and "Skip" is
      offered exactly on the other slides. */
  lemma LabelMatchesAction(current: nat)
    requires current < |Slides|
    ensures ButtonLabel(current) == "Get Started" <==> current == |Slides| - 1
    ensures ButtonLabel(current) == "Get Started" <==> NextAction(current) == Complete
    ensures SkipVisible(current) <==> ButtonLabel(current) == "Next"
  {
  }

  /** Where the pager stands after `k` presses of "Next" from slide `i`,
      each requested scroll being reported back by the scroll-end event:
      still paging on some slide, or completed. */
  datatype Progress = Paging(index: nat) | Completed

  function PressNext(i: nat, k: nat): Progress
    decreases k
  {
    if k == 0 then Paging(i)
    else
      match NextAction(i)
      case Complete => Completed
      case ScrollToIndex(j) => PressNext(j, k - 1)
  }

  /** From any slide, pressing "Next" walks forward one slide at a time and
      completes on the press after the last slide is reached; it never
      stands on a slide past the end. */
  lemma {:induction false} PressNextWalk(i: nat, k: nat)
    requires i < |Slides|
    ensures k <= |Slides| - 1 - i ==> PressNext(i, k) == Paging(i + k)
    ensures k > |Slides| - 1 - i ==> PressNext(i, k) == Completed
    ensures PressNext(i, k).Paging? ==> PressNext(i, k).index < |Slides|
    decreases k
  {
    if k > 0 && i < |Slides| - 1 {
      PressNextWalk(i + 1, k - 1);
    }
  }

  /** The carousel component's state: only the current slide index. */
  class Pager {
    var currentIndex: nat

    constructor ()
      ensures currentIndex == 0
    {
      currentIndex := 0;
    }

    /** scrollTo, the handler of the "Next" button. It only asks the list to
        scroll; it leaves `currentIndex` alone. */
    method ScrollTo() returns (a: PagerAction)
      ensures a == NextAction(currentIndex)
      ensures currentIndex < |Slides| - 1 ==> a == ScrollToIndex(currentIndex + 1)
      ensures currentIndex >= |Slides| - 1 ==> a == Complete
    {
      a := NextAction(currentIndex);
    }

    /** The "Skip" button, shown only off the last slide, fires completion. */
    method Skip() returns (a: PagerAction)
      requires SkipVisible(currentIndex)
      ensures a == Complete
    {
      a := Complete;
    }

    /** onMomentumScrollEnd: the list reports the slide it came to rest on. */
    method MomentumScrollEnd(index: nat)
      modifies this
      ensures currentIndex == index
    {
      currentIndex := index;
    }
  }
}
