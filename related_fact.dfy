/** The related-topics panel shown under each fact
    (src/frontend/components/RelatedFact.js). */
module RelatedFact {
  import opened Api
  import opened Labels

  /** How many related pages are kept. */
  const MaxRelated: nat := 5

  function Min(a: int, b: int): (r: int)
    ensures r <= a && r <= b && (r == a || r == b)
  {
    if a <= b then a else b
  }

  /** `pages.slice(0, 5)`: JavaScript's slice stops at the end of the
      array when it is shorter than the bound. */
  function FirstFive(pages: seq<Page>): (r: seq<Page>)
    ensures |r| == Min(MaxRelated, |pages|)
    ensures r <= pages
    ensures |pages| <= MaxRelated ==> r == pages
  {
    if |pages| <= MaxRelated then pages else pages[..MaxRelated]
  }

  /** Truncating twice is truncating once. */
  lemma FirstFiveIdempotent(pages: seq<Page>)
    ensures FirstFive(FirstFive(pages)) == FirstFive(pages)
  {
  }

  /** Truncation commutes with rendering: the buttons of the kept pages
      are the first buttons of all returned pages. */
  lemma {:induction false} ButtonsOfPrefix(pages: seq<Page>, k: nat)
    requires k <= |pages|
    ensures Buttons(pages[..k]) == Buttons(pages)[..k]
  {
    if k > 0 {
      assert pages[..k][1..] == pages[1..][..k - 1];
      ButtonsOfPrefix(pages[1..], k - 1);
    }
  }

  /** State of one `RelatedFact` component, mounted for the fact `title`. */
  class RelatedFacts {
    const title: string
    var relatedFacts: seq<Page>
    /** The last pages list received, or [] before any was. */
    ghost var received: seq<Page>

    ghost predicate Valid()
      reads this
    {
      relatedFacts == FirstFive(received)
    }

    /** `useState([])`. */
    constructor (title: string)
      ensures Valid()
      ensures this.title == title && relatedFacts == []
    {
      this.title := title;
      relatedFacts := [];
      received := [];
    }

    /** Completion of `fetchRelatedFacts`: on success the first five pages
        replace the list, on failure the list keeps its previous value. */
    method FetchRelatedFacts(response: Fetch<seq<Page>>)
      requires Valid()
      modifies this
      ensures Valid()
      ensures relatedFacts == if response.Received? then FirstFive(response.value) else old(relatedFacts)
      ensures |relatedFacts| <= MaxRelated
      ensures response.Received? ==> relatedFacts <= response.value
      ensures received == if response.Received? then response.value else old(received)
    {
      match response {
        case Received(pages) =>
          relatedFacts := FirstFive(pages);
          received := pages;
        case Failed =>
      }
    }

    /** The buttons the panel renders. */
    function RenderedButtons(): (bs: seq<Button>)
      reads this
      requires Valid()
      ensures |bs| == |relatedFacts| <= MaxRelated
      ensures |bs| <= |received| && bs == Buttons(received)[..|bs|]
    {
      ButtonsOfPrefix(received, |relatedFacts|);
      Buttons(relatedFacts)
    }

    /** Clicking the `i`-th button: the title handed to `onFactClick`. */
    method Click(i: nat) returns (target: string)
      requires i < |relatedFacts|
      ensures target == relatedFacts[i].title
      ensures Label(target) == Buttons(relatedFacts)[i].text
    {
      target := relatedFacts[i].title;
    }
  }
}
