/** The button labels shown for page titles: `title.replace(/_/g, ' ')`,
    used for the starting-topic buttons and for the related-topic buttons. */
module Labels {
  import opened Api

  /** Every `_` of a title replaced by a space, all other characters kept. */
  function Label(title: string): (r: string)
    ensures |r| == |title|
    ensures '_' !in r
    ensures forall i :: 0 <= i < |title| && title[i] != '_' ==> r[i] == title[i]
    ensures forall i :: 0 <= i < |title| && title[i] == '_' ==> r[i] == ' '
  {
    if title == [] then []
    else [if title[0] == '_' then ' ' else title[0]] + Label(title[1..])
  }

  /** A title is shown as it is exactly when it holds no underscore. */
  lemma LabelIsIdentity(title: string)
    ensures Label(title) == title <==> '_' !in title
  {
    if '_' !in title {
      assert forall i :: 0 <= i < |title| ==> Label(title)[i] == title[i];
    }
  }

  /** Replacing again changes nothing. */
  lemma LabelIdempotent(title: string)
    ensures Label(Label(title)) == Label(title)
  {
    LabelIsIdentity(Label(title));
  }

  /** The replacement works character by character, so it distributes
      over concatenation. */
  lemma {:induction false} LabelAppend(a: string, b: string)
    ensures Label(a + b) == Label(a) + Label(b)
  {
    if a == [] {
      assert a + b == b;
    } else {
      assert (a + b)[1..] == a[1..] + b;
      LabelAppend(a[1..], b);
    }
  }

  /** A rendered button: the text it shows and the title its click handler
      passes on. */
  datatype Button = Button(text: string, target: string)

  /** The buttons rendered for a list of pages, one per page in order
      (`pages.map(...)` with `onClick={() => handler(page.title)}`). */
  function Buttons(pages: seq<Page>): (bs: seq<Button>)
    ensures |bs| == |pages|
    ensures forall i :: 0 <= i < |pages| ==>
      bs[i].target == pages[i].title && bs[i].text == Label(pages[i].title)
  {
    if pages == [] then []
    else [Button(Label(pages[0].title), pages[0].title)] + Buttons(pages[1..])
  }

  /** A click hands over the raw title, not the label: the two differ
      exactly when the title contains an underscore, and they always
      agree on every position that is not an underscore. */
  lemma ClickPassesRawTitle(pages: seq<Page>, i: nat)
    requires i < |pages|
    ensures Buttons(pages)[i].target == pages[i].title
    ensures Buttons(pages)[i].text != Buttons(pages)[i].target <==> '_' in pages[i].title
    ensures |Buttons(pages)[i].text| == |pages[i].title|
  {
    LabelIsIdentity(pages[i].title);
  }
}
