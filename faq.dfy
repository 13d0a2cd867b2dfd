/**
 * The accordion of components/FAQ.tsx: a single `openItem` that holds the id of
 * the open question, or nothing when every question is closed.
 */
module Faq {
  import opened Opt

  /** The next value of `openItem` after the question `id` is clicked. */
  function Toggled(open: Option<string>, id: string): (r: Option<string>)
    ensures r == None <==> open == Some(id)
    ensures r != None ==> r == Some(id)
  {
    if open == Some(id) then None else Some(id)
  }

  /** The question `id` is shown expanded. */
  predicate IsOpen(open: Option<string>, id: string) {
    open == Some(id)
  }

  /** The state after a series of clicks, from the initial all-closed state. */
  function Clicks(ids: seq<string>): Option<string>
    decreases |ids|
  {
    if ids == [] then None else Toggled(Clicks(ids[..|ids| - 1]), ids[|ids| - 1])
  }

  /** After any series of clicks, the open question, if any, is the last one clicked. */
  lemma {:induction false} OpenIsLastClicked(ids: seq<string>)
    ensures Clicks(ids) == None || (ids != [] && Clicks(ids) == Some(ids[|ids| - 1]))
  {
  }

  /** At most one question is open at a time. */
  lemma AtMostOneOpen(open: Option<string>, a: string, b: string)
    requires IsOpen(open, a) && IsOpen(open, b)
    ensures a == b
  {
  }

  /** From all-closed, clicking the same question twice closes it again. */
  lemma ToggleTwiceCloses(id: string)
    ensures Toggled(Toggled(None, id), id) == None
    ensures Clicks([id, id]) == None
  {
    assert [id][..0] == [];
    assert Clicks([id]) == Some(id);
    assert [id, id][..1] == [id];
  }

  class FaqAccordion {
    var openItem: Option<string>

    /** `useState<string | null>(null)`: every question starts closed. */
    constructor ()
      ensures openItem == None
    {
      openItem := None;
    }

    /** `toggleItem`: closes the question if it is open, otherwise opens it and closes any other. */
    method ToggleItem(id: string)
      modifies this
      ensures openItem == Toggled(old(openItem), id)
    {
      openItem := if openItem == Some(id) then None else Some(id);
    }

    /** Whether the question `id` is drawn expanded (`openItem === item.id`). */
    function Expanded(id: string): (r: bool)
      reads this
      ensures r <==> IsOpen(openItem, id)
    {
      openItem == Some(id)
    }
  }
}
