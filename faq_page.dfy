/** The FAQ page (`src/pages/FaqPage.tsx`): one `openIndex` that the panel
    headers toggle. */
module Faq {
  import opened Wrappers
  import Accordion

  class FaqPage {
    var openIndex: Option<int>

    constructor ()
      ensures openIndex == None
    {
      openIndex := None;
    }

    /** A panel's answer is shown exactly when it is the open one. */
    function IsOpen(index: int): (b: bool)
      reads this
      ensures b <==> openIndex == Some(index)
    {
      openIndex == Some(index)
    }

    method ToggleIndex(index: int)
      modifies this
      ensures openIndex == Accordion.Toggle(old(openIndex), index)
      ensures forall j :: IsOpen(j) <==> j == index && !old(IsOpen(index))
    {
      openIndex := Accordion.Toggle(openIndex, index);
    }
  }

  /** Opening one panel and then another leaves only the second open, and
      pressing it again closes everything. */
  method OpenTwoPanels() returns (page: FaqPage)
    ensures page.openIndex == None
  {
    page := new FaqPage();
    page.ToggleIndex(0);
    assert page.IsOpen(0);
    page.ToggleIndex(2);
    assert page.IsOpen(2) && !page.IsOpen(0);
    page.ToggleIndex(2);
  }
}
