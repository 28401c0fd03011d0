/** The single-open toggle that the FAQ page, the product page's FAQ and the
    mobile menu share: `open === i ? null : i`. */
module Accordion {
  import opened Wrappers

  function Toggle<T(==)>(open: Option<T>, i: T): (r: Option<T>)
    ensures open == Some(i) ==> r == None
    ensures open != Some(i) ==> r == Some(i)
  {
    if open == Some(i) then None else Some(i)
  }

  /** After a toggle of `i`, a panel `j` is open exactly when it is `i` and
      `i` was not open before: at most one panel is ever open. */
  lemma ToggleOpensOnlyTarget<T>(open: Option<T>, i: T, j: T)
    ensures Toggle(open, i) == Some(j) <==> j == i && open != Some(i)
  {
  }

  /** Two toggles of the same panel from the closed state end closed, and
      from any state restore whether `i` is open. */
  lemma ToggleTwice<T>(open: Option<T>, i: T)
    ensures open == None ==> Toggle(Toggle(open, i), i) == None
    ensures (Toggle(Toggle(open, i), i) == Some(i)) == (open == Some(i))
  {
  }
}
