/** The search box of the shop header (`src/components/common/Header.tsx`):
    case-insensitive substring suggestions over a fixed list, recomputed
    whenever the term changes (the effect is applied right after each
    change), shown while the box is in use and hidden after a pick. */
module SearchHeader {
  import Seqs
  import Text

  const MockSearchSuggestions: seq<string> := ["Shirts", "Jeans", "Cargo Pants", "T-Shirts"]

  /** `item.toLowerCase().includes(term.toLowerCase())`. */
  function MatchesTerm(term: string): string -> bool {
    (item: string) => Text.Contains(Text.ToLower(item), Text.ToLower(term))
  }

  /** The effect's result over the suggestion list `items`: nothing for a
      blank term, otherwise the matching items. `term.trim().length === 0`
      is written as `Text.IsBlank(term)`, which `Text.TrimEmptyIff` shows to
      be the same test; the match itself uses the untrimmed term. */
  function Suggestions(items: seq<string>, term: string): seq<string> {
    if Text.IsBlank(term) then [] else Seqs.Filter(MatchesTerm(term), items)
  }

  /** Blank terms suggest nothing; other terms suggest exactly the items
      that contain them ignoring case, in list order, each as often as it
      occurs in the list. */
  lemma SuggestionsMeaning(items: seq<string>, term: string)
    ensures Text.IsBlank(term) ==> Suggestions(items, term) == []
    ensures !Text.IsBlank(term) ==> forall item :: item in Suggestions(items, term) <==>
              item in items && exists i :: Text.OccursAt(Text.ToLower(item), Text.ToLower(term), i)
    ensures Seqs.IsSubseq(Suggestions(items, term), items)
    ensures !Text.IsBlank(term) ==>
              forall item :: multiset(Suggestions(items, term))[item]
                               == (if MatchesTerm(term)(item) then multiset(items)[item] else 0)
  {
    Seqs.FilterIsSubseq(MatchesTerm(term), items);
    forall item
      ensures !Text.IsBlank(term) ==>
                multiset(Suggestions(items, term))[item]
                == (if MatchesTerm(term)(item) then multiset(items)[item] else 0)
    {
      Seqs.FilterCount(MatchesTerm(term), items, item);
    }
    forall item ensures MatchesTerm(term)(item) <==> exists i :: Text.OccursAt(Text.ToLower(item), Text.ToLower(term), i) {
      Text.ContainsIff(Text.ToLower(item), Text.ToLower(term));
    }
  }

  lemma SelfContains(h: string)
    ensures Text.Contains(h, h)
  {
    Text.ContainsIff(h, h);
    assert Text.OccursAt(h, h, 0);
  }

  /** A non-blank item suggests itself, so a picked suggestion stays listed. */
  lemma ItemSuggestsItself(items: seq<string>, item: string)
    requires item in items && !Text.IsBlank(item)
    ensures item in Suggestions(items, item)
  {
    SelfContains(Text.ToLower(item));
    assert MatchesTerm(item)(item);
  }

  /** None of the fixed suggestions is blank. */
  lemma MockSuggestionsNotBlank()
    ensures forall item :: item in MockSearchSuggestions ==> !Text.IsBlank(item)
  {
    forall item | item in MockSearchSuggestions ensures !Text.IsBlank(item) {
      assert item[0] in "SJCT";
    }
  }

  /** The term is matched untrimmed: "jeans" suggests "Jeans", but "jeans "
      (with a trailing space) does not, although it passes the blank test. */
  lemma UntrimmedTermMatters()
    ensures "Jeans" in Suggestions(MockSearchSuggestions, "jeans")
    ensures "Jeans" !in Suggestions(MockSearchSuggestions, "jeans ")
  {
    assert !Text.IsSpace("jeans"[0]) && !Text.IsSpace("jeans "[0]);
    assert Text.ToLower("Jeans") == Text.ToLower("jeans");
    SelfContains(Text.ToLower("jeans"));
    assert MatchesTerm("jeans")("Jeans");
    assert |Text.ToLower("jeans ")| > |Text.ToLower("Jeans")|;
    assert !MatchesTerm("jeans ")("Jeans");
  }

  class Header {
    var searchTerm: string
    var suggestions: seq<string>
    var showSuggestions: bool
    const items: seq<string>

    /** The effect has caught up with the term; the list has no blank item. */
    ghost predicate Valid()
      reads this
    {
      && suggestions == Suggestions(items, searchTerm)
      && forall item :: item in items ==> !Text.IsBlank(item)
    }

    constructor ()
      ensures Valid() && items == MockSearchSuggestions
      ensures searchTerm == "" && suggestions == [] && !showSuggestions
    {
      searchTerm := "";
      suggestions := [];
      showSuggestions := false;
      items := MockSearchSuggestions;
      MockSuggestionsNotBlank();
    }

    /** The dropdown is rendered while shown and non-empty. */
    function ListVisible(): bool
      reads this
    {
      showSuggestions && |suggestions| > 0
    }

    /** Typing: the term changes, the list opens, the effect recomputes. */
    method OnType(value: string)
      requires Valid()
      modifies this
      ensures Valid() && searchTerm == value && showSuggestions
    {
      var s := Suggestions(items, value);
      searchTerm := value;
      showSuggestions := true;
      suggestions := s;
    }

    method OnFocus()
      requires Valid()
      modifies this
      ensures Valid() && showSuggestions && searchTerm == old(searchTerm)
    {
      showSuggestions := true;
    }

    /** Pressing a listed suggestion: the term becomes it, the list hides,
        and the picked text is among the new term's suggestions. */
    method PickSuggestion(k: int)
      requires Valid() && ListVisible() && 0 <= k < |suggestions|
      modifies this
      ensures Valid() && searchTerm == old(suggestions[k]) && !showSuggestions
      ensures searchTerm in suggestions
    {
      var picked := suggestions[k];
      assert picked in items;
      ItemSuggestsItself(items, picked);
      var s := Suggestions(items, picked);
      searchTerm := picked;
      showSuggestions := false;
      suggestions := s;
    }
  }
}
