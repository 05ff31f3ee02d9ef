/** The cruises page: the fetched tours whose category mentions "Cruise". */
module Cruises {
  import opened Options
  import Seqs
  import JsStrings
  import ToursRoute

  /** `t.category.includes('Cruise')`: a case-sensitive substring test. */
  predicate IsCruise(category: string)
  {
    JsStrings.Contains(category, "Cruise")
  }

  function CruiseTours(all: seq<ToursRoute.Tour>): seq<ToursRoute.Tour>
  {
    Seqs.Filter(all, (t: ToursRoute.Tour) => IsCruise(t.category))
  }

  /** Exactly the cruise tours are kept, in their original order. */
  lemma CruiseToursExactly(all: seq<ToursRoute.Tour>)
    ensures forall t :: t in CruiseTours(all) <==> t in all && IsCruise(t.category)
    ensures Seqs.IsSubsequence(CruiseTours(all), all)
  {
    Seqs.FilterMembers(all, (t: ToursRoute.Tour) => IsCruise(t.category));
    Seqs.FilterIsSubsequence(all, (t: ToursRoute.Tour) => IsCruise(t.category));
  }

  /** The three cruise categories of the cruise seed pass the filter. */
  lemma CruiseCategoriesPass()
    ensures IsCruise("Nile Cruises") && IsCruise("Luxury Nile Cruises") && IsCruise("Royal Nile Cruises")
  {
    assert "Cruise" <= "Nile Cruises"[5..];
    assert "Cruise" <= "Luxury Nile Cruises"[12..];
    assert "Cruise" <= "Royal Nile Cruises"[11..];
  }

  /** The tour categories other than "Nile Cruises". */
  const OtherCategories: seq<string> := ["Day Tours", "Shore Excursions", "Multi-Day Packages", "Desert Safari"]

  /** None of the other tour categories passes: none has a capital C. */
  lemma OtherCategoriesFail()
    ensures forall i :: 0 <= i < |OtherCategories| ==> !IsCruise(OtherCategories[i])
  {
    forall i | 0 <= i < |OtherCategories| ensures !IsCruise(OtherCategories[i]) {
      JsStrings.MissingCharNotContained(OtherCategories[i], "Cruise", 0);
    }
  }

  class CruisesState {
    var tours: seq<ToursRoute.Tour>

    constructor()
      ensures tours == []
    {
      tours := [];
    }

    /** The page's fetch once it settles: the cruise tours on success; on
        failure the list stays as it was (empty on first load). */
    method LoadSettled(fetched: Option<seq<ToursRoute.Tour>>)
      modifies this
      ensures tours == if fetched.Some? then CruiseTours(fetched.value) else old(tours)
    {
      if fetched.Some? {
        tours := CruiseTours(fetched.value);
      }
    }
  }
}
