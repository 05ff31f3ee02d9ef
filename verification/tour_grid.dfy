/** The home page's tour grid: a row of category buttons and the tours of the
    selected category. */
module TourGrid {
  import opened Options
  import Seqs
  import ToursRoute

  const All := "All"

  /** The values of the `TourCategory` enumeration, in declaration order. */
  const Categories: seq<string> :=
    ["Day Tours", "Nile Cruises", "Shore Excursions", "Multi-Day Packages", "Desert Safari"]

  /** The buttons: "All", then one per category. */
  function Buttons(): (r: seq<string>)
    ensures |r| == 1 + |Categories| && r[0] == All && r[1..] == Categories
    ensures forall i, j :: 0 <= i < j < |r| ==> r[i] != r[j]
  {
    [All] + Categories
  }

  /** `filteredTours`: everything for "All", else the tours of exactly that category. */
  function Filtered(tours: seq<ToursRoute.Tour>, active: string): (r: seq<ToursRoute.Tour>)
    ensures active == All ==> r == tours
    ensures active != All ==> forall i :: 0 <= i < |r| ==> r[i].category == active
  {
    if active == All then tours else Seqs.Filter(tours, (t: ToursRoute.Tour) => t.category == active)
  }

  /** The grid shows a tour exactly when it is fetched and in the category
      (or "All" is selected), keeping the fetched order. */
  lemma FilteredExactly(tours: seq<ToursRoute.Tour>, active: string)
    ensures forall t :: t in Filtered(tours, active) <==> t in tours && (active == All || t.category == active)
    ensures Seqs.IsSubsequence(Filtered(tours, active), tours)
  {
    if active != All {
      Seqs.FilterMembers(tours, (t: ToursRoute.Tour) => t.category == active);
      Seqs.FilterIsSubsequence(tours, (t: ToursRoute.Tour) => t.category == active);
    } else {
      Seqs.FilterKeepsAll(tours, (t: ToursRoute.Tour) => true);
      Seqs.FilterIsSubsequence(tours, (t: ToursRoute.Tour) => true);
    }
  }

  class TourGridState {
    var activeCategory: string
    var tours: seq<ToursRoute.Tour>

    /** The tours on screen. */
    function Shown(): seq<ToursRoute.Tour>
      reads this
    {
      Filtered(tours, activeCategory)
    }

    /** "No tours found in this category" is shown exactly when nothing is. */
    predicate ShowsEmptyMessage()
      reads this
    {
      |Shown()| == 0
    }

    constructor()
      ensures activeCategory == All && tours == [] && Shown() == tours
    {
      activeCategory := All;
      tours := [];
    }

    /** `tourService.getAll().then(setTours)`: a failed fetch changes nothing. */
    method FetchSettled(fetched: Option<seq<ToursRoute.Tour>>)
      modifies this
      ensures activeCategory == old(activeCategory)
      ensures tours == if fetched.Some? then fetched.value else old(tours)
    {
      if fetched.Some? {
        tours := fetched.value;
      }
    }

    /** A click on one of the buttons. */
    method Select(button: string)
      requires button in Buttons()
      modifies this
      ensures activeCategory == button && tours == old(tours)
      ensures button == All ==> Shown() == tours
    {
      activeCategory := button;
    }
  }
}
