/** The admin tours screen: a list view, and the tour editor opened either
    blank (create) or on a chosen tour (edit). */
module TourList {
  import opened Options
  import ToursRoute
  import TourEditor

  datatype View = ListView | CreateView | EditView

  class TourListState {
    var tours: seq<ToursRoute.Tour>
    var loading: bool
    var view: View
    var selectedTour: Option<ToursRoute.Tour>

    /** The create view has no selected tour; the edit view always has one. */
    ghost predicate Valid()
      reads this
    {
      (view == CreateView ==> selectedTour.None?) && (view == EditView ==> selectedTour.Some?)
    }

    /** The editor is on screen in the create and edit views, given the
        selected tour as its initial data. */
    function Editor(): (r: Option<Option<ToursRoute.Tour>>)
      reads this
      ensures r.Some? <==> view != ListView
      ensures r.Some? ==> r.value == selectedTour
    {
      if view == ListView then None else Some(selectedTour)
    }

    constructor()
      ensures Valid() && view == ListView && selectedTour.None? && tours == [] && loading
      ensures Editor().None?
    {
      tours := [];
      loading := true;
      view := ListView;
      selectedTour := None;
    }

    /** `fetchTours` once the GET settles. */
    method FetchSettled(fetched: Option<seq<ToursRoute.Tour>>)
      requires Valid()
      modifies this
      ensures Valid() && !loading && view == old(view) && selectedTour == old(selectedTour)
      ensures tours == if fetched.Some? then fetched.value else old(tours)
    {
      if fetched.Some? {
        tours := fetched.value;
      }
      loading := false;
    }

    /** "Add New Tour": a blank editor, which will create. */
    method HandleCreate()
      requires Valid()
      modifies this
      ensures Valid() && view == CreateView && selectedTour.None? && tours == old(tours) && loading == old(loading)
      ensures Editor() == Some(None)
      ensures forall form :: TourEditor.Request(selectedTour, form).Post?
    {
      selectedTour := None;
      view := CreateView;
    }

    /** "Edit" on a row: the editor on that tour, which will update it when it has an id. */
    method HandleEdit(tour: ToursRoute.Tour)
      requires Valid()
      modifies this
      ensures Valid() && view == EditView && selectedTour == Some(tour) && tours == old(tours) && loading == old(loading)
      ensures Editor() == Some(Some(tour))
      ensures tour.id != "" ==> forall form :: TourEditor.Request(selectedTour, form).Put?
    {
      selectedTour := Some(tour);
      view := EditView;
    }

    /** The editor's `onSave`: back to the list, and a refetch is due. */
    method HandleSave() returns (refetch: bool)
      requires Valid()
      modifies this
      ensures Valid() && view == ListView && refetch && tours == old(tours)
      ensures selectedTour == old(selectedTour) && loading == old(loading)
      ensures Editor().None?
    {
      refetch := true;
      view := ListView;
    }

    /** The editor's `onCancel`: back to the list, no refetch. */
    method HandleCancel()
      requires Valid()
      modifies this
      ensures Valid() && view == ListView && tours == old(tours) && selectedTour == old(selectedTour)
      ensures loading == old(loading)
    {
      view := ListView;
    }

    /** "Delete" on a row: the path to DELETE only when the dialog was confirmed. */
    method HandleDelete(id: string, confirmed: bool) returns (request: Option<string>)
      ensures request.Some? <==> confirmed
      ensures confirmed ==> request.value == "/tours/" + id
    {
      if !confirmed {
        return None;
      }
      request := Some("/tours/" + id);
    }

    /** The delete once it settles: a refetch after success only. */
    method DeleteSettled(succeeded: bool) returns (refetch: bool)
      ensures refetch == succeeded
    {
      refetch := succeeded;
    }
  }
}
