/** The admin bookings table: which status actions each row offers, the
    status badge, the receipt link, and refetching after an update. */
module BookingList {
  import opened Options
  import BookingsRoute

  const Confirmed := "CONFIRMED"
  const Cancelled := "CANCELLED"

  /** "Confirm" is shown unless the booking is already confirmed. */
  predicate OffersConfirm(status: string) { status != Confirmed }

  /** "Cancel" is shown unless the booking is already cancelled. */
  predicate OffersCancel(status: string) { status != Cancelled }

  /** The statuses the row's buttons can request. */
  function Actions(status: string): (r: set<string>)
    ensures forall a :: a in r <==> (a == Confirmed || a == Cancelled) && a != status
    ensures r != {}
  {
    (if OffersConfirm(status) then {Confirmed} else {}) + (if OffersCancel(status) then {Cancelled} else {})
  }

  /** Pending offers both actions, confirmed only Cancel, cancelled only Confirm. */
  lemma ActionsPerStatus()
    ensures Actions(BookingsRoute.Pending) == {Confirmed, Cancelled}
    ensures Actions(Confirmed) == {Cancelled}
    ensures Actions(Cancelled) == {Confirmed}
  {
  }

  datatype BadgeColour = Emerald | Red | Amber

  function Badge(status: string): (c: BadgeColour)
    ensures c == Emerald <==> status == Confirmed
    ensures c == Red <==> status == Cancelled
    ensures c == Amber <==> status != Confirmed && status != Cancelled
  {
    if status == Confirmed then Emerald else if status == Cancelled then Red else Amber
  }

  /** The receipt link is shown when the receipt path is present and not empty. */
  predicate ShowsReceiptLink(b: BookingsRoute.Booking)
  {
    b.receiptImage.Some? && b.receiptImage.value != ""
  }

  /** For a booking the server created, the link is shown exactly when a file
      was uploaded with it. */
  lemma ReceiptLinkIffUploaded(form: BookingsRoute.BookingForm, filename: Option<string>, id: string, createdAt: int)
    requires BookingsRoute.NewBooking(form, filename, id, createdAt).Some?
    ensures ShowsReceiptLink(BookingsRoute.NewBooking(form, filename, id, createdAt).value) <==> filename.Some?
  {
  }

  /** A click on one of the row's buttons. */
  datatype StatusPatch = StatusPatch(id: string, status: string)

  /** Applying a series of patches to the booking table, as the PATCH route
      does: only statuses change, and the last patch naming a booking decides
      its status. */
  function ApplyPatches(rows: seq<BookingsRoute.Booking>, patches: seq<StatusPatch>): (r: seq<BookingsRoute.Booking>)
    ensures |r| == |rows|
    ensures forall i :: 0 <= i < |rows| ==> r[i].(status := rows[i].status) == rows[i]
    ensures forall i :: 0 <= i < |rows| && (forall k :: 0 <= k < |patches| ==> patches[k].id != rows[i].id) ==>
      r[i] == rows[i]
    ensures patches != [] ==> forall i :: 0 <= i < |rows| && rows[i].id == patches[|patches| - 1].id ==>
      r[i].status == patches[|patches| - 1].status
    decreases |patches|
  {
    if patches == [] then rows
    else ApplyPatches(BookingsRoute.SetStatus(rows, patches[0].id, patches[0].status), patches[1..])
  }

  /** This screen never sets a booking back to pending: after any series of
      its patches, a booking is pending only if it was pending to begin with. */
  lemma {:induction false} NeverBackToPending(rows: seq<BookingsRoute.Booking>, patches: seq<StatusPatch>)
    requires forall k :: 0 <= k < |patches| ==> patches[k].status == Confirmed || patches[k].status == Cancelled
    ensures forall i :: 0 <= i < |rows| && ApplyPatches(rows, patches)[i].status == BookingsRoute.Pending ==>
      rows[i].status == BookingsRoute.Pending
    decreases |patches|
  {
    if patches != [] {
      var next := BookingsRoute.SetStatus(rows, patches[0].id, patches[0].status);
      NeverBackToPending(next, patches[1..]);
      forall i | 0 <= i < |rows| && ApplyPatches(rows, patches)[i].status == BookingsRoute.Pending
        ensures rows[i].status == BookingsRoute.Pending
      {
        assert next[i].status == BookingsRoute.Pending;
      }
    }
  }

  /** The component's state. */
  class BookingListState {
    var bookings: seq<BookingsRoute.BookingView>
    var loading: bool

    constructor()
      ensures bookings == [] && loading
    {
      bookings := [];
      loading := true;
    }

    /** "No bookings found" is shown exactly for an empty list. */
    predicate ShowsEmptyRow()
      reads this
    {
      |bookings| == 0
    }

    /** `fetchBookings` once the GET settles: the fetched list on success,
        the old list on failure; loading ends either way. */
    method FetchSettled(fetched: Option<seq<BookingsRoute.BookingView>>)
      modifies this
      ensures !loading
      ensures fetched.Some? ==> bookings == fetched.value
      ensures fetched.None? ==> bookings == old(bookings)
    {
      if fetched.Some? {
        bookings := fetched.value;
      }
      loading := false;
    }

    /** A Confirm or Cancel click: the patch for that row. */
    method ClickAction(row: BookingsRoute.BookingView, status: string) returns (p: StatusPatch)
      requires status in Actions(row.booking.status)
      ensures p == StatusPatch(row.booking.id, status)
      ensures p.status == Confirmed || p.status == Cancelled
    {
      p := StatusPatch(row.booking.id, status);
    }

    /** `updateStatus` once the PATCH settles: refetch after success, nothing
        after failure; the list itself is not touched here. */
    method UpdateSettled(succeeded: bool) returns (refetch: bool)
      ensures refetch == succeeded
    {
      refetch := succeeded;
    }
  }
}
