/** The `/api/bookings` routes: create a booking from a multipart form, list
    them newest first with their tour's title, and set a booking's status. */
module BookingsRoute {
  import opened Options
  import opened Http
  import Tables
  import JsStrings

  const Pending := "PENDING"
  const CreateFailed := "Failed to create booking"
  const FetchFailed := "Failed to fetch bookings"
  const UpdateFailed := "Failed to update booking"
  const UploadsPrefix := "/uploads/"

  /** The text fields of the POST body; numbers arrive as text. */
  datatype BookingForm = BookingForm(
    fullName: string, email: string, phone: string, date: string,
    guests: string, tourId: string, totalPrice: string)

  /** A row of the booking table. `createdAt` is the store's timestamp. */
  datatype Booking = Booking(
    id: string, fullName: string, email: string, phone: string, date: string,
    guests: int, tourId: string, totalPrice: int, receiptImage: Option<string>,
    status: string, createdAt: int)

  /** A booking as GET returns it, joined with its tour's title. */
  datatype BookingView = BookingView(booking: Booking, tourTitle: Option<string>)

  function BookingId(b: Booking): string { b.id }

  /** The stored receipt path: under `/uploads/` when a file was uploaded. */
  function ReceiptImage(filename: Option<string>): (r: Option<string>)
    ensures r.Some? <==> filename.Some?
    ensures r.Some? ==> r.value != "" && UploadsPrefix <= r.value && r.value[|UploadsPrefix|..] == filename.value
  {
    match filename
    case None => None
    case Some(f) => Some(UploadsPrefix + f)
  }

  /** The row a POST writes, or `None` when `guests` or `totalPrice` is not a
      number (`NaN`), which the store rejects. The status is always pending,
      whatever else the body holds. */
  function NewBooking(form: BookingForm, filename: Option<string>, id: string, createdAt: int): (r: Option<Booking>)
    ensures r.Some? <==> JsStrings.ParseInt(form.guests).Some? && JsStrings.ParseFloat(form.totalPrice).Some?
    ensures r.Some? ==>
      r.value.status == Pending && r.value.receiptImage == ReceiptImage(filename) &&
      Some(r.value.guests) == JsStrings.ParseInt(form.guests) &&
      Some(r.value.totalPrice) == JsStrings.ParseFloat(form.totalPrice) &&
      r.value.id == id && r.value.createdAt == createdAt && r.value.tourId == form.tourId &&
      r.value.fullName == form.fullName && r.value.email == form.email &&
      r.value.phone == form.phone && r.value.date == form.date
  {
    match (JsStrings.ParseInt(form.guests), JsStrings.ParseFloat(form.totalPrice))
    case (Some(guests), Some(total)) =>
      Some(Booking(id, form.fullName, form.email, form.phone, form.date, guests, form.tourId,
                   total, ReceiptImage(filename), Pending, createdAt))
    case _ => None
  }

  /** `update({where: {id}, data: {status}})` on the rows: the status of the
      booking with that id becomes `status`; no transition is checked. */
  function SetStatus(rows: seq<Booking>, id: string, status: string): (r: seq<Booking>)
    ensures |r| == |rows|
    ensures forall i :: 0 <= i < |rows| && rows[i].id == id ==> r[i] == rows[i].(status := status)
    ensures forall i :: 0 <= i < |rows| && rows[i].id != id ==> r[i] == rows[i]
  {
    seq(|rows|, i requires 0 <= i < |rows| => if rows[i].id == id then rows[i].(status := status) else rows[i])
  }

  /** A status update changes no field but the status, of no booking but the target. */
  lemma SetStatusOnlyStatus(rows: seq<Booking>, id: string, status: string)
    ensures forall i :: 0 <= i < |rows| ==>
      SetStatus(rows, id, status)[i].(status := rows[i].status) == rows[i]
    ensures Tables.Keys(SetStatus(rows, id, status), BookingId) == Tables.Keys(rows, BookingId)
  {
    var r := SetStatus(rows, id, status);
    forall x | x in Tables.Keys(rows, BookingId) ensures x in Tables.Keys(r, BookingId) {
      var i :| 0 <= i < |rows| && rows[i].id == x;
      assert r[i].id == x;
    }
  }

  // ---- newest first ----

  predicate NewestFirst(vs: seq<BookingView>)
  {
    forall i, j :: 0 <= i < j < |vs| ==> vs[i].booking.createdAt >= vs[j].booking.createdAt
  }

  function InsertByDate(v: BookingView, vs: seq<BookingView>): (r: seq<BookingView>)
    requires NewestFirst(vs)
    ensures NewestFirst(r)
    ensures forall k :: 0 <= k < |r| ==> r[k] == v || r[k] in vs
    ensures multiset(r) == multiset(vs) + multiset{v}
  {
    if vs == [] then [v]
    else if v.booking.createdAt >= vs[0].booking.createdAt then [v] + vs
    else
      var rest := InsertByDate(v, vs[1..]);
      assert vs == [vs[0]] + vs[1..];
      assert forall k :: 0 <= k < |rest| ==> vs[0].booking.createdAt >= rest[k].booking.createdAt;
      [vs[0]] + rest
  }

  /** `orderBy: {createdAt: 'desc'}`: newest first, the same bookings. */
  function SortNewestFirst(vs: seq<BookingView>): (r: seq<BookingView>)
    ensures NewestFirst(r)
    ensures multiset(r) == multiset(vs)
  {
    if vs == [] then []
    else
      assert vs == [vs[0]] + vs[1..];
      InsertByDate(vs[0], SortNewestFirst(vs[1..]))
  }

  /** `include: {tour: {select: {title: true}}}`. */
  function WithTitle(b: Booking, titles: map<string, string>): BookingView
  {
    BookingView(b, if b.tourId in titles then Some(titles[b.tourId]) else None)
  }

  function WithTitles(rows: seq<Booking>, titles: map<string, string>): seq<BookingView>
  {
    seq(|rows|, i requires 0 <= i < |rows| => WithTitle(rows[i], titles))
  }

  /** The booking table (the Prisma `booking` model). */
  class BookingTable {
    var rows: seq<Booking>

    ghost predicate Valid()
      reads this
    {
      Tables.UniqueKeys(rows, BookingId)
    }

    constructor(initial: seq<Booking>)
      requires Tables.UniqueKeys(initial, BookingId)
      ensures Valid() && rows == initial
    {
      rows := initial;
    }

    /** GET `/`: every booking, newest first, each with its tour's title
        (`titles` maps each tour id to its title). */
    function List(titles: map<string, string>): (r: seq<BookingView>)
      reads this
      ensures NewestFirst(r)
      ensures multiset(r) == multiset(WithTitles(rows, titles))
    {
      SortNewestFirst(WithTitles(rows, titles))
    }

    /** POST `/`. The store picks `newId` and `createdAt`; `tourIds` are the
        ids of the tour table, which the booking's tour must reference. A
        failure anywhere gives the fixed 500 body and writes nothing. */
    method Create(form: BookingForm, filename: Option<string>, newId: string, createdAt: int, tourIds: set<string>)
      returns (r: Response<Booking>)
      requires Valid()
      modifies this
      ensures Valid()
      ensures r.Fail? ==> r == Fail(ServerError, CreateFailed) && rows == old(rows)
      ensures r.Ok? <==>
        NewBooking(form, filename, newId, createdAt).Some? &&
        newId !in Tables.Keys(old(rows), BookingId) && form.tourId in tourIds
      ensures r.Ok? ==>
        Some(r.body) == NewBooking(form, filename, newId, createdAt) && rows == old(rows) + [r.body]
    {
      var b := NewBooking(form, filename, newId, createdAt);
      if b.None? || newId in Tables.Keys(rows, BookingId) || form.tourId !in tourIds {
        return Fail(ServerError, CreateFailed);
      }
      Tables.KeysAppend(rows, BookingId, b.value);
      rows := rows + [b.value];
      r := Ok(b.value);
    }

    /** PATCH `/:id`: only that booking's status changes. */
    method UpdateStatus(id: string, status: string) returns (r: Response<Booking>)
      requires Valid()
      modifies this
      ensures Valid()
      ensures id !in Tables.Keys(old(rows), BookingId) ==>
        r == Fail(ServerError, UpdateFailed) && rows == old(rows)
      ensures id in Tables.Keys(old(rows), BookingId) ==>
        rows == SetStatus(old(rows), id, status) && r.Ok? && r.body.id == id && r.body.status == status
      ensures forall i :: 0 <= i < |old(rows)| && old(rows)[i].id == id ==>
        r == Ok(old(rows)[i].(status := status)) && r.body == rows[i]
    {
      var found := Tables.Find(rows, BookingId, id);
      if found.None? {
        return Fail(ServerError, UpdateFailed);
      }
      var i := found.value;
      SetStatusOnlyStatus(rows, id, status);
      rows := SetStatus(rows, id, status);
      r := Ok(rows[i]);
    }
  }
}
