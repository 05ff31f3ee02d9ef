/** The two-step checkout page: traveller details and guest count first, then
    the payment receipt; submitting sends the booking and, on success, moves
    on to the confirmation page. */
module Checkout {
  import opened Options
  import JsStrings
  import ToursRoute
  import BookingsRoute

  /** The chosen receipt file, known by its name. */
  datatype Receipt = Receipt(name: string)

  /** What `bookingService.create` is given. */
  datatype BookingRequest = BookingRequest(
    fullName: string, email: string, phone: string, date: string, guests: int,
    tourId: string, totalPrice: int, receipt: Option<Receipt>)

  /** What the confirmation page is given: no total price. */
  datatype BookingDetails = BookingDetails(
    tour: ToursRoute.Tour, date: string, guests: int, fullName: string, email: string, phone: string)

  /** The text inputs of the form. */
  datatype TextField = Date | FullName | Email | Phone

  /** The multipart body `bookingService.create` builds: every value is
      appended to a `FormData`, so the numbers travel as their decimal text. */
  function FormOf(req: BookingRequest): BookingsRoute.BookingForm
  {
    BookingsRoute.BookingForm(req.fullName, req.email, req.phone, req.date,
                              JsStrings.IntString(req.guests), req.tourId,
                              JsStrings.IntString(req.totalPrice))
  }

  /** The booking the server stores for a request is pending and carries the
      client's guest count and total unchanged through the text encoding. */
  lemma StoredBookingMatchesRequest(req: BookingRequest, filename: Option<string>, id: string, createdAt: int)
    ensures BookingsRoute.NewBooking(FormOf(req), filename, id, createdAt).Some?
    ensures var b := BookingsRoute.NewBooking(FormOf(req), filename, id, createdAt).value;
      b.guests == req.guests && b.totalPrice == req.totalPrice && b.tourId == req.tourId &&
      b.status == BookingsRoute.Pending && b.fullName == req.fullName && b.email == req.email &&
      b.phone == req.phone && b.date == req.date
  {
    JsStrings.ParseIntIntString(req.guests);
    JsStrings.ParseFloatIntString(req.totalPrice);
  }

  class CheckoutState {
    const tour: ToursRoute.Tour
    var step: int
    var guests: int
    var date: string
    var fullName: string
    var email: string
    var phone: string
    var receipt: Option<Receipt>
    var isProcessing: bool
    /** Whether the `required` file input of the step-2 form holds a file.
        The input is part of the step-2 form only: going back to step 1
        removes it, and step 2 renders a new, empty one, while `receipt`
        keeps the file chosen before. */
    var fileChosen: bool

    /** The four traveller inputs of step 1 carry `required`: the browser
        submits that form only when none of them is empty. */
    predicate DetailsComplete()
      reads this
    {
      date != "" && fullName != "" && email != "" && phone != ""
    }

    /** The page is on step 1 or 2, there is always at least one guest, and
        step 2 is only reached with every traveller detail filled in. A file
        is held by the file input only on step 2, and only after a change
        event that stored it as the receipt. */
    ghost predicate Valid()
      reads this
    {
      && (step == 1 || step == 2) && guests >= 1 && (step == 2 ==> DetailsComplete())
      && (fileChosen ==> step == 2 && receipt.Some?)
    }

    /** The amount shown and sent: the tour price for every guest. */
    function TotalPrice(): int
      reads this
    {
      tour.price * guests
    }

    /** The payment button is enabled only with a receipt and no payment running. */
    predicate SubmitEnabled()
      reads this
    {
      !isProcessing && receipt.Some?
    }

    constructor(tour: ToursRoute.Tour)
      ensures Valid() && this.tour == tour
      ensures step == 1 && guests == 2 && receipt.None? && !isProcessing && !fileChosen
      ensures date == "" && fullName == "" && email == "" && phone == ""
      ensures TotalPrice() == 2 * tour.price && !SubmitEnabled()
    {
      this.tour := tour;
      step, guests := 1, 2;
      date, fullName, email, phone := "", "", "", "";
      receipt := None;
      isProcessing := false;
      fileChosen := false;
    }

    /** "Proceed to Payment": the browser runs `handleNext` only when the
        required inputs are filled, and it advances while on step 1. */
    method HandleNext()
      requires Valid()
      modifies this
      ensures Valid()
      ensures step == (if old(step) == 1 && old(DetailsComplete()) then 2 else old(step))
      ensures date == old(date) && fullName == old(fullName) && email == old(email) && phone == old(phone)
      ensures guests == old(guests) && receipt == old(receipt) && isProcessing == old(isProcessing)
      ensures step == 2 && old(step) == 1 ==> !fileChosen
      ensures fileChosen == old(fileChosen)
    {
      if !DetailsComplete() {
        return;
      }
      if step < 2 {
        step := step + 1;
      }
    }

    /** "Go Back": back to step 1, keeping everything typed and the stored
        receipt; the step-2 file input, and the file it held, are gone. */
    method GoBack()
      requires Valid()
      modifies this
      ensures Valid() && step == 1 && !fileChosen
      ensures date == old(date) && fullName == old(fullName) && email == old(email) && phone == old(phone)
      ensures guests == old(guests) && receipt == old(receipt) && isProcessing == old(isProcessing)
    {
      step := 1;
      fileChosen := false;
    }

    /** The "-" button: one guest fewer, but never fewer than one. */
    method DecrementGuests()
      requires Valid()
      modifies this
      ensures Valid() && step == old(step)
      ensures old(guests) > 1 ==> guests == old(guests) - 1 && TotalPrice() == old(TotalPrice()) - tour.price
      ensures old(guests) == 1 ==> guests == 1
      ensures date == old(date) && fullName == old(fullName) && email == old(email) && phone == old(phone)
      ensures receipt == old(receipt) && isProcessing == old(isProcessing) && fileChosen == old(fileChosen)
    {
      guests := if 1 > guests - 1 then 1 else guests - 1;
    }

    /** The "+" button: one guest more, with no upper bound. */
    method IncrementGuests()
      requires Valid()
      modifies this
      ensures Valid() && step == old(step)
      ensures guests == old(guests) + 1 && TotalPrice() == old(TotalPrice()) + tour.price
      ensures date == old(date) && fullName == old(fullName) && email == old(email) && phone == old(phone)
      ensures receipt == old(receipt) && isProcessing == old(isProcessing) && fileChosen == old(fileChosen)
    {
      guests := guests + 1;
    }

    /** A change event on one traveller input; the inputs are rendered on the
        step-1 form only. */
    method SetText(field: TextField, value: string)
      requires Valid() && step == 1
      modifies this
      ensures Valid() && step == old(step) && guests == old(guests) && receipt == old(receipt)
      ensures isProcessing == old(isProcessing) && fileChosen == old(fileChosen)
      ensures date == (if field == Date then value else old(date))
      ensures fullName == (if field == FullName then value else old(fullName))
      ensures email == (if field == Email then value else old(email))
      ensures phone == (if field == Phone then value else old(phone))
    {
      match field
      case Date => date := value;
      case FullName => fullName := value;
      case Email => email := value;
      case Phone => phone := value;
    }

    /** A change event on the file input, which only the step-2 form has:
        the first chosen file, or none when the selection was emptied. */
    method SetReceipt(file: Option<Receipt>)
      requires Valid() && step == 2
      modifies this
      ensures Valid() && step == old(step) && guests == old(guests) && isProcessing == old(isProcessing)
      ensures date == old(date) && fullName == old(fullName) && email == old(email) && phone == old(phone)
      ensures receipt == file && fileChosen == file.Some?
      ensures SubmitEnabled() <==> !isProcessing && file.Some?
    {
      receipt := file;
      fileChosen := file.Some?;
    }

    /** The payment submit up to the request. The button is disabled while a
        payment runs or without a receipt, and the browser holds the form
        back while the `required` file input is empty, which it is after
        "Go Back" even though the receipt is kept and the button enabled;
        then nothing happens. Otherwise the payment is marked as running and
        the request carries what was typed and chosen. */
    method BeginPayment() returns (req: Option<BookingRequest>)
      requires Valid() && step == 2
      modifies this
      ensures Valid()
      ensures req.Some? <==> old(SubmitEnabled()) && old(fileChosen)
      ensures old(SubmitEnabled()) && !old(fileChosen) ==> req.None? && SubmitEnabled()
      ensures isProcessing == (old(isProcessing) || req.Some?)
      ensures req.Some? ==> !SubmitEnabled()
      ensures step == old(step) && guests == old(guests) && receipt == old(receipt) && fileChosen == old(fileChosen)
      ensures date == old(date) && fullName == old(fullName) && email == old(email) && phone == old(phone)
      ensures req.Some? ==>
        req.value == BookingRequest(old(fullName), old(email), old(phone), old(date), old(guests),
                                    tour.id, old(TotalPrice()), old(receipt))
      ensures req.Some? ==>
        req.value.fullName != "" && req.value.email != "" && req.value.phone != "" && req.value.date != "" &&
        req.value.guests >= 1 && req.value.totalPrice == tour.price * req.value.guests && req.value.receipt.Some?
    {
      if !SubmitEnabled() || !fileChosen {
        return None;
      }
      isProcessing := true;
      req := Some(BookingRequest(fullName, email, phone, date, guests, tour.id, TotalPrice(), receipt));
    }

    /** The rest of the payment once the request `sent` settles: on success
        the confirmation details, built from the values the submit captured;
        either way the payment is no longer running and the rest of the page
        is as it was. */
    method PaymentSettled(sent: BookingRequest, succeeded: bool) returns (details: Option<BookingDetails>)
      requires Valid()
      modifies this
      ensures Valid() && !isProcessing
      ensures step == old(step) && guests == old(guests) && receipt == old(receipt) && fileChosen == old(fileChosen)
      ensures date == old(date) && fullName == old(fullName) && email == old(email) && phone == old(phone)
      ensures details.Some? <==> succeeded
      ensures succeeded ==>
        details.value == BookingDetails(tour, sent.date, sent.guests, sent.fullName, sent.email, sent.phone)
    {
      if succeeded {
        details := Some(BookingDetails(tour, sent.date, sent.guests, sent.fullName, sent.email, sent.phone));
      } else {
        details := None;
      }
      isProcessing := false;
    }
  }
}
