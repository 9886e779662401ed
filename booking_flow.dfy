/**
 * The booking wizard (src/pages/BookingFlow.tsx): three steps (guest details,
 * payment, review), each forward move gated on its form fields, a night count
 * over the two dates, and a submit that always ends on the confirmation screen
 * once a user and a hotel are known.
 */
module BookingFlow {
  import opened Lists
  import opened Text
  import opened Api
  import Session

  /** Milliseconds in a day: `1000 * 60 * 60 * 24`. */
  const DayMs: nat := 1000 * 60 * 60 * 24

  function Abs(x: int): nat { if x < 0 then -x else x }

  /** `Math.ceil(a / d)` for a non-negative numerator: the least `n` with `a <= n * d`. */
  function CeilDiv(a: nat, d: nat): (n: nat)
    requires d > 0
  {
    (a + d - 1) / d
  }

  lemma CeilDivIsCeiling(a: nat, d: nat)
    requires d > 0
    ensures a <= CeilDiv(a, d) * d
    ensures CeilDiv(a, d) == 0 || (CeilDiv(a, d) - 1) * d < a
  {
    var q := (a + d - 1) / d;
    var r := (a + d - 1) % d;
    assert a + d - 1 == q * d + r;
    assert (q - 1) * d == q * d - d;
  }

  /**
   * `calculateNights`: no nights while either date field is empty; otherwise the
   * distance between the two dates rounded up to whole days. `dateOf` is the
   * browser's date parser, giving milliseconds since the epoch or nothing for
   * a text it cannot read; then the count is `NaN`, written `None`.
   */
  function Nights(checkIn: string, checkOut: string, dateOf: string -> Option<int>): (n: Option<nat>)
    ensures checkIn == "" || checkOut == "" ==> n == Some(0)
    ensures n.None? <==> checkIn != "" && checkOut != "" && (dateOf(checkIn).None? || dateOf(checkOut).None?)
  {
    if checkIn == "" || checkOut == "" then Some(0)
    else if dateOf(checkIn).None? || dateOf(checkOut).None? then None
    else Some(CeilDiv(Abs(dateOf(checkOut).value - dateOf(checkIn).value), DayMs))
  }

  /**
   * For two readable dates the night count is the least number of whole days
   * covering the stay; it does not depend on the order of the dates.
   */
  lemma NightsCoverStay(checkIn: string, checkOut: string, dateOf: string -> Option<int>)
    requires checkIn != "" && checkOut != "" && dateOf(checkIn).Some? && dateOf(checkOut).Some?
    ensures Nights(checkIn, checkOut, dateOf).Some?
    ensures var n := Nights(checkIn, checkOut, dateOf).value;
            var span := Abs(dateOf(checkOut).value - dateOf(checkIn).value);
            span <= n * DayMs && (n == 0 || (n - 1) * DayMs < span)
    ensures Nights(checkIn, checkOut, dateOf) == Nights(checkOut, checkIn, dateOf)
  {
    CeilDivIsCeiling(Abs(dateOf(checkOut).value - dateOf(checkIn).value), DayMs);
  }

  /** The form state of the page. */
  datatype BookingDetails = BookingDetails(
    hotelId: IntParse, checkIn: string, checkOut: string, guests: IntParse,
    guestName: string, guestEmail: string, guestPhone: string, specialRequests: string,
    paymentMethod: string, cardNumber: string, expiryDate: string, cvv: string)

  /** `searchParams.get(key) || fallback`: a missing or empty parameter gives the fallback. */
  function Param(params: map<string, string>, key: string, fallback: string): (v: string)
    ensures v == fallback || (key in params && v == params[key] && v != "")
  {
    if key in params && params[key] != "" then params[key] else fallback
  }

  /** The form's starting values, from the query string and the signed-in user. */
  function InitialDetails(params: map<string, string>, user: Option<Session.User>): BookingDetails
  {
    BookingDetails(
      ParseInt(Param(params, "hotel", "0")),
      Param(params, "checkIn", ""),
      Param(params, "checkOut", ""),
      ParseInt(Param(params, "guests", "1")),
      if user.Some? && user.value.name.Some? then user.value.name.value else "",
      if user.Some? then user.value.email else "",
      "", "", "card", "", "", "")
  }

  /** A query parameter that is present and non-empty. */
  predicate Given(params: map<string, string>, key: string) {
    key in params && params[key] != ""
  }

  /**
   * The form starts from the query: a given hotel id or guest count is parsed,
   * a missing one means hotel 0 and one guest, a missing date is empty. The
   * contact fields come from the signed-in user, the payment fields are blank
   * and the method is "card".
   */
  lemma InitialDetailsFromQuery(params: map<string, string>, user: Option<Session.User>)
    ensures var d := InitialDetails(params, user);
            d.hotelId == (if Given(params, "hotel") then ParseInt(params["hotel"]) else Num(0)) &&
            d.guests == (if Given(params, "guests") then ParseInt(params["guests"]) else Num(1)) &&
            d.checkIn == (if Given(params, "checkIn") then params["checkIn"] else "") &&
            d.checkOut == (if Given(params, "checkOut") then params["checkOut"] else "")
    ensures var d := InitialDetails(params, user);
            (user.None? ==> d.guestName == "" && d.guestEmail == "") &&
            (user.Some? ==> d.guestEmail == user.value.email &&
                            d.guestName == if user.value.name.Some? then user.value.name.value else "") &&
            d.guestPhone == "" && d.cardNumber == "" && d.expiryDate == "" && d.cvv == "" &&
            d.paymentMethod == "card"
  {
    assert IntToString(0) == "0" && IntToString(1) == "1";
    ParseIntToString(0);
    ParseIntToString(1);
  }

  /** Step 1's "Continue to Payment" is enabled. */
  predicate GuestDetailsComplete(d: BookingDetails) {
    d.guestName != "" && d.guestEmail != "" && d.guestPhone != ""
  }

  /** Step 2's "Review Booking" is enabled. */
  predicate PaymentDetailsComplete(d: BookingDetails) {
    d.cardNumber != "" && d.expiryDate != "" && d.cvv != ""
  }

  datatype Hotel = Hotel(id: int, name: string, location: string, price: int, image: string)

  /** The record sent to the create-booking endpoint. */
  datatype BookingPayload = BookingPayload(
    checkInDate: string, checkOutDate: string, numberOfGuests: IntParse,
    status: string, specialRequests: string, userId: int, hotelId: int, roomTypeId: int)

  function MakePayload(d: BookingDetails, user: Session.User, hotel: Hotel): (p: BookingPayload)
    ensures p.checkInDate == d.checkIn && p.checkOutDate == d.checkOut
    ensures p.numberOfGuests == d.guests && p.specialRequests == d.specialRequests
    ensures p.status == "confirmed" && p.roomTypeId == 1
    ensures p.userId == user.id && p.hotelId == hotel.id
  {
    BookingPayload(d.checkIn, d.checkOut, d.guests, "confirmed", d.specialRequests, user.id, hotel.id, 1)
  }

  /** How the create call ends: a truthy response, a falsy one, or a thrown error. */
  datatype CreateOutcome = Truthy | Falsy | Threw

  /** A reference code: what `toString(36).substring(2, 8).toUpperCase()` leaves, at most six of 0-9 and A-Z. */
  predicate IsReferenceCode(code: string) {
    |code| <= 6 && forall i :: 0 <= i < |code| ==> IsDigit(code[i]) || 'A' <= code[i] <= 'Z'
  }

  /** `hotelId` is truthy: a number other than 0 (`NaN` and 0 are falsy). */
  predicate HasHotelId(id: IntParse) {
    id.Num? && id.n != 0
  }

  class BookingPage {
    var step: int
    var loading: bool
    var bookingConfirmed: bool
    var bookingReference: string
    var hotel: Option<Hotel>
    var details: BookingDetails
    /** Every payload handed to the create-booking endpoint, in order. */
    var submitted: seq<BookingPayload>

    ghost predicate Valid()
      reads this`step
    {
      1 <= step <= 3
    }

    constructor (params: map<string, string>, user: Option<Session.User>)
      ensures Valid() && step == 1
      ensures !loading && !bookingConfirmed && bookingReference == ""
      ensures hotel == None && submitted == []
      ensures details == InitialDetails(params, user)
    {
      var d := InitialDetails(params, user);
      step := 1;
      loading := false;
      bookingConfirmed := false;
      bookingReference := "";
      hotel := None;
      details := d;
      submitted := [];
    }

    /** The hotel lookup effect: only for a truthy hotel id; a failure is logged and ignored. */
    method LoadHotel(result: Response<Hotel>)
      modifies this`hotel
      ensures hotel == if HasHotelId(details.hotelId) && result.Ok? then Some(result.payload) else old(hotel)
    {
      if HasHotelId(details.hotelId) && result.Ok? {
        hotel := Some(result.payload);
      }
    }

    /** `handleInputChange`: the form takes the edited values. */
    method EditDetails(d: BookingDetails)
      modifies this`details
      ensures details == d
    {
      details := d;
    }

    /** "Continue to Payment", shown on step 1. */
    method ContinueToPayment()
      requires Valid() && step == 1
      modifies this`step
      ensures Valid()
      ensures step == if GuestDetailsComplete(details) then 2 else 1
    {
      if GuestDetailsComplete(details) {
        step := 2;
      }
    }

    /** "Review Booking", shown on step 2. */
    method ReviewBooking()
      requires Valid() && step == 2
      modifies this`step
      ensures Valid()
      ensures step == if PaymentDetailsComplete(details) then 3 else 2
    {
      if PaymentDetailsComplete(details) {
        step := 3;
      }
    }

    /** "Back", shown on steps 2 and 3. */
    method Back()
      requires Valid() && step >= 2
      modifies this`step
      ensures Valid() && step == old(step) - 1
    {
      step := step - 1;
    }

    /**
     * "Confirm Booking" on step 3 (disabled while loading). Without a user or a
     * hotel nothing happens. Otherwise the payload is sent, the booking is shown
     * as confirmed unless the call returned a falsy value (a thrown error
     * included), and loading ends false.
     */
    method SubmitBooking(user: Option<Session.User>, outcome: CreateOutcome, code: string)
      requires Valid() && step == 3 && !loading
      requires IsReferenceCode(code)
      modifies this`loading, this`bookingConfirmed, this`bookingReference, this`submitted
      ensures !loading
      ensures user.None? || hotel.None? ==>
                bookingConfirmed == old(bookingConfirmed) && bookingReference == old(bookingReference) &&
                submitted == old(submitted)
      ensures user.Some? && hotel.Some? ==>
                submitted == old(submitted) + [MakePayload(details, user.value, hotel.value)]
      ensures user.Some? && hotel.Some? && outcome != Falsy ==>
                bookingConfirmed && bookingReference == "ETH-" + code
      ensures user.Some? && hotel.Some? && outcome == Falsy ==>
                bookingConfirmed == old(bookingConfirmed) && bookingReference == old(bookingReference)
    {
      if user.None? || hotel.None? {
        return;
      }
      loading := true;
      submitted := submitted + [MakePayload(details, user.value, hotel.value)];
      match outcome {
        case Truthy =>
          bookingReference := "ETH-" + code;
          bookingConfirmed := true;
        case Falsy =>
        case Threw =>
          // the source shows success on a failed call as well
          bookingReference := "ETH-" + code;
          bookingConfirmed := true;
      }
      loading := false;
    }
  }

  /** The wizard walked from start to finish: every forward step taken needs its fields filled. */
  method WalkThrough(page: BookingPage)
    requires page.Valid() && page.step == 1
    modifies page`step
    ensures page.Valid()
    ensures page.step == 3 <==> GuestDetailsComplete(page.details) && PaymentDetailsComplete(page.details)
  {
    page.ContinueToPayment();
    if page.step == 2 {
      page.ReviewBooking();
    }
  }
}
