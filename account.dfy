/**
 * The account page (src/pages/Account.tsx): the signed-in user's bookings and
 * reviews, each joined with the hotel it refers to, and the status badge a
 * booking shows.
 */
module Account {
  import opened Lists
  import opened Text
  import opened Api
  import Session

  datatype Hotel = Hotel(id: int, name: string, location: string)
  datatype Booking = Booking(id: int, userId: int, hotelId: int, status: string, checkIn: string, checkOut: string)
  datatype Review = Review(id: int, userId: int, hotelId: int, rating: int, comment: string)

  /** A record with the hotel `find` found for it, if any. */
  datatype WithHotel<T> = WithHotel(item: T, hotel: Option<Hotel>)

  /**
   * `r` is what `hotels.find(h => h.id === id)` gives: nothing when no hotel
   * has the id, otherwise the first hotel that has it.
   */
  ghost predicate FirstWithId(hotels: seq<Hotel>, id: int, r: Option<Hotel>) {
    (r.None? <==> forall i :: 0 <= i < |hotels| ==> hotels[i].id != id) &&
    (r.Some? ==> exists k :: 0 <= k < |hotels| && hotels[k] == r.value && r.value.id == id &&
                             forall i :: 0 <= i < k ==> hotels[i].id != id)
  }

  /** `hotels.find(h => h.id === id)`: the first hotel with that id. */
  function HotelById(hotels: seq<Hotel>, id: int): (r: Option<Hotel>)
    ensures FirstWithId(hotels, id, r)
  {
    FindFirst(hotels, (h: Hotel) => h.id == id)
  }

  /** The user's bookings in their fetched order, each with its hotel. */
  function UserBookings(all: seq<Booking>, hotels: seq<Hotel>, userId: int): (r: seq<WithHotel<Booking>>)
    ensures |r| <= |all|
  {
    Map(Filter(all, (b: Booking) => b.userId == userId),
        (b: Booking) => WithHotel(b, HotelById(hotels, b.hotelId)))
  }

  /** The user's reviews in their fetched order, each with its hotel. */
  function UserReviews(all: seq<Review>, hotels: seq<Hotel>, userId: int): (r: seq<WithHotel<Review>>)
    ensures |r| <= |all|
  {
    Map(Filter(all, (v: Review) => v.userId == userId),
        (v: Review) => WithHotel(v, HotelById(hotels, v.hotelId)))
  }

  /**
   * The bookings list shows exactly the user's bookings, in order, and each one
   * carries the first hotel with its hotel id, or none when no hotel has it.
   */
  lemma UserBookingsShowOwnBookings(all: seq<Booking>, hotels: seq<Hotel>, userId: int)
    ensures Map(UserBookings(all, hotels, userId), (e: WithHotel<Booking>) => e.item)
            == Filter(all, (b: Booking) => b.userId == userId)
    ensures forall e :: e in UserBookings(all, hotels, userId) ==>
              e.item in all && e.item.userId == userId && FirstWithId(hotels, e.item.hotelId, e.hotel)
  {
    var mine := Filter(all, (b: Booking) => b.userId == userId);
    var join := (b: Booking) => WithHotel(b, HotelById(hotels, b.hotelId));
    MapThenItem(mine, join);
  }

  /**
   * The reviews list shows exactly the user's reviews, in order, and each one
   * carries the first hotel with its hotel id, or none when no hotel has it.
   */
  lemma UserReviewsShowOwnReviews(all: seq<Review>, hotels: seq<Hotel>, userId: int)
    ensures Map(UserReviews(all, hotels, userId), (e: WithHotel<Review>) => e.item)
            == Filter(all, (v: Review) => v.userId == userId)
    ensures forall e :: e in UserReviews(all, hotels, userId) ==>
              e.item in all && e.item.userId == userId && FirstWithId(hotels, e.item.hotelId, e.hotel)
  {
    var mine := Filter(all, (v: Review) => v.userId == userId);
    var join := (v: Review) => WithHotel(v, HotelById(hotels, v.hotelId));
    MapThenItem(mine, join);
  }

  /** Joining each record with a hotel and then dropping the hotel gives the records back. */
  lemma {:induction false} MapThenItem<T>(s: seq<T>, join: T -> WithHotel<T>)
    requires forall x :: join(x).item == x
    ensures Map(Map(s, join), (e: WithHotel<T>) => e.item) == s
  {
    if s != [] {
      MapThenItem(s[1..], join);
    }
  }

  /** `getStatusText`: the three known statuses capitalised, anything else as it is. */
  function StatusText(status: string): (r: string)
    ensures status !in {"confirmed", "completed", "cancelled"} ==> r == status
    ensures status in {"confirmed", "completed", "cancelled"} ==> r == Capitalise(status) && 'A' <= r[0] <= 'Z'
  {
    match status
    case "confirmed" => "Confirmed"
    case "completed" => "Completed"
    case "cancelled" => "Cancelled"
    case _ => status
  }

  datatype BadgeColor = Emerald | Blue | Red | Gray

  /** `getStatusColor`: the badge colours of the known statuses, gray for any other. */
  function StatusColor(status: string): (r: BadgeColor)
    ensures r == Gray <==> status !in {"confirmed", "completed", "cancelled"}
    ensures r == Emerald <==> status == "confirmed"
    ensures r == Blue <==> status == "completed"
  {
    match status
    case "confirmed" => Emerald
    case "completed" => Blue
    case "cancelled" => Red
    case _ => Gray
  }

  /**
   * The status is compared exactly: a capitalised `Confirmed` from the backend
   * reads the same as `confirmed` on the badge but gets the gray colour and no
   * cancel button.
   */
  lemma CapitalisedStatusLooksConfirmed()
    ensures StatusText("Confirmed") == StatusText("confirmed")
    ensures StatusColor("Confirmed") == Gray && StatusColor("confirmed") == Emerald
    ensures !CancelOffered(Booking(0, 0, 0, "Confirmed", "", ""))
  {
  }

  /** The status whose badge is followed by a cancel button. */
  predicate CancelOffered(b: Booking) {
    b.status == "confirmed"
  }

  /** The reference shown on a booking card: `ETH-` and the booking id. */
  function Reference(id: int): (r: string)
    ensures |r| > 4 && r[..4] == "ETH-"
  {
    "ETH-" + IntToString(id)
  }

  /** The booking id can be read back from its reference. */
  lemma ReferenceIdentifies(id: int)
    ensures ParseInt(Reference(id)[4..]) == Num(id)
    ensures forall other :: Reference(other) == Reference(id) ==> other == id
  {
    assert Reference(id)[4..] == IntToString(id);
    ParseIntToString(id);
    forall other | Reference(other) == Reference(id)
      ensures other == id
    {
      assert Reference(other)[4..] == IntToString(other);
      ParseIntToString(other);
    }
  }

  /** A card's title: the hotel's name, or `Hotel Name` when there is no hotel or its name is empty. */
  function HotelTitle(hotel: Option<Hotel>): (r: string)
    ensures r != ""
    ensures hotel.Some? && hotel.value.name != "" ==> r == hotel.value.name
    ensures !(hotel.Some? && hotel.value.name != "") ==> r == "Hotel Name"
  {
    if hotel.Some? && hotel.value.name != "" then hotel.value.name else "Hotel Name"
  }

  /** The five stars of a review; star `i` is filled when `i < rating`. */
  function Stars(rating: int): (r: seq<bool>)
    ensures |r| == 5
  {
    seq(5, i => i < rating)
  }

  function CountFilled(stars: seq<bool>): nat {
    if stars == [] then 0 else (if stars[0] then 1 else 0) + CountFilled(stars[1..])
  }

  function Clamp(x: int, hi: nat): (r: nat)
    ensures r <= hi
  {
    if x < 0 then 0 else if x > hi then hi else x
  }

  /** The number of filled stars is the rating clamped to 0..5. */
  lemma FilledStarsClamp(rating: int)
    ensures CountFilled(Stars(rating)) == Clamp(rating, 5)
  {
    assert Stars(rating) == seq(5, i => i + 0 < rating);
    FilledFrom(5, 0, rating);
  }

  lemma {:induction false} FilledFrom(k: nat, m: int, rating: int)
    ensures CountFilled(seq(k, i => i + m < rating)) == Clamp(rating - m, k)
  {
    if k > 0 {
      var s := seq(k, i => i + m < rating);
      assert s[1..] == seq(k - 1, i => i + (m + 1) < rating);
      FilledFrom(k - 1, m + 1, rating);
    }
  }

  /** The greeting: the user's name, or `Traveler` when there is none or it is empty. */
  function Greeting(user: Option<Session.User>): (r: string)
    ensures r != ""
    ensures user.Some? && user.value.name.Some? && user.value.name.value != "" ==> r == user.value.name.value
    ensures !(user.Some? && user.value.name.Some? && user.value.name.value != "") ==> r == "Traveler"
  {
    if user.Some? && user.value.name.Some? && user.value.name.value != "" then user.value.name.value
    else "Traveler"
  }

  datatype Tab = Bookings | Reviews | Profile

  class AccountPage {
    var activeTab: Tab
    var bookings: seq<WithHotel<Booking>>
    var reviews: seq<WithHotel<Review>>
    var loading: bool

    constructor ()
      ensures activeTab == Bookings && bookings == [] && reviews == [] && loading
    {
      activeTab := Bookings;
      bookings := [];
      reviews := [];
      loading := true;
    }

    /**
     * The load effect. Without a user it returns at once and loading stays on.
     * Otherwise bookings, hotels and reviews are fetched in that order; the
     * first failure stops the rest, and loading ends either way.
     */
    method Load(user: Option<Session.User>, bookingCall: Response<seq<Booking>>,
                hotelCall: Response<seq<Hotel>>, reviewCall: Response<seq<Review>>)
      modifies this`bookings, this`reviews, this`loading
      ensures user.None? ==> bookings == old(bookings) && reviews == old(reviews) && loading == old(loading)
      ensures user.Some? ==> !loading
      ensures user.Some? && bookingCall.Ok? && hotelCall.Ok? ==>
                bookings == UserBookings(bookingCall.payload, hotelCall.payload, user.value.id)
      ensures user.Some? && (bookingCall.Failed? || hotelCall.Failed?) ==>
                bookings == old(bookings) && reviews == old(reviews)
      ensures user.Some? && bookingCall.Ok? && hotelCall.Ok? ==>
                reviews == if reviewCall.Ok? then UserReviews(reviewCall.payload, hotelCall.payload, user.value.id)
                           else old(reviews)
    {
      if user.None? {
        return;
      }
      var uid := user.value.id;
      if bookingCall.Ok? && hotelCall.Ok? {
        bookings := UserBookings(bookingCall.payload, hotelCall.payload, uid);
        if reviewCall.Ok? {
          reviews := UserReviews(reviewCall.payload, hotelCall.payload, uid);
        }
      }
      loading := false;
    }

    method SelectTab(tab: Tab)
      modifies this`activeTab
      ensures activeTab == tab
    {
      activeTab := tab;
    }
  }
}
