/**
 * The hotel page (src/pages/HotelDetail.tsx): a load that fills the hotel, a
 * four-picture gallery, the amenity names and this hotel's reviews, falling
 * back to a placeholder hotel when any call fails; and a carousel index that
 * wraps around in both directions.
 */
module HotelDetail {
  import opened Lists
  import opened Text
  import opened Api
  import BookingFlow
  import Session

  // ---------------------------------------------------------------------------
  // The carousel

  /**
   * `nextImage`: `(i + 1) % n`, one picture forward, wrapping from the last to
   * the first. For an index in range the remainder only ever subtracts `n`
   * from `n` itself, which the conditional spells out.
   */
  function NextIndex(i: int, n: int): (r: int)
    requires 0 <= i < n
    ensures 0 <= r < n
    ensures r == 0 <==> i == n - 1
  {
    if i + 1 < n then i + 1 else 0
  }

  /**
   * `prevImage`: `(i - 1 + n) % n`, one picture back, wrapping from the first
   * to the last. For an index in range `i - 1 + n` lies in `n - 1 .. 2n - 2`,
   * so the remainder subtracts `n` except from `n - 1`.
   */
  function PrevIndex(i: int, n: int): (r: int)
    requires 0 <= i < n
    ensures 0 <= r < n
    ensures NextIndex(r, n) == i
  {
    if i > 0 then i - 1 else n - 1
  }

  /** Forward then back returns to the same picture. */
  lemma NextPrevInverse(i: int, n: int)
    requires 0 <= i < n
    ensures PrevIndex(NextIndex(i, n), n) == i
  {
  }

  /** `k` presses of "next". */
  function Advance(i: int, n: int, k: nat): (r: int)
    requires n > 0 && 0 <= i < n
    ensures 0 <= r < n
  {
    if k == 0 then i else NextIndex(Advance(i, n, k - 1), n)
  }

  /** `a` presses and then `b` more are `a + b` presses. */
  lemma {:induction false} AdvanceAdd(i: int, n: int, a: nat, b: nat)
    requires n > 0 && 0 <= i < n
    ensures Advance(i, n, a + b) == Advance(Advance(i, n, a), n, b)
  {
    if b > 0 {
      AdvanceAdd(i, n, a, b - 1);
    }
  }

  /** Before the end of the gallery, each press moves one picture on. */
  lemma {:induction false} AdvanceWithin(i: int, n: int, k: nat)
    requires n > 0 && 0 <= i && i + k < n
    ensures Advance(i, n, k) == i + k
  {
    if k > 0 {
      AdvanceWithin(i, n, k - 1);
    }
  }

  /** Going round the whole gallery returns to the starting picture. */
  lemma FullCircle(i: int, n: int)
    requires n > 0 && 0 <= i < n
    ensures Advance(i, n, n) == i
  {
    AdvanceWithin(i, n, n - 1 - i);
    AdvanceAdd(i, n, n - 1 - i, 1 + i);
    AdvanceAdd(n - 1, n, 1, i);
    AdvanceWithin(0, n, i);
  }

  /**
   * The index state: a position, or `NaN` once "next" or "previous" is pressed
   * on an empty gallery (`x % 0` is `NaN` in JavaScript, and stays `NaN`).
   */
  datatype ImageIndex = At(i: nat) | NaN

  // ---------------------------------------------------------------------------
  // Loading

  /** What the page shows for a hotel; the placeholder keeps the route id, parsed or not. */
  datatype Hotel = Hotel(
    id: IntParse, name: string, location: string, city: string,
    rating: int, price: int, image: string, description: string)

  datatype Amenity = Amenity(name: string)
  datatype Review = Review(hotelId: int, rating: int, comment: string)

  const PlaceholderImage: string :=
    "https://images.pexels.com/photos/258154/pexels-photo-258154.jpeg?auto=compress&cs=tinysrgb&w=1200"

  /** The hotel shown when loading fails. */
  function Placeholder(id: IntParse): (h: Hotel)
    ensures h.id == id && h.rating == 0 && h.price == 0
  {
    Hotel(id, "Hotel Loading...", "Location", "City", 0, 0, PlaceholderImage, "Loading hotel details...")
  }

  /**
   * What the page holds for its hotel: the fetched record, or the fallback for
   * the route id. The fallback is kept as a tag; `Display` gives its fields.
   */
  datatype HotelView = Fetched(hotel: Hotel) | Fallback(id: IntParse)

  /** The record the page renders. */
  function Display(v: HotelView): (h: Hotel)
    ensures v.Fetched? ==> h == v.hotel
    ensures v.Fallback? ==> h == Placeholder(v.id)
  {
    match v
    case Fetched(h) => h
    case Fallback(id) => Placeholder(id)
  }

  /** The amenity list's names, in the order received. */
  function AmenityNames(list: seq<Amenity>): (names: seq<string>)
    ensures |names| == |list| && forall i :: 0 <= i < |list| ==> names[i] == list[i].name
  {
    Map(list, (a: Amenity) => a.name)
  }

  /** The reviews whose `hotel_id` is strictly equal to the parsed route id (nothing equals `NaN`). */
  function ReviewsFor(reviews: seq<Review>, hotelId: IntParse): (r: seq<Review>)
    ensures forall x :: x in r <==> x in reviews && hotelId.Num? && x.hotelId == hotelId.n
    ensures IsSubsequence(r, reviews)
  {
    FilterIsSubsequence(reviews, (x: Review) => hotelId.Num? && x.hotelId == hotelId.n);
    Filter(reviews, (x: Review) => hotelId.Num? && x.hotelId == hotelId.n)
  }


  // ---------------------------------------------------------------------------
  // Amenities, guests and the booking link

  datatype AmenityIcon = WifiIcon | PoolIcon | RestaurantIcon | ShuttleIcon | PlainDot

  /** `getAmenityIcon`: the first of four case-sensitive keywords the name contains picks the icon. */
  function IconFor(amenity: string): (r: AmenityIcon)
    ensures r == WifiIcon <==> Contains(amenity, "WiFi")
    ensures r == PoolIcon <==> !Contains(amenity, "WiFi") && Contains(amenity, "Pool")
    ensures r == RestaurantIcon <==>
              !Contains(amenity, "WiFi") && !Contains(amenity, "Pool") && Contains(amenity, "Restaurant")
    ensures r == PlainDot <==>
              !Contains(amenity, "WiFi") && !Contains(amenity, "Pool") &&
              !Contains(amenity, "Restaurant") && !Contains(amenity, "Shuttle")
  {
    if Contains(amenity, "WiFi") then WifiIcon
    else if Contains(amenity, "Pool") then PoolIcon
    else if Contains(amenity, "Restaurant") then RestaurantIcon
    else if Contains(amenity, "Shuttle") then ShuttleIcon
    else PlainDot
  }

  /** The amenity grid lists at most the first eight names. */
  function ShownAmenities(amenities: seq<string>): (r: seq<string>)
    ensures |r| <= 8 && r <= amenities
    ensures |amenities| <= 8 ==> r == amenities
  {
    if |amenities| <= 8 then amenities else amenities[..8]
  }

  /** How a number is written into the link: its decimal text, or `NaN`. */
  function IdText(x: IntParse): (r: string)
    ensures r != ""
  {
    match x
    case Num(n) => IntToString(n)
    case NaN => "NaN"
  }

  lemma ParseIdText(x: IntParse)
    ensures ParseInt(IdText(x)) == x
  {
    match x
    case Num(n) =>
      ParseIntToString(n);
    case NaN =>
      var t := "NaN";
      assert !IsSpace(t[0]) && !IsDigit(t[0]);
      assert TrimStart(t) == t;
      assert SignStripped(t) == t;
  }

  /** The query string of the "Book Now" link, `hotel`, `checkIn`, `checkOut` and `guests`. */
  function BookingQuery(hotelId: IntParse, checkIn: string, checkOut: string, guests: IntParse): (q: map<string, string>)
    ensures q.Keys == {"hotel", "checkIn", "checkOut", "guests"}
  {
    map["hotel" := IdText(hotelId), "checkIn" := checkIn, "checkOut" := checkOut, "guests" := IdText(guests)]
  }

  /**
   * "Book Now" hands the booking wizard what was chosen here: its form starts
   * with this hotel's id, the two dates and the guest count.
   */
  lemma BookNowCarriesSelection(hotelId: IntParse, checkIn: string, checkOut: string, guests: IntParse,
                                user: Option<Session.User>)
    ensures var d := BookingFlow.InitialDetails(BookingQuery(hotelId, checkIn, checkOut, guests), user);
            d.hotelId == hotelId && d.guests == guests && d.checkIn == checkIn && d.checkOut == checkOut
  {
    var q := BookingQuery(hotelId, checkIn, checkOut, guests);
    assert |"hotel"| == 5 && |"checkIn"| == 7 && |"checkOut"| == 8 && |"guests"| == 6;
    assert q["hotel"] == IdText(hotelId) && q["guests"] == IdText(guests);
    assert q["checkIn"] == checkIn && q["checkOut"] == checkOut;
    ParseIdText(hotelId);
    ParseIdText(guests);
    BookingFlow.InitialDetailsFromQuery(q, user);
  }

  class DetailPage {
    var hotel: Option<HotelView>
    var images: seq<string>
    var amenities: seq<string>
    var reviews: seq<Review>
    var index: ImageIndex
    var checkIn: string
    var checkOut: string
    var guests: IntParse

    /** The gallery is empty or holds four pictures; the index is in range or still the initial 0. */
    ghost predicate Valid()
      reads this`images, this`index
    {
      (|images| == 0 || |images| == 4) &&
      (index.At? ==> index.i < |images| || index.i == 0)
    }

    constructor ()
      ensures Valid()
      ensures hotel == None && images == [] && amenities == [] && reviews == [] && index == At(0)
      ensures checkIn == "" && checkOut == "" && guests == Num(1)
    {
      hotel := None;
      images := [];
      amenities := [];
      reviews := [];
      index := At(0);
      checkIn, checkOut := "", "";
      guests := Num(1);
    }

    /**
     * The load effect for the route id `routeId`. The calls run in order; the
     * first failure switches to the placeholder hotel with no amenities and no
     * reviews, keeping whatever pictures were already set.
     */
    method Load(routeId: string, hotelCall: Response<Hotel>, amenityCall: Response<seq<Amenity>>,
                reviewCall: Response<seq<Review>>)
      requires Valid()
      modifies this`hotel, this`images, this`amenities, this`reviews
      ensures Valid() && index == old(index)
      ensures routeId == "" ==>
                hotel == old(hotel) && images == old(images) && amenities == old(amenities) && reviews == old(reviews)
      ensures routeId != "" && hotelCall.Ok? && amenityCall.Ok? && reviewCall.Ok? ==>
                hotel == Some(Fetched(hotelCall.payload)) &&
                images == [hotelCall.payload.image, hotelCall.payload.image, hotelCall.payload.image, hotelCall.payload.image] &&
                amenities == AmenityNames(amenityCall.payload) &&
                reviews == ReviewsFor(reviewCall.payload, ParseInt(routeId))
      ensures routeId != "" && !(hotelCall.Ok? && amenityCall.Ok? && reviewCall.Ok?) ==>
                hotel == Some(Fallback(ParseInt(routeId))) && amenities == [] && reviews == []
      ensures routeId != "" && hotelCall.Failed? ==> images == old(images)
      ensures routeId != "" && hotelCall.Ok? ==>
                images == [hotelCall.payload.image, hotelCall.payload.image, hotelCall.payload.image, hotelCall.payload.image]
    {
      if routeId != "" {
        LoadFor(ParseInt(routeId), hotelCall, amenityCall, reviewCall);
      }
    }

    /** The three calls for a route id, once it is parsed. */
    method LoadFor(hotelId: IntParse, hotelCall: Response<Hotel>, amenityCall: Response<seq<Amenity>>,
                   reviewCall: Response<seq<Review>>)
      requires Valid()
      modifies this`hotel, this`images, this`amenities, this`reviews
      ensures Valid()
      ensures hotelCall.Ok? && amenityCall.Ok? && reviewCall.Ok? ==>
                hotel == Some(Fetched(hotelCall.payload)) &&
                images == [hotelCall.payload.image, hotelCall.payload.image, hotelCall.payload.image, hotelCall.payload.image] &&
                amenities == AmenityNames(amenityCall.payload) &&
                reviews == ReviewsFor(reviewCall.payload, hotelId)
      ensures !(hotelCall.Ok? && amenityCall.Ok? && reviewCall.Ok?) ==>
                hotel == Some(Fallback(hotelId)) && amenities == [] && reviews == []
      ensures hotelCall.Failed? ==> images == old(images)
      ensures hotelCall.Ok? ==>
                images == [hotelCall.payload.image, hotelCall.payload.image, hotelCall.payload.image, hotelCall.payload.image]
    {
      if hotelCall.Failed? {
        FallBack(hotelId);
        return;
      }
      ShowHotel(hotelCall.payload);
      if amenityCall.Failed? {
        FallBack(hotelId);
        return;
      }
      amenities := AmenityNames(amenityCall.payload);
      if reviewCall.Failed? {
        FallBack(hotelId);
        return;
      }
      reviews := ReviewsFor(reviewCall.payload, hotelId);
    }

    /** The hotel arrived: it is shown, and the gallery holds its picture four times. */
    method ShowHotel(h: Hotel)
      requires Valid()
      modifies this`hotel, this`images
      ensures Valid()
      ensures hotel == Some(Fetched(h)) && images == [h.image, h.image, h.image, h.image]
    {
      hotel := Some(Fetched(h));
      images := [h.image, h.image, h.image, h.image];
    }

    /** The `catch` branch of the load. */
    method FallBack(hotelId: IntParse)
      modifies this`hotel, this`amenities, this`reviews
      ensures hotel == Some(Fallback(hotelId)) && amenities == [] && reviews == []
    {
      hotel := Some(Fallback(hotelId));
      amenities := [];
      reviews := [];
    }

    method NextImage()
      requires Valid()
      modifies this`index
      ensures Valid()
      ensures index == if old(index).NaN? || |images| == 0 then ImageIndex.NaN else At(NextIndex(old(index).i, |images|))
    {
      if index.NaN? || |images| == 0 {
        index := ImageIndex.NaN;
      } else {
        index := At(NextIndex(index.i, |images|));
      }
    }

    method PrevImage()
      requires Valid()
      modifies this`index
      ensures Valid()
      ensures old(index).At? && |images| > 0 ==> index == At(PrevIndex(old(index).i, |images|))
      ensures old(index).NaN? || |images| == 0 ==> index == ImageIndex.NaN
    {
      if index.NaN? || |images| == 0 {
        index := ImageIndex.NaN;
      } else {
        index := At(PrevIndex(index.i, |images|));
      }
    }

    /** The guests selector offers 1 to 6; the chosen option's text is read back with `parseInt`. */
    method SelectGuests(choice: nat)
      requires 1 <= choice <= 6
      modifies this`guests
      ensures guests == Num(choice)
    {
      ParseIntToString(choice);
      guests := ParseInt(IntToString(choice));
    }

    method SetDates(newCheckIn: string, newCheckOut: string)
      modifies this`checkIn, this`checkOut
      ensures checkIn == newCheckIn && checkOut == newCheckOut
    {
      checkIn, checkOut := newCheckIn, newCheckOut;
    }

    /** A thumbnail click. */
    method SelectImage(k: nat)
      requires Valid() && k < |images|
      modifies this`index
      ensures Valid() && index == At(k)
    {
      index := At(k);
    }
  }

  /**
   * When the hotel lookup itself fails the gallery stays empty, so the first
   * press of "next" turns the index into `NaN`.
   */
  method FailedLoadBreaksCarousel(routeId: string) returns (shown: Option<HotelView>, index: ImageIndex)
    requires routeId != ""
    ensures shown == Some(Fallback(ParseInt(routeId))) && index == ImageIndex.NaN
  {
    var page := new DetailPage();
    page.Load(routeId, Failed, Failed, Failed);
    page.NextImage();
    shown, index := page.hotel, page.index;
  }
}
