/**
 * The reviews page of a hotel (src/pages/Reviews.tsx): three built-in reviews
 * and a form for a signed-in visitor to add one, which goes to the top of the
 * list. Nothing is sent to the backend.
 */
module Reviews {
  import opened Text

  datatype Review = Review(id: string, userName: string, rating: int, comment: string, date: string, helpful: nat)

  /** The reviews the page starts with. */
  const Seeded: seq<Review> := [
    Review("1", "Sarah M.", 5,
      "Absolutely amazing experience! The staff was incredibly welcoming and the location is perfect. The traditional coffee ceremony was a highlight of my stay.",
      "2024-01-15", 12),
    Review("2", "David K.", 4,
      "Great hotel with excellent amenities. The pool area is beautiful and the restaurant serves authentic Ethiopian cuisine. Room was clean and comfortable.",
      "2024-01-10", 8),
    Review("3", "Maria L.", 5,
      "Perfect location near Bole Airport. The shuttle service was punctual and the rooms are modern and spacious. Will definitely stay here again!",
      "2024-01-05", 15)
  ]

  /** Every listed review has one to five stars. */
  predicate WellRated(reviews: seq<Review>) {
    forall i :: 0 <= i < |reviews| ==> 1 <= reviews[i].rating <= 5
  }

  /** A review with one to five stars put in front of a well-rated list keeps it well rated. */
  lemma WellRatedCons(r: Review, reviews: seq<Review>)
    requires 1 <= r.rating <= 5 && WellRated(reviews)
    ensures WellRated([r] + reviews)
  {
    forall i | 1 <= i < |reviews| + 1
      ensures ([r] + reviews)[i] == reviews[i - 1]
    {
    }
  }

  /**
   * The review the form adds: its id is the clock's millisecond count as text,
   * its date the part of the ISO timestamp before `T`.
   */
  function NewReview(rating: int, comment: string, nowMs: nat, isoNow: string): (r: Review)
    ensures r.userName == "You" && r.helpful == 0
    ensures r.rating == rating && r.comment == comment
    ensures r.date <= isoNow && 'T' !in r.date
    ensures |r.date| < |isoNow| ==> isoNow[|r.date|] == 'T'
    ensures ParseInt(r.id) == Num(nowMs)
  {
    FirstPieceIsPrefix(isoNow, 'T');
    ParseIntToString(nowMs);
    Review(IntToString(nowMs), "You", rating, comment, FirstPiece(isoNow, 'T'), 0)
  }

  class ReviewsPage {
    var reviews: seq<Review>
    /** The form: a star rating (0 while none is picked) and a comment. */
    var newRating: int
    var newComment: string

    ghost predicate Valid()
      reads this
    {
      WellRated(reviews) && 0 <= newRating <= 5
    }

    constructor ()
      ensures Valid() && reviews == Seeded && newRating == 0 && newComment == ""
    {
      reviews := Seeded;
      newRating := 0;
      newComment := "";
    }

    /** The header's count, `reviews.length`. */
    function TotalReviews(): (n: nat)
      reads this
      ensures n == |reviews|
    {
      |reviews|
    }

    /** Clicking star `i` of the form's five picks the rating `i + 1`. */
    method ClickStar(i: nat)
      requires Valid() && i < 5
      modifies this`newRating
      ensures Valid() && newRating == i + 1
    {
      newRating := i + 1;
    }

    method EditComment(text: string)
      modifies this`newComment
      ensures newComment == text
    {
      newComment := text;
    }

    /**
     * `handleSubmitReview`: with a picked rating, a non-empty comment and a
     * signed-in visitor, the new review goes first and the form is cleared;
     * otherwise nothing changes.
     */
    method SubmitReview(signedIn: bool, nowMs: nat, isoNow: string) returns (added: bool)
      requires Valid()
      modifies this`reviews, this`newRating, this`newComment
      ensures Valid()
      ensures added <==> old(newRating) != 0 && old(newComment) != "" && signedIn
      ensures added ==> reviews == [NewReview(old(newRating), old(newComment), nowMs, isoNow)] + old(reviews)
      ensures added ==> newRating == 0 && newComment == ""
      ensures !added ==> reviews == old(reviews) && newRating == old(newRating) && newComment == old(newComment)
    {
      added := newRating != 0 && newComment != "" && signedIn;
      if added {
        var r := NewReview(newRating, newComment, nowMs, isoNow);
        WellRatedCons(r, reviews);
        reviews := [r] + reviews;
        newRating := 0;
        newComment := "";
      }
    }
  }

  /** A signed-in visitor who picks four stars and writes a comment sees the count go from 3 to 4, their review on top. */
  method FirstReviewScenario(comment: string, nowMs: nat, isoNow: string) returns (count: nat, top: Review)
    requires comment != ""
    ensures count == 4 && top.userName == "You" && top.rating == 4 && top.comment == comment
  {
    var page := new ReviewsPage();
    page.ClickStar(3);
    page.EditComment(comment);
    var added := page.SubmitReview(true, nowMs, isoNow);
    count := page.TotalReviews();
    top := page.reviews[0];
  }
}
