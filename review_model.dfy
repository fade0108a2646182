/** models/Review.js: the Review schema, the unique (event, user) index, and the
    average-rating aggregate that the post('save') and post('remove') hooks
    write onto the reviewed event. */
module ReviewModel {
  import opened Common
  import opened Text
  import opened EventModel

  const TitleMaxLength := 100

  /** A stored review. */
  datatype Review = Review(
    title: string, comment: string, rating: real, createdAt: int, event: Id, user: Id)

  /** The schema paths a request body may carry. */
  datatype ReviewFields = ReviewFields(
    title: Option<string>, comment: Option<string>, rating: Option<real>,
    event: Option<Id>, user: Option<Id>)

  predicate ReviewTitleOk(t: string) {
    var x := Trim(t);
    x != [] && Utf16Length(x) <= TitleMaxLength
  }

  predicate ReviewTitlePathOk(b: ReviewFields) {
    b.title.Some? && ReviewTitleOk(b.title.value)
  }

  predicate CommentPathOk(b: ReviewFields) {
    b.comment.Some? && b.comment.value != []
  }

  predicate RatingPathOk(b: ReviewFields) {
    b.rating.Some? && InRatingRange(b.rating.value)
  }

  /** Every validator of ReviewSchema holds on a new document. */
  predicate ReviewConforms(b: ReviewFields) {
    ReviewTitlePathOk(b) && CommentPathOk(b) && RatingPathOk(b) && b.event.Some? && b.user.Some?
  }

  /** The paths a ValidationError names, in schema order. */
  function ReviewViolations(b: ReviewFields): (errs: seq<string>)
    ensures errs == [] <==> ReviewConforms(b)
  {
    (if ReviewTitlePathOk(b) then [] else ["title"])
    + (if CommentPathOk(b) then [] else ["comment"])
    + (if RatingPathOk(b) then [] else ["rating"])
    + (if b.event.Some? then [] else ["event"])
    + (if b.user.Some? then [] else ["user"])
  }

  /** What every stored review satisfies. */
  predicate ReviewOk(r: Review) {
    r.title != [] && Utf16Length(r.title) <= TitleMaxLength && Trimmed(r.title) && r.comment != [] && InRatingRange(r.rating)
  }

  /** `Review.create(body)` on a body that passes validation. */
  function NewReview(b: ReviewFields, now: int): (r: Review)
    requires ReviewConforms(b)
    ensures ReviewOk(r)
    ensures r.event == b.event.value && r.user == b.user.value && r.rating == b.rating.value
  {
    Review(Trim(b.title.value), b.comment.value, b.rating.value, now, b.event.value, b.user.value)
  }

  /** The unique index { event: 1, user: 1 }: no two reviews share the pair. */
  predicate UniquePairs(reviews: map<Id, Review>) {
    forall j, k :: j in reviews && k in reviews && j != k ==>
      (reviews[j].event, reviews[j].user) != (reviews[k].event, reviews[k].user)
  }

  /** Some review already holds the pair. */
  predicate PairTaken(reviews: map<Id, Review>, event: Id, user: Id) {
    exists k :: k in reviews && reviews[k].event == event && reviews[k].user == user
  }

  /** Adding a review keeps the index satisfied exactly when its pair is free. */
  lemma InsertKeepsUniquePairs(reviews: map<Id, Review>, id: Id, r: Review)
    requires UniquePairs(reviews) && id !in reviews
    ensures UniquePairs(reviews[id := r]) <==> !PairTaken(reviews, r.event, r.user)
  {
    var m := reviews[id := r];
    if PairTaken(reviews, r.event, r.user) {
      var k :| k in reviews && reviews[k].event == r.event && reviews[k].user == r.user;
      assert k != id && m[k] == reviews[k] && m[id] == r;
    }
  }

  /** Under the pair index each user contributes at most one rating to an
      event's average. */
  lemma OneRatingPerUser(reviews: map<Id, Review>, e: Id)
    requires UniquePairs(reviews)
    ensures forall j, k ::
      (j in ReviewsOf(reviews, e) && k in ReviewsOf(reviews, e) && reviews[j].user == reviews[k].user) ==> j == k
  {
  }

  /** The reviews collection: every record well formed, the pair index satisfied. */
  predicate ReviewsOk(reviews: map<Id, Review>) {
    (forall k :: k in reviews ==> ReviewOk(reviews[k])) && UniquePairs(reviews)
  }

  /** `{ $match: { event: eventId } }`: the reviews of one event. */
  function ReviewsOf(reviews: map<Id, Review>, e: Id): map<Id, Review> {
    map k | k in reviews && reviews[k].event == e :: reviews[k]
  }

  /** The matched reviews are exactly those of the event, unchanged. */
  lemma ReviewsOfMatches(reviews: map<Id, Review>, e: Id)
    ensures forall k :: k in ReviewsOf(reviews, e) <==> k in reviews && reviews[k].event == e
    ensures forall k :: k in ReviewsOf(reviews, e) ==> ReviewsOf(reviews, e)[k] == reviews[k]
  {
  }

  /** The sum of the ratings of a set of reviews. */
  ghost function RatingTotal(rs: map<Id, Review>): real
    decreases |rs|
  {
    if rs == map[] then 0.0
    else
      var k :| k in rs;
      assert |rs - {k}| < |rs| by {
        assert (rs - {k}).Keys == rs.Keys - {k};
      }
      rs[k].rating + RatingTotal(rs - {k})
  }

  /** The total does not depend on which review is taken out first. */
  lemma {:induction false} RatingTotalRemove(rs: map<Id, Review>, k: Id)
    requires k in rs
    ensures RatingTotal(rs) == rs[k].rating + RatingTotal(rs - {k})
    decreases |rs|
  {
    var j :| j in rs && RatingTotal(rs) == rs[j].rating + RatingTotal(rs - {j});
    if j != k {
      assert (rs - {j}).Keys == rs.Keys - {j};
      assert (rs - {k}).Keys == rs.Keys - {k};
      RatingTotalRemove(rs - {j}, k);
      RatingTotalRemove(rs - {k}, j);
      assert rs - {j} - {k} == rs - {k} - {j};
    }
  }

  /** Adding one more review adds its rating to the total. */
  lemma RatingTotalInsert(rs: map<Id, Review>, k: Id, r: Review)
    requires k !in rs
    ensures RatingTotal(rs[k := r]) == r.rating + RatingTotal(rs)
  {
    RatingTotalRemove(rs[k := r], k);
    assert rs[k := r] - {k} == rs;
  }

  /** Ratings in [1, 10] add up to between 1 and 10 times their number. */
  lemma {:induction false} RatingTotalBounds(rs: map<Id, Review>)
    requires forall k :: k in rs ==> InRatingRange(rs[k].rating)
    ensures |rs| as real * RatingMin <= RatingTotal(rs) <= |rs| as real * RatingMax
    decreases |rs|
  {
    if rs != map[] {
      var k :| k in rs;
      RatingTotalRemove(rs, k);
      assert (rs - {k}).Keys == rs.Keys - {k};
      RatingTotalBounds(rs - {k});
    }
  }

  /** `$avg: '$rating'` over a non-empty group. */
  ghost function Mean(rs: map<Id, Review>): (m: real)
    requires rs != map[]
    ensures m * (|rs| as real) == RatingTotal(rs)
  {
    var n := |rs| as real;
    assert n > 0.0 by {
      var k :| k in rs;
    }
    RatingTotal(rs) / n
  }

  /** The mean of ratings in [1, 10] is in [1, 10]: writing it passes Event's
      own `min`/`max` on averageRating. */
  lemma MeanInRange(rs: map<Id, Review>)
    requires rs != map[]
    requires forall k :: k in rs ==> InRatingRange(rs[k].rating)
    ensures InRatingRange(Mean(rs))
  {
    RatingTotalBounds(rs);
    var n := |rs| as real;
    assert n > 0.0 by {
      var k :| k in rs;
    }
    QuotientBounds(RatingTotal(rs), n, RatingMin, RatingMax);
  }

  lemma QuotientBounds(t: real, n: real, lo: real, hi: real)
    requires n > 0.0 && lo * n <= t <= hi * n
    ensures lo <= t / n <= hi
  {
  }

  /** One result document of the aggregation: `{ _id: event, averageRating }`. */
  datatype Group = Group(id: Id, averageRating: real)

  /** The aggregation pipeline of getAverageRating: `$match` on the event, then
      `$group` with `$avg`. No matching review gives no group at all. */
  method AverageRatingGroups(reviews: map<Id, Review>, e: Id) returns (obj: seq<Group>)
    ensures ReviewsOf(reviews, e) == map[] ==> obj == []
    ensures ReviewsOf(reviews, e) != map[] ==> obj == [Group(e, Mean(ReviewsOf(reviews, e)))]
  {
    var total := 0.0;
    var count := 0;
    var pending := reviews.Keys;
    while pending != {}
      invariant pending <= reviews.Keys
      invariant total == RatingTotal(ReviewsOf(reviews - pending, e))
      invariant count == |ReviewsOf(reviews - pending, e)|
      decreases pending
    {
      var k :| k in pending;
      ReviewsOfStep(reviews, pending, k, e);
      if reviews[k].event == e {
        total := total + reviews[k].rating;
        count := count + 1;
      }
      pending := pending - {k};
    }
    assert reviews - pending == reviews;
    if count == 0 {
      obj := [];
    } else {
      obj := [Group(e, total / count as real)];
    }
  }

  /** Taking one more review `k` into the scanned part of the collection. */
  lemma ReviewsOfStep(reviews: map<Id, Review>, pending: set<Id>, k: Id, e: Id)
    requires pending <= reviews.Keys && k in pending
    ensures var before := ReviewsOf(reviews - pending, e);
      && RatingTotal(ReviewsOf(reviews - (pending - {k}), e))
         == RatingTotal(before) + (if reviews[k].event == e then reviews[k].rating else 0.0)
      && |ReviewsOf(reviews - (pending - {k}), e)| == |before| + (if reviews[k].event == e then 1 else 0)
  {
    var before := ReviewsOf(reviews - pending, e);
    ScanOne(reviews, pending, k, e);
    if reviews[k].event == e {
      RatingTotalInsert(before, k, reviews[k]);
      assert before[k := reviews[k]].Keys == before.Keys + {k};
    }
  }

  lemma ScanOne(reviews: map<Id, Review>, pending: set<Id>, k: Id, e: Id)
    requires pending <= reviews.Keys && k in pending
    ensures k !in ReviewsOf(reviews - pending, e)
    ensures ReviewsOf(reviews - (pending - {k}), e)
            == if reviews[k].event == e then ReviewsOf(reviews - pending, e)[k := reviews[k]]
               else ReviewsOf(reviews - pending, e)
  {
  }

  /** What the post-save and post-remove hooks leave in the events collection:
      with reviews for `e`, `findByIdAndUpdate(e, { averageRating: obj[0].averageRating })`;
      without, `obj[0]` throws inside the `try`, the error is logged, nothing is written.
      An unknown `e` matches no event and nothing is written either. */
  ghost function Recompute(events: map<Id, Event>, reviews: map<Id, Review>, e: Id): (r: map<Id, Event>)
    ensures r.Keys == events.Keys
    ensures forall k :: k in events && k != e ==> r[k] == events[k]
    ensures e in events ==> r[e] == events[e].(averageRating := r[e].averageRating)
    ensures ReviewsOf(reviews, e) == map[] ==> r == events
  {
    var rs := ReviewsOf(reviews, e);
    if rs != map[] && e in events then events[e := events[e].(averageRating := Some(Mean(rs)))]
    else events
  }

  /** After a recompute with reviews left, the event's average is their mean. */
  lemma RecomputeIsMean(events: map<Id, Event>, reviews: map<Id, Review>, e: Id)
    requires e in events && ReviewsOf(reviews, e) != map[]
    ensures Recompute(events, reviews, e)[e].averageRating == Some(Mean(ReviewsOf(reviews, e)))
  {
  }

  /** The recompute keeps every event within the schema, since the mean of
      valid ratings is itself a valid averageRating. */
  lemma RecomputeKeepsEventsOk(events: map<Id, Event>, reviews: map<Id, Review>, e: Id, isEmail: string -> bool)
    requires EventsOk(events, isEmail)
    requires forall k :: k in reviews ==> ReviewOk(reviews[k])
    ensures EventsOk(Recompute(events, reviews, e), isEmail)
  {
    var rs := ReviewsOf(reviews, e);
    if rs != map[] && e in events {
      MeanInRange(rs);
      PutKeepsEventsOk(events, e, events[e].(averageRating := Some(Mean(rs))), isEmail);
    }
  }
}
