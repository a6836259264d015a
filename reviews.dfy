/** The review controller: a customer reviews a confirmed quote once, edits or deletes reviews,
    and two listings show a mover's reviews and a customer's reviewed or pending quotes. */
module Reviews {
  import opened Common
  import opened Records

  // ---------------------------------------------------------------- shared lookups

  /** `review.findFirst({ where: { estimateId, customerId } })`. */
  function ReviewOf(db: Db, e: Id, c: Id): (r: Option<Id>)
    ensures r.Some? ==> r.value in db.reviews && db.reviews[r.value].estimateId == e && db.reviews[r.value].customerId == c
    ensures FreshIds(db) ==>
      (r.None? <==> forall k :: k in db.reviews ==> !(db.reviews[k].estimateId == e && db.reviews[k].customerId == c))
  {
    FirstKey(db.reviews, db.nextId, (v: Review) => v.estimateId == e && v.customerId == c)
  }

  // ---------------------------------------------------------------- createReview

  /** `createReview`: the caller's Customer profile reviews estimate `estimateId`. */
  function CreateReviewStep(db: Db, auth: Option<string>, estimateId: Option<Id>,
                            rating: Option<int>, comment: Option<string>): (st: Step<Id>)
    ensures Caller(db, auth).Fail? ==> st == Reject(db, Caller(db, auth).why)
    ensures Caller(db, auth).Ok? ==> st == ReviewAs(db, Caller(db, auth).value, estimateId, rating, comment)
  {
    var caller := Caller(db, auth);
    if caller.Fail? then Reject(db, caller.why) else ReviewAs(db, caller.value, estimateId, rating, comment)
  }

  /** The review a customer writes on an estimate: it copies the request and the mover of the
      estimate. */
  function Written(e: Id, est: Estimate, c: Id, rating: int, comment: string): Review
  {
    Review(e, est.movingInfoId, c, est.moverId, rating, comment)
  }

  /** The checks and the effect of `createReview` once the caller's account `c` is known. */
  function ReviewAs(db: Db, c: Id, estimateId: Option<Id>, rating: Option<int>, comment: Option<string>): (st: Step<Id>)
    ensures st.reply.Fail? ==> st.db == db
    ensures st.reply.Ok? <==>
      && c in db.customers
      && estimateId.Some? && GivenNum(rating) && Given(comment)
      && estimateId.value in db.estimates
      && db.estimates[estimateId.value].isConfirmed
      && ReviewOf(db, estimateId.value, c).None?
    ensures c !in db.customers ==> st.reply == Fail(NotCustomer)
    ensures (c in db.customers && (estimateId.None? || !GivenNum(rating) || !Given(comment))) ==>
            st.reply == Fail(Missing("estimateId, rating or comment"))
    ensures (c in db.customers && estimateId.Some? && GivenNum(rating) && Given(comment) &&
             estimateId.value !in db.estimates) ==> st.reply == Fail(NotFound("estimate"))
    ensures (c in db.customers && estimateId.Some? && GivenNum(rating) && Given(comment) &&
             estimateId.value in db.estimates && !db.estimates[estimateId.value].isConfirmed) ==>
            st.reply == Fail(NotConfirmed)
    ensures (c in db.customers && estimateId.Some? && GivenNum(rating) && Given(comment) &&
             estimateId.value in db.estimates && db.estimates[estimateId.value].isConfirmed &&
             ReviewOf(db, estimateId.value, c).Some?) ==> st.reply == Fail(AlreadyReviewed)
    ensures st.reply.Ok? ==>
      var e := estimateId.value;
      var est := db.estimates[e];
      && st.reply.value == db.nextId
      && st.db == SetEstimate(NewReview(db, Written(e, est, c, rating.value, comment.value)), e,
                              est.(reviewId := Some(db.nextId)))
  {
    if c !in db.customers then Reject(db, NotCustomer)
    else if estimateId.None? || !GivenNum(rating) || !Given(comment) then Reject(db, Missing("estimateId, rating or comment"))
    else if estimateId.value !in db.estimates then Reject(db, NotFound("estimate"))
    else if !db.estimates[estimateId.value].isConfirmed then Reject(db, NotConfirmed)
    else if ReviewOf(db, estimateId.value, c).Some? then Reject(db, AlreadyReviewed)
    else
      var e := estimateId.value;
      var est := db.estimates[e];
      var id := db.nextId;
      Step(SetEstimate(NewReview(db, Written(e, est, c, rating.value, comment.value)), e, est.(reviewId := Some(id))), Ok(id))
  }

  /** No ownership check: a customer can review a confirmed estimate of another customer. */
  lemma ReviewAnyEstimate(db: Db, c: Id, e: Id, rating: int, comment: string)
    requires c in db.customers && e in db.estimates && db.estimates[e].isConfirmed
    requires db.estimates[e].customerId != c && ReviewOf(db, e, c).None?
    requires rating != 0 && comment != ""
    ensures ReviewAs(db, c, Some(e), Some(rating), Some(comment)).reply.Ok?
    ensures ReviewAs(db, c, Some(e), Some(rating), Some(comment)).db.reviews[db.nextId].customerId != db.estimates[e].customerId
  {
  }

  /** Reviewing keeps the store consistent: still at most one review per (estimate, customer). */
  lemma CreateReviewConsistent(db: Db, auth: Option<string>, estimateId: Option<Id>,
                               rating: Option<int>, comment: Option<string>)
    requires Consistent(db)
    ensures Consistent(CreateReviewStep(db, auth, estimateId, rating, comment).db)
  {
    if Caller(db, auth).Ok? {
      ReviewAsConsistent(db, Caller(db, auth).value, estimateId, rating, comment);
    }
  }

  lemma ReviewAsConsistent(db: Db, c: Id, estimateId: Option<Id>, rating: Option<int>, comment: Option<string>)
    requires Consistent(db)
    ensures Consistent(ReviewAs(db, c, estimateId, rating, comment).db)
  {
    if ReviewAs(db, c, estimateId, rating, comment).reply.Ok? {
      var e := estimateId.value;
      var est := db.estimates[e];
      var review := Written(e, est, c, rating.value, comment.value);
      var d1 := NewReview(db, review);
      var d := SetEstimate(d1, e, est.(reviewId := Some(db.nextId)));
      assert ReviewAs(db, c, estimateId, rating, comment).db == d;
      NewReviewKeeps(db, review);
      assert e in d1.estimates;
      SetEstimateKeeps(d1, e, est.(reviewId := Some(db.nextId)));
      assert Consistent(d);
    }
  }

  /** A review adds one review row carrying the estimate, the customer, the rating and the
      comment, with the request and the mover copied from the estimate, and points the estimate's
      `reviewId` at it; no other row changes. */
  lemma ReviewEffect(db: Db, c: Id, estimateId: Option<Id>, rating: Option<int>, comment: Option<string>)
    requires FreshIds(db)
    requires ReviewAs(db, c, estimateId, rating, comment).reply.Ok?
    ensures var st := ReviewAs(db, c, estimateId, rating, comment);
      var id := st.reply.value;
      var e := estimateId.value;
      && id !in db.reviews && st.db.reviews.Keys == db.reviews.Keys + {id}
      && st.db.reviews[id].estimateId == e && st.db.reviews[id].customerId == c
      && st.db.reviews[id].movingInfoId == db.estimates[e].movingInfoId
      && st.db.reviews[id].moverId == db.estimates[e].moverId
      && st.db.reviews[id].rating == rating.value && st.db.reviews[id].comment == comment.value
      && (forall k :: k in db.reviews ==> st.db.reviews[k] == db.reviews[k])
      && st.db.estimates.Keys == db.estimates.Keys
      && st.db.estimates[e] == db.estimates[e].(reviewId := Some(id))
      && (forall k :: k in db.estimates && k != e ==> st.db.estimates[k] == db.estimates[k])
      && st.db.(reviews := db.reviews, estimates := db.estimates, nextId := db.nextId) == db
  {
  }

  /** One review per (estimate, customer): once a review succeeds, a second one by the same caller
      on the same estimate fails with AlreadyReviewed and changes nothing. */
  lemma ReviewOnce(db: Db, auth: Option<string>, e: Id, rating: Option<int>, comment: Option<string>,
                   rating2: Option<int>, comment2: Option<string>)
    requires FreshIds(db)
    requires CreateReviewStep(db, auth, Some(e), rating, comment).reply.Ok?
    ensures var db1 := CreateReviewStep(db, auth, Some(e), rating, comment).db;
      && CreateReviewStep(db1, auth, Some(e), rating2, comment2).reply.Fail?
      && CreateReviewStep(db1, auth, Some(e), rating2, comment2).db == db1
      && (GivenNum(rating2) && Given(comment2) ==>
            CreateReviewStep(db1, auth, Some(e), rating2, comment2).reply == Fail(AlreadyReviewed))
  {
    var db1 := CreateReviewStep(db, auth, Some(e), rating, comment).db;
    var c := Caller(db, auth).value;
    UserByEmailStable(db, db1, auth.value);
    assert db1.reviews[db.nextId].estimateId == e && db1.reviews[db.nextId].customerId == c;
    assert db.nextId < db1.nextId;
    assert ReviewOf(db1, e, c).Some?;
  }

  method CreateReview(s: Store, auth: Option<string>, estimateId: Option<Id>,
                      rating: Option<int>, comment: Option<string>) returns (r: Reply<Id>)
    modifies s
    ensures Step(s.Snapshot(), r) == CreateReviewStep(old(s.Snapshot()), auth, estimateId, rating, comment)
  {
    var caller := Caller(s.Snapshot(), auth);
    if caller.Fail? {
      return Fail(caller.why);
    }
    var c := caller.value;
    if c !in s.customers {
      return Fail(NotCustomer);
    }
    if estimateId.None? || !GivenNum(rating) || !Given(comment) {
      return Fail(Missing("estimateId, rating or comment"));
    }
    var e := estimateId.value;
    if e !in s.estimates {
      return Fail(NotFound("estimate"));
    }
    var est := s.estimates[e];
    if !est.isConfirmed {
      return Fail(NotConfirmed);
    }
    if ReviewOf(s.Snapshot(), e, c).Some? {
      return Fail(AlreadyReviewed);
    }
    var id := s.InsertReview(Written(e, est, c, rating.value, comment.value));
    s.PutEstimate(e, est.(reviewId := Some(id)));
    return Ok(id);
  }

  // ---------------------------------------------------------------- updateReview

  /** `updateReview`: a customer rewrites the rating and comment of review `reviewId`. */
  function UpdateReviewStep(db: Db, auth: Option<string>, reviewId: Option<Id>,
                            rating: Option<int>, comment: Option<string>): (st: Step<()>)
    ensures Caller(db, auth).Fail? ==> st == Reject(db, Caller(db, auth).why)
    ensures Caller(db, auth).Ok? ==> st == EditAs(db, Caller(db, auth).value, reviewId, rating, comment)
  {
    var caller := Caller(db, auth);
    if caller.Fail? then Reject(db, caller.why) else EditAs(db, caller.value, reviewId, rating, comment)
  }

  /** The checks and the effect of `updateReview` once the caller's account `c` is known. The
      review is found by id alone: whose review it is plays no part. */
  function EditAs(db: Db, c: Id, reviewId: Option<Id>, rating: Option<int>, comment: Option<string>): (st: Step<()>)
    ensures st.reply.Fail? ==> st.db == db
    ensures st.reply.Ok? <==>
      c in db.customers && reviewId.Some? && reviewId.value in db.reviews && GivenNum(rating) && Given(comment)
    ensures c !in db.customers ==> st.reply == Fail(NotCustomer)
    ensures c in db.customers && reviewId.None? ==> st.reply == Fail(Missing("reviewId"))
    ensures c in db.customers && reviewId.Some? && reviewId.value !in db.reviews ==> st.reply == Fail(NotFound("review"))
    ensures (c in db.customers && reviewId.Some? && reviewId.value in db.reviews &&
             (!GivenNum(rating) || !Given(comment))) ==> st.reply == Fail(Missing("rating or comment"))
    ensures st.reply.Ok? ==>
      st.db == SetReview(db, reviewId.value, db.reviews[reviewId.value].(rating := rating.value, comment := comment.value))
  {
    if c !in db.customers then Reject(db, NotCustomer)
    else if reviewId.None? then Reject(db, Missing("reviewId"))
    else if reviewId.value !in db.reviews then Reject(db, NotFound("review"))
    else if !GivenNum(rating) || !Given(comment) then Reject(db, Missing("rating or comment"))
    else
      var r := reviewId.value;
      Step(SetReview(db, r, db.reviews[r].(rating := rating.value, comment := comment.value)), Ok(()))
  }

  lemma UpdateReviewConsistent(db: Db, auth: Option<string>, reviewId: Option<Id>,
                               rating: Option<int>, comment: Option<string>)
    requires Consistent(db)
    ensures Consistent(UpdateReviewStep(db, auth, reviewId, rating, comment).db)
  {
    if Caller(db, auth).Ok? && EditAs(db, Caller(db, auth).value, reviewId, rating, comment).reply.Ok? {
      var r := reviewId.value;
      SetReviewKeeps(db, r, db.reviews[r].(rating := rating.value, comment := comment.value));
    }
  }

  /** An edit changes the rating and the comment of that one review and nothing else: not its
      estimate, customer, request or mover, no other review, no other table. */
  lemma EditEffect(db: Db, c: Id, reviewId: Option<Id>, rating: Option<int>, comment: Option<string>)
    requires EditAs(db, c, reviewId, rating, comment).reply.Ok?
    ensures var st := EditAs(db, c, reviewId, rating, comment);
      var r := reviewId.value;
      && st.db.reviews.Keys == db.reviews.Keys
      && st.db.reviews[r].rating == rating.value && st.db.reviews[r].comment == comment.value
      && st.db.reviews[r].estimateId == db.reviews[r].estimateId
      && st.db.reviews[r].movingInfoId == db.reviews[r].movingInfoId
      && st.db.reviews[r].customerId == db.reviews[r].customerId
      && st.db.reviews[r].moverId == db.reviews[r].moverId
      && (forall k :: k in db.reviews && k != r ==> st.db.reviews[k] == db.reviews[k])
      && st.db.(reviews := db.reviews) == db
  {
  }

  /** No ownership check: any customer can edit any review, including another customer's. */
  lemma EditAnyReview(db: Db, c: Id, r: Id, rating: int, comment: string)
    requires c in db.customers && r in db.reviews && db.reviews[r].customerId != c
    requires rating != 0 && comment != ""
    ensures EditAs(db, c, Some(r), Some(rating), Some(comment)).reply.Ok?
    ensures EditAs(db, c, Some(r), Some(rating), Some(comment)).db.reviews[r].customerId != c
  {
  }

  method UpdateReview(s: Store, auth: Option<string>, reviewId: Option<Id>,
                      rating: Option<int>, comment: Option<string>) returns (r: Reply<()>)
    modifies s
    ensures Step(s.Snapshot(), r) == UpdateReviewStep(old(s.Snapshot()), auth, reviewId, rating, comment)
  {
    var caller := Caller(s.Snapshot(), auth);
    if caller.Fail? {
      return Fail(caller.why);
    }
    if caller.value !in s.customers {
      return Fail(NotCustomer);
    }
    if reviewId.None? {
      return Fail(Missing("reviewId"));
    }
    var id := reviewId.value;
    if id !in s.reviews {
      return Fail(NotFound("review"));
    }
    if !GivenNum(rating) || !Given(comment) {
      return Fail(Missing("rating or comment"));
    }
    s.PutReview(id, s.reviews[id].(rating := rating.value, comment := comment.value));
    return Ok(());
  }

  // ---------------------------------------------------------------- deleteReview

  /** `deleteReview`: a customer deletes review `reviewId`. */
  function DeleteReviewStep(db: Db, auth: Option<string>, reviewId: Option<Id>): (st: Step<()>)
    ensures Caller(db, auth).Fail? ==> st == Reject(db, Caller(db, auth).why)
    ensures Caller(db, auth).Ok? ==> st == DeleteAs(db, Caller(db, auth).value, reviewId)
  {
    var caller := Caller(db, auth);
    if caller.Fail? then Reject(db, caller.why) else DeleteAs(db, caller.value, reviewId)
  }

  /** The checks and the effect of `deleteReview` once the caller's account `c` is known; the
      review is found by id alone. */
  function DeleteAs(db: Db, c: Id, reviewId: Option<Id>): (st: Step<()>)
    ensures st.reply.Fail? ==> st.db == db
    ensures st.reply.Ok? <==> c in db.customers && reviewId.Some? && reviewId.value in db.reviews
    ensures c !in db.customers ==> st.reply == Fail(NotCustomer)
    ensures c in db.customers && reviewId.None? ==> st.reply == Fail(Missing("reviewId"))
    ensures c in db.customers && reviewId.Some? && reviewId.value !in db.reviews ==> st.reply == Fail(NotFound("review"))
    ensures st.reply.Ok? ==> st.db == DropReview(db, reviewId.value)
  {
    if c !in db.customers then Reject(db, NotCustomer)
    else if reviewId.None? then Reject(db, Missing("reviewId"))
    else if reviewId.value !in db.reviews then Reject(db, NotFound("review"))
    else Step(DropReview(db, reviewId.value), Ok(()))
  }

  lemma DeleteReviewConsistent(db: Db, auth: Option<string>, reviewId: Option<Id>)
    requires Consistent(db)
    ensures Consistent(DeleteReviewStep(db, auth, reviewId).db)
  {
    if Caller(db, auth).Ok? && DeleteAs(db, Caller(db, auth).value, reviewId).reply.Ok? {
      DropReviewKeeps(db, reviewId.value);
    }
  }

  /** A deletion removes exactly that review; every other review stays, and the estimates keep
      their `reviewId`, so the reviewed estimate still points at the deleted id. */
  lemma DeleteEffect(db: Db, c: Id, reviewId: Option<Id>)
    requires DeleteAs(db, c, reviewId).reply.Ok?
    ensures var st := DeleteAs(db, c, reviewId);
      var r := reviewId.value;
      && st.db.reviews.Keys == db.reviews.Keys - {r}
      && (forall k :: k in st.db.reviews ==> st.db.reviews[k] == db.reviews[k])
      && st.db.estimates == db.estimates
      && st.db.(reviews := db.reviews) == db
  {
  }

  /** After its review is deleted, a confirmed estimate can be reviewed again by the same customer,
      although its `reviewId` was never cleared. */
  lemma ReviewAgainAfterDelete(db: Db, c: Id, r: Id, rating: int, comment: string)
    requires Consistent(db) && c in db.customers && r in db.reviews
    requires db.reviews[r].customerId == c
    requires db.reviews[r].estimateId in db.estimates && db.estimates[db.reviews[r].estimateId].isConfirmed
    requires rating != 0 && comment != ""
    ensures var db1 := DeleteAs(db, c, Some(r)).db;
      ReviewAs(db1, c, Some(db.reviews[r].estimateId), Some(rating), Some(comment)).reply.Ok?
  {
    var e := db.reviews[r].estimateId;
    var db1 := DeleteAs(db, c, Some(r)).db;
    assert FreshIds(db1);
    forall k | k in db1.reviews
      ensures !(db1.reviews[k].estimateId == e && db1.reviews[k].customerId == c)
    {
      assert k in db.reviews && k != r;
    }
  }

  method DeleteReview(s: Store, auth: Option<string>, reviewId: Option<Id>) returns (r: Reply<()>)
    modifies s
    ensures Step(s.Snapshot(), r) == DeleteReviewStep(old(s.Snapshot()), auth, reviewId)
  {
    var caller := Caller(s.Snapshot(), auth);
    if caller.Fail? {
      return Fail(caller.why);
    }
    if caller.value !in s.customers {
      return Fail(NotCustomer);
    }
    if reviewId.None? {
      return Fail(Missing("reviewId"));
    }
    if reviewId.value !in s.reviews {
      return Fail(NotFound("review"));
    }
    s.DeleteReview(reviewId.value);
    return Ok(());
  }

  // ---------------------------------------------------------------- reviewList

  /** The filter `{ moverId }` on reviews. */
  function OfMover(m: Id): Review -> bool
  {
    (v: Review) => v.moverId == m
  }

  /** The checks of `reviewList`: the mover's id and profile, then numeric `page` (default 1) and
      `size` (default 5). Ok carries the mover, the page and the size. */
  function ReviewListQuery(db: Db, moverId: Option<Id>, page: QueryNum, size: QueryNum): (r: Reply<(Id, int, int)>)
    ensures moverId.None? ==> r == Fail(Missing("moverId"))
    ensures moverId.Some? && moverId.value !in db.movers ==> r == Fail(NotFound("mover"))
    ensures moverId.Some? && moverId.value in db.movers && (page.NotANumber? || size.NotANumber?) ==> r == Fail(NotNumeric)
    ensures r.Ok? <==> moverId.Some? && moverId.value in db.movers && !page.NotANumber? && !size.NotANumber?
    ensures r.Ok? ==> r.value == (moverId.value, Numeric(page, 1).value, Numeric(size, 5).value)
  {
    if moverId.None? then Fail(Missing("moverId"))
    else if moverId.value !in db.movers then Fail(NotFound("mover"))
    else if page.NotANumber? || size.NotANumber? then Fail(NotNumeric)
    else Ok((moverId.value, Numeric(page, 1).value, Numeric(size, 5).value))
  }

  /** The mover's reviews in id order, skipping `(page - 1) * size` and taking `size`. */
  function MoverReviews(db: Db, m: Id, p: int, n: int): Option<seq<Id>>
  {
    Window(Select(db.reviews, db.nextId, OfMover(m)), (p - 1) * n, n)
  }

  /** `reviewList` as written: `totalPage` is `Math.ceil(reviews.length / size)`, the length of
      the fetched page rather than the number of the mover's reviews. */
  function ReviewListAsWritten(db: Db, moverId: Option<Id>, page: QueryNum, size: QueryNum): (r: Reply<Page<Id>>)
    ensures ReviewListQuery(db, moverId, page, size).Fail? ==> r == Fail(ReviewListQuery(db, moverId, page, size).why)
    ensures r.Ok? ==>
      var (m, p, n) := ReviewListQuery(db, moverId, page, size).value;
      && MoverReviews(db, m, p, n).Some?
      && r.value.rows == MoverReviews(db, m, p, n).value
      && r.value.totalPages == PageCount(|r.value.rows|, n)
    ensures r.Ok? <==> ReviewList(db, moverId, page, size).Ok?
    ensures r.Fail? ==> r == ReviewList(db, moverId, page, size)
    ensures r.Ok? ==>
      r.value == ReviewList(db, moverId, page, size).value.(totalPages := PageCount(|r.value.rows|, Numeric(size, 5).value))
  {
    var q := ReviewListQuery(db, moverId, page, size);
    if q.Fail? then Fail(q.why)
    else
      var (m, p, n) := q.value;
      var w := MoverReviews(db, m, p, n);
      if w.None? then Fail(ServerError)
      else Ok(Page(CountWhere(db.reviews, db.nextId, OfMover(m)), p, PageCount(|w.value|, n), w.value))
  }

  /** As written, a positive page size yields a page count of 0 or 1 whatever the total, so a
      mover with more than `size` reviews is reported as having a single page. */
  lemma ReviewListAsWrittenPages(db: Db, moverId: Option<Id>, page: QueryNum, size: QueryNum)
    requires ReviewListAsWritten(db, moverId, page, size).Ok?
    requires Numeric(size, 5).value > 0
    ensures var r := ReviewListAsWritten(db, moverId, page, size).value;
      && (r.totalPages == Some(0) || r.totalPages == Some(1))
      && (r.totalElement > Numeric(size, 5).value ==> r.totalPages != ReviewList(db, moverId, page, size).value.totalPages)
  {
    var (m, p, n) := ReviewListQuery(db, moverId, page, size).value;
    var r := ReviewListAsWritten(db, moverId, page, size).value;
    assert |r.rows| <= n;
    OnePageAtMost(|r.rows|, n);
    if r.totalElement > n {
      SeveralPages(r.totalElement, n);
    }
  }

  /** At most `size` rows fit in one page. */
  lemma OnePageAtMost(len: nat, n: int)
    requires 0 < n && len <= n
    ensures PageCount(len, n) == Some(0) || PageCount(len, n) == Some(1)
  {
    var k := PageCount(len, n).value;
    if k >= 2 {
      assert (k - 1) * n >= n by { MulAtLeast(k - 1, n); }
    }
  }

  /** More than `size` rows need at least two pages. */
  lemma SeveralPages(total: nat, n: int)
    requires 0 < n < total
    ensures PageCount(total, n).Some? && PageCount(total, n).value >= 2
  {
  }

  lemma MulAtLeast(a: int, n: int)
    requires a >= 1 && n > 0
    ensures a * n >= n
  {
  }

  /** `reviewList` with `totalPage = Math.ceil(totalElement / size)`. */
  function ReviewList(db: Db, moverId: Option<Id>, page: QueryNum, size: QueryNum): (r: Reply<Page<Id>>)
    ensures ReviewListQuery(db, moverId, page, size).Fail? ==> r == Fail(ReviewListQuery(db, moverId, page, size).why)
    ensures ReviewListQuery(db, moverId, page, size).Ok? ==>
      var (m, p, n) := ReviewListQuery(db, moverId, page, size).value;
      && (r.Ok? <==> MoverReviews(db, m, p, n).Some?)
      && (r.Fail? ==> r.why == ServerError)
      && (r.Ok? ==>
            && r.value.rows == MoverReviews(db, m, p, n).value
            && r.value.totalElement == CountWhere(db.reviews, db.nextId, OfMover(m))
            && r.value.currentPage == p
            && r.value.totalPages == PageCount(r.value.totalElement, n))
  {
    var q := ReviewListQuery(db, moverId, page, size);
    if q.Fail? then Fail(q.why)
    else
      var (m, p, n) := q.value;
      var w := MoverReviews(db, m, p, n);
      if w.None? then Fail(ServerError)
      else
        var total := CountWhere(db.reviews, db.nextId, OfMover(m));
        Ok(Page(total, p, PageCount(total, n), w.value))
  }

  /** The listing shows, in id order, at most `|size|` reviews of the mover; its total is the number
      of the mover's reviews, and for a positive size its page count is the least number of pages
      of `size` rows that holds them all. */
  lemma ReviewListed(db: Db, moverId: Option<Id>, page: QueryNum, size: QueryNum)
    requires FreshIds(db)
    requires ReviewList(db, moverId, page, size).Ok?
    ensures var r := ReviewList(db, moverId, page, size).value;
      var m := moverId.value;
      var n := Numeric(size, 5).value;
      && |r.rows| <= Abs(n)
      && (forall i :: 0 <= i < |r.rows| ==> r.rows[i] in db.reviews && db.reviews[r.rows[i]].moverId == m)
      && (forall i, j :: 0 <= i < j < |r.rows| ==> r.rows[i] < r.rows[j])
      && r.totalElement == |set k | k in db.reviews && db.reviews[k].moverId == m|
      && (n > 0 ==> exists t :: r.totalPages == Some(t) && (t - 1) * n < r.totalElement <= t * n)
  {
    var (m, p, n) := ReviewListQuery(db, moverId, page, size).value;
    var all := Select(db.reviews, db.nextId, OfMover(m));
    WindowIncreasing(all, (p - 1) * n, n);
    CountIsCard(db.reviews, db.nextId, OfMover(m));
    var mine := set k | k in db.reviews && db.reviews[k].moverId == m;
    forall k | k in mine
      ensures k in KeysWhere(db.reviews, db.nextId, OfMover(m))
    {
      assert k < db.nextId;
    }
    assert KeysWhere(db.reviews, db.nextId, OfMover(m)) == mine;
  }

  // ---------------------------------------------------------------- customerReviewList

  /** The filter of `customerReviewList`: the customer's estimates, without a review for
      `pendingReview` and with one for `myReview`. */
  function ForCustomer(c: Id, pending: bool): Estimate -> bool
  {
    (e: Estimate) => e.customerId == c && (if pending then e.reviewId.None? else e.reviewId.Some?)
  }

  /** `designatedEstimateRequest.findFirst({ where: { movingInfoId, moverId } })` for an estimate. */
  function DesignationFor(db: Db, est: Estimate): (r: Option<Id>)
    ensures r.Some? ==>
      (r.value in db.designations &&
       db.designations[r.value].movingInfoId == est.movingInfoId && db.designations[r.value].moverId == est.moverId)
    ensures FreshIds(db) ==>
      (r.None? <==> forall k :: k in db.designations ==>
         !(db.designations[k].movingInfoId == est.movingInfoId && db.designations[k].moverId == est.moverId))
  {
    FirstKey(db.designations, db.nextId,
             (d: DesignatedRequest) => d.movingInfoId == est.movingInfoId && d.moverId == est.moverId)
  }

  /** The checks of `customerReviewList`: the caller's Customer profile, numeric `page` (default 1)
      and `size` (default 6), and `filterBy`. Ok carries the customer, the page, the size and
      whether the pending quotes are asked for. */
  function CustomerReviewQuery(db: Db, auth: Option<string>, page: QueryNum, size: QueryNum,
                               filterBy: Option<string>): (r: Reply<(Id, int, int, bool)>)
    ensures Caller(db, auth).Fail? ==> r == Fail(Caller(db, auth).why)
    ensures Caller(db, auth).Ok? && Caller(db, auth).value !in db.customers ==> r == Fail(NotCustomer)
    ensures (Caller(db, auth).Ok? && Caller(db, auth).value in db.customers &&
             (page.NotANumber? || size.NotANumber?)) ==> r == Fail(NotNumeric)
    ensures r.Ok? <==>
      && Caller(db, auth).Ok? && Caller(db, auth).value in db.customers
      && !page.NotANumber? && !size.NotANumber?
      && (filterBy == Some("pendingReview") || filterBy == Some("myReview"))
    ensures r.Ok? ==> r.value == (Caller(db, auth).value, Numeric(page, 1).value, Numeric(size, 6).value,
                                  filterBy == Some("pendingReview"))
  {
    var caller := Caller(db, auth);
    if caller.Fail? then Fail(caller.why)
    else if caller.value !in db.customers then Fail(NotCustomer)
    else if page.NotANumber? || size.NotANumber? then Fail(NotNumeric)
    else if filterBy != Some("pendingReview") && filterBy != Some("myReview") then Fail(Invalid("filterBy"))
    else Ok((caller.value, Numeric(page, 1).value, Numeric(size, 6).value, filterBy == Some("pendingReview")))
  }

  /** A row of the customer's listing: the estimate, its mover, whether that mover was invited to
      quote on the request, and the customer's review of it (for `myReview`). */
  datatype ReviewedRow = ReviewedRow(estimateId: Id, moverId: Id, isDesignated: bool, review: Option<Id>)

  /** The row of one estimate. */
  function RowOf(db: Db, c: Id, e: Id, pending: bool): ReviewedRow
    requires e in db.estimates
  {
    ReviewedRow(e, db.estimates[e].moverId, DesignationFor(db, db.estimates[e]).Some?,
                if pending then None else ReviewOf(db, e, c))
  }

  /** The rows of the selected estimates, one per estimate in the same order. */
  function RowsOf(db: Db, c: Id, ids: seq<Id>, pending: bool): (rows: seq<ReviewedRow>)
    requires forall i :: 0 <= i < |ids| ==> ids[i] in db.estimates
    ensures |rows| == |ids|
    ensures forall i :: 0 <= i < |ids| ==> rows[i] == RowOf(db, c, ids[i], pending)
  {
    seq(|ids|, i requires 0 <= i < |ids| => RowOf(db, c, ids[i], pending))
  }

  /** Every selected estimate has a designated request for its mover. */
  predicate AllDesignated(db: Db, ids: seq<Id>)
    requires forall i :: 0 <= i < |ids| ==> ids[i] in db.estimates
  {
    forall i :: 0 <= i < |ids| ==> DesignationFor(db, db.estimates[ids[i]]).Some?
  }

  /** `customerReviewList` as written: for an estimate without a designated request the lookup
      returns null and reading its `moverId` throws, so the handler answers with a server error.
      No `skip` or `take` is applied: the page holds every selected estimate. */
  function CustomerReviewListAsWritten(db: Db, auth: Option<string>, page: QueryNum, size: QueryNum,
                                       filterBy: Option<string>): (r: Reply<Page<ReviewedRow>>)
    ensures CustomerReviewQuery(db, auth, page, size, filterBy).Fail? ==>
      r == Fail(CustomerReviewQuery(db, auth, page, size, filterBy).why)
    ensures r.Ok? ==> forall i :: 0 <= i < |r.value.rows| ==> r.value.rows[i].isDesignated
  {
    var q := CustomerReviewQuery(db, auth, page, size, filterBy);
    if q.Fail? then Fail(q.why)
    else
      var (c, p, n, pending) := q.value;
      var ids := Select(db.estimates, db.nextId, ForCustomer(c, pending));
      if !AllDesignated(db, ids) then Fail(ServerError)
      else
        var total := CountWhere(db.estimates, db.nextId, ForCustomer(c, pending));
        Ok(Page(total, p, PageCount(total, n), RowsOf(db, c, ids, pending)))
  }

  /** The written and the corrected listing agree except at the bug: they refuse the same queries,
      answer alike when every selected quote has a designated request, and otherwise the written
      one fails with a server error. */
  lemma CustomerReviewListAgrees(db: Db, auth: Option<string>, page: QueryNum, size: QueryNum,
                                 filterBy: Option<string>)
    ensures CustomerReviewQuery(db, auth, page, size, filterBy).Fail? ==>
      CustomerReviewListAsWritten(db, auth, page, size, filterBy) == CustomerReviewList(db, auth, page, size, filterBy)
    ensures CustomerReviewQuery(db, auth, page, size, filterBy).Ok? ==>
      var (c, p, n, pending) := CustomerReviewQuery(db, auth, page, size, filterBy).value;
      var ids := Select(db.estimates, db.nextId, ForCustomer(c, pending));
      && (AllDesignated(db, ids) ==>
            CustomerReviewListAsWritten(db, auth, page, size, filterBy) == CustomerReviewList(db, auth, page, size, filterBy))
      && (!AllDesignated(db, ids) ==> CustomerReviewListAsWritten(db, auth, page, size, filterBy) == Fail(ServerError))
  {
    var q := CustomerReviewQuery(db, auth, page, size, filterBy);
    if q.Ok? {
      var (c, p, n, pending) := q.value;
      var ids := Select(db.estimates, db.nextId, ForCustomer(c, pending));
      if !AllDesignated(db, ids) {
        assert CustomerReviewListAsWritten(db, auth, page, size, filterBy) == Fail(ServerError);
      } else {
        var total := CountWhere(db.estimates, db.nextId, ForCustomer(c, pending));
        CountIsSelectLength(db.estimates, db.nextId, ForCustomer(c, pending));
        var page' := Page(total, p, PageCount(total, n), RowsOf(db, c, ids, pending));
        assert CustomerReviewListAsWritten(db, auth, page, size, filterBy) == Ok(page');
        assert CustomerReviewList(db, auth, page, size, filterBy) == Ok(page');
      }
    }
  }

  /** As written, one selected estimate of an undesignated quote makes the whole listing fail,
      where the corrected listing answers (and flags that row as not designated, by RowMeaning). */
  lemma CustomerReviewListCrashes(db: Db, auth: Option<string>, page: QueryNum, size: QueryNum,
                                  filterBy: Option<string>, e: Id)
    requires FreshIds(db)
    requires CustomerReviewQuery(db, auth, page, size, filterBy).Ok?
    requires e in db.estimates
    requires ForCustomer(Caller(db, auth).value, filterBy == Some("pendingReview"))(db.estimates[e])
    requires forall k :: k in db.designations ==>
      !(db.designations[k].movingInfoId == db.estimates[e].movingInfoId && db.designations[k].moverId == db.estimates[e].moverId)
    ensures CustomerReviewListAsWritten(db, auth, page, size, filterBy) == Fail(ServerError)
    ensures CustomerReviewList(db, auth, page, size, filterBy).Ok?
  {
    var (c, p, n, pending) := CustomerReviewQuery(db, auth, page, size, filterBy).value;
    var ids := Select(db.estimates, db.nextId, ForCustomer(c, pending));
    assert e in ids;
    var i :| 0 <= i < |ids| && ids[i] == e;
    assert DesignationFor(db, db.estimates[ids[i]]).None?;
  }

  /** `customerReviewList` with `isDesignated` true exactly when the designated request exists. */
  function CustomerReviewList(db: Db, auth: Option<string>, page: QueryNum, size: QueryNum,
                              filterBy: Option<string>): (r: Reply<Page<ReviewedRow>>)
    ensures CustomerReviewQuery(db, auth, page, size, filterBy).Fail? ==>
      r == Fail(CustomerReviewQuery(db, auth, page, size, filterBy).why)
    ensures CustomerReviewQuery(db, auth, page, size, filterBy).Ok? ==>
      var (c, p, n, pending) := CustomerReviewQuery(db, auth, page, size, filterBy).value;
      && r.Ok?
      && r.value.rows == RowsOf(db, c, Select(db.estimates, db.nextId, ForCustomer(c, pending)), pending)
      && r.value.totalElement == |r.value.rows|
      && r.value.currentPage == p
      && r.value.totalPages == PageCount(r.value.totalElement, n)
  {
    var q := CustomerReviewQuery(db, auth, page, size, filterBy);
    if q.Fail? then Fail(q.why)
    else
      var (c, p, n, pending) := q.value;
      var ids := Select(db.estimates, db.nextId, ForCustomer(c, pending));
      var total := CountWhere(db.estimates, db.nextId, ForCustomer(c, pending));
      CountIsSelectLength(db.estimates, db.nextId, ForCustomer(c, pending));
      Ok(Page(total, p, PageCount(total, n), RowsOf(db, c, ids, pending)))
  }

  /** What a row says about its estimate: its mover; designated exactly when a designated request
      links the estimate's request and mover; for `myReview`, the customer's review of the
      estimate when there is one and none only when there is none; for `pendingReview`, no review. */
  lemma RowMeaning(db: Db, c: Id, e: Id, pending: bool)
    requires FreshIds(db) && e in db.estimates
    ensures var row := RowOf(db, c, e, pending);
      var est := db.estimates[e];
      && row.estimateId == e && row.moverId == est.moverId
      && (row.isDesignated <==>
            (exists k :: k in db.designations && db.designations[k].movingInfoId == est.movingInfoId &&
                         db.designations[k].moverId == est.moverId))
      && (pending ==> row.review.None?)
      && (!pending && row.review.Some? ==>
            (row.review.value in db.reviews && db.reviews[row.review.value].estimateId == e &&
             db.reviews[row.review.value].customerId == c))
      && (!pending && row.review.None? ==>
            (forall k :: k in db.reviews ==> !(db.reviews[k].estimateId == e && db.reviews[k].customerId == c)))
  {
  }

  /** The listing holds, in id order, exactly the customer's estimates without a review
      (`pendingReview`) or with one (`myReview`), each as its row. */
  lemma CustomerReviewListed(db: Db, auth: Option<string>, page: QueryNum, size: QueryNum,
                             filterBy: Option<string>)
    requires FreshIds(db)
    requires CustomerReviewQuery(db, auth, page, size, filterBy).Ok?
    ensures var rows := CustomerReviewList(db, auth, page, size, filterBy).value.rows;
      var c := Caller(db, auth).value;
      var pending := filterBy == Some("pendingReview");
      && (forall i :: 0 <= i < |rows| ==>
            && rows[i].estimateId in db.estimates
            && db.estimates[rows[i].estimateId].customerId == c
            && (pending <==> db.estimates[rows[i].estimateId].reviewId.None?)
            && rows[i] == RowOf(db, c, rows[i].estimateId, pending))
      && (forall i, j :: 0 <= i < j < |rows| ==> rows[i].estimateId < rows[j].estimateId)
      && (forall k :: (k in db.estimates && db.estimates[k].customerId == c &&
                       (pending <==> db.estimates[k].reviewId.None?)) ==>
            (exists i :: 0 <= i < |rows| && rows[i].estimateId == k))
  {
    var (c, p, n, pending) := CustomerReviewQuery(db, auth, page, size, filterBy).value;
    var ids := Select(db.estimates, db.nextId, ForCustomer(c, pending));
    var rows := CustomerReviewList(db, auth, page, size, filterBy).value.rows;
    assert forall i :: 0 <= i < |rows| ==> rows[i].estimateId == ids[i];
    forall k | k in db.estimates && db.estimates[k].customerId == c && (pending <==> db.estimates[k].reviewId.None?)
      ensures exists i :: 0 <= i < |rows| && rows[i].estimateId == k
    {
      assert k < db.nextId;
      assert ForCustomer(c, pending)(db.estimates[k]);
      assert k in ids;
      var i :| 0 <= i < |ids| && ids[i] == k;
      assert rows[i].estimateId == k;
    }
  }
}
