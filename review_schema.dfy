/**
 * The Review table as migration 0004 creates it: a nullable name of at most
 * 200 characters, a nullable rating defaulting to 0, a nullable comment, a
 * product reference that is set to null when the product is deleted and a
 * required author reference whose user's deletion deletes the review.
 */
module ReviewSchema {
  import opened Wrappers
  import opened Records

  const NameMaxLength: nat := 200
  const DefaultRating: Option<int> := Some(0)

  /** The column constraints a stored review satisfies. */
  predicate WellFormed(r: Review) {
    r.name.Some? ==> |r.name.value| <= NameMaxLength
  }

  /** A review built in memory but not yet saved: its author may still be missing. */
  datatype Draft = Draft(
    product: Option<ProductId>,
    user: Option<UserId>,
    name: Option<string>,
    rating: Option<int>,
    comment: Option<string>,
    createdAt: Time)

  /** What the database reports when an insert breaks a constraint. */
  datatype DbError = NotNullViolation(column: string)

  /** Inserting a draft: the author column is NOT NULL. */
  function Insert(d: Draft): (r: Result<Review, DbError>)
    ensures r.Success? <==> d.user.Some?
    ensures r.Failure? ==> r.error == NotNullViolation("user_id")
    ensures r.Success? ==> r.value.user == d.user.value && r.value.product == d.product
    ensures r.Success? ==> r.value.name == d.name && r.value.rating == d.rating && r.value.comment == d.comment
    ensures r.Success? ==> r.value.createdAt == d.createdAt
  {
    match d.user
    case None => Failure(NotNullViolation("user_id"))
    case Some(u) => Success(Review(d.product, u, d.name, d.rating, d.comment, d.createdAt))
  }

  /** SET_NULL: the reviews of a deleted product survive, with no product. */
  function AfterProductDelete(reviews: map<ReviewId, Review>, pid: ProductId): (r: map<ReviewId, Review>)
    ensures r.Keys == reviews.Keys
    ensures forall id :: id in r ==> r[id].product != Some(pid)
    ensures forall id :: id in r ==> r[id].(product := reviews[id].product) == reviews[id]
    ensures forall id :: id in r && reviews[id].product != Some(pid) ==> r[id] == reviews[id]
  {
    map id | id in reviews :: if reviews[id].product == Some(pid) then reviews[id].(product := None) else reviews[id]
  }

  /** CASCADE: deleting a user deletes exactly the reviews they wrote. */
  function AfterUserDelete(reviews: map<ReviewId, Review>, uid: UserId): (r: map<ReviewId, Review>)
    ensures forall id :: id in r <==> id in reviews && reviews[id].user != uid
    ensures forall id :: id in r ==> r[id] == reviews[id]
  {
    map id | id in reviews && reviews[id].user != uid :: reviews[id]
  }

  /** Setting the product to null keeps every stored review well formed. */
  lemma AfterProductDeleteKeepsWellFormed(reviews: map<ReviewId, Review>, pid: ProductId)
    requires forall id :: id in reviews ==> WellFormed(reviews[id])
    ensures var r := AfterProductDelete(reviews, pid);
      forall id :: id in r ==> WellFormed(r[id])
  {
    var r := AfterProductDelete(reviews, pid);
    forall id | id in r ensures WellFormed(r[id]) {
      assert r[id].name == reviews[id].name;
    }
  }
}
