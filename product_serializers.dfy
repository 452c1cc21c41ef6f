/**
 * The four serializers of the product app as projections of stored rows:
 * which fields a list view and a detail view render, and which fields a
 * create or update may write (every listed field except the read-only id).
 * Keys a payload names outside these lists are ignored, so a payload that
 * targets a product's owner or a review's user or product has no effect.
 */
module ProductSerializers {
  import opened Wrappers
  import opened Records
  import ReviewSchema
  import opened Payloads

  const ReviewListFields: seq<string> := ["id", "name", "rating"]
  const ReviewDetailFields: seq<string> := ReviewListFields + ["comment"]
  const ProductListFields: seq<string> := ["id", "title", "price"]
  const ProductDetailFields: seq<string> := ProductListFields + ["description"]

  /** The primary key is rendered but never written from a payload. */
  const ReadOnlyFields: set<string> := {"id"}

  function Writable(fields: seq<string>): (w: set<string>)
    ensures forall f :: f in w <==> f in fields && f !in ReadOnlyFields
  {
    set f | f in fields && f !in ReadOnlyFields
  }

  function ProductField(id: ProductId, p: Product, f: string): Value {
    if f == "id" then Int(id)
    else if f == "title" then Text(p.title)
    else if f == "price" then Int(p.price)
    else if f == "description" then Text(p.description)
    else Null
  }

  function ReviewField(id: ReviewId, r: Review, f: string): Value {
    if f == "id" then Int(id)
    else if f == "name" then TextValue(r.name)
    else if f == "rating" then IntValue(r.rating)
    else if f == "comment" then TextValue(r.comment)
    else Null
  }

  /** A product rendered by a serializer with field list `fields`. */
  function RenderProduct(id: ProductId, p: Product, fields: seq<string>): (row: Row)
    ensures forall f :: f in row <==> f in fields
    ensures forall f :: f in row ==> row[f] == ProductField(id, p, f)
  {
    map f | f in fields :: ProductField(id, p, f)
  }

  /** A review rendered by a serializer with field list `fields`. */
  function RenderReview(id: ReviewId, r: Review, fields: seq<string>): (row: Row)
    ensures forall f :: f in row <==> f in fields
    ensures forall f :: f in row ==> row[f] == ReviewField(id, r, f)
  {
    map f | f in fields :: ReviewField(id, r, f)
  }

  /** A product list row is exactly id, title and price; a detail row adds the description; the owner is never rendered. */
  lemma ProductViewsShape(id: ProductId, p: Product, owner: UserId)
    ensures RenderProduct(id, p, ProductListFields).Keys == {"id", "title", "price"}
    ensures RenderProduct(id, p, ProductDetailFields).Keys == {"id", "title", "price", "description"}
    ensures RenderProduct(id, p.(owner := owner), ProductDetailFields) == RenderProduct(id, p, ProductDetailFields)
  {
    var l := RenderProduct(id, p, ProductListFields);
    var d := RenderProduct(id, p, ProductDetailFields);
    assert "id" in l && "title" in l && "price" in l;
    assert "id" in d && "title" in d && "price" in d && "description" in d;
  }

  /** A list row is the detail row restricted to the list fields. */
  lemma ProductListIsPartOfDetail(id: ProductId, p: Product)
    ensures var l, d := RenderProduct(id, p, ProductListFields), RenderProduct(id, p, ProductDetailFields);
      l.Keys <= d.Keys && forall f :: f in l ==> l[f] == d[f]
  {
  }

  /** A review list row is exactly id, name and rating; the detail row adds the comment; author and product are never rendered. */
  lemma ReviewViewsShape(id: ReviewId, r: Review, user: UserId, product: Option<ProductId>)
    ensures RenderReview(id, r, ReviewListFields).Keys == {"id", "name", "rating"}
    ensures RenderReview(id, r, ReviewDetailFields).Keys == {"id", "name", "rating", "comment"}
    ensures RenderReview(id, r.(user := user, product := product), ReviewDetailFields) == RenderReview(id, r, ReviewDetailFields)
  {
    var l := RenderReview(id, r, ReviewListFields);
    var d := RenderReview(id, r, ReviewDetailFields);
    assert "id" in l && "name" in l && "rating" in l;
    assert "id" in d && "name" in d && "rating" in d && "comment" in d;
  }

  /**
   * ProductDetailSerializer writing `payload` onto `p`: a full update
   * (partial = false) needs every writable field; only title, price and
   * description can change, the texts stored trimmed.
   */
  function PatchProduct(p: Product, payload: Row, partial: bool): (r: Option<Product>)
    ensures r.None? <==> (
      || (!partial && !(Writable(ProductDetailFields) <= payload.Keys))
      || ("title" in payload && !payload["title"].Text?)
      || ("price" in payload && !payload["price"].Int?)
      || ("description" in payload && !payload["description"].Text?))
    ensures r.Some? ==> r.value.owner == p.owner
    ensures r.Some? ==> r.value.title == (if "title" in payload then Cleaned(payload["title"].s) else p.title)
    ensures r.Some? ==> r.value.price == (if "price" in payload then payload["price"].i else p.price)
    ensures r.Some? ==> r.value.description == (if "description" in payload then Cleaned(payload["description"].s) else p.description)
  {
    var title := ReadText(payload, "title", p.title, true, None);
    var price := ReadInt(payload, "price", p.price);
    var description := ReadText(payload, "description", p.description, true, None);
    if !partial && !(Writable(ProductDetailFields) <= payload.Keys) then None
    else if title.None? || price.None? || description.None? then None
    else Some(p.(title := title.value, price := price.value, description := description.value))
  }

  /** Keys outside the writable fields never change the outcome of an update. */
  lemma PatchProductIgnoresOtherKeys(p: Product, payload: Row, partial: bool)
    ensures PatchProduct(p, payload, partial) == PatchProduct(p, Restrict(payload, Writable(ProductDetailFields)), partial)
  {
    var w := Writable(ProductDetailFields);
    var q := Restrict(payload, w);
    assert "title" in w && "price" in w && "description" in w;
    assert w == {"title", "price", "description"};
    assert (w <= payload.Keys) == (w <= q.Keys);
  }

  /** A product created from `payload`: a full write, with the owner the view supplies. */
  function NewProduct(payload: Row, owner: UserId): (r: Option<Product>)
    ensures r.Some? <==> (
      && Writable(ProductDetailFields) <= payload.Keys
      && payload["title"].Text? && payload["price"].Int? && payload["description"].Text?)
    ensures r.Some? ==> r.value == Product(owner, Cleaned(payload["title"].s), payload["price"].i, Cleaned(payload["description"].s))
  {
    assert Writable(ProductDetailFields) == {"title", "price", "description"};
    PatchProduct(Product(owner, "", 0, ""), payload, false)
  }

  /**
   * What ReviewDetailSerializer accepts: every field is optional; name and
   * comment are null or text (blank allowed), the name at most 200
   * characters once trimmed; the rating is null or an integer.
   */
  predicate ReviewPayloadOk(payload: Row) {
    && ("name" in payload ==> payload["name"].Null? || TextOk(payload["name"], true, Some(ReviewSchema.NameMaxLength)))
    && ("rating" in payload ==> payload["rating"].Null? || payload["rating"].Int?)
    && ("comment" in payload ==> payload["comment"].Null? || TextOk(payload["comment"], true, None))
  }

  /** A nullable text field as stored from a payload value: null, or the trimmed text. */
  function StoredText(v: Value): (s: Option<string>)
    ensures v.Null? ==> s.None?
    ensures v.Text? ==> s == Some(Cleaned(v.s))
  {
    if v.Text? then Some(Cleaned(v.s)) else None
  }

  /**
   * ReviewDetailSerializer writing `payload` onto `r`: the fields sent are
   * stored, the others kept; author, product and creation time never change.
   */
  function PatchReview(r: Review, payload: Row): (r': Option<Review>)
    ensures r'.Some? <==> ReviewPayloadOk(payload)
    ensures r'.Some? ==> r'.value.user == r.user && r'.value.product == r.product && r'.value.createdAt == r.createdAt
    ensures r'.Some? ==> r'.value.name == (if "name" in payload then StoredText(payload["name"]) else r.name)
    ensures r'.Some? ==> r'.value.rating == (if "rating" in payload then IntOf(payload["rating"]) else r.rating)
    ensures r'.Some? ==> r'.value.comment == (if "comment" in payload then StoredText(payload["comment"]) else r.comment)
    ensures "name" in payload && payload["name"].Text? && |Cleaned(payload["name"].s)| > ReviewSchema.NameMaxLength ==> r'.None?
    ensures ReviewSchema.WellFormed(r) && r'.Some? ==> ReviewSchema.WellFormed(r'.value)
  {
    var name := ReadNullableText(payload, "name", r.name, Some(ReviewSchema.NameMaxLength));
    var rating := ReadNullableInt(payload, "rating", r.rating);
    var comment := ReadNullableText(payload, "comment", r.comment, None);
    if name.None? || rating.None? || comment.None? then None
    else Some(r.(name := name.value, rating := rating.value, comment := comment.value))
  }

  /** A nullable integer field as stored from a payload value. */
  function IntOf(v: Value): (n: Option<int>)
    ensures v.Null? ==> n.None?
    ensures v.Int? ==> n == Some(v.i)
  {
    if v.Int? then Some(v.i) else None
  }

  /** A payload naming only the author or the product leaves the review as it was. */
  lemma PatchReviewIgnoresReferences(r: Review, payload: Row)
    requires payload.Keys <= {"user", "product"}
    ensures PatchReview(r, payload) == Some(r)
  {
    assert "name" !in payload && "rating" !in payload && "comment" !in payload;
  }

  /**
   * The unsaved review ReviewDetailSerializer builds from a create payload:
   * the fields sent are stored, omitted ones take the column defaults
   * (rating 0, the rest null), and neither author nor product is a
   * serializer field, so both stay unset.
   */
  function ReviewDraft(payload: Row, now: Time): (d: Option<ReviewSchema.Draft>)
    ensures d.Some? <==> ReviewPayloadOk(payload)
    ensures d.Some? ==> d.value.user == None && d.value.product == None && d.value.createdAt == now
    ensures d.Some? ==> d.value.name == (if "name" in payload then StoredText(payload["name"]) else None)
    ensures d.Some? ==> d.value.rating == (if "rating" in payload then IntOf(payload["rating"]) else ReviewSchema.DefaultRating)
    ensures d.Some? ==> d.value.comment == (if "comment" in payload then StoredText(payload["comment"]) else None)
    ensures d.Some? && d.value.name.Some? ==> |d.value.name.value| <= ReviewSchema.NameMaxLength
  {
    var name := ReadNullableText(payload, "name", None, Some(ReviewSchema.NameMaxLength));
    var rating := ReadNullableInt(payload, "rating", ReviewSchema.DefaultRating);
    var comment := ReadNullableText(payload, "comment", None, None);
    if name.None? || rating.None? || comment.None? then None
    else Some(ReviewSchema.Draft(None, None, name.value, rating.value, comment.value, now))
  }
}
