/**
 * The endpoints of the product app as methods over one store. Each
 * request is authenticated and permission-checked first (Policy.Gate),
 * then looked up in the viewset's queryset (404 when outside it), then
 * validated (400), and only then applied to the store. A refused request
 * leaves the store exactly as it was.
 */
module Views {
  import opened Wrappers
  import opened Records
  import opened Policy
  import opened Tables
  import PS = ProductSerializers
  import ReviewSchema
  import ItemSchema
  import OS = Orders
  import Email

  /**
   * A response body. Products and reviews are rendered through their
   * serializers; orders and items, whose serializers are not part of
   * this model, are returned as the stored records.
   */
  datatype Body =
    | Empty
    | One(row: Row)
    | Many(rows: map<nat, Row>)
    | OneOrder(id: OrderId, order: Order)
    | OrderTable(orders: map<OrderId, Order>)
    | OneItem(id: ItemId, item: OrderItem)
    | ItemTable(items: map<ItemId, OrderItem>)

  datatype Response = Response(status: Status, body: Body)

  function Refused(s: Status): Response {
    Response(s, Empty)
  }

  function UpdateAction(partial: bool): Action {
    if partial then PartialUpdate else Update
  }

  // ---------------------------------------------------------------------
  // ProductViewSet (e == Products) and ProductPrivateViewSet (e == PrivateProducts)

  ghost predicate ProductEndpoint(e: Endpoint) {
    e == Products || e == PrivateProducts
  }

  function ProductScope(db: Store, e: Endpoint, c: Caller): map<ProductId, Product>
    reads db
  {
    ProductQueryset(e, db.RoleOf(c), db.products)
  }

  /** GET on the product list: every product in scope, through the list serializer. */
  method ProductList(db: Store, e: Endpoint, c: Caller) returns (resp: Response)
    requires ProductEndpoint(e)
    ensures Gate(e, db.RoleOf(c), List).Some? ==> resp == Refused(Gate(e, db.RoleOf(c), List).value)
    ensures Gate(e, db.RoleOf(c), List).None? ==> resp.status == Ok200 && resp.body.Many?
    ensures resp.body.Many? ==> resp.body.rows.Keys == ProductScope(db, e, c).Keys
    ensures resp.body.Many? ==> forall id :: id in resp.body.rows ==>
      resp.body.rows[id] == PS.RenderProduct(id, db.products[id], PS.ProductListFields)
  {
    var g := Gate(e, db.RoleOf(c), List);
    if g.Some? {
      return Refused(g.value);
    }
    var scope := ProductScope(db, e, c);
    resp := Response(Ok200, Many(map id | id in scope :: PS.RenderProduct(id, scope[id], PS.ProductListFields)));
  }

  /** GET on one product: 404 unless it is in scope, else the detail serializer's row. */
  method ProductRetrieve(db: Store, e: Endpoint, c: Caller, id: ProductId) returns (resp: Response)
    requires ProductEndpoint(e)
    ensures Gate(e, db.RoleOf(c), Retrieve).Some? ==> resp == Refused(Gate(e, db.RoleOf(c), Retrieve).value)
    ensures Gate(e, db.RoleOf(c), Retrieve).None? && id !in ProductScope(db, e, c) ==> resp == Refused(NotFound404)
    ensures resp.status == Ok200 <==> Gate(e, db.RoleOf(c), Retrieve).None? && id in ProductScope(db, e, c)
    ensures resp.status == Ok200 ==> resp.body == One(PS.RenderProduct(id, db.products[id], PS.ProductDetailFields))
  {
    var g := Gate(e, db.RoleOf(c), Retrieve);
    if g.Some? {
      return Refused(g.value);
    }
    var scope := ProductScope(db, e, c);
    if id !in scope {
      return Refused(NotFound404);
    }
    resp := Response(Ok200, One(PS.RenderProduct(id, scope[id], PS.ProductDetailFields)));
  }

  /** POST on products: perform_create stores the caller as owner, whatever the payload says. */
  method ProductCreate(db: Store, e: Endpoint, c: Caller, payload: Row) returns (resp: Response, created: Option<ProductId>)
    requires db.Valid() && ProductEndpoint(e)
    modifies db
    ensures db.Valid()
    ensures old(Gate(e, db.RoleOf(c), Create)).Some? ==> resp == Refused(old(Gate(e, db.RoleOf(c), Create)).value)
    ensures resp.status == Created201 <==> old(Gate(e, db.RoleOf(c), Create)).None? && PS.NewProduct(payload, c.id).Some?
    ensures resp.status != Created201 ==> unchanged(db) && created.None?
    ensures resp.status != Created201 && old(Gate(e, db.RoleOf(c), Create)).None? ==> resp == Refused(BadRequest400)
    ensures resp.status == Created201 ==>
      && created.Some? && created.value !in old(db.products)
      && db.State() == old(db.State()).(products := old(db.products)[created.value := PS.NewProduct(payload, c.id).value])
      && db.products[created.value].owner == c.id
      && resp.body == One(PS.RenderProduct(created.value, db.products[created.value], PS.ProductDetailFields))
  {
    var role := db.RoleOf(c);
    var g := Gate(e, role, Create);
    if g.Some? {
      return Refused(g.value), None;
    }
    var p := PS.NewProduct(payload, role.id);
    if p.None? {
      return Refused(BadRequest400), None;
    }
    var id := db.AddProduct(p.value);
    resp, created := Response(Created201, One(PS.RenderProduct(id, p.value, PS.ProductDetailFields))), Some(id);
  }

  /** PUT (partial = false) or PATCH on a product in scope: only title, price and description change. */
  method ProductUpdate(db: Store, e: Endpoint, c: Caller, id: ProductId, payload: Row, partial: bool) returns (resp: Response)
    requires db.Valid() && ProductEndpoint(e)
    modifies db
    ensures db.Valid()
    ensures var g := old(Gate(e, db.RoleOf(c), UpdateAction(partial)));
      g.Some? ==> resp == Refused(g.value)
    ensures var g := old(Gate(e, db.RoleOf(c), UpdateAction(partial)));
      g.None? && id !in old(ProductScope(db, e, c)) ==> resp == Refused(NotFound404)
    ensures resp.status == Ok200 <==> (
      && old(Gate(e, db.RoleOf(c), UpdateAction(partial))).None?
      && id in old(ProductScope(db, e, c))
      && PS.PatchProduct(old(db.products[id]), payload, partial).Some?)
    ensures resp.status != Ok200 ==> unchanged(db)
    ensures resp.status == Ok200 ==>
      && db.State() == old(db.State()).(products := old(db.products)[id := PS.PatchProduct(old(db.products[id]), payload, partial).value])
      && db.products[id].owner == old(db.products[id].owner)
      && resp.body == One(PS.RenderProduct(id, db.products[id], PS.ProductDetailFields))
  {
    var g := Gate(e, db.RoleOf(c), UpdateAction(partial));
    if g.Some? {
      return Refused(g.value);
    }
    var scope := ProductScope(db, e, c);
    if id !in scope {
      return Refused(NotFound404);
    }
    var p := PS.PatchProduct(scope[id], payload, partial);
    if p.None? {
      return Refused(BadRequest400);
    }
    db.SaveProduct(id, p.value);
    resp := Response(Ok200, One(PS.RenderProduct(id, p.value, PS.ProductDetailFields)));
  }

  /** DELETE on a product in scope; its reviews and order items keep existing with no product. */
  method ProductDestroy(db: Store, e: Endpoint, c: Caller, id: ProductId) returns (resp: Response)
    requires db.Valid() && ProductEndpoint(e)
    modifies db
    ensures db.Valid()
    ensures old(Gate(e, db.RoleOf(c), Destroy)).Some? ==> resp == Refused(old(Gate(e, db.RoleOf(c), Destroy)).value)
    ensures old(Gate(e, db.RoleOf(c), Destroy)).None? && id !in old(ProductScope(db, e, c)) ==> resp == Refused(NotFound404)
    ensures resp.status == NoContent204 <==> old(Gate(e, db.RoleOf(c), Destroy)).None? && id in old(ProductScope(db, e, c))
    ensures resp.status != NoContent204 ==> unchanged(db)
    ensures resp.status == NoContent204 ==> resp.body == Empty && db.State() == old(db.State()).(
      products := old(db.products) - {id},
      reviews := ReviewSchema.AfterProductDelete(old(db.reviews), id),
      items := ItemSchema.AfterProductDelete(old(db.items), id))
  {
    var g := Gate(e, db.RoleOf(c), Destroy);
    if g.Some? {
      return Refused(g.value);
    }
    if id !in ProductScope(db, e, c) {
      return Refused(NotFound404);
    }
    db.DeleteProduct(id);
    resp := Response(NoContent204, Empty);
  }

  // ---------------------------------------------------------------------
  // ReviewViewSet: no get_queryset override, so every review is in scope

  /** GET on reviews: every stored review, through the list serializer. */
  method ReviewList(db: Store, c: Caller) returns (resp: Response)
    ensures Gate(Reviews, db.RoleOf(c), List).Some? ==> resp == Refused(Gate(Reviews, db.RoleOf(c), List).value)
    ensures Gate(Reviews, db.RoleOf(c), List).None? ==> resp.status == Ok200 && resp.body.Many?
    ensures resp.body.Many? ==> resp.body.rows.Keys == db.reviews.Keys
    ensures resp.body.Many? ==> forall id :: id in resp.body.rows ==>
      resp.body.rows[id] == PS.RenderReview(id, db.reviews[id], PS.ReviewListFields)
  {
    var g := Gate(Reviews, db.RoleOf(c), List);
    if g.Some? {
      return Refused(g.value);
    }
    resp := Response(Ok200, Many(map id | id in db.reviews :: PS.RenderReview(id, db.reviews[id], PS.ReviewListFields)));
  }

  method ReviewRetrieve(db: Store, c: Caller, id: ReviewId) returns (resp: Response)
    ensures Gate(Reviews, db.RoleOf(c), Retrieve).Some? ==> resp == Refused(Gate(Reviews, db.RoleOf(c), Retrieve).value)
    ensures Gate(Reviews, db.RoleOf(c), Retrieve).None? && id !in db.reviews ==> resp == Refused(NotFound404)
    ensures resp.status == Ok200 <==> Gate(Reviews, db.RoleOf(c), Retrieve).None? && id in db.reviews
    ensures resp.status == Ok200 ==> resp.body == One(PS.RenderReview(id, db.reviews[id], PS.ReviewDetailFields))
  {
    var g := Gate(Reviews, db.RoleOf(c), Retrieve);
    if g.Some? {
      return Refused(g.value);
    }
    if id !in db.reviews {
      return Refused(NotFound404);
    }
    resp := Response(Ok200, One(PS.RenderReview(id, db.reviews[id], PS.ReviewDetailFields)));
  }

  /**
   * POST on reviews as written: ReviewViewSet has no perform_create, and
   * neither author nor product is a serializer field, so the row reaching
   * the database has no author and the NOT NULL constraint on user_id
   * fails, which surfaces as a server error.
   */
  function ReviewCreateAsWritten(role: Role, payload: Row, now: Time): (resp: Response)
    ensures resp.status != Created201
    ensures Gate(Reviews, role, Create).None? && PS.ReviewDraft(payload, now).Some? ==> resp == Refused(ServerError500)
  {
    var g := Gate(Reviews, role, Create);
    if g.Some? then Refused(g.value)
    else match PS.ReviewDraft(payload, now)
      case None => Refused(BadRequest400)
      case Some(d) =>
        match ReviewSchema.Insert(d)
        case Failure(_) => Refused(ServerError500)
        case Success(_) => Response(Created201, Empty)
  }

  /** The payload of the review-creation test, which expects 201, gets a server error instead. */
  lemma ReviewCreateTestPayloadFails(uid: UserId, pid: ProductId, now: Time)
    ensures ReviewCreateAsWritten(Regular(uid), map[
      "user" := Int(uid), "product" := Int(pid), "name" := Text("review name"),
      "rating" := Int(5), "comment" := Text("this is the reviews comment")], now)
      == Refused(ServerError500)
  {
    var payload := map[
      "user" := Int(uid), "product" := Int(pid), "name" := Text("review name"),
      "rating" := Int(5), "comment" := Text("this is the reviews comment")];
    assert Email.Stripped(payload["name"].s) && |payload["name"].s| <= ReviewSchema.NameMaxLength;
    assert Email.Stripped(payload["comment"].s);
    assert PS.ReviewDraft(payload, now).Some?;
  }

  /** The corrected create's row: the validated draft with the caller as author. */
  function AuthoredReview(payload: Row, now: Time, author: UserId): (r: Option<Review>)
    ensures r.Some? <==> PS.ReviewPayloadOk(payload)
    ensures r.Some? ==> r.value.user == author && r.value.product == None && r.value.createdAt == now
    ensures r.Some? ==> ReviewSchema.WellFormed(r.value)
    ensures r.Some? ==> r.value.name == (if "name" in payload then PS.StoredText(payload["name"]) else None)
    ensures r.Some? ==> r.value.rating == (if "rating" in payload then PS.IntOf(payload["rating"]) else ReviewSchema.DefaultRating)
    ensures r.Some? ==> r.value.comment == (if "comment" in payload then PS.StoredText(payload["comment"]) else None)
  {
    match PS.ReviewDraft(payload, now)
    case None => None
    case Some(d) => Some(ReviewSchema.Insert(d.(user := Some(author))).value)
  }

  /** POST on reviews, corrected: perform_create stores the caller as author. */
  method ReviewCreate(db: Store, c: Caller, payload: Row, now: Time) returns (resp: Response, created: Option<ReviewId>)
    requires db.Valid()
    modifies db
    ensures db.Valid()
    ensures old(Gate(Reviews, db.RoleOf(c), Create)).Some? ==> resp == Refused(old(Gate(Reviews, db.RoleOf(c), Create)).value)
    ensures resp.status == Created201 <==> old(Gate(Reviews, db.RoleOf(c), Create)).None? && PS.ReviewDraft(payload, now).Some?
    ensures resp.status != Created201 ==> unchanged(db) && created.None?
    ensures resp.status != Created201 && old(Gate(Reviews, db.RoleOf(c), Create)).None? ==> resp == Refused(BadRequest400)
    ensures resp.status == Created201 ==>
      && created.Some? && created.value !in old(db.reviews)
      && db.State() == old(db.State()).(reviews := old(db.reviews)[created.value := AuthoredReview(payload, now, c.id).value])
      && db.reviews[created.value].user == c.id
      && resp.body == One(PS.RenderReview(created.value, db.reviews[created.value], PS.ReviewDetailFields))
  {
    var role := db.RoleOf(c);
    var g := Gate(Reviews, role, Create);
    if g.Some? {
      return Refused(g.value), None;
    }
    var r := AuthoredReview(payload, now, role.id);
    if r.None? {
      return Refused(BadRequest400), None;
    }
    var id := db.AddReview(r.value);
    resp, created := Response(Created201, One(PS.RenderReview(id, r.value, PS.ReviewDetailFields))), Some(id);
  }

  /** PUT or PATCH on any review: author and product are not fields, so they never change. */
  method ReviewUpdate(db: Store, c: Caller, id: ReviewId, payload: Row, partial: bool) returns (resp: Response)
    requires db.Valid()
    modifies db
    ensures db.Valid()
    ensures var g := old(Gate(Reviews, db.RoleOf(c), UpdateAction(partial)));
      g.Some? ==> resp == Refused(g.value)
    ensures var g := old(Gate(Reviews, db.RoleOf(c), UpdateAction(partial)));
      g.None? && id !in old(db.reviews) ==> resp == Refused(NotFound404)
    ensures resp.status == Ok200 <==> (
      && old(Gate(Reviews, db.RoleOf(c), UpdateAction(partial))).None?
      && id in old(db.reviews)
      && PS.PatchReview(old(db.reviews[id]), payload).Some?)
    ensures resp.status != Ok200 ==> unchanged(db)
    ensures resp.status == Ok200 ==>
      && db.State() == old(db.State()).(reviews := old(db.reviews)[id := PS.PatchReview(old(db.reviews[id]), payload).value])
      && db.reviews[id].user == old(db.reviews[id].user) && db.reviews[id].product == old(db.reviews[id].product)
      && resp.body == One(PS.RenderReview(id, db.reviews[id], PS.ReviewDetailFields))
  {
    var g := Gate(Reviews, db.RoleOf(c), UpdateAction(partial));
    if g.Some? {
      return Refused(g.value);
    }
    if id !in db.reviews {
      return Refused(NotFound404);
    }
    var r := PS.PatchReview(db.reviews[id], payload);
    if r.None? {
      return Refused(BadRequest400);
    }
    db.SaveReview(id, r.value);
    resp := Response(Ok200, One(PS.RenderReview(id, r.value, PS.ReviewDetailFields)));
  }

  method ReviewDestroy(db: Store, c: Caller, id: ReviewId) returns (resp: Response)
    requires db.Valid()
    modifies db
    ensures db.Valid()
    ensures old(Gate(Reviews, db.RoleOf(c), Destroy)).Some? ==> resp == Refused(old(Gate(Reviews, db.RoleOf(c), Destroy)).value)
    ensures old(Gate(Reviews, db.RoleOf(c), Destroy)).None? && id !in old(db.reviews) ==> resp == Refused(NotFound404)
    ensures resp.status == NoContent204 <==> old(Gate(Reviews, db.RoleOf(c), Destroy)).None? && id in old(db.reviews)
    ensures resp.status != NoContent204 ==> unchanged(db)
    ensures resp.status == NoContent204 ==> resp.body == Empty && db.State() == old(db.State()).(reviews := old(db.reviews) - {id})
  {
    var g := Gate(Reviews, db.RoleOf(c), Destroy);
    if g.Some? {
      return Refused(g.value);
    }
    if id !in db.reviews {
      return Refused(NotFound404);
    }
    db.DeleteReview(id);
    resp := Response(NoContent204, Empty);
  }

  // ---------------------------------------------------------------------
  // OrderViewSet (e == Orders) and OrderPrivateViewset (e == OrdersPrivate)

  ghost predicate OrderEndpoint(e: Endpoint) {
    e == Orders || e == OrdersPrivate
  }

  function OrderScope(db: Store, e: Endpoint, c: Caller): map<OrderId, Order>
    reads db
  {
    OrderQueryset(e, db.RoleOf(c), db.orders)
  }

  method OrderList(db: Store, e: Endpoint, c: Caller) returns (resp: Response)
    requires OrderEndpoint(e)
    ensures Gate(e, db.RoleOf(c), List).Some? ==> resp == Refused(Gate(e, db.RoleOf(c), List).value)
    ensures Gate(e, db.RoleOf(c), List).None? ==> resp == Response(Ok200, OrderTable(OrderScope(db, e, c)))
  {
    var g := Gate(e, db.RoleOf(c), List);
    if g.Some? {
      return Refused(g.value);
    }
    resp := Response(Ok200, OrderTable(OrderScope(db, e, c)));
  }

  /**
   * A queryset held in a class attribute, shared by every request the
   * process serves: the first evaluation fills its result cache and later
   * evaluations return the cached rows.
   */
  class ClassQueryset<T> {
    var cache: Option<map<nat, T>>

    constructor()
      ensures cache == None
    {
      cache := None;
    }

    method Evaluate(table: map<nat, T>) returns (rows: map<nat, T>)
      modifies this
      ensures rows == CachedRows(old(cache), table)
      ensures cache == Some(rows)
    {
      if cache.None? {
        cache := Some(table);
      }
      rows := cache.value;
    }
  }

  /** The rows an evaluation of a class-level queryset yields: the cached ones once there are any. */
  function CachedRows<T>(cache: Option<map<nat, T>>, table: map<nat, T>): (rows: map<nat, T>)
    ensures cache.None? ==> rows == table
    ensures cache.Some? ==> rows == cache.value
  {
    if cache.Some? then cache.value else table
  }

  /** After a first listing, a row added to the table is missing from every later listing. */
  lemma CachedRowsMissNewRows<T>(first: map<nat, T>, later: map<nat, T>, id: nat)
    requires id in later && id !in first
    ensures id !in CachedRows(Some(CachedRows(None, first)), later)
    ensures CachedRows(Some(CachedRows(None, first)), later) != later
  {
  }

  /**
   * GET on orders as written: the admin viewset's get_queryset returns
   * the class attribute itself rather than a copy, so its list serves the
   * rows cached by its first evaluation; the regular viewset filters, which
   * copies the queryset, and lists the current rows.
   */
  method OrderListAsWritten(db: Store, e: Endpoint, c: Caller, qs: ClassQueryset<Order>) returns (resp: Response)
    requires OrderEndpoint(e)
    modifies qs
    ensures Gate(e, db.RoleOf(c), List).Some? ==> resp == Refused(Gate(e, db.RoleOf(c), List).value) && unchanged(qs)
    ensures Gate(e, db.RoleOf(c), List).None? && e == OrdersPrivate ==>
      && resp == Response(Ok200, OrderTable(CachedRows(old(qs.cache), db.orders)))
      && qs.cache == Some(resp.body.orders)
    ensures Gate(e, db.RoleOf(c), List).None? && e != OrdersPrivate ==>
      resp == Response(Ok200, OrderTable(OrderScope(db, e, c))) && unchanged(qs)
  {
    var g := Gate(e, db.RoleOf(c), List);
    if g.Some? {
      return Refused(g.value);
    }
    if e == OrdersPrivate {
      var rows := qs.Evaluate(db.orders);
      resp := Response(Ok200, OrderTable(rows));
    } else {
      resp := Response(Ok200, OrderTable(OrderScope(db, e, c)));
    }
  }

  method OrderRetrieve(db: Store, e: Endpoint, c: Caller, id: OrderId) returns (resp: Response)
    requires OrderEndpoint(e)
    ensures Gate(e, db.RoleOf(c), Retrieve).Some? ==> resp == Refused(Gate(e, db.RoleOf(c), Retrieve).value)
    ensures Gate(e, db.RoleOf(c), Retrieve).None? && id !in OrderScope(db, e, c) ==> resp == Refused(NotFound404)
    ensures resp.status == Ok200 <==> Gate(e, db.RoleOf(c), Retrieve).None? && id in OrderScope(db, e, c)
    ensures resp.status == Ok200 ==> resp.body == OneOrder(id, db.orders[id])
  {
    var g := Gate(e, db.RoleOf(c), Retrieve);
    if g.Some? {
      return Refused(g.value);
    }
    var scope := OrderScope(db, e, c);
    if id !in scope {
      return Refused(NotFound404);
    }
    resp := Response(Ok200, OneOrder(id, scope[id]));
  }

  /** POST on orders (both viewsets): perform_create stores the caller as owner. */
  method OrderCreate(db: Store, e: Endpoint, c: Caller, payload: Row, now: Time) returns (resp: Response, created: Option<OrderId>)
    requires db.Valid() && OrderEndpoint(e)
    modifies db
    ensures db.Valid()
    ensures old(Gate(e, db.RoleOf(c), Create)).Some? ==> resp == Refused(old(Gate(e, db.RoleOf(c), Create)).value)
    ensures resp.status == Created201 <==> old(Gate(e, db.RoleOf(c), Create)).None? && OS.NewOrder(payload, c.id, now).Some?
    ensures resp.status != Created201 ==> unchanged(db) && created.None?
    ensures resp.status != Created201 && old(Gate(e, db.RoleOf(c), Create)).None? ==> resp == Refused(BadRequest400)
    ensures resp.status == Created201 ==>
      && created.Some? && created.value !in old(db.orders)
      && db.State() == old(db.State()).(orders := old(db.orders)[created.value := OS.NewOrder(payload, c.id, now).value])
      && db.orders[created.value].user == c.id
      && resp.body == OneOrder(created.value, db.orders[created.value])
  {
    var role := db.RoleOf(c);
    var g := Gate(e, role, Create);
    if g.Some? {
      return Refused(g.value), None;
    }
    var o := OS.NewOrder(payload, role.id, now);
    if o.None? {
      return Refused(BadRequest400), None;
    }
    var id := db.AddOrder(o.value);
    resp, created := Response(Created201, OneOrder(id, o.value)), Some(id);
  }

  /** PUT or PATCH on an order: 405 on OrderViewSet, any order for staff on OrderPrivateViewset. */
  method OrderUpdate(db: Store, e: Endpoint, c: Caller, id: OrderId, payload: Row, partial: bool) returns (resp: Response)
    requires db.Valid() && OrderEndpoint(e)
    modifies db
    ensures db.Valid()
    ensures var g := old(Gate(e, db.RoleOf(c), UpdateAction(partial)));
      g.Some? ==> resp == Refused(g.value)
    ensures var g := old(Gate(e, db.RoleOf(c), UpdateAction(partial)));
      g.None? && id !in old(OrderScope(db, e, c)) ==> resp == Refused(NotFound404)
    ensures resp.status == Ok200 <==> (
      && old(Gate(e, db.RoleOf(c), UpdateAction(partial))).None?
      && id in old(OrderScope(db, e, c))
      && OS.PatchOrder(old(db.orders[id]), payload, partial).Some?)
    ensures resp.status != Ok200 ==> unchanged(db)
    ensures resp.status == Ok200 ==>
      && db.State() == old(db.State()).(orders := old(db.orders)[id := OS.PatchOrder(old(db.orders[id]), payload, partial).value])
      && resp.body == OneOrder(id, db.orders[id])
  {
    var g := Gate(e, db.RoleOf(c), UpdateAction(partial));
    if g.Some? {
      return Refused(g.value);
    }
    var scope := OrderScope(db, e, c);
    if id !in scope {
      return Refused(NotFound404);
    }
    var o := OS.PatchOrder(scope[id], payload, partial);
    if o.None? {
      return Refused(BadRequest400);
    }
    db.SaveOrder(id, o.value);
    resp := Response(Ok200, OneOrder(id, o.value));
  }

  /** DELETE on an order: only the target row goes; its items stay with no order. */
  method OrderDestroy(db: Store, e: Endpoint, c: Caller, id: OrderId) returns (resp: Response)
    requires db.Valid() && OrderEndpoint(e)
    modifies db
    ensures db.Valid()
    ensures old(Gate(e, db.RoleOf(c), Destroy)).Some? ==> resp == Refused(old(Gate(e, db.RoleOf(c), Destroy)).value)
    ensures old(Gate(e, db.RoleOf(c), Destroy)).None? && id !in old(OrderScope(db, e, c)) ==> resp == Refused(NotFound404)
    ensures resp.status == NoContent204 <==> old(Gate(e, db.RoleOf(c), Destroy)).None? && id in old(OrderScope(db, e, c))
    ensures resp.status != NoContent204 ==> unchanged(db)
    ensures resp.status == NoContent204 ==> resp.body == Empty && db.State() == old(db.State()).(
      orders := old(db.orders) - {id},
      items := ItemSchema.AfterOrderDelete(old(db.items), id))
  {
    var g := Gate(e, db.RoleOf(c), Destroy);
    if g.Some? {
      return Refused(g.value);
    }
    if id !in OrderScope(db, e, c) {
      return Refused(NotFound404);
    }
    db.DeleteOrder(id);
    resp := Response(NoContent204, Empty);
  }

  // ---------------------------------------------------------------------
  // OrderItemViewset (e == OrderItems) and OrderItemPrivateViewset (e == OrderItemsPrivate)

  ghost predicate ItemEndpoint(e: Endpoint) {
    e == OrderItems || e == OrderItemsPrivate
  }

  function ItemScope(db: Store, e: Endpoint, c: Caller): map<ItemId, OrderItem>
    reads db
  {
    ItemQueryset(e, db.RoleOf(c), db.items, db.orders)
  }

  method ItemList(db: Store, e: Endpoint, c: Caller) returns (resp: Response)
    requires ItemEndpoint(e)
    ensures Gate(e, db.RoleOf(c), List).Some? ==> resp == Refused(Gate(e, db.RoleOf(c), List).value)
    ensures Gate(e, db.RoleOf(c), List).None? ==> resp == Response(Ok200, ItemTable(ItemScope(db, e, c)))
  {
    var g := Gate(e, db.RoleOf(c), List);
    if g.Some? {
      return Refused(g.value);
    }
    resp := Response(Ok200, ItemTable(ItemScope(db, e, c)));
  }

  /** GET on order items as written: the admin list serves the rows cached by its first evaluation, as for orders. */
  method ItemListAsWritten(db: Store, e: Endpoint, c: Caller, qs: ClassQueryset<OrderItem>) returns (resp: Response)
    requires ItemEndpoint(e)
    modifies qs
    ensures Gate(e, db.RoleOf(c), List).Some? ==> resp == Refused(Gate(e, db.RoleOf(c), List).value) && unchanged(qs)
    ensures Gate(e, db.RoleOf(c), List).None? && e == OrderItemsPrivate ==>
      && resp == Response(Ok200, ItemTable(CachedRows(old(qs.cache), db.items)))
      && qs.cache == Some(resp.body.items)
    ensures Gate(e, db.RoleOf(c), List).None? && e != OrderItemsPrivate ==>
      resp == Response(Ok200, ItemTable(ItemScope(db, e, c))) && unchanged(qs)
  {
    var g := Gate(e, db.RoleOf(c), List);
    if g.Some? {
      return Refused(g.value);
    }
    if e == OrderItemsPrivate {
      var rows := qs.Evaluate(db.items);
      resp := Response(Ok200, ItemTable(rows));
    } else {
      resp := Response(Ok200, ItemTable(ItemScope(db, e, c)));
    }
  }

  method ItemRetrieve(db: Store, e: Endpoint, c: Caller, id: ItemId) returns (resp: Response)
    requires ItemEndpoint(e)
    ensures Gate(e, db.RoleOf(c), Retrieve).Some? ==> resp == Refused(Gate(e, db.RoleOf(c), Retrieve).value)
    ensures Gate(e, db.RoleOf(c), Retrieve).None? && id !in ItemScope(db, e, c) ==> resp == Refused(NotFound404)
    ensures resp.status == Ok200 <==> Gate(e, db.RoleOf(c), Retrieve).None? && id in ItemScope(db, e, c)
    ensures resp.status == Ok200 ==> resp.body == OneItem(id, db.items[id])
  {
    var g := Gate(e, db.RoleOf(c), Retrieve);
    if g.Some? {
      return Refused(g.value);
    }
    var scope := ItemScope(db, e, c);
    if id !in scope {
      return Refused(NotFound404);
    }
    resp := Response(Ok200, OneItem(id, scope[id]));
  }

  /** POST on order items: any existing order may be named, the caller's or not. */
  method ItemCreate(db: Store, e: Endpoint, c: Caller, payload: Row, now: Time) returns (resp: Response, created: Option<ItemId>)
    requires db.Valid() && ItemEndpoint(e)
    modifies db
    ensures db.Valid()
    ensures old(Gate(e, db.RoleOf(c), Create)).Some? ==> resp == Refused(old(Gate(e, db.RoleOf(c), Create)).value)
    ensures resp.status == Created201 <==>
      old(Gate(e, db.RoleOf(c), Create)).None? && OS.NewItem(payload, now, old(db.orders.Keys), old(db.products.Keys)).Some?
    ensures resp.status != Created201 ==> unchanged(db) && created.None?
    ensures resp.status != Created201 && old(Gate(e, db.RoleOf(c), Create)).None? ==> resp == Refused(BadRequest400)
    ensures resp.status == Created201 ==>
      && created.Some? && created.value !in old(db.items)
      && db.State() == old(db.State()).(items := old(db.items)[created.value :=
           OS.NewItem(payload, now, old(db.orders.Keys), old(db.products.Keys)).value])
      && resp.body == OneItem(created.value, db.items[created.value])
  {
    var g := Gate(e, db.RoleOf(c), Create);
    if g.Some? {
      return Refused(g.value), None;
    }
    var item := OS.NewItem(payload, now, db.orders.Keys, db.products.Keys);
    if item.None? {
      return Refused(BadRequest400), None;
    }
    var id := db.AddItem(item.value);
    resp, created := Response(Created201, OneItem(id, item.value)), Some(id);
  }

  /** PUT or PATCH on an item: 405 on OrderItemViewset, any item for staff on OrderItemPrivateViewset. */
  method ItemUpdate(db: Store, e: Endpoint, c: Caller, id: ItemId, payload: Row, partial: bool) returns (resp: Response)
    requires db.Valid() && ItemEndpoint(e)
    modifies db
    ensures db.Valid()
    ensures var g := old(Gate(e, db.RoleOf(c), UpdateAction(partial)));
      g.Some? ==> resp == Refused(g.value)
    ensures var g := old(Gate(e, db.RoleOf(c), UpdateAction(partial)));
      g.None? && id !in old(ItemScope(db, e, c)) ==> resp == Refused(NotFound404)
    ensures resp.status == Ok200 <==> (
      && old(Gate(e, db.RoleOf(c), UpdateAction(partial))).None?
      && id in old(ItemScope(db, e, c))
      && OS.PatchItem(old(db.items[id]), payload, partial, old(db.orders.Keys), old(db.products.Keys)).Some?)
    ensures resp.status != Ok200 ==> unchanged(db)
    ensures resp.status == Ok200 ==>
      && db.State() == old(db.State()).(items := old(db.items)[id :=
           OS.PatchItem(old(db.items[id]), payload, partial, old(db.orders.Keys), old(db.products.Keys)).value])
      && resp.body == OneItem(id, db.items[id])
  {
    var g := Gate(e, db.RoleOf(c), UpdateAction(partial));
    if g.Some? {
      return Refused(g.value);
    }
    var scope := ItemScope(db, e, c);
    if id !in scope {
      return Refused(NotFound404);
    }
    var item := OS.PatchItem(scope[id], payload, partial, db.orders.Keys, db.products.Keys);
    if item.None? {
      return Refused(BadRequest400);
    }
    db.SaveItem(id, item.value);
    resp := Response(Ok200, OneItem(id, item.value));
  }

  /** DELETE on an item: only the target row goes. */
  method ItemDestroy(db: Store, e: Endpoint, c: Caller, id: ItemId) returns (resp: Response)
    requires db.Valid() && ItemEndpoint(e)
    modifies db
    ensures db.Valid()
    ensures old(Gate(e, db.RoleOf(c), Destroy)).Some? ==> resp == Refused(old(Gate(e, db.RoleOf(c), Destroy)).value)
    ensures old(Gate(e, db.RoleOf(c), Destroy)).None? && id !in old(ItemScope(db, e, c)) ==> resp == Refused(NotFound404)
    ensures resp.status == NoContent204 <==> old(Gate(e, db.RoleOf(c), Destroy)).None? && id in old(ItemScope(db, e, c))
    ensures resp.status != NoContent204 ==> unchanged(db)
    ensures resp.status == NoContent204 ==> resp.body == Empty && db.State() == old(db.State()).(items := old(db.items) - {id})
  {
    var g := Gate(e, db.RoleOf(c), Destroy);
    if g.Some? {
      return Refused(g.value);
    }
    if id !in ItemScope(db, e, c) {
      return Refused(NotFound404);
    }
    db.DeleteItem(id);
    resp := Response(NoContent204, Empty);
  }

  // ---------------------------------------------------------------------
  // ProcessOrder

  /** The id `request.data.get('order')` yields when it names a row at all. */
  function RequestedOrder(data: Row): (r: Option<OrderId>)
    ensures r.Some? <==> "order" in data && data["order"].Int? && data["order"].i >= 0
    ensures r.Some? ==> data["order"] == Int(r.value)
  {
    if "order" in data && data["order"].Int? && data["order"].i >= 0 then Some(data["order"].i) else None
  }

  /**
   * POST on the process view: the named order, whoever owns it, is
   * marked done at `now` and saved, even if it was processed before. A
   * missing or unknown id raises DoesNotExist, which the KeyError handler
   * does not catch, so the caller gets a server error.
   */
  method ProcessOrderPost(db: Store, c: Caller, data: Row, now: Time) returns (resp: Response)
    requires db.Valid()
    modifies db
    ensures db.Valid()
    ensures old(Gate(ProcessOrder, db.RoleOf(c), Create)).Some? ==> resp == Refused(old(Gate(ProcessOrder, db.RoleOf(c), Create)).value)
    ensures resp.status == Ok200 <==> (
      && old(Gate(ProcessOrder, db.RoleOf(c), Create)).None?
      && RequestedOrder(data).Some? && RequestedOrder(data).value in old(db.orders))
    ensures old(Gate(ProcessOrder, db.RoleOf(c), Create)).None? && resp.status != Ok200 ==> resp == Refused(ServerError500)
    ensures resp.status != Ok200 ==> unchanged(db)
    ensures resp.status == Ok200 ==>
      var id := RequestedOrder(data).value;
      && db.State() == old(db.State()).(orders := old(db.orders)[id := OS.Process(old(db.orders[id]), now)])
      && resp.body == OneOrder(id, db.orders[id])
  {
    var g := Gate(ProcessOrder, db.RoleOf(c), Create);
    if g.Some? {
      return Refused(g.value);
    }
    var id := RequestedOrder(data);
    if id.None? || id.value !in db.orders {
      return Refused(ServerError500);
    }
    var order := OS.Process(db.orders[id.value], now);
    db.SaveOrder(id.value, order);
    resp := Response(Ok200, OneOrder(id.value, order));
  }
}
