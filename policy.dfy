/**
 * Who may call which endpoint of the product app, which actions each
 * viewset offers, and which rows each one's queryset contains.
 *
 * A request is first authenticated and permission-checked, and only then
 * dispatched to an action, so a rejected caller never learns whether an
 * action exists: a guest is answered 401 and a signed-in non-staff user
 * 403 by the admin viewsets before any 405.
 */
module Policy {
  import opened Wrappers
  import opened Records

  /** The caller as the permission classes see it; Admin is a user whose is_staff flag is set. */
  datatype Role = Guest | Regular(id: UserId) | Admin(id: UserId)

  /** The role of a caller given the stored users; a token naming no stored user authenticates nobody. */
  function Resolve(c: Caller, users: map<UserId, User>): (r: Role)
    ensures r.Guest? <==> c.Anonymous? || c.id !in users
    ensures r.Admin? <==> c.SignedIn? && c.id in users && users[c.id].isStaff
    ensures !r.Guest? ==> c.SignedIn? && r.id == c.id
  {
    match c
    case Anonymous => Guest
    case SignedIn(id) =>
      if id !in users then Guest
      else if users[id].isStaff then Admin(id)
      else Regular(id)
  }

  datatype Action = List | Retrieve | Create | Update | PartialUpdate | Destroy

  /**
   * The viewsets and views of the product app: ProductViewSet,
   * ProductPrivateViewSet, ReviewViewSet, OrderViewSet, OrderPrivateViewset,
   * OrderItemViewset, OrderItemPrivateViewset and ProcessOrder.
   */
  datatype Endpoint =
    | Products
    | PrivateProducts
    | Reviews
    | Orders
    | OrdersPrivate
    | OrderItems
    | OrderItemsPrivate
    | ProcessOrder

  datatype Permission = AllowAny | IsAuthenticated | IsAdminUser

  function PermissionOf(e: Endpoint): Permission {
    match e
    case Products => AllowAny
    case OrdersPrivate => IsAdminUser
    case OrderItemsPrivate => IsAdminUser
    case _ => IsAuthenticated
  }

  const ReadOnly: set<Action> := {List, Retrieve}
  const CreateRetrieveList: set<Action> := {Create, Retrieve, List}
  const AllActions: set<Action> := {List, Retrieve, Create, Update, PartialUpdate, Destroy}

  /** The mixins each viewset is built from; ProcessOrder answers POST only. */
  function ActionsOf(e: Endpoint): set<Action> {
    match e
    case Products => ReadOnly
    case Orders => CreateRetrieveList
    case OrderItems => CreateRetrieveList
    case ProcessOrder => {Create}
    case _ => AllActions
  }

  predicate Grants(p: Permission, role: Role) {
    match p
    case AllowAny => true
    case IsAuthenticated => !role.Guest?
    case IsAdminUser => role.Admin?
  }

  /** The status a request is refused with before reaching its action, or None when it goes through. */
  function Gate(e: Endpoint, role: Role, a: Action): (r: Option<Status>)
    ensures r.None? <==> Grants(PermissionOf(e), role) && a in ActionsOf(e)
    ensures r.Some? ==> r.value in {Unauthorized401, Forbidden403, MethodNotAllowed405}
  {
    if !Grants(PermissionOf(e), role) then
      Some(if role.Guest? then Unauthorized401 else Forbidden403)
    else if a !in ActionsOf(e) then Some(MethodNotAllowed405)
    else None
  }

  /** A guest is answered 401 everywhere except by the public product viewset. */
  lemma GuestsAreUnauthorized(e: Endpoint, a: Action)
    requires e != Products
    ensures Gate(e, Guest, a) == Some(Unauthorized401)
  {
  }

  /** A signed-in caller may only create, retrieve and list on the regular order and order-item endpoints. */
  lemma RegularOrderEndpointsRejectMutation(e: Endpoint, role: Role, a: Action)
    requires e == Orders || e == OrderItems
    requires !role.Guest?
    requires a in {Update, PartialUpdate, Destroy}
    ensures Gate(e, role, a) == Some(MethodNotAllowed405)
  {
  }

  /** The admin viewsets serve every action to staff and no action to anybody else. */
  lemma AdminEndpointsNeedStaff(e: Endpoint, role: Role, a: Action)
    requires e == OrdersPrivate || e == OrderItemsPrivate
    ensures Gate(e, role, a).None? <==> role.Admin?
    ensures role.Regular? ==> Gate(e, role, a) == Some(Forbidden403)
  {
  }

  /** OrderPrivateViewset and OrderItemPrivateViewset extend their regular viewsets with update and destroy. */
  lemma AdminEndpointsExtendRegular()
    ensures ActionsOf(OrdersPrivate) == ActionsOf(Orders) + {Update, PartialUpdate, Destroy}
    ensures ActionsOf(OrderItemsPrivate) == ActionsOf(OrderItems) + {Update, PartialUpdate, Destroy}
  {
  }

  // Querysets. A guest never reaches one of a viewset that requires
  // authentication; the empty table for it keeps the functions total.

  /** `ProductPrivateViewSet.get_queryset`: the caller's own products; ProductViewSet: all. */
  function ProductQueryset(e: Endpoint, role: Role, products: map<ProductId, Product>): (r: map<ProductId, Product>)
    ensures forall id :: id in r ==> id in products && r[id] == products[id]
    ensures e != PrivateProducts ==> r == products
    ensures e == PrivateProducts ==> forall id :: id in r <==> id in products && !role.Guest? && products[id].owner == role.id
  {
    if e != PrivateProducts then products
    else if role.Guest? then map[]
    else map id | id in products && products[id].owner == role.id :: products[id]
  }

  /** `OrderViewSet.get_queryset`: the caller's own orders; OrderPrivateViewset: all. */
  function OrderQueryset(e: Endpoint, role: Role, orders: map<OrderId, Order>): (r: map<OrderId, Order>)
    ensures forall id :: id in r ==> id in orders && r[id] == orders[id]
    ensures e == OrdersPrivate ==> r == orders
    ensures e != OrdersPrivate ==> forall id :: id in r <==> id in orders && !role.Guest? && orders[id].user == role.id
  {
    if e == OrdersPrivate then orders
    else if role.Guest? then map[]
    else map id | id in orders && orders[id].user == role.id :: orders[id]
  }

  /** `OrderItemViewset.get_queryset` (order__user = caller): items whose order the caller owns; the admin viewset: all. */
  function ItemQueryset(e: Endpoint, role: Role, items: map<ItemId, OrderItem>, orders: map<OrderId, Order>)
    : (r: map<ItemId, OrderItem>)
    ensures forall id :: id in r ==> id in items && r[id] == items[id]
    ensures e == OrderItemsPrivate ==> r == items
    ensures e != OrderItemsPrivate ==> forall id :: id in r <==> (
      && id in items && !role.Guest?
      && items[id].order.Some? && items[id].order.value in orders
      && orders[items[id].order.value].user == role.id)
  {
    if e == OrderItemsPrivate then items
    else if role.Guest? then map[]
    else map id | id in items && items[id].order.Some? && items[id].order.value in orders
                  && orders[items[id].order.value].user == role.id :: items[id]
  }

  /** An item is in a caller's item queryset exactly when its order is in the caller's order queryset. */
  lemma ItemScopeFollowsOrderScope(role: Role, items: map<ItemId, OrderItem>, orders: map<OrderId, Order>, id: ItemId)
    requires id in items
    ensures id in ItemQueryset(OrderItems, role, items, orders) <==>
      items[id].order.Some? && items[id].order.value in OrderQueryset(Orders, role, orders)
  {
  }

  /** Items without an order, or whose order belongs to someone else, never appear to a regular caller. */
  lemma ItemScopeExcludesOrphansAndForeign(role: Role, items: map<ItemId, OrderItem>, orders: map<OrderId, Order>, id: ItemId)
    requires !role.Guest? && id in items
    requires items[id].order.None? || (items[id].order.value in orders && orders[items[id].order.value].user != role.id)
    ensures id !in ItemQueryset(OrderItems, role, items, orders)
  {
  }
}
