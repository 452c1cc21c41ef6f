/**
 * What the order and order-item endpoints accept, and the one lifecycle
 * step of an order. The order and order-item serializers are not part of
 * this model: an order's writable fields are those its test payloads send
 * (price, done, processed_at), an item's are the columns of migration 0006
 * (name, price, order, product). In both, the owner is not writable.
 */
module Orders {
  import opened Wrappers
  import opened Records
  import opened Payloads
  import ItemSchema
  import Email

  const OrderWritable: set<string> := {"price", "done", "processed_at"}
  const OrderRequired: set<string> := {"price"}
  const ItemWritable: set<string> := {"name", "price", "order", "product"}
  const ItemRequired: set<string> := {"name", "price"}

  /** An instant field: null or a time. */
  function ReadInstant(payload: Row, f: string, current: Option<Time>): Option<Option<Time>> {
    ReadNullableInt(payload, f, current)
  }

  /** What an order write accepts: price required unless partial; each field sent has its type. */
  predicate OrderPayloadOk(payload: Row, partial: bool) {
    && (partial || OrderRequired <= payload.Keys)
    && ("price" in payload ==> payload["price"].Int?)
    && ("done" in payload ==> payload["done"].Flag?)
    && ("processed_at" in payload ==> payload["processed_at"].Null? || payload["processed_at"].Int?)
  }

  /** Writing `payload` onto an order: the fields sent are stored, the owner and the creation time never change. */
  function PatchOrder(o: Order, payload: Row, partial: bool): (r: Option<Order>)
    ensures r.Some? <==> OrderPayloadOk(payload, partial)
    ensures r.Some? ==> r.value.user == o.user && r.value.createdAt == o.createdAt
    ensures r.Some? && "price" !in payload ==> r.value.price == o.price
    ensures r.Some? && "done" !in payload ==> r.value.done == o.done
    ensures r.Some? && "processed_at" !in payload ==> r.value.processedAt == o.processedAt
    ensures r.Some? && "price" in payload ==> payload["price"] == Int(r.value.price)
    ensures r.Some? && "done" in payload ==> payload["done"] == Flag(r.value.done)
    ensures r.Some? && "processed_at" in payload ==> payload["processed_at"] == IntValue(r.value.processedAt)
  {
    var price := ReadInt(payload, "price", o.price);
    var done := ReadFlag(payload, "done", o.done);
    var processedAt := ReadInstant(payload, "processed_at", o.processedAt);
    if !partial && !(OrderRequired <= payload.Keys) then None
    else if price.None? || done.None? || processedAt.None? then None
    else Some(o.(price := price.value, done := done.value, processedAt := processedAt.value))
  }

  /** An order created from `payload`, owned by `owner`: the fields sent are stored, pending unless the payload says otherwise. */
  function NewOrder(payload: Row, owner: UserId, now: Time): (r: Option<Order>)
    ensures r.Some? <==> OrderPayloadOk(payload, false)
    ensures r.Some? ==> r.value.user == owner && r.value.createdAt == now
    ensures r.Some? ==> "price" in payload && payload["price"] == Int(r.value.price)
    ensures r.Some? ==> (if "done" in payload then payload["done"] == Flag(r.value.done) else !r.value.done)
    ensures r.Some? ==>
      if "processed_at" in payload then payload["processed_at"] == IntValue(r.value.processedAt)
      else r.value.processedAt == None
  {
    PatchOrder(Order(owner, 0, false, None, now), payload, false)
  }

  /** The payload of the order-creation test (price 7.99, not done, processed now, an owner id) is stored as sent, owned by the caller. */
  lemma CreateOrderTestPayload(owner: UserId, sentUser: UserId, now: Time, t: Time)
    ensures NewOrder(map["user" := Int(sentUser), "price" := Int(799), "done" := Flag(false), "processed_at" := Int(t)], owner, now)
      == Some(Order(owner, 799, false, Some(t), now))
  {
    var payload := map["user" := Int(sentUser), "price" := Int(799), "done" := Flag(false), "processed_at" := Int(t)];
    assert OrderPayloadOk(payload, false);
  }

  /** An owner named in the payload never reaches the stored order. */
  lemma NewOrderIgnoresPayloadOwner(payload: Row, owner: UserId, now: Time)
    ensures NewOrder(payload, owner, now) == NewOrder(Restrict(payload, OrderWritable), owner, now)
  {
    var q := Restrict(payload, OrderWritable);
    assert (OrderRequired <= payload.Keys) == (OrderRequired <= q.Keys);
  }

  /** ProcessOrder.post: done becomes true and processed_at the current instant; nothing else changes. */
  function Process(o: Order, now: Time): (r: Order)
    ensures r.done && r.processedAt == Some(now)
    ensures r.user == o.user && r.price == o.price && r.createdAt == o.createdAt
  {
    o.(done := true, processedAt := Some(now))
  }

  /** No guard against processing twice: the second call only re-stamps processed_at. */
  lemma ProcessTwiceRestamps(o: Order, t1: Time, t2: Time)
    ensures Process(Process(o, t1), t2) == Process(o, t2)
    ensures Process(Process(o, t1), t2).processedAt != Process(o, t1).processedAt <==> t1 != t2
  {
  }

  /** An item name the serializer accepts: not blank once trimmed, and within the column's 255 characters. */
  function ReadName(payload: Row, current: string): (r: Option<string>)
    ensures r.Some? <==> ("name" in payload ==> TextOk(payload["name"], false, Some(ItemSchema.NameMaxLength)))
    ensures r.Some? && "name" !in payload ==> r.value == current
    ensures r.Some? && "name" in payload ==> r.value == Cleaned(payload["name"].s) && r.value != "" && ItemSchema.NameFits(r.value)
  {
    ReadText(payload, "name", current, false, Some(ItemSchema.NameMaxLength))
  }

  /** A price the column accepts: at most seven digits, two of them decimals. */
  function ReadPrice(payload: Row, current: Cents): (r: Option<Cents>)
    ensures r.Some? <==> ("price" in payload ==> payload["price"].Int? && ItemSchema.PriceFits(payload["price"].i))
    ensures r.Some? && "price" !in payload ==> r.value == current
    ensures r.Some? && "price" in payload ==> payload["price"] == Int(r.value) && ItemSchema.PriceFits(r.value)
  {
    if "price" !in payload then Some(current)
    else if payload["price"].Int? && ItemSchema.PriceFits(payload["price"].i) then Some(payload["price"].i)
    else None
  }

  /** A nullable reference the payload may send: null or the id of an existing row. */
  predicate RefOk(payload: Row, f: string, ids: set<nat>) {
    f in payload ==> payload[f].Null? || (payload[f].Int? && payload[f].i >= 0 && payload[f].i in ids)
  }

  /** What an item write accepts: name and price required unless partial; each field sent passes its check. */
  predicate ItemPayloadOk(payload: Row, partial: bool, orderIds: set<OrderId>, productIds: set<ProductId>) {
    && (partial || ItemRequired <= payload.Keys)
    && ("name" in payload ==> TextOk(payload["name"], false, Some(ItemSchema.NameMaxLength)))
    && ("price" in payload ==> payload["price"].Int? && ItemSchema.PriceFits(payload["price"].i))
    && RefOk(payload, "order", orderIds)
    && RefOk(payload, "product", productIds)
  }

  /**
   * Writing `payload` onto an item: the fields sent are stored (the name
   * trimmed), the others kept; a referenced order or product must exist;
   * the item keeps its creation time.
   */
  function PatchItem(item: OrderItem, payload: Row, partial: bool, orderIds: set<OrderId>, productIds: set<ProductId>)
    : (r: Option<OrderItem>)
    ensures r.Some? <==> ItemPayloadOk(payload, partial, orderIds, productIds)
    ensures r.Some? ==> r.value.createdAt == item.createdAt
    ensures r.Some? && ItemSchema.WellFormed(item) ==> ItemSchema.WellFormed(r.value)
    ensures r.Some? && "name" !in payload ==> r.value.name == item.name
    ensures r.Some? && "price" !in payload ==> r.value.price == item.price
    ensures r.Some? && "order" !in payload ==> r.value.order == item.order
    ensures r.Some? && "product" !in payload ==> r.value.product == item.product
    ensures r.Some? && "name" in payload ==> r.value.name == Cleaned(payload["name"].s)
    ensures r.Some? && "price" in payload ==> payload["price"] == Int(r.value.price)
    ensures r.Some? && "order" in payload ==> payload["order"] == IntValue(r.value.order)
    ensures r.Some? && "product" in payload ==> payload["product"] == IntValue(r.value.product)
    ensures r.Some? && "order" in payload && r.value.order.Some? ==> r.value.order.value in orderIds
    ensures r.Some? && "product" in payload && r.value.product.Some? ==> r.value.product.value in productIds
  {
    var name := ReadName(payload, item.name);
    var price := ReadPrice(payload, item.price);
    var order := ReadNullableRef(payload, "order", item.order, orderIds);
    var product := ReadNullableRef(payload, "product", item.product, productIds);
    if !partial && !(ItemRequired <= payload.Keys) then None
    else if name.None? || price.None? || order.None? || product.None? then None
    else Some(item.(name := name.value, price := price.value, order := order.value, product := product.value))
  }

  /** An item created from `payload`: name and price are required, order and product default to null. */
  function NewItem(payload: Row, now: Time, orderIds: set<OrderId>, productIds: set<ProductId>): (r: Option<OrderItem>)
    ensures r.Some? <==> ItemPayloadOk(payload, false, orderIds, productIds)
    ensures r.Some? ==> ItemSchema.WellFormed(r.value) && r.value.createdAt == now
    ensures r.Some? ==> "name" in payload && r.value.name == Cleaned(payload["name"].s) && r.value.name != ""
    ensures r.Some? ==> "price" in payload && payload["price"] == Int(r.value.price)
    ensures r.Some? ==> if "order" in payload then payload["order"] == IntValue(r.value.order) else r.value.order == None
    ensures r.Some? ==> if "product" in payload then payload["product"] == IntValue(r.value.product) else r.value.product == None
    ensures r.Some? ==> (r.value.order.None? || r.value.order.value in orderIds)
    ensures r.Some? ==> (r.value.product.None? || r.value.product.value in productIds)
  {
    PatchItem(OrderItem(None, None, "", 0, now), payload, false, orderIds, productIds)
  }

  /** The payload of the item-creation test refers to an existing order and product and is stored as sent. */
  lemma CreateItemTestPayload(o: OrderId, p: ProductId, now: Time, orderIds: set<OrderId>, productIds: set<ProductId>)
    requires o in orderIds && p in productIds
    ensures NewItem(map["product" := Int(p), "order" := Int(o), "name" := Text("orderitem default name."), "price" := Int(550)],
                    now, orderIds, productIds)
      == Some(OrderItem(Some(o), Some(p), "orderitem default name.", 550, now))
  {
    var payload := map["product" := Int(p), "order" := Int(o), "name" := Text("orderitem default name."), "price" := Int(550)];
    assert Email.Stripped(payload["name"].s) && Cleaned(payload["name"].s) == payload["name"].s;
    ItemSchema.PriceFitsBound(550);
    assert ItemPayloadOk(payload, false, orderIds, productIds);
  }
}
