/**
 * The OrderItem table as migration 0006 creates it: a required name of at
 * most 255 characters, a price that is a decimal with 7 digits of which 2
 * are decimals, and order and product references that are both set to
 * null when the order or the product is deleted. Name and price are a
 * snapshot and no delete touches them.
 */
module ItemSchema {
  import opened Wrappers
  import opened Records

  const NameMaxLength: nat := 255
  const MaxDigits: nat := 7
  const DecimalPlaces: nat := 2

  function Pow10(k: nat): (r: nat)
    ensures r >= 1
  {
    if k == 0 then 1 else 10 * Pow10(k - 1)
  }

  /** The number of decimal digits of `n` (none for zero). */
  function Digits(n: nat): nat {
    if n == 0 then 0 else 1 + Digits(n / 10)
  }

  /** A price fits the column when its digits at two decimal places are at most seven. */
  predicate PriceFits(price: Cents) {
    Digits(if price < 0 then -price else price) <= MaxDigits
  }

  predicate NameFits(name: string) {
    |name| <= NameMaxLength
  }

  /** The column constraints a stored item satisfies. */
  predicate WellFormed(item: OrderItem) {
    NameFits(item.name) && PriceFits(item.price)
  }

  /** `n` has at most `k` digits exactly when it is below 10^k. */
  lemma {:induction false} DigitsBound(n: nat, k: nat)
    ensures Digits(n) <= k <==> n < Pow10(k)
  {
    if n == 0 {
    } else if k == 0 {
    } else {
      DigitsBound(n / 10, k - 1);
    }
  }

  /** The fixed-point bound in cents: at most 99999.99 in absolute value. */
  lemma PriceFitsBound(price: Cents)
    ensures PriceFits(price) <==> -10000000 < price < 10000000
  {
    DigitsBound(if price < 0 then -price else price, MaxDigits);
    assert Pow10(MaxDigits) == 10000000;
  }

  /** SET_NULL: the items of a deleted order survive, with no order. */
  function AfterOrderDelete(items: map<ItemId, OrderItem>, oid: OrderId): (r: map<ItemId, OrderItem>)
    ensures r.Keys == items.Keys
    ensures forall id :: id in r ==> r[id].order != Some(oid)
    ensures forall id :: id in r ==> r[id].(order := items[id].order) == items[id]
    ensures forall id :: id in r && items[id].order != Some(oid) ==> r[id] == items[id]
  {
    map id | id in items :: if items[id].order == Some(oid) then items[id].(order := None) else items[id]
  }

  /** SET_NULL: the items of a deleted product survive, with no product. */
  function AfterProductDelete(items: map<ItemId, OrderItem>, pid: ProductId): (r: map<ItemId, OrderItem>)
    ensures r.Keys == items.Keys
    ensures forall id :: id in r ==> r[id].product != Some(pid)
    ensures forall id :: id in r ==> r[id].(product := items[id].product) == items[id]
    ensures forall id :: id in r && items[id].product != Some(pid) ==> r[id] == items[id]
  {
    map id | id in items :: if items[id].product == Some(pid) then items[id].(product := None) else items[id]
  }

  /** The snapshot survives both deletes: every item keeps its name and price. */
  lemma DeletesKeepSnapshot(items: map<ItemId, OrderItem>, oid: OrderId, pid: ProductId)
    ensures var a := AfterOrderDelete(items, oid);
      forall id :: id in a ==> a[id].name == items[id].name && a[id].price == items[id].price
    ensures var b := AfterProductDelete(items, pid);
      forall id :: id in b ==> b[id].name == items[id].name && b[id].price == items[id].price
  {
    var a := AfterOrderDelete(items, oid);
    var b := AfterProductDelete(items, pid);
    forall id | id in a ensures a[id].name == items[id].name && a[id].price == items[id].price {
      assert a[id].(order := items[id].order) == items[id];
    }
    forall id | id in b ensures b[id].name == items[id].name && b[id].price == items[id].price {
      assert b[id].(product := items[id].product) == items[id];
    }
  }
}
