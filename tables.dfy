/**
 * The five tables as one in-memory store, with the saves and deletes the
 * views perform on it. A store is consistent when ids are below their
 * table's next id, emails are unique, every reference names a stored row
 * and every review and item satisfies its column constraints; every
 * operation here keeps it so. Deleting a product or an order applies the
 * on_delete rules of migrations 0004 and 0006 to the tables that refer to it.
 */
module Tables {
  import opened Wrappers
  import opened Records
  import Email
  import Accounts
  import ReviewSchema
  import ItemSchema
  import Policy

  /** The contents of the five tables at one moment. */
  datatype Db = Db(
    users: map<UserId, User>,
    products: map<ProductId, Product>,
    reviews: map<ReviewId, Review>,
    orders: map<OrderId, Order>,
    items: map<ItemId, OrderItem>)

  predicate RefOk<T>(ref: Option<nat>, table: map<nat, T>) {
    ref.None? || ref.value in table
  }

  ghost predicate Below<T>(table: map<nat, T>, next: nat) {
    forall id :: id in table ==> id < next
  }

  /** The unique constraint on User.email. */
  ghost predicate UniqueEmails(users: map<UserId, User>) {
    forall a, b :: a in users && b in users && users[a].email == users[b].email ==> a == b
  }

  ghost predicate ProductsOk(products: map<ProductId, Product>, users: map<UserId, User>) {
    forall p :: p in products ==> products[p].owner in users
  }

  ghost predicate ReviewsOk(reviews: map<ReviewId, Review>, users: map<UserId, User>, products: map<ProductId, Product>) {
    forall r :: r in reviews ==>
      && reviews[r].user in users
      && RefOk(reviews[r].product, products)
      && ReviewSchema.WellFormed(reviews[r])
  }

  ghost predicate OrdersOk(orders: map<OrderId, Order>, users: map<UserId, User>) {
    forall o :: o in orders ==> orders[o].user in users
  }

  ghost predicate ItemsOk(items: map<ItemId, OrderItem>, orders: map<OrderId, Order>, products: map<ProductId, Product>) {
    forall i :: i in items ==>
      && RefOk(items[i].order, orders)
      && RefOk(items[i].product, products)
      && ItemSchema.WellFormed(items[i])
  }

  ghost predicate Consistent(db: Db) {
    && UniqueEmails(db.users)
    && ProductsOk(db.products, db.users)
    && ReviewsOk(db.reviews, db.users, db.products)
    && OrdersOk(db.orders, db.users)
    && ItemsOk(db.items, db.orders, db.products)
  }

  class Store {
    var users: map<UserId, User>
    var products: map<ProductId, Product>
    var reviews: map<ReviewId, Review>
    var orders: map<OrderId, Order>
    var items: map<ItemId, OrderItem>
    var nextUser: nat
    var nextProduct: nat
    var nextReview: nat
    var nextOrder: nat
    var nextItem: nat
    /** The password hasher behind set_password and check_password. */
    const hash: string -> Digest

    function State(): Db
      reads this
    {
      Db(users, products, reviews, orders, items)
    }

    ghost predicate Valid()
      reads this
    {
      && Below(users, nextUser) && Below(products, nextProduct) && Below(reviews, nextReview)
      && Below(orders, nextOrder) && Below(items, nextItem)
      && Consistent(State())
    }

    constructor (hash: string -> Digest)
      ensures Valid() && this.hash == hash
      ensures State() == Db(map[], map[], map[], map[], map[])
    {
      this.hash := hash;
      users, products, reviews, orders, items := map[], map[], map[], map[], map[];
      nextUser, nextProduct, nextReview, nextOrder, nextItem := 0, 0, 0, 0, 0;
    }

    /** The role the permission classes see for `c`. */
    function RoleOf(c: Caller): Policy.Role
      reads this
    {
      Policy.Resolve(c, users)
    }

    function Emails(): (r: set<string>)
      reads this
      ensures forall e :: e in r <==> exists id :: id in users && users[id].email == e
    {
      set id | id in users :: users[id].email
    }

    /**
     * UserManager.create_user: an empty email raises and nothing is
     * stored; otherwise the user with the normalised email, the hashed
     * password and the default flags is saved, unless the unique
     * constraint rejects it.
     */
    method CreateUser(email: string, password: Option<string>) returns (r: Result<UserId, Accounts.AccountError>)
      requires Valid()
      modifies this
      ensures Valid()
      ensures email == "" ==> r == Failure(Accounts.EmailRequired)
      ensures r.Success? <==> email != "" && Email.Normalize(email) !in old(Emails())
      ensures r.Failure? ==> unchanged(this)
      ensures r.Success? ==> r.value !in old(users)
      ensures r.Success? ==> State() == old(State()).(users := old(users)[r.value := Accounts.NewUser(email, password, hash).value])
    {
      if email == "" {
        return Failure(Accounts.EmailRequired);
      }
      var user := Accounts.Blank(Email.Normalize(email));
      user := Accounts.SetPassword(user, password, hash);
      if user.email in Emails() {
        return Failure(Accounts.EmailTaken);
      }
      var id := nextUser;
      users := users[id := user];
      nextUser := nextUser + 1;
      r := Success(id);
    }

    /** UserManager.create_superuser: create_user, then is_staff and is_superuser set and saved. */
    method CreateSuperuser(email: string, password: Option<string>) returns (r: Result<UserId, Accounts.AccountError>)
      requires Valid()
      modifies this
      ensures Valid()
      ensures r.Success? <==> email != "" && Email.Normalize(email) !in old(Emails())
      ensures r.Failure? ==> unchanged(this)
      ensures r.Success? ==> r.value !in old(users)
      ensures r.Success? ==> State() == old(State()).(users := old(users)[r.value := Accounts.Promote(Accounts.NewUser(email, password, hash).value)])
    {
      r := CreateUser(email, password);
      if r.Success? {
        var user := users[r.value];
        user := user.(isStaff := true, isSuperuser := true);
        users := users[r.value := user];
      }
    }

    /** Saving a changed user whose email no other user has. */
    method SaveUser(id: UserId, u: User)
      requires Valid() && id in users
      requires forall other :: other in users && other != id ==> users[other].email != u.email
      modifies this`users
      ensures Valid()
      ensures State() == old(State()).(users := old(users)[id := u])
    {
      users := users[id := u];
    }

    method AddProduct(p: Product) returns (id: ProductId)
      requires Valid() && p.owner in users
      modifies this`products, this`nextProduct
      ensures Valid()
      ensures id !in old(products)
      ensures State() == old(State()).(products := old(products)[id := p])
    {
      id := nextProduct;
      products := products[id := p];
      nextProduct := nextProduct + 1;
    }

    method SaveProduct(id: ProductId, p: Product)
      requires Valid() && id in products && p.owner in users
      modifies this`products
      ensures Valid()
      ensures State() == old(State()).(products := old(products)[id := p])
    {
      products := products[id := p];
    }

    /** Deleting a product: its reviews and order items survive with no product. */
    method DeleteProduct(id: ProductId)
      requires Valid() && id in products
      modifies this`products, this`reviews, this`items
      ensures Valid()
      ensures State() == old(State()).(
        products := old(products) - {id},
        reviews := ReviewSchema.AfterProductDelete(old(reviews), id),
        items := ItemSchema.AfterProductDelete(old(items), id))
    {
      ReviewsAfterProductDelete(reviews, users, products, id);
      ItemsAfterProductDelete(items, orders, products, id);
      products := products - {id};
      reviews := ReviewSchema.AfterProductDelete(reviews, id);
      items := ItemSchema.AfterProductDelete(items, id);
    }

    method AddReview(r: Review) returns (id: ReviewId)
      requires Valid() && r.user in users && RefOk(r.product, products) && ReviewSchema.WellFormed(r)
      modifies this`reviews, this`nextReview
      ensures Valid()
      ensures id !in old(reviews)
      ensures State() == old(State()).(reviews := old(reviews)[id := r])
    {
      id := nextReview;
      reviews := reviews[id := r];
      nextReview := nextReview + 1;
    }

    method SaveReview(id: ReviewId, r: Review)
      requires Valid() && id in reviews && r.user in users && RefOk(r.product, products) && ReviewSchema.WellFormed(r)
      modifies this`reviews
      ensures Valid()
      ensures State() == old(State()).(reviews := old(reviews)[id := r])
    {
      reviews := reviews[id := r];
    }

    method DeleteReview(id: ReviewId)
      requires Valid() && id in reviews
      modifies this`reviews
      ensures Valid()
      ensures State() == old(State()).(reviews := old(reviews) - {id})
    {
      reviews := reviews - {id};
    }

    method AddOrder(o: Order) returns (id: OrderId)
      requires Valid() && o.user in users
      modifies this`orders, this`nextOrder
      ensures Valid()
      ensures id !in old(orders)
      ensures State() == old(State()).(orders := old(orders)[id := o])
    {
      id := nextOrder;
      orders := orders[id := o];
      nextOrder := nextOrder + 1;
    }

    method SaveOrder(id: OrderId, o: Order)
      requires Valid() && id in orders && o.user in users
      modifies this`orders
      ensures Valid()
      ensures State() == old(State()).(orders := old(orders)[id := o])
    {
      orders := orders[id := o];
    }

    /** Deleting an order: its items survive with no order. */
    method DeleteOrder(id: OrderId)
      requires Valid() && id in orders
      modifies this`orders, this`items
      ensures Valid()
      ensures State() == old(State()).(
        orders := old(orders) - {id},
        items := ItemSchema.AfterOrderDelete(old(items), id))
    {
      ItemsAfterOrderDelete(items, orders, products, id);
      orders := orders - {id};
      items := ItemSchema.AfterOrderDelete(items, id);
    }

    method AddItem(item: OrderItem) returns (id: ItemId)
      requires Valid() && RefOk(item.order, orders) && RefOk(item.product, products) && ItemSchema.WellFormed(item)
      modifies this`items, this`nextItem
      ensures Valid()
      ensures id !in old(items)
      ensures State() == old(State()).(items := old(items)[id := item])
    {
      id := nextItem;
      items := items[id := item];
      nextItem := nextItem + 1;
    }

    method SaveItem(id: ItemId, item: OrderItem)
      requires Valid() && id in items && RefOk(item.order, orders) && RefOk(item.product, products)
      requires ItemSchema.WellFormed(item)
      modifies this`items
      ensures Valid()
      ensures State() == old(State()).(items := old(items)[id := item])
    {
      items := items[id := item];
    }

    method DeleteItem(id: ItemId)
      requires Valid() && id in items
      modifies this`items
      ensures Valid()
      ensures State() == old(State()).(items := old(items) - {id})
    {
      items := items - {id};
    }
  }

  /** SET_NULL on Review.product: no review refers to the deleted product afterwards. */
  lemma ReviewsAfterProductDelete(reviews: map<ReviewId, Review>, users: map<UserId, User>, products: map<ProductId, Product>, id: ProductId)
    requires ReviewsOk(reviews, users, products)
    ensures ReviewsOk(ReviewSchema.AfterProductDelete(reviews, id), users, products - {id})
  {
    var after := ReviewSchema.AfterProductDelete(reviews, id);
    ReviewSchema.AfterProductDeleteKeepsWellFormed(reviews, id);
    forall r | r in after
      ensures after[r].user in users && RefOk(after[r].product, products - {id})
    {
      assert after[r].(product := reviews[r].product) == reviews[r];
    }
  }

  /** SET_NULL on OrderItem.product. */
  lemma ItemsAfterProductDelete(items: map<ItemId, OrderItem>, orders: map<OrderId, Order>, products: map<ProductId, Product>, id: ProductId)
    requires ItemsOk(items, orders, products)
    ensures ItemsOk(ItemSchema.AfterProductDelete(items, id), orders, products - {id})
  {
    var after := ItemSchema.AfterProductDelete(items, id);
    forall i | i in after
      ensures RefOk(after[i].order, orders) && RefOk(after[i].product, products - {id})
      ensures ItemSchema.WellFormed(after[i])
    {
      assert after[i].(product := items[i].product) == items[i];
    }
  }

  /** SET_NULL on OrderItem.order. */
  lemma ItemsAfterOrderDelete(items: map<ItemId, OrderItem>, orders: map<OrderId, Order>, products: map<ProductId, Product>, id: OrderId)
    requires ItemsOk(items, orders, products)
    ensures ItemsOk(ItemSchema.AfterOrderDelete(items, id), orders - {id}, products)
  {
    var after := ItemSchema.AfterOrderDelete(items, id);
    forall i | i in after
      ensures RefOk(after[i].order, orders - {id}) && RefOk(after[i].product, products)
      ensures ItemSchema.WellFormed(after[i])
    {
      assert after[i].(order := items[i].order) == items[i];
    }
  }

  /** DeleteUser is not an endpoint; its effect on reviews keeps the review table consistent with the remaining users. */
  lemma UserDeleteKeepsReviewsConsistent(db: Db, uid: UserId)
    requires Consistent(db)
    ensures var r := ReviewSchema.AfterUserDelete(db.reviews, uid);
      forall id :: id in r ==> r[id].user in db.users - {uid}
  {
  }
}
