/** The order service: line items priced by area, order totals with tax, and the create/update/delete
    operations that keep each order's totals equal to the sum over its stored line items. */
module Orders {
  import opened Store
  import opened Sums

  /** `TAX_RATE`: 18%. */
  const TAX_RATE: real := 0.18

  /** `OrderItemCreate` / `OrderItemUpdate` (the two have the same fields). */
  datatype ItemRequest = ItemRequest(product_id: Id, width: int, height: int, quantity: int)

  /** `OrderCreate`. */
  datatype OrderRequest = OrderRequest(partner_id: Id, status: OrderStatus, order_items: seq<ItemRequest>)

  /** `OrderUpdate`: a field that is None leaves the stored value as it is. */
  datatype OrderUpdate = OrderUpdate(
    partner_id: Option<Id>,
    status: Option<OrderStatus>,
    order_items: Option<seq<ItemRequest>>)

  // ---------------------------------------------------------------------------
  // Pricing
  // ---------------------------------------------------------------------------

  /** The area of a width x height millimetre pane in square metres, exactly. */
  function AreaSqm(width: int, height: int): (r: real)
    ensures r * 1000000.0 == (width * height) as real
  {
    (width as real * height as real) / 1000000.0
  }

  /** The price of `quantity` panes at `rate` per square metre. */
  function LineTotal(rate: real, width: int, height: int, quantity: int): (r: real)
    ensures r * 1000000.0 == rate * (width * height * quantity) as real
    ensures quantity == 0 || width == 0 || height == 0 ==> r == 0.0
  {
    rate * AreaSqm(width, height) * quantity as real
  }

  /** The same price computed from the whole order line's area in square millimetres. */
  lemma LineTotalFromSquareMillimetres(rate: real, width: int, height: int, quantity: int)
    ensures LineTotal(rate, width, height, quantity) == rate * (width * height * quantity) as real / 1000000.0
  {
    assert (width * height * quantity) as real == width as real * height as real * quantity as real;
  }

  /** A line of 1000 x 2000 mm panes (2 m^2 each), three of them at 100.00 per m^2, costs 600.00. */
  lemma LineTotalExample()
    ensures AreaSqm(1000, 2000) == 2.0
    ensures LineTotal(100.0, 1000, 2000, 3) == 600.0
  {
  }

  /** Pricing is additive in the quantity, so n panes cost n times one pane. */
  lemma LineTotalAdditive(rate: real, width: int, height: int, q1: int, q2: int)
    ensures LineTotal(rate, width, height, q1 + q2) == LineTotal(rate, width, height, q1) + LineTotal(rate, width, height, q2)
  {
    var a := rate * AreaSqm(width, height);
    assert a * (q1 + q2) as real == a * q1 as real + a * q2 as real;
  }

  /** Turning a pane by 90 degrees does not change its price. */
  lemma LineTotalSymmetric(rate: real, width: int, height: int, quantity: int)
    ensures LineTotal(rate, width, height, quantity) == LineTotal(rate, height, width, quantity)
  {
    assert width as real * height as real == height as real * width as real;
  }

  /** A non-negative rate and non-negative dimensions give a non-negative price. */
  lemma LineTotalNonNegative(rate: real, width: int, height: int, quantity: int)
    requires rate >= 0.0 && width >= 0 && height >= 0 && quantity >= 0
    ensures LineTotal(rate, width, height, quantity) >= 0.0
  {
    assert width as real * height as real >= 0.0;
    assert AreaSqm(width, height) >= 0.0;
    assert rate * AreaSqm(width, height) >= 0.0;
  }

  /** The line item `_create_order_item` stores for `item` in order `orderId`. */
  function PricedItem(product: Product, orderId: Id, item: ItemRequest): (r: OrderItem)
    ensures r.order_id == orderId && r.product_id == item.product_id
    ensures r.width == item.width && r.height == item.height && r.quantity == item.quantity
    ensures r.unit_price == product.base_price_sqm
    ensures r.total_price == LineTotal(product.base_price_sqm, item.width, item.height, item.quantity)
  {
    var unitPrice := product.base_price_sqm;
    OrderItem(orderId, item.product_id, item.width, item.height, item.quantity,
              unitPrice, LineTotal(unitPrice, item.width, item.height, item.quantity))
  }

  /** The unit price is the product's rate as it stands, whatever the pane's size or count. */
  lemma UnitPriceIgnoresSize(product: Product, orderId: Id, a: ItemRequest, b: ItemRequest)
    ensures PricedItem(product, orderId, a).unit_price == product.base_price_sqm
    ensures PricedItem(product, orderId, a).unit_price == PricedItem(product, orderId, b).unit_price
  {
  }

  predicate AllProductsKnown(products: map<Id, Product>, reqs: seq<ItemRequest>) {
    forall i :: 0 <= i < |reqs| ==> reqs[i].product_id in products
  }

  /** The sum of the line totals of `reqs`, added up in list order. */
  function RequestsTotal(products: map<Id, Product>, reqs: seq<ItemRequest>): real
    requires AllProductsKnown(products, reqs)
  {
    if |reqs| == 0 then 0.0
    else
      var last := reqs[|reqs| - 1];
      RequestsTotal(products, reqs[..|reqs| - 1])
        + LineTotal(products[last.product_id].base_price_sqm, last.width, last.height, last.quantity)
  }

  // ---------------------------------------------------------------------------
  // Totals
  // ---------------------------------------------------------------------------

  function TaxOf(total: real): real {
    total * TAX_RATE
  }

  /** The order with `total_amount`, `tax_amount` and `grand_total` derived from `total`. */
  function WithTotals(order: Order, total: real): (r: Order)
    ensures r.partner_id == order.partner_id && r.status == order.status
    ensures r.total_amount == total
    ensures r.tax_amount == total * TAX_RATE
    ensures r.grand_total == r.total_amount + r.tax_amount
  {
    order.(total_amount := total, tax_amount := TaxOf(total), grand_total := total + TaxOf(total))
  }

  /** Tax is 18% of the total and the grand total is 118% of it. */
  lemma GrandTotalRate(order: Order, total: real)
    ensures WithTotals(order, total).tax_amount == 0.18 * total
    ensures WithTotals(order, total).grand_total == 1.18 * total
  {
  }

  /** A total of 1000.00 gives 180.00 tax and a 1180.00 grand total. */
  lemma TotalsExample(order: Order)
    ensures WithTotals(order, 1000.0).tax_amount == 180.0
    ensures WithTotals(order, 1000.0).grand_total == 1180.0
  {
  }

  /** The totals of the stored items of order `o`, keyed by item id. */
  function ItemTotals(items: map<Id, OrderItem>, o: Id): map<Id, real> {
    map k | k in items && items[k].order_id == o :: items[k].total_price
  }

  /** The sum of `total_price` over the stored items of order `o`. */
  ghost function ItemSum(items: map<Id, OrderItem>, o: Id): real {
    SumValues(ItemTotals(items, o))
  }

  lemma ItemSumEmpty(items: map<Id, OrderItem>, o: Id)
    requires forall k :: k in items ==> items[k].order_id != o
    ensures ItemSum(items, o) == 0.0
  {
    assert ItemTotals(items, o) == map[];
  }

  lemma ItemSumInsert(items: map<Id, OrderItem>, k: Id, item: OrderItem, o: Id)
    requires k !in items
    ensures ItemSum(items[k := item], o) == ItemSum(items, o) + (if item.order_id == o then item.total_price else 0.0)
  {
    if item.order_id == o {
      assert ItemTotals(items[k := item], o) == ItemTotals(items, o)[k := item.total_price];
      SumValuesInsert(ItemTotals(items, o), k, item.total_price);
    } else {
      assert ItemTotals(items[k := item], o) == ItemTotals(items, o);
    }
  }

  /** The order's three amounts agree with its stored items. */
  ghost predicate TotalsMatch(order: Order, items: map<Id, OrderItem>, o: Id) {
    && order.total_amount == ItemSum(items, o)
    && order.tax_amount == order.total_amount * TAX_RATE
    && order.grand_total == order.total_amount + order.tax_amount
  }

  /** Every stored item belongs to a stored order (the foreign key on `order_id`). */
  ghost predicate ItemsHaveOrders(db: Session)
    reads db
  {
    forall k :: k in db.orderItems ==> db.orderItems[k].order_id in db.orders
  }

  ghost predicate OrdersConsistent(db: Session)
    reads db
  {
    && ItemsHaveOrders(db)
    && forall o :: o in db.orders ==> TotalsMatch(db.orders[o], db.orderItems, o)
  }

  /** `after` is `before` plus one fresh item per request, priced from `products`, in request order. */
  ghost predicate AddsPricedItems(before: map<Id, OrderItem>, after: map<Id, OrderItem>, ids: seq<Id>,
                                  products: map<Id, Product>, orderId: Id, reqs: seq<ItemRequest>)
  {
    && |ids| == |reqs|
    && (forall i :: 0 <= i < |reqs| ==>
          && reqs[i].product_id in products
          && ids[i] !in before && ids[i] in after
          && after[ids[i]] == PricedItem(products[reqs[i].product_id], orderId, reqs[i]))
    && (forall i, j :: 0 <= i < j < |ids| ==> ids[i] != ids[j])
    && (forall k :: k in after <==> k in before || k in ids)
    && (forall k :: k in before ==> after[k] == before[k])
    && (forall k :: k in after && k !in before ==> after[k].order_id == orderId)
  }

  /** One more stored item extends the priced prefix of the requests by one. */
  lemma AddsPricedItemsStep(before: map<Id, OrderItem>, current: map<Id, OrderItem>, ids: seq<Id>, id: Id,
                            products: map<Id, Product>, orderId: Id, reqs: seq<ItemRequest>, i: nat)
    requires i < |reqs| && reqs[i].product_id in products
    requires AllProductsKnown(products, reqs[..i])
    requires AddsPricedItems(before, current, ids, products, orderId, reqs[..i])
    requires id !in current
    ensures AllProductsKnown(products, reqs[..i + 1])
    ensures RequestsTotal(products, reqs[..i + 1]) == RequestsTotal(products, reqs[..i])
      + LineTotal(products[reqs[i].product_id].base_price_sqm, reqs[i].width, reqs[i].height, reqs[i].quantity)
    ensures AddsPricedItems(before, current[id := PricedItem(products[reqs[i].product_id], orderId, reqs[i])],
                            ids + [id], products, orderId, reqs[..i + 1])
  {
    assert reqs[..i + 1][..i] == reqs[..i];
    assert reqs[..i + 1][i] == reqs[i];
  }

  // ---------------------------------------------------------------------------
  // Service operations
  // ---------------------------------------------------------------------------

  /** `_create_order_item`: stores the priced item and returns its total; "Product not found" otherwise. */
  method CreateOrderItem(db: Session, orderId: Id, item: ItemRequest) returns (r: Result<real>, ghost itemId: Id)
    modifies db`orderItems
    ensures r.Err? <==> item.product_id !in db.products
    ensures r.Err? ==> r.error == ProductNotFound && db.orderItems == old(db.orderItems)
    ensures r.Ok? ==>
      && itemId !in old(db.orderItems)
      && db.orderItems == old(db.orderItems)[itemId := PricedItem(db.products[item.product_id], orderId, item)]
      && r.value == LineTotal(db.products[item.product_id].base_price_sqm, item.width, item.height, item.quantity)
  {
    itemId := 0;
    if item.product_id !in db.products {
      r := Err(ProductNotFound);
      return;
    }
    var product := db.products[item.product_id];
    var orderItem := PricedItem(product, orderId, item);
    var id := FreshKey(db.orderItems);
    db.orderItems := db.orderItems[id := orderItem];
    itemId := id;
    r := Ok(orderItem.total_price);
  }

  /** The item loop shared by `create_order` and `update_order`: stores each item in turn and
      accumulates the total. Stops at the first unknown product (the caller then rolls back). */
  method AddItems(db: Session, orderId: Id, reqs: seq<ItemRequest>) returns (r: Result<real>, ghost ids: seq<Id>)
    modifies db`orderItems
    ensures r.Err? <==> !AllProductsKnown(db.products, reqs)
    ensures r.Err? ==> r.error == ProductNotFound
    ensures r.Ok? ==> r.value == RequestsTotal(db.products, reqs)
    ensures r.Ok? ==> ItemSum(db.orderItems, orderId) == ItemSum(old(db.orderItems), orderId) + r.value
    ensures r.Ok? ==> AddsPricedItems(old(db.orderItems), db.orderItems, ids, db.products, orderId, reqs)
  {
    ghost var before := db.orderItems;
    var total := 0.0;
    ids := [];
    var i := 0;
    while i < |reqs|
      invariant 0 <= i <= |reqs|
      invariant AllProductsKnown(db.products, reqs[..i])
      invariant total == RequestsTotal(db.products, reqs[..i])
      invariant ItemSum(db.orderItems, orderId) == ItemSum(before, orderId) + total
      invariant AddsPricedItems(before, db.orderItems, ids, db.products, orderId, reqs[..i])
    {
      ghost var current := db.orderItems;
      var itemTotal: Result<real>;
      ghost var id: Id;
      itemTotal, id := CreateOrderItem(db, orderId, reqs[i]);
      if itemTotal.Err? {
        r := Err(ProductNotFound);
        return;
      }
      ItemSumInsert(current, id, db.orderItems[id], orderId);
      AddsPricedItemsStep(before, current, ids, id, db.products, orderId, reqs, i);
      total := total + itemTotal.value;
      ids := ids + [id];
      i := i + 1;
    }
    assert reqs[..i] == reqs;
    r := Ok(total);
  }

  /** Items of orders other than `o` are the same in both tables. */
  ghost predicate OtherOrdersUnchanged(before: map<Id, OrderItem>, after: map<Id, OrderItem>, o: Id) {
    forall o2 :: o2 != o ==> ItemTotals(after, o2) == ItemTotals(before, o2)
  }

  lemma AddedItemsKeepOtherOrders(before: map<Id, OrderItem>, after: map<Id, OrderItem>, ids: seq<Id>,
                                  products: map<Id, Product>, orderId: Id, reqs: seq<ItemRequest>)
    requires AddsPricedItems(before, after, ids, products, orderId, reqs)
    ensures OtherOrdersUnchanged(before, after, orderId)
  {
    forall o2 | o2 != orderId
      ensures ItemTotals(after, o2) == ItemTotals(before, o2)
    {
    }
  }

  /** `create_order`: stores the order and its priced items and derives the three totals;
      "Product not found" rolls everything back. */
  method CreateOrder(db: Session, req: OrderRequest) returns (r: Result<Id>, ghost itemIds: seq<Id>)
    requires ItemsHaveOrders(db)
    modifies db`orders, db`orderItems
    ensures r.Err? <==> !AllProductsKnown(db.products, req.order_items)
    ensures r.Err? ==> r.error == ProductNotFound
    ensures r.Err? ==> db.orders == old(db.orders) && db.orderItems == old(db.orderItems)
    ensures r.Ok? ==>
      && r.value !in old(db.orders)
      && db.orders == old(db.orders)[r.value := WithTotals(Order(req.partner_id, req.status, 0.0, 0.0, 0.0),
                                                           RequestsTotal(db.products, req.order_items))]
      && AddsPricedItems(old(db.orderItems), db.orderItems, itemIds, db.products, r.value, req.order_items)
      && TotalsMatch(db.orders[r.value], db.orderItems, r.value)
    ensures ItemsHaveOrders(db)
    ensures old(OrdersConsistent(db)) ==> OrdersConsistent(db)
  {
    ghost var wasConsistent := OrdersConsistent(db);
    itemIds := [];
    var savedOrders, savedItems := db.orders, db.orderItems;
    var id := FreshKey(db.orders);
    var order := Order(req.partner_id, req.status, 0.0, 0.0, 0.0);
    db.orders := db.orders[id := order];
    ItemSumEmpty(db.orderItems, id);
    var total: Result<real>;
    total, itemIds := AddItems(db, id, req.order_items);
    if total.Err? {
      db.orders, db.orderItems := savedOrders, savedItems;
      r := Err(ProductNotFound);
      return;
    }
    db.orders := db.orders[id := WithTotals(order, total.value)];
    r := Ok(id);
    AddedItemsKeepOtherOrders(savedItems, db.orderItems, itemIds, db.products, id, req.order_items);
    if wasConsistent {
      forall o | o in db.orders
        ensures TotalsMatch(db.orders[o], db.orderItems, o)
      {
        if o != id {
          assert ItemTotals(db.orderItems, o) == ItemTotals(savedItems, o);
        }
      }
    }
  }

  /** The stored items without those of order `o`. */
  function WithoutOrder(items: map<Id, OrderItem>, o: Id): map<Id, OrderItem> {
    map k | k in items && items[k].order_id != o :: items[k]
  }

  lemma WithoutOrderSums(items: map<Id, OrderItem>, o: Id)
    ensures ItemSum(WithoutOrder(items, o), o) == 0.0
    ensures OtherOrdersUnchanged(items, WithoutOrder(items, o), o)
  {
    ItemSumEmpty(WithoutOrder(items, o), o);
    forall o2 | o2 != o
      ensures ItemTotals(WithoutOrder(items, o), o2) == ItemTotals(items, o2)
    {
    }
  }

  /** The order with the non-null `partner_id` and `status` of `u` written over it. */
  function PatchedHeader(order: Order, u: OrderUpdate): (r: Order)
    ensures r.partner_id == (if u.partner_id.Some? then u.partner_id.value else order.partner_id)
    ensures r.status == (if u.status.Some? then u.status.value else order.status)
    ensures r.total_amount == order.total_amount && r.tax_amount == order.tax_amount
    ensures r.grand_total == order.grand_total
  {
    order.(partner_id := if u.partner_id.Some? then u.partner_id.value else order.partner_id,
           status := if u.status.Some? then u.status.value else order.status)
  }

  /** `update_order`: None for an unknown id; otherwise patches partner and status, and when an item
      list is sent replaces all the order's items and recomputes the totals. */
  method UpdateOrder(db: Session, id: Id, u: OrderUpdate) returns (r: Result<Option<Order>>, ghost itemIds: seq<Id>)
    modifies db`orders, db`orderItems
    ensures r == Ok(None) <==> id !in old(db.orders)
    ensures r.Err? <==> id in old(db.orders) && u.order_items.Some? && !AllProductsKnown(db.products, u.order_items.value)
    ensures r.Err? ==> r.error == ProductNotFound
    ensures r.Err? || r == Ok(None) ==> db.orders == old(db.orders) && db.orderItems == old(db.orderItems)
    ensures r.Ok? && r.value.Some? ==> id in old(db.orders) && db.orders == old(db.orders)[id := r.value.value]
    ensures r.Ok? && r.value.Some? && u.order_items.None? ==>
      && r.value.value == PatchedHeader(old(db.orders[id]), u)
      && db.orderItems == old(db.orderItems)
    ensures r.Ok? && r.value.Some? && u.order_items.Some? ==>
      && r.value.value == WithTotals(PatchedHeader(old(db.orders[id]), u), RequestsTotal(db.products, u.order_items.value))
      && AddsPricedItems(WithoutOrder(old(db.orderItems), id), db.orderItems, itemIds, db.products, id, u.order_items.value)
      && TotalsMatch(r.value.value, db.orderItems, id)
    ensures old(ItemsHaveOrders(db)) ==> ItemsHaveOrders(db)
    ensures old(OrdersConsistent(db)) ==> OrdersConsistent(db)
  {
    itemIds := [];
    if id !in db.orders {
      r := Ok(None);
      return;
    }
    ghost var wasConsistent := OrdersConsistent(db);
    ghost var hadOrders := ItemsHaveOrders(db);
    var savedOrders, savedItems := db.orders, db.orderItems;
    var order := PatchedHeader(db.orders[id], u);
    db.orders := db.orders[id := order];
    if u.order_items.Some? {
      db.orderItems := WithoutOrder(db.orderItems, id);
      WithoutOrderSums(savedItems, id);
      var total: Result<real>;
      total, itemIds := AddItems(db, id, u.order_items.value);
      if total.Err? {
        db.orders, db.orderItems := savedOrders, savedItems;
        r := Err(ProductNotFound);
        return;
      }
      order := WithTotals(order, total.value);
      db.orders := db.orders[id := order];
      AddedItemsKeepOtherOrders(WithoutOrder(savedItems, id), db.orderItems, itemIds, db.products, id, u.order_items.value);
      if wasConsistent {
        forall o | o in db.orders
          ensures TotalsMatch(db.orders[o], db.orderItems, o)
        {
          if o != id {
            assert ItemTotals(db.orderItems, o) == ItemTotals(savedItems, o);
          }
        }
      }
    }
    r := Ok(Some(order));
  }

  /** `delete_order`: removes the order; the database's ON DELETE CASCADE removes its items. */
  method DeleteOrder(db: Session, id: Id) returns (deleted: bool)
    modifies db`orders, db`orderItems
    ensures deleted <==> id in old(db.orders)
    ensures !deleted ==> db.orders == old(db.orders) && db.orderItems == old(db.orderItems)
    ensures deleted ==> db.orders == old(db.orders) - {id} && db.orderItems == WithoutOrder(old(db.orderItems), id)
    ensures old(OrdersConsistent(db)) ==> OrdersConsistent(db)
  {
    if id !in db.orders {
      return false;
    }
    ghost var wasConsistent := OrdersConsistent(db);
    ghost var savedItems := db.orderItems;
    db.orders := db.orders - {id};
    db.orderItems := WithoutOrder(db.orderItems, id);
    deleted := true;
    if wasConsistent {
      WithoutOrderSums(savedItems, id);
      forall o | o in db.orders
        ensures TotalsMatch(db.orders[o], db.orderItems, o)
      {
        assert ItemTotals(db.orderItems, o) == ItemTotals(savedItems, o);
      }
    }
  }

  /** An order with a 600.00 line and a 400.00 line: total 1000.00, tax 180.00, grand total 1180.00. */
  method OrderTotalsScenario() returns (total: real, tax: real, grand: real)
    ensures total == 1000.0 && tax == 180.0 && grand == 1180.0
  {
    var db := new Session();
    db.products := map[1 := Product("Isicam", 100.0)];
    var reqs := [ItemRequest(1, 1000, 2000, 3), ItemRequest(1, 1000, 1000, 4)];
    assert reqs[..1] == [reqs[0]];
    assert reqs[..1][..0] == [];
    var r: Result<Id>;
    ghost var ids: seq<Id>;
    r, ids := CreateOrder(db, OrderRequest(5, Siparis, reqs));
    var order := db.orders[r.value];
    total, tax, grand := order.total_amount, order.tax_amount, order.grand_total;
  }
}
