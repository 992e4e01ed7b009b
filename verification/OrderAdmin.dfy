/** Admin edits and deletions of orders (order-admin.service.ts) and the status endpoint (order.controller.ts). */
module OrderAdmin {
  import opened Wrappers
  import opened ShopTables
  import opened OrderReservation
  import opened OrderMoney

  datatype DiscountEdit = KeepDiscount | ClearDiscount | SetDiscount(price: nat)

  datatype ItemEdit = ItemEdit(quantity: Option<nat>, unitPrice: Option<nat>, discount: DiscountEdit, returnToStock: bool)

  /** Only a paid order may be edited: a pending one is with the gateway, a failed one was released. */
  predicate Editable(t: Tables, id: OrderId) {
    id in t.orders && !t.orders[id].isDeleted && t.orders[id].paymentStatus == Paid
  }

  predicate WritesOneOrder(t: Tables, t': Tables, id: OrderId) {
    id in t'.orders && t'.orders == t.orders[id := t'.orders[id]]
  }

  /** `adjustStock`: units come back when positive, are taken under a guard when negative. */
  function Adjusted(stock: map<VariantId, int>, v: VariantId, delta: int): (r: Result<map<VariantId, int>>) {
    if delta >= 0 then Returns(AddLines(stock, [Line(v, delta)]))
    else if v in stock && stock[v] >= -delta then Returns(stock[v := stock[v] + delta])
    else Throws
  }

  method AdjustStock(db: Database, v: VariantId, delta: int) returns (ok: bool)
    modifies db`stock
    ensures var r := Adjusted(old(db.stock), v, delta);
            ok == r.Returns? && db.stock == if ok then r.value else old(db.stock)
  {
    if delta >= 0 {
      forall u ensures Units([Line(v, delta)], u) == if u == v then delta else 0 {
        UnitsOfOne(Line(v, delta), u);
      }
    }
    if delta == 0 {
      assert AddLines(db.stock, [Line(v, delta)]) == db.stock;
      return true;
    }
    if delta > 0 {
      db.ReturnUnits(v, delta);
      assert db.stock == AddLines(old(db.stock), [Line(v, delta)]);
      return true;
    }
    ok := db.TakeUnits(v, -delta);
  }

  /** `recalc`: the order's amounts written again from its items. */
  method Recalc(db: Database, id: OrderId, ov: Overrides) returns (r: Result<Money>)
    requires id in db.orders
    modifies db`orders
    ensures r == Recalculated(old(db.orders)[id], ov)
    ensures db.orders == if r.Returns? then old(db.orders)[id := WithMoney(old(db.orders)[id], r.value)] else old(db.orders)
  {
    var o := db.orders[id];
    r := Recalculated(o, ov);
    if r.Returns? {
      db.orders := db.orders[id := WithMoney(o, r.value)];
    }
  }

  // ------------------------------------------------------------ updateOrder

  function OrderUpdated(t: Tables, id: OrderId, ov: Overrides): (r: Result<(Tables, Impact)>)
    ensures r.Returns? ==> SameBaskets(t, r.value.0) && SameSales(t, r.value.0)
    ensures r.Returns? ==> id in t.orders && WritesOneOrder(t, r.value.0, id)
  {
    if !Editable(t, id) then Throws
    else
      var m := Recalculated(t.orders[id], ov);
      if m.Throws? then Throws
      else Returns((t.(orders := t.orders[id := WithMoney(t.orders[id], m.value)]),
                    ImpactOf(MoneySnapshot(t.orders[id]), m.value, true)))
  }

  method UpdateOrder(db: Database, id: OrderId, ov: Overrides) returns (r: Result<Impact>)
    modifies db
    ensures var s := OrderUpdated(old(db.Snapshot()), id, ov);
            r == (if s.Returns? then Returns(s.value.1) else Throws) &&
            db.Snapshot() == if s.Returns? then s.value.0 else old(db.Snapshot())
    ensures r.Returns? ==>
              id in old(db.orders) && id in db.orders &&
              var o, o' := old(db.orders)[id], db.orders[id];
              o'.items == o.items && o'.total == Subtotal(o.items) &&
              o'.shipping == (if ov.shipping.Some? then ov.shipping.value else o.shipping) &&
              o'.packaging == (if ov.packaging.Some? then ov.packaging.value else o.packaging) &&
              (ov.discount.Some? ==> o'.discount == ov.discount.value <= o'.total)
  {
    if id !in db.orders || db.orders[id].isDeleted || db.orders[id].paymentStatus != Paid {
      return Throws;
    }
    OverridesAreWritten(db.orders[id], ov);
    var before := MoneySnapshot(db.orders[id]);
    var after := Recalc(db, id, ov);
    r := if after.Returns? then Returns(ImpactOf(before, after.value, true)) else Throws;
  }

  // ------------------------------------------------------------- updateItem

  predicate LiveItem(o: Order, i: nat) {
    i < |o.items| && !o.items[i].isDeleted
  }

  predicate ChangesNothing(e: ItemEdit) {
    e.quantity.None? && e.unitPrice.None? && e.discount.KeepDiscount?
  }

  function EditedItem(item: OrderItem, e: ItemEdit): OrderItem {
    item.(quantity := e.quantity.GetOr(item.quantity),
          unitPrice := e.unitPrice.GetOr(item.unitPrice),
          unitDiscount := match e.discount
                          case KeepDiscount => item.unitDiscount
                          case ClearDiscount => None
                          case SetDiscount(p) => Some(p))
  }

  /** The item has the quantity and price asked for; what was not asked for is as it was. */
  predicate ItemIsAsAsked(item: OrderItem, item': OrderItem, e: ItemEdit) {
    && item'.variant == item.variant && item'.isDeleted == item.isDeleted
    && (if e.quantity.Some? then item'.quantity == e.quantity.value else item'.quantity == item.quantity)
    && (if e.unitPrice.Some? then item'.unitPrice == e.unitPrice.value else item'.unitPrice == item.unitPrice)
    && item'.Unit() == match e.discount
                       case SetDiscount(price) => price
                       case ClearDiscount => item'.unitPrice
                       case KeepDiscount => if item.unitDiscount.Some? then item.unitDiscount.value else item'.unitPrice
  }

  /** The units an item edit moves to the shelf (negative: from it). */
  function StockDelta(item: OrderItem, e: ItemEdit): int {
    if e.quantity.Some? && e.returnToStock then item.quantity - e.quantity.value else 0
  }

  function WithItem(o: Order, i: nat, item: OrderItem): Order
    requires i < |o.items|
  {
    o.(items := o.items[i := item])
  }

  function ItemUpdated(t: Tables, id: OrderId, i: nat, e: ItemEdit): (r: Result<(Tables, Impact)>)
    ensures r.Returns? ==> SameBaskets(t, r.value.0) && SameSales(t, r.value.0)
    ensures r.Returns? ==> id in t.orders && WritesOneOrder(t, r.value.0, id)
  {
    if !Editable(t, id) || !LiveItem(t.orders[id], i) || ChangesNothing(e) then Throws
    else
      var o := t.orders[id];
      var stock := Adjusted(t.stock, o.items[i].variant, StockDelta(o.items[i], e));
      var edited := WithItem(o, i, EditedItem(o.items[i], e));
      var m := Recalculated(edited, NO_OVERRIDES);
      if stock.Throws? || m.Throws? then Throws
      else Returns((t.(stock := stock.value, orders := t.orders[id := WithMoney(edited, m.value)]),
                    ImpactOf(MoneySnapshot(o), m.value, true)))
  }

  method UpdateItem(db: Database, id: OrderId, i: nat, e: ItemEdit) returns (r: Result<Impact>)
    modifies db
    ensures var s := ItemUpdated(old(db.Snapshot()), id, i, e);
            r == (if s.Returns? then Returns(s.value.1) else Throws) &&
            db.Snapshot() == if s.Returns? then s.value.0 else old(db.Snapshot())
    ensures r.Returns? ==>
              id in old(db.orders) && i < |old(db.orders)[id].items| && id in db.orders && i < |db.orders[id].items| &&
              ItemIsAsAsked(old(db.orders)[id].items[i], db.orders[id].items[i], e) &&
              db.orders[id].items == old(db.orders)[id].items[i := db.orders[id].items[i]]
    ensures r.Returns? <==>
            id in old(db.orders) && !old(db.orders)[id].isDeleted && old(db.orders)[id].paymentStatus == Paid &&
            i < |old(db.orders)[id].items| && !old(db.orders)[id].items[i].isDeleted &&
            (e.quantity.Some? || e.unitPrice.Some? || !e.discount.KeepDiscount?) &&
            var item := old(db.orders)[id].items[i];
            (e.quantity.Some? && e.returnToStock && item.quantity < e.quantity.value ==>
               item.variant in old(db.stock) && e.quantity.value - item.quantity <= old(db.stock)[item.variant])
  {
    if id !in db.orders || db.orders[id].isDeleted || db.orders[id].paymentStatus != Paid
       || !LiveItem(db.orders[id], i) || ChangesNothing(e) {
      return Throws;
    }
    var item := db.orders[id].items[i];
    var before := MoneySnapshot(db.orders[id]);
    if e.quantity.Some? && e.quantity.value != item.quantity && e.returnToStock {
      var ok := AdjustStock(db, item.variant, item.quantity - e.quantity.value);
      if !ok {
        return Throws;
      }
    } else {
      UnitsOfNothing(db.stock, item.variant);
    }
    db.orders := db.orders[id := WithItem(db.orders[id], i, EditedItem(item, e))];
    var after := Recalc(db, id, NO_OVERRIDES);
    r := Returns(ImpactOf(before, after.value, true));
  }

  lemma UnitsOfNothing(stock: map<VariantId, int>, v: VariantId)
    ensures AddLines(stock, [Line(v, 0)]) == stock
  {
    forall u ensures Units([Line(v, 0)], u) == 0 {
      UnitsOfOne(Line(v, 0), u);
    }
  }

  // ------------------------------------------------------------- deleteItem

  function LiveCount(items: seq<OrderItem>): nat {
    if items == [] then 0 else (if items[0].isDeleted then 0 else 1) + LiveCount(items[1..])
  }

  /** The item is live, and it is not the only one. */
  predicate AnotherLives(items: seq<OrderItem>, i: nat) {
    i < |items| && !items[i].isDeleted && exists k :: 0 <= k < |items| && k != i && !items[k].isDeleted
  }

  lemma {:induction false} LiveAmong(items: seq<OrderItem>, i: nat)
    requires i < |items| && !items[i].isDeleted
    ensures LiveCount(items) >= 1
  {
    if i > 0 { LiveAmong(items[1..], i - 1); }
  }

  lemma {:induction false} TwoLive(items: seq<OrderItem>, i: nat, k: nat)
    requires i < k < |items| && !items[i].isDeleted && !items[k].isDeleted
    ensures LiveCount(items) >= 2
  {
    if i == 0 { LiveAmong(items[1..], k - 1); } else { TwoLive(items[1..], i - 1, k - 1); }
  }

  lemma AnotherLivesIff(items: seq<OrderItem>, i: nat)
    ensures AnotherLives(items, i) <==> i < |items| && !items[i].isDeleted && LiveCount(items) > 1
  {
    if i < |items| && !items[i].isDeleted && LiveCount(items) > 1 { AnotherItemLives(items, i); }
    if AnotherLives(items, i) {
      var k :| 0 <= k < |items| && k != i && !items[k].isDeleted;
      if i < k { TwoLive(items, i, k); } else { TwoLive(items, k, i); }
    }
  }

  lemma {:induction false} NoneLives(items: seq<OrderItem>)
    requires forall k :: 0 <= k < |items| ==> items[k].isDeleted
    ensures LiveCount(items) == 0
  {
    if items != [] { NoneLives(items[1..]); }
  }

  lemma {:induction false} AnotherItemLives(items: seq<OrderItem>, i: nat)
    requires i < |items| && LiveCount(items) > 1
    ensures exists k :: 0 <= k < |items| && k != i && !items[k].isDeleted
  {
    if i == 0 {
      if forall k :: 0 <= k < |items[1..]| ==> items[1..][k].isDeleted { NoneLives(items[1..]); }
      var k :| 0 <= k < |items[1..]| && !items[1..][k].isDeleted;
      assert !items[k + 1].isDeleted;
    } else if items[0].isDeleted {
      AnotherItemLives(items[1..], i - 1);
      var k :| 0 <= k < |items[1..]| && k != i - 1 && !items[1..][k].isDeleted;
      assert !items[k + 1].isDeleted;
    }
  }

  function ItemDeleted(t: Tables, id: OrderId, i: nat, returnToStock: bool): (r: Result<(Tables, Impact)>)
    ensures r.Returns? ==> SameBaskets(t, r.value.0) && SameSales(t, r.value.0)
    ensures r.Returns? ==> id in t.orders && WritesOneOrder(t, r.value.0, id)
  {
    if !Editable(t, id) || !LiveItem(t.orders[id], i) || LiveCount(t.orders[id].items) <= 1 then Throws
    else
      var o := t.orders[id];
      var edited := WithItem(o, i, o.items[i].(isDeleted := true));
      var m := Recalculated(edited, NO_OVERRIDES);
      if m.Throws? then Throws
      else Returns((t.(stock := if returnToStock
                                then AddLines(t.stock, [Line(o.items[i].variant, o.items[i].quantity)]) else t.stock,
                       orders := t.orders[id := WithMoney(edited, m.value)]),
                    ImpactOf(MoneySnapshot(o), m.value, true)))
  }

  method DeleteItem(db: Database, id: OrderId, i: nat, returnToStock: bool) returns (r: Result<Impact>)
    modifies db
    ensures var s := ItemDeleted(old(db.Snapshot()), id, i, returnToStock);
            r == (if s.Returns? then Returns(s.value.1) else Throws) &&
            db.Snapshot() == if s.Returns? then s.value.0 else old(db.Snapshot())
    ensures r.Returns? ==> id in db.orders && i < |db.orders[id].items| && db.orders[id].items[i].isDeleted &&
                           exists k :: 0 <= k < |db.orders[id].items| && !db.orders[id].items[k].isDeleted
    ensures r.Returns? <==> id in old(db.orders) && !old(db.orders)[id].isDeleted && old(db.orders)[id].paymentStatus == Paid &&
                            AnotherLives(old(db.orders)[id].items, i)
  {
    if id in db.orders { AnotherLivesIff(db.orders[id].items, i); }
    if id !in db.orders || db.orders[id].isDeleted || db.orders[id].paymentStatus != Paid
       || !LiveItem(db.orders[id], i) || LiveCount(db.orders[id].items) <= 1 {
      return Throws;
    }
    ghost var k :| 0 <= k < |db.orders[id].items| && k != i && !db.orders[id].items[k].isDeleted;
    var item := db.orders[id].items[i];
    var before := MoneySnapshot(db.orders[id]);
    if returnToStock {
      var ok := AdjustStock(db, item.variant, item.quantity);
      assert ok;
    }
    db.orders := db.orders[id := WithItem(db.orders[id], i, item.(isDeleted := true))];
    var after := Recalc(db, id, NO_OVERRIDES);
    assert !db.orders[id].items[k].isDeleted;
    r := Returns(ImpactOf(before, after.value, true));
  }

  // ------------------------------------------------------------ deleteOrder

  function AllDeleted(items: seq<OrderItem>): (r: seq<OrderItem>)
    ensures |r| == |items|
  {
    seq(|items|, i requires 0 <= i < |items| => items[i].(isDeleted := true))
  }

  const NO_MONEY := Money(0, 0, 0, 0, 0, 0)

  function OrderDeleted(t: Tables, id: OrderId, returnToStock: bool): (r: Result<(Tables, Impact)>)
    ensures r.Returns? ==> SameBaskets(t, r.value.0) && SameSales(t, r.value.0)
    ensures r.Returns? ==> id in t.orders && WritesOneOrder(t, r.value.0, id)
  {
    if id !in t.orders || t.orders[id].isDeleted || t.orders[id].paymentStatus == Pending then Throws
    else
      var o := t.orders[id];
      Returns((t.(stock := if returnToStock && o.paymentStatus != Failed then AddLines(t.stock, LiveLines(o.items)) else t.stock,
                  codes := if o.paymentStatus == Paid then UnuseCode(t.codes, o.code) else t.codes,
                  orders := t.orders[id := o.(items := AllDeleted(o.items), isDeleted := true)]),
               ImpactOf(MoneySnapshot(o), NO_MONEY, o.paymentStatus == Paid)))
  }

  method DeleteOrder(db: Database, id: OrderId, returnToStock: bool) returns (r: Result<Impact>)
    modifies db
    ensures var s := OrderDeleted(old(db.Snapshot()), id, returnToStock);
            r == (if s.Returns? then Returns(s.value.1) else Throws) &&
            db.Snapshot() == if s.Returns? then s.value.0 else old(db.Snapshot())
    ensures r.Returns? <==> id in old(db.orders) && !old(db.orders)[id].isDeleted && old(db.orders)[id].paymentStatus != Pending
    ensures r.Returns? ==> id in db.orders && db.orders[id].isDeleted &&
                           forall k :: 0 <= k < |db.orders[id].items| ==> db.orders[id].items[k].isDeleted
  {
    if id !in db.orders || db.orders[id].isDeleted || db.orders[id].paymentStatus == Pending {
      return Throws;
    }
    var o := db.orders[id];
    var paid := o.paymentStatus == Paid;
    if returnToStock && o.paymentStatus != Failed {
      var lines := LiveLines(o.items);
      var variants, totals := TotalByVariant(lines);
      ReturnTotals(db, lines, variants, totals);
    }
    if paid && o.code.Some? && o.code.value in db.codes && db.codes[o.code.value].usedCount > 0 {
      var row := db.codes[o.code.value];
      db.codes := db.codes[o.code.value := row.(usedCount := row.usedCount - 1)];
    }
    db.orders := db.orders[id := o.(items := AllDeleted(o.items), isDeleted := true)];
    r := Returns(ImpactOf(MoneySnapshot(o), NO_MONEY, paid));
  }

  // ----------------------------------------------------------- updateStatus

  /** The check `updateStatus` makes on the order it read. */
  predicate StatusAllowed(t: Tables, id: OrderId, to: OrderStatus) {
    id in t.orders && !t.orders[id].isDeleted && (to == OrderPaid ==> t.orders[id].paymentStatus == Paid)
  }

  /** The write `updateStatus` makes later, guarded by nothing. */
  function StatusWritten(t: Tables, id: OrderId, to: OrderStatus): (r: Tables)
    ensures SameBaskets(t, r) && SameSales(t, r) && r.stock == t.stock && r.codes == t.codes && r.attempts == t.attempts
  {
    if id in t.orders then t.(orders := t.orders[id := t.orders[id].(orderStatus := to)]) else t
  }

  method UpdateStatus(db: Database, id: OrderId, to: OrderStatus) returns (ok: bool)
    modifies db
    ensures ok == StatusAllowed(old(db.Snapshot()), id, to)
    ensures db.Snapshot() == if ok then StatusWritten(old(db.Snapshot()), id, to) else old(db.Snapshot())
    ensures ok ==> id in old(db.orders) && !old(db.orders)[id].isDeleted &&
                   db.orders == old(db.orders)[id := old(db.orders)[id].(orderStatus := to)]
  {
    if id !in db.orders || db.orders[id].isDeleted {
      return false;
    }
    if to == OrderPaid && db.orders[id].paymentStatus != Paid {
      return false;
    }
    db.orders := db.orders[id := db.orders[id].(orderStatus := to)];
    ok := true;
  }
}
