/**
 * The order store of api/store.py: a dictionary from `order_id` to an order record,
 * kept in memory. `ids` is the dictionary's key order (insertion order), which the
 * checkout-id scan and the stable sort of the production listing depend on.
 */
module Store {
  import opened Wrappers
  import opened Text

  /** The values the two status fields take in the source. */
  const Pending := "pendente"
  const PaymentConfirmed := "ok"
  const Processed := "processado"

  /**
   * One order record. `updatedAt`, `imagesGenerated` and `pdfGenerated` are keys the
   * record only gains when the matching setter first runs, hence `Option`.
   * `createdAt` and `updatedAt` are `utcnow().isoformat() + "Z"` strings.
   */
  datatype Order = Order(
    orderId: string,
    petName: string,
    userEmail: string,
    fileNames: seq<string>,
    pagamento: string,
    status: string,
    asaasCheckoutId: Option<string>,
    createdAt: string,
    updatedAt: Option<string>,
    imagesGenerated: Option<bool>,
    pdfGenerated: Option<bool>)

  /** The record `create_order` stores; `now` is the clock's `isoformat()` string. */
  function NewOrder(orderId: string, petName: string, userEmail: string, fileNames: seq<string>, now: string): Order {
    Order(orderId, petName, userEmail, fileNames, Pending, Pending, None, now + "Z", None, None, None)
  }

  /** Paid and not yet produced: what `list_pending_production` selects. */
  predicate ReadyForProduction(o: Order) {
    o.pagamento == PaymentConfirmed && o.status == Pending
  }

  // ---------------------------------------------------------------------------
  // The record updates done by the `update_order_*` setters.

  function WithCheckoutId(o: Order, checkoutId: string): (r: Order)
    ensures r.asaasCheckoutId == Some(checkoutId)
    ensures r.(asaasCheckoutId := o.asaasCheckoutId) == o
  {
    o.(asaasCheckoutId := Some(checkoutId))
  }

  function WithPagamento(o: Order, valor: string, now: string): (r: Order)
    ensures r.pagamento == valor && r.updatedAt == Some(now + "Z")
    ensures r.(pagamento := o.pagamento, updatedAt := o.updatedAt) == o
  {
    o.(pagamento := valor, updatedAt := Some(now + "Z"))
  }

  function WithStatus(o: Order, status: string, now: string): (r: Order)
    ensures r.status == status && r.updatedAt == Some(now + "Z")
    ensures r.(status := o.status, updatedAt := o.updatedAt) == o
  {
    o.(status := status, updatedAt := Some(now + "Z"))
  }

  function WithFileNames(o: Order, fileNames: seq<string>): (r: Order)
    ensures r.fileNames == fileNames
    ensures r.(fileNames := o.fileNames) == o
  {
    o.(fileNames := fileNames)
  }

  function WithImagesGenerated(o: Order, value: bool): (r: Order)
    ensures r.imagesGenerated == Some(value)
    ensures r.(imagesGenerated := o.imagesGenerated) == o
  {
    o.(imagesGenerated := Some(value))
  }

  function WithPdfGenerated(o: Order, value: bool): (r: Order)
    ensures r.pdfGenerated == Some(value)
    ensures r.(pdfGenerated := o.pdfGenerated) == o
  {
    o.(pdfGenerated := Some(value))
  }

  /**
   * A setter applied twice with the same value leaves what one application leaves,
   * except that `updated_at` holds the second call's time.
   */
  lemma SettersIdempotent(o: Order, s: string, names: seq<string>, b: bool, t1: string, t2: string)
    ensures WithCheckoutId(WithCheckoutId(o, s), s) == WithCheckoutId(o, s)
    ensures WithPagamento(WithPagamento(o, s, t1), s, t2) == WithPagamento(o, s, t2)
    ensures WithStatus(WithStatus(o, s, t1), s, t2) == WithStatus(o, s, t2)
    ensures WithFileNames(WithFileNames(o, names), names) == WithFileNames(o, names)
    ensures WithImagesGenerated(WithImagesGenerated(o, b), b) == WithImagesGenerated(o, b)
    ensures WithPdfGenerated(WithPdfGenerated(o, b), b) == WithPdfGenerated(o, b)
  {
  }

  // ---------------------------------------------------------------------------
  // The dictionary as a map plus its key order.

  /** `ids` lists each key of `orders` exactly once. */
  predicate KeyOrder(ids: seq<string>, orders: map<string, Order>) {
    && (forall i :: 0 <= i < |ids| ==> ids[i] in orders)
    && (forall k :: k in orders ==> k in ids)
    && (forall i, j :: 0 <= i < j < |ids| ==> ids[i] != ids[j])
  }

  /** Assigning `orders[k]` keeps the key order: a new key goes last, an old one stays put. */
  lemma KeyOrderPut(ids: seq<string>, orders: map<string, Order>, k: string, o: Order)
    requires KeyOrder(ids, orders)
    ensures KeyOrder(if k in orders then ids else ids + [k], orders[k := o])
  {
  }

  /** Key order depends on the keys only. */
  lemma KeyOrderSameKeys(ids: seq<string>, a: map<string, Order>, b: map<string, Order>)
    requires KeyOrder(ids, a) && a.Keys == b.Keys
    ensures KeyOrder(ids, b)
  {
    assert forall k :: k in b <==> k in a;
  }

  /** The entry of key `ids[i]`, with `order_id` set to that key (`{**o, "order_id": oid}`). */
  function Entry(ids: seq<string>, orders: map<string, Order>, i: nat): Order
    requires i < |ids| && ids[i] in orders
  {
    orders[ids[i]].(orderId := ids[i])
  }

  /** The first entry in key order whose checkout id is `checkoutId`. */
  function FindByCheckoutId(ids: seq<string>, orders: map<string, Order>, checkoutId: string): Option<Order>
    requires forall i :: 0 <= i < |ids| ==> ids[i] in orders
  {
    if ids == [] then None
    else if orders[ids[0]].asaasCheckoutId == Some(checkoutId) then Some(orders[ids[0]].(orderId := ids[0]))
    else FindByCheckoutId(ids[1..], orders, checkoutId)
  }

  /** `FindByCheckoutId` finds the first match in key order, and finds nothing only when there is no match. */
  lemma {:induction false} FindByCheckoutIdFirst(ids: seq<string>, orders: map<string, Order>, checkoutId: string)
    requires forall i :: 0 <= i < |ids| ==> ids[i] in orders
    ensures var r := FindByCheckoutId(ids, orders, checkoutId);
      && (r.None? <==> forall i :: 0 <= i < |ids| ==> orders[ids[i]].asaasCheckoutId != Some(checkoutId))
      && (r.Some? ==> exists i :: (0 <= i < |ids| && r.value == Entry(ids, orders, i)
            && orders[ids[i]].asaasCheckoutId == Some(checkoutId)
            && forall j :: 0 <= j < i ==> orders[ids[j]].asaasCheckoutId != Some(checkoutId)))
  {
    if ids != [] && orders[ids[0]].asaasCheckoutId != Some(checkoutId) {
      FindByCheckoutIdFirst(ids[1..], orders, checkoutId);
      var r := FindByCheckoutId(ids, orders, checkoutId);
      if r.Some? {
        var i :| 0 <= i < |ids| - 1 && r.value == Entry(ids[1..], orders, i)
            && orders[ids[1..][i]].asaasCheckoutId == Some(checkoutId)
            && forall j :: 0 <= j < i ==> orders[ids[1..][j]].asaasCheckoutId != Some(checkoutId);
        assert r.value == Entry(ids, orders, i + 1);
        forall j | 0 <= j < i + 1 ensures orders[ids[j]].asaasCheckoutId != Some(checkoutId) {
          if j > 0 { assert ids[j] == ids[1..][j - 1]; }
        }
      } else {
        forall i | 0 <= i < |ids| ensures orders[ids[i]].asaasCheckoutId != Some(checkoutId) {
          if i > 0 { assert ids[i] == ids[1..][i - 1]; }
        }
      }
    } else if ids != [] {
      assert FindByCheckoutId(ids, orders, checkoutId).value == Entry(ids, orders, 0);
    }
  }

  /** The comprehension of `list_pending_production`: ready entries, in key order. */
  function ReadyEntries(ids: seq<string>, orders: map<string, Order>): seq<Order>
    requires forall i :: 0 <= i < |ids| ==> ids[i] in orders
  {
    if ids == [] then []
    else
      var head := if ReadyForProduction(orders[ids[0]]) then [Entry(ids, orders, 0)] else [];
      head + ReadyEntries(ids[1..], orders)
  }

  /** An order is among the ready entries exactly when it is the entry of a ready key. */
  lemma {:induction false} ReadyEntriesMembers(ids: seq<string>, orders: map<string, Order>, o: Order)
    requires forall i :: 0 <= i < |ids| ==> ids[i] in orders
    ensures o in ReadyEntries(ids, orders) <==>
      exists i :: 0 <= i < |ids| && ReadyForProduction(orders[ids[i]]) && o == Entry(ids, orders, i)
  {
    if ids != [] {
      ReadyEntriesMembers(ids[1..], orders, o);
      if o in ReadyEntries(ids[1..], orders) {
        var i :| 0 <= i < |ids| - 1 && ReadyForProduction(orders[ids[1..][i]]) && o == Entry(ids[1..], orders, i);
        assert o == Entry(ids, orders, i + 1);
      }
      if exists i :: 0 <= i < |ids| && ReadyForProduction(orders[ids[i]]) && o == Entry(ids, orders, i) {
        var i :| 0 <= i < |ids| && ReadyForProduction(orders[ids[i]]) && o == Entry(ids, orders, i);
        if i > 0 {
          assert Entry(ids, orders, i) == Entry(ids[1..], orders, i - 1);
        }
      }
    }
  }

  lemma {:induction false} ReadyEntriesAreReady(ids: seq<string>, orders: map<string, Order>)
    requires forall i :: 0 <= i < |ids| ==> ids[i] in orders
    ensures forall o :: o in ReadyEntries(ids, orders) ==> ReadyForProduction(o)
  {
    if ids != [] {
      ReadyEntriesAreReady(ids[1..], orders);
    }
  }

  // ---------------------------------------------------------------------------
  // `pending.sort(key=lambda p: p.get("created_at", ""))`: Python's sort is stable,
  // modelled by an insertion sort that puts each element before the equal keys.

  predicate SortedByCreatedAt(s: seq<Order>) {
    forall i, j :: 0 <= i < j < |s| ==> LexLe(s[i].createdAt, s[j].createdAt)
  }

  /** The elements of `s` created at `t`, in their order in `s`. */
  function CreatedAt(s: seq<Order>, t: string): seq<Order> {
    if s == [] then []
    else (if s[0].createdAt == t then [s[0]] else []) + CreatedAt(s[1..], t)
  }

  function InsertByCreatedAt(x: Order, s: seq<Order>): seq<Order> {
    if s == [] || LexLe(x.createdAt, s[0].createdAt) then [x] + s
    else [s[0]] + InsertByCreatedAt(x, s[1..])
  }

  function SortByCreatedAt(s: seq<Order>): seq<Order> {
    if s == [] then [] else InsertByCreatedAt(s[0], SortByCreatedAt(s[1..]))
  }

  lemma {:induction false} InsertPermutes(x: Order, s: seq<Order>)
    ensures multiset(InsertByCreatedAt(x, s)) == multiset(s) + multiset{x}
  {
    if !(s == [] || LexLe(x.createdAt, s[0].createdAt)) {
      InsertPermutes(x, s[1..]);
      assert s == [s[0]] + s[1..];
    }
  }

  lemma {:induction false} InsertSorted(x: Order, s: seq<Order>)
    requires SortedByCreatedAt(s)
    ensures SortedByCreatedAt(InsertByCreatedAt(x, s))
    ensures multiset(InsertByCreatedAt(x, s)) == multiset(s) + multiset{x}
  {
    InsertPermutes(x, s);
    var r := InsertByCreatedAt(x, s);
    if s == [] || LexLe(x.createdAt, s[0].createdAt) {
      forall i, j | 0 <= i < j < |r| ensures LexLe(r[i].createdAt, r[j].createdAt) {
        if i == 0 && j > 1 {
          LexLeTransitive(x.createdAt, s[0].createdAt, s[j - 1].createdAt);
        }
      }
    } else {
      InsertSorted(x, s[1..]);
      LexLeTotal(x.createdAt, s[0].createdAt);
      var t := InsertByCreatedAt(x, s[1..]);
      assert r == [s[0]] + t;
      forall i, j | 0 <= i < j < |r| ensures LexLe(r[i].createdAt, r[j].createdAt) {
        if i == 0 {
          var o := r[j];
          assert o in multiset(t);
          if o != x {
            assert o in multiset(s[1..]);
            var k :| 0 <= k < |s[1..]| && s[1..][k] == o;
            assert s[k + 1] == o;
          }
        }
      }
    }
  }

  lemma {:induction false} InsertStable(x: Order, s: seq<Order>, t: string)
    ensures CreatedAt(InsertByCreatedAt(x, s), t) == (if x.createdAt == t then [x] else []) + CreatedAt(s, t)
  {
    if s == [] || LexLe(x.createdAt, s[0].createdAt) {
      assert ([x] + s)[1..] == s;
    } else {
      InsertStable(x, s[1..], t);
      LexLeReflexive(x.createdAt);
      var r := [s[0]] + InsertByCreatedAt(x, s[1..]);
      assert r[1..] == InsertByCreatedAt(x, s[1..]);
    }
  }

  /** Sorting yields a sorted permutation of its input. */
  lemma {:induction false} SortSortedPermutation(s: seq<Order>)
    ensures SortedByCreatedAt(SortByCreatedAt(s))
    ensures multiset(SortByCreatedAt(s)) == multiset(s)
  {
    if s != [] {
      SortSortedPermutation(s[1..]);
      InsertSorted(s[0], SortByCreatedAt(s[1..]));
      assert s == [s[0]] + s[1..];
    }
  }

  /** Sorting is stable: the orders created at any one time keep their relative order. */
  lemma {:induction false} SortStable(s: seq<Order>, t: string)
    ensures CreatedAt(SortByCreatedAt(s), t) == CreatedAt(s, t)
  {
    if s != [] {
      SortStable(s[1..], t);
      InsertStable(s[0], SortByCreatedAt(s[1..]), t);
    }
  }

  /**
   * The listing orders by the `created_at` text, not by time. `isoformat()` leaves out
   * the fraction when the microsecond is 0, and '.' comes before 'Z', so an order created
   * on a whole second is listed after one created half a second later.
   */
  lemma WholeSecondSortsAfterFraction()
    ensures var whole := "2024-01-01T10:00:00Z";
      var later := "2024-01-01T10:00:00.500000Z";
      LexLe(later, whole) && !LexLe(whole, later)
  {
    var p := "2024-01-01T10:00:00";
    assert "2024-01-01T10:00:00Z" == p + "Z";
    assert "2024-01-01T10:00:00.500000Z" == p + ".500000Z";
    LexLeCommonPrefix(p, ".500000Z", "Z");
    LexLeCommonPrefix(p, "Z", ".500000Z");
  }

  /**
   * `list_pending_production` over a dictionary: exactly the paid, unproduced entries,
   * ascending by the `created_at` string, ties in key order.
   */
  function ListPendingProduction(ids: seq<string>, orders: map<string, Order>): (r: seq<Order>)
    requires KeyOrder(ids, orders)
    ensures forall o :: o in r ==> ReadyForProduction(o)
    ensures forall o :: o in r <==>
      exists i :: 0 <= i < |ids| && ReadyForProduction(orders[ids[i]]) && o == Entry(ids, orders, i)
    ensures multiset(r) == multiset(ReadyEntries(ids, orders))
    ensures SortedByCreatedAt(r)
    ensures forall t :: CreatedAt(r, t) == CreatedAt(ReadyEntries(ids, orders), t)
  {
    var ready := ReadyEntries(ids, orders);
    SortSortedPermutation(ready);
    ReadyEntriesAreReady(ids, orders);
    forall o ensures o in SortByCreatedAt(ready) <==> o in ready {
      assert o in SortByCreatedAt(ready) <==> o in multiset(SortByCreatedAt(ready));
    }
    forall o ensures o in ready <==>
      exists i :: 0 <= i < |ids| && ReadyForProduction(orders[ids[i]]) && o == Entry(ids, orders, i)
    {
      ReadyEntriesMembers(ids, orders, o);
    }
    forall t ensures CreatedAt(SortByCreatedAt(ready), t) == CreatedAt(ready, t) {
      SortStable(ready, t);
    }
    SortByCreatedAt(ready)
  }

  /** In a store whose order ids match their keys, the listing holds the stored records themselves. */
  lemma ListedAreStored(ids: seq<string>, orders: map<string, Order>, o: Order)
    requires KeyOrder(ids, orders)
    requires forall k :: k in orders ==> orders[k].orderId == k
    requires o in ListPendingProduction(ids, orders)
    ensures o.orderId in orders && orders[o.orderId] == o
  {
  }

  // ---------------------------------------------------------------------------

  /** The store: `orders.json` held in memory. */
  class OrderStore {
    var orders: map<string, Order>
    var ids: seq<string>

    ghost predicate Valid()
      reads this
    {
      KeyOrder(ids, orders)
    }

    /** An empty store (`orders.json` holding `{}`). */
    constructor ()
      ensures Valid() && orders == map[] && ids == []
    {
      orders := map[];
      ids := [];
    }

    /**
     * `create_order`. `newId` stands for `str(uuid.uuid4())` and `now` for the clock.
     * A key already present is overwritten in place, as a dict assignment does; with a
     * fresh id the new key goes last and every other order is untouched.
     */
    method CreateOrder(petName: string, userEmail: string, fileNames: seq<string>, newId: string, now: string)
      returns (orderId: string)
      requires Valid()
      modifies this
      ensures Valid()
      ensures orderId == newId
      ensures orders == old(orders)[newId := NewOrder(newId, petName, userEmail, fileNames, now)]
      ensures ids == if newId in old(orders) then old(ids) else old(ids) + [newId]
      ensures orders[orderId].pagamento == Pending && orders[orderId].status == Pending
      ensures orders[orderId].asaasCheckoutId == None
      ensures forall k :: k in old(orders) && k != orderId ==> k in orders && orders[k] == old(orders)[k]
    {
      orderId := newId;
      if orderId !in orders {
        ids := ids + [orderId];
      }
      orders := orders[orderId := NewOrder(orderId, petName, userEmail, fileNames, now)];
    }

    /** `get_order`: the stored record, or None when the id is absent. */
    function GetOrder(orderId: string): (r: Option<Order>)
      reads this
      ensures r.Some? <==> orderId in orders
      ensures r.Some? ==> r.value == orders[orderId]
    {
      if orderId in orders then Some(orders[orderId]) else None
    }

    /** `get_order_by_asaas_checkout_id`: a scan in key order that returns the first match. */
    method GetOrderByAsaasCheckoutId(checkoutId: string) returns (r: Option<Order>)
      requires Valid()
      ensures r == FindByCheckoutId(ids, orders, checkoutId)
      ensures r.None? <==> forall i :: 0 <= i < |ids| ==> orders[ids[i]].asaasCheckoutId != Some(checkoutId)
      ensures r.Some? ==> exists i :: (0 <= i < |ids| && r.value == Entry(ids, orders, i)
        && orders[ids[i]].asaasCheckoutId == Some(checkoutId)
        && forall j :: 0 <= j < i ==> orders[ids[j]].asaasCheckoutId != Some(checkoutId))
    {
      FindByCheckoutIdFirst(ids, orders, checkoutId);
      var i := 0;
      while i < |ids|
        invariant 0 <= i <= |ids|
        invariant FindByCheckoutId(ids[i..], orders, checkoutId) == FindByCheckoutId(ids, orders, checkoutId)
      {
        var oid := ids[i];
        if orders[oid].asaasCheckoutId == Some(checkoutId) {
          return Some(orders[oid].(orderId := oid));
        }
        assert ids[i..][1..] == ids[i + 1..];
        i := i + 1;
      }
      return None;
    }

    /** `list_pending_production` of the current contents. */
    function ListPending(): (r: seq<Order>)
      reads this
      requires Valid()
      ensures r == ListPendingProduction(ids, orders)
    {
      ListPendingProduction(ids, orders)
    }

    /** `update_order_asaas_checkout_id`: False and no change when the id is absent. */
    method UpdateOrderAsaasCheckoutId(orderId: string, checkoutId: string) returns (found: bool)
      requires Valid()
      modifies this
      ensures Valid() && ids == old(ids)
      ensures found <==> orderId in old(orders)
      ensures orders == if found then old(orders)[orderId := WithCheckoutId(old(orders)[orderId], checkoutId)] else old(orders)
    {
      if orderId !in orders {
        return false;
      }
      orders := orders[orderId := WithCheckoutId(orders[orderId], checkoutId)];
      return true;
    }

    /** `update_order_pagamento`: sets `pagamento` and `updated_at`. */
    method UpdateOrderPagamento(orderId: string, valor: string, now: string) returns (found: bool)
      requires Valid()
      modifies this
      ensures Valid() && ids == old(ids)
      ensures found <==> orderId in old(orders)
      ensures orders == if found then old(orders)[orderId := WithPagamento(old(orders)[orderId], valor, now)] else old(orders)
    {
      if orderId !in orders {
        return false;
      }
      orders := orders[orderId := WithPagamento(orders[orderId], valor, now)];
      return true;
    }

    /** `update_order_status`: sets `status` and `updated_at`. */
    method UpdateOrderStatus(orderId: string, status: string, now: string) returns (found: bool)
      requires Valid()
      modifies this
      ensures Valid() && ids == old(ids)
      ensures found <==> orderId in old(orders)
      ensures orders == if found then old(orders)[orderId := WithStatus(old(orders)[orderId], status, now)] else old(orders)
    {
      if orderId !in orders {
        return false;
      }
      orders := orders[orderId := WithStatus(orders[orderId], status, now)];
      return true;
    }

    /** `update_order_file_names`: replaces the file list; `updated_at` is not touched. */
    method UpdateOrderFileNames(orderId: string, fileNames: seq<string>) returns (found: bool)
      requires Valid()
      modifies this
      ensures Valid() && ids == old(ids)
      ensures found <==> orderId in old(orders)
      ensures orders == if found then old(orders)[orderId := WithFileNames(old(orders)[orderId], fileNames)] else old(orders)
    {
      if orderId !in orders {
        return false;
      }
      orders := orders[orderId := WithFileNames(orders[orderId], fileNames)];
      return true;
    }

    /** `update_order_images_generated`. */
    method UpdateOrderImagesGenerated(orderId: string, value: bool) returns (found: bool)
      requires Valid()
      modifies this
      ensures Valid() && ids == old(ids)
      ensures found <==> orderId in old(orders)
      ensures orders == if found then old(orders)[orderId := WithImagesGenerated(old(orders)[orderId], value)] else old(orders)
    {
      if orderId !in orders {
        return false;
      }
      orders := orders[orderId := WithImagesGenerated(orders[orderId], value)];
      return true;
    }

    /** `update_order_pdf_generated`. */
    method UpdateOrderPdfGenerated(orderId: string, value: bool) returns (found: bool)
      requires Valid()
      modifies this
      ensures Valid() && ids == old(ids)
      ensures found <==> orderId in old(orders)
      ensures orders == if found then old(orders)[orderId := WithPdfGenerated(old(orders)[orderId], value)] else old(orders)
    {
      if orderId !in orders {
        return false;
      }
      orders := orders[orderId := WithPdfGenerated(orders[orderId], value)];
      return true;
    }
  }
}
