/**
 The request handlers of vendor_app/views.py as methods on a store of the
 three tables. Each table is a map from id to record; ids are handed out
 in increasing order from 1 and never reused.

 HTTP statuses become an `Outcome`: an uncaught exception in a handler is
 `ServerError`, with nothing written by the failing step.
 */
module Views {
  import opened Models
  import opened Metrics

  /** Why a handler raised instead of answering. */
  datatype Crash =
    | DateParse           // the acknowledgment date is not in YYYY-MM-DD form
    | NullQualityAverage  // saving a null quality average into a NOT NULL column

  datatype Outcome<+T> =
    | Ok(value: T)                   // 200, 201 or 204
    | NoCompletedOrders              // 200 carrying the "no completed orders" message
    | NotFound                       // 404
    | BadRequest(errors: set<Field>) // 400 with the fields at fault
    | ServerError(cause: Crash)      // 500

  // ---------------------------------------------------------------------
  // Listing in ascending id order
  // ---------------------------------------------------------------------

  /** The entries of `m` with id below `n`, in ascending id order. */
  function Listing<T>(m: map<nat, T>, n: nat): (es: seq<(nat, T)>)
    ensures forall k :: 0 <= k < |es| ==> es[k].0 < n && es[k].0 in m && es[k].1 == m[es[k].0]
    ensures forall k, l :: 0 <= k < l < |es| ==> es[k].0 < es[l].0
  {
    if n == 0 then []
    else Listing(m, n - 1) + (if n - 1 in m then [(n - 1, m[n - 1])] else [])
  }

  /** No entry below the bound is left out. */
  lemma {:induction false} ListingComplete<T>(m: map<nat, T>, n: nat, id: nat)
    requires id in m && id < n
    ensures exists k :: 0 <= k < |Listing(m, n)| && Listing(m, n)[k] == (id, m[id])
  {
    var es := Listing(m, n);
    if id < n - 1 {
      ListingComplete(m, n - 1, id);
      var k :| 0 <= k < |Listing(m, n - 1)| && Listing(m, n - 1)[k] == (id, m[id]);
      assert es[k] == (id, m[id]);
    } else {
      assert es[|es| - 1] == (id, m[id]);
    }
  }

  function RecordsOf<T>(es: seq<(nat, T)>): (rs: seq<T>)
    ensures |rs| == |es|
  {
    seq(|es|, k requires 0 <= k < |es| => es[k].1)
  }

  /** Collects the listing one id at a time. */
  method ListById<T>(m: map<nat, T>, n: nat) returns (es: seq<(nat, T)>)
    ensures es == Listing(m, n)
  {
    es := [];
    var i := 0;
    while i < n
      invariant i <= n
      invariant es == Listing(m, i)
    {
      if i in m {
        es := es + [(i, m[i])];
      }
      i := i + 1;
    }
  }

  // ---------------------------------------------------------------------
  // Facts about acknowledgment
  // ---------------------------------------------------------------------

  /** The order table once order `id` is acknowledged at `at`: only that
      order's acknowledgment date changes, whatever its status. */
  function Acknowledged(orders: map<nat, PurchaseOrder>, id: nat, at: int): (m: map<nat, PurchaseOrder>)
    requires id in orders
    ensures m.Keys == orders.Keys
    ensures m[id].acknowledgmentDate == Some(at)
    ensures m[id] == orders[id].(acknowledgmentDate := m[id].acknowledgmentDate)
    ensures forall k :: k in orders && k != id ==> m[k] == orders[k]
  {
    orders[id := orders[id].(acknowledgmentDate := Some(at))]
  }

  /** The vendor table once vendor `v`'s average response time is rederived
      from the completed set of the order table `orders` (ids below `n`). */
  function ResponseTimeRederived(vendors: map<nat, Vendor>, orders: map<nat, PurchaseOrder>, n: nat, v: nat)
    : (m: map<nat, Vendor>)
    requires v in vendors
    ensures m.Keys == vendors.Keys
    ensures m[v].averageResponseTime == AverageResponseTime(CompletedOrders(RecordsOf(Listing(orders, n)), v))
    ensures m[v] == vendors[v].(averageResponseTime := m[v].averageResponseTime)
    ensures forall k :: k in vendors && k != v ==> m[k] == vendors[k]
  {
    vendors[v := vendors[v].(averageResponseTime := AverageResponseTime(CompletedOrders(RecordsOf(Listing(orders, n)), v)))]
  }

  /** Rewriting a vendor under its own code keeps the tables consistent. */
  lemma RewriteKeepsConsistent(vendors: map<nat, Vendor>, orders: map<nat, PurchaseOrder>,
                               history: map<nat, HistoricalPerformance>, id: nat, v: Vendor)
    requires Consistent(vendors, orders, history) && id in vendors && v.vendorCode == vendors[id].vendorCode
    ensures Consistent(vendors[id := v], orders, history)
  {
  }

  /** The acknowledgment keeps codes and PO numbers unique and every foreign key in place. */
  lemma AcknowledgeKeepsConsistent(vendors: map<nat, Vendor>, orders: map<nat, PurchaseOrder>,
                                   history: map<nat, HistoricalPerformance>, n: nat, id: nat, at: int)
    requires Consistent(vendors, orders, history) && id in orders
    ensures
      var orders' := Acknowledged(orders, id, at);
      Consistent(ResponseTimeRederived(vendors, orders', n, orders[id].vendor), orders', history)
  {
    var orders' := Acknowledged(orders, id, at);
    var vendors' := ResponseTimeRederived(vendors, orders', n, orders[id].vendor);
    assert forall k :: k in orders' ==> orders'[k].poNumber == orders[k].poNumber && orders'[k].vendor == orders[k].vendor;
    assert forall k :: k in vendors' ==> vendors'[k].vendorCode == vendors[k].vendorCode;
  }

  /** The acknowledged order enters its vendor's completed set exactly when its status is Completed. */
  lemma AcknowledgedOrderCountedIffCompleted(m: map<nat, PurchaseOrder>, n: nat, id: nat, at: int)
    requires id in m && id < n
    ensures
      var m' := Acknowledged(m, id, at);
      m'[id] in CompletedOrders(RecordsOf(Listing(m', n)), m[id].vendor) <==> m[id].status == Completed
  {
    var m' := Acknowledged(m, id, at);
    var es := Listing(m', n);
    ListingComplete(m', n, id);
    var k :| 0 <= k < |es| && es[k] == (id, m'[id]);
    assert RecordsOf(es)[k] == m'[id];
  }

  /** An acknowledgment that leaves the vendor's completed set empty writes 0 as its
      average response time, where the full recompute would answer "no completed
      orders" and write nothing. */
  lemma AcknowledgeOnEmptySetWritesZero(vendors: map<nat, Vendor>, orders: map<nat, PurchaseOrder>, n: nat,
                                        id: nat, at: int)
    requires id in orders && orders[id].vendor in vendors
    requires Recompute(RecordsOf(Listing(Acknowledged(orders, id, at), n)), orders[id].vendor).None?
    ensures ResponseTimeRederived(vendors, Acknowledged(orders, id, at), n, orders[id].vendor)[orders[id].vendor]
              .averageResponseTime == 0.0
  {
    var cs := CompletedOrders(RecordsOf(Listing(Acknowledged(orders, id, at), n)), orders[id].vendor);
    assert cs == [];
  }

  /** Acknowledging the same order twice leaves both tables as one acknowledgment
      with the second date would: the order keeps only the second date, and the
      vendor's average response time is the one derived from that date. */
  lemma AcknowledgeTwiceKeepsSecond(vendors: map<nat, Vendor>, orders: map<nat, PurchaseOrder>, n: nat,
                                    id: nat, first: int, second: int)
    requires id in orders && orders[id].vendor in vendors
    ensures
      var v := orders[id].vendor;
      var orders1 := Acknowledged(orders, id, first);
      var vendors1 := ResponseTimeRederived(vendors, orders1, n, v);
      var orders2 := Acknowledged(orders1, id, second);
      var vendors2 := ResponseTimeRederived(vendors1, orders2, n, v);
      && orders2 == Acknowledged(orders, id, second)
      && vendors2 == ResponseTimeRederived(vendors, Acknowledged(orders, id, second), n, v)
  {
    var v := orders[id].vendor;
    var orders1 := Acknowledged(orders, id, first);
    var orders2 := Acknowledged(orders1, id, second);
    assert orders2 == Acknowledged(orders, id, second) by {
      assert orders2.Keys == orders.Keys;
      assert forall k :: k in orders2 ==> orders2[k] == Acknowledged(orders, id, second)[k];
    }
    var vendors1 := ResponseTimeRederived(vendors, orders1, n, v);
    var vendors2 := ResponseTimeRederived(vendors1, orders2, n, v);
    var once := ResponseTimeRederived(vendors, orders2, n, v);
    assert vendors2.Keys == once.Keys;
    assert vendors2[v] == once[v];
    assert forall k :: k in vendors2 ==> vendors2[k] == once[k];
  }

  // ---------------------------------------------------------------------
  // The store and its handlers
  // ---------------------------------------------------------------------

  class Store {
    var vendors: map<nat, Vendor>
    var orders: map<nat, PurchaseOrder>
    var history: map<nat, HistoricalPerformance>
    var nextVendorId: nat
    var nextOrderId: nat

    ghost predicate Valid()
      reads this
    {
      && 0 < nextVendorId && 0 < nextOrderId
      && (forall id :: id in vendors ==> 0 < id < nextVendorId)
      && (forall id :: id in orders ==> 0 < id < nextOrderId)
      && Consistent(vendors, orders, history)
    }

    constructor ()
      ensures Valid()
      ensures vendors == map[] && orders == map[] && history == map[]
    {
      vendors, orders, history := map[], map[], map[];
      nextVendorId, nextOrderId := 1, 1;
    }

    /** Every stored order in ascending id order: the history the metrics are computed from. */
    function OrderHistory(): seq<PurchaseOrder>
      reads this
    {
      RecordsOf(Listing(orders, nextOrderId))
    }

    // ----- vendors -----

    method CreateVendor(input: VendorInput) returns (r: Outcome<(nat, Vendor)>)
      requires Valid()
      modifies this
      ensures Valid()
      ensures
        var errs := VendorErrors(old(vendors), input, None);
        if errs != {} then r == BadRequest(errs) && unchanged(this)
        else
          var id := old(nextVendorId);
          && r == Ok((id, NewVendor(input)))
          && vendors == old(vendors)[id := NewVendor(input)]
          && nextVendorId == id + 1
          && orders == old(orders) && history == old(history) && nextOrderId == old(nextOrderId)
    {
      var errs := VendorErrors(vendors, input, None);
      if errs != {} {
        return BadRequest(errs);
      }
      var id := nextVendorId;
      vendors := vendors[id := NewVendor(input)];
      nextVendorId := id + 1;
      r := Ok((id, vendors[id]));
    }

    method ListVendors() returns (r: seq<(nat, Vendor)>)
      requires Valid()
      ensures r == Listing(vendors, nextVendorId)
      ensures forall id :: id in vendors <==> exists k :: 0 <= k < |r| && r[k].0 == id
    {
      r := ListById(vendors, nextVendorId);
      forall id | id in vendors
        ensures exists k :: 0 <= k < |r| && r[k].0 == id
      {
        ListingComplete(vendors, nextVendorId, id);
      }
    }

    method GetVendor(id: nat) returns (r: Outcome<Vendor>)
      ensures id in vendors ==> r == Ok(vendors[id])
      ensures id !in vendors ==> r == NotFound
    {
      if id !in vendors {
        return NotFound;
      }
      r := Ok(vendors[id]);
    }

    method UpdateVendor(id: nat, input: VendorInput) returns (r: Outcome<Vendor>)
      requires Valid()
      modifies this
      ensures Valid()
      ensures id !in old(vendors) ==> r == NotFound && unchanged(this)
      ensures id in old(vendors) ==>
        var errs := VendorErrors(old(vendors), input, Some(id));
        if errs != {} then r == BadRequest(errs) && unchanged(this)
        else
          var v := UpdatedVendor(old(vendors)[id], input);
          && r == Ok(v)
          && vendors == old(vendors)[id := v]
          && orders == old(orders) && history == old(history)
          && nextVendorId == old(nextVendorId) && nextOrderId == old(nextOrderId)
    {
      if id !in vendors {
        return NotFound;
      }
      var errs := VendorErrors(vendors, input, Some(id));
      if errs != {} {
        return BadRequest(errs);
      }
      vendors := vendors[id := UpdatedVendor(vendors[id], input)];
      r := Ok(vendors[id]);
    }

    /** Deleting a vendor deletes its orders and performance records with it. */
    method DeleteVendor(id: nat) returns (r: Outcome<()>)
      requires Valid()
      modifies this
      ensures Valid()
      ensures id !in old(vendors) ==> r == NotFound && unchanged(this)
      ensures id in old(vendors) ==>
        && r == Ok(())
        && vendors == old(vendors) - {id}
        && orders == WithoutOwner(old(orders), OrderVendor, id)
        && history == WithoutOwner(old(history), RecordVendor, id)
        && nextVendorId == old(nextVendorId) && nextOrderId == old(nextOrderId)
    {
      if id !in vendors {
        return NotFound;
      }
      CascadeKeepsConsistent(vendors, orders, history, id);
      vendors := vendors - {id};
      orders := WithoutOwner(orders, OrderVendor, id);
      history := WithoutOwner(history, RecordVendor, id);
      r := Ok(());
    }

    // ----- purchase orders -----

    /** `now` is the clock reading that fills in the issue date. */
    method CreatePurchaseOrder(input: OrderInput, now: int) returns (r: Outcome<(nat, PurchaseOrder)>)
      requires Valid()
      modifies this
      ensures Valid()
      ensures
        var errs := OrderErrors(old(vendors), old(orders), input, None);
        if errs != {} then r == BadRequest(errs) && unchanged(this)
        else
          var id := old(nextOrderId);
          var o := NewOrder(input, StatusFromChoice(input.status).value, now);
          && r == Ok((id, o))
          && orders == old(orders)[id := o]
          && nextOrderId == id + 1
          && vendors == old(vendors) && history == old(history) && nextVendorId == old(nextVendorId)
    {
      var errs := OrderErrors(vendors, orders, input, None);
      if errs != {} {
        return BadRequest(errs);
      }
      var id := nextOrderId;
      var o := NewOrder(input, StatusFromChoice(input.status).value, now);
      orders := orders[id := o];
      nextOrderId := id + 1;
      r := Ok((id, o));
    }

    method ListPurchaseOrders() returns (r: seq<(nat, PurchaseOrder)>)
      requires Valid()
      ensures r == Listing(orders, nextOrderId)
      ensures forall id :: id in orders <==> exists k :: 0 <= k < |r| && r[k].0 == id
    {
      r := ListById(orders, nextOrderId);
      forall id | id in orders
        ensures exists k :: 0 <= k < |r| && r[k].0 == id
      {
        ListingComplete(orders, nextOrderId, id);
      }
    }

    method GetPurchaseOrder(id: nat) returns (r: Outcome<PurchaseOrder>)
      ensures id in orders ==> r == Ok(orders[id])
      ensures id !in orders ==> r == NotFound
    {
      if id !in orders {
        return NotFound;
      }
      r := Ok(orders[id]);
    }

    method UpdatePurchaseOrder(id: nat, input: OrderInput) returns (r: Outcome<PurchaseOrder>)
      requires Valid()
      modifies this
      ensures Valid()
      ensures id !in old(orders) ==> r == NotFound && unchanged(this)
      ensures id in old(orders) ==>
        var errs := OrderErrors(old(vendors), old(orders), input, Some(id));
        if errs != {} then r == BadRequest(errs) && unchanged(this)
        else
          var o := UpdatedOrder(old(orders)[id], input, StatusFromChoice(input.status).value);
          && r == Ok(o)
          && orders == old(orders)[id := o]
          && vendors == old(vendors) && history == old(history)
          && nextVendorId == old(nextVendorId) && nextOrderId == old(nextOrderId)
    {
      if id !in orders {
        return NotFound;
      }
      var errs := OrderErrors(vendors, orders, input, Some(id));
      if errs != {} {
        return BadRequest(errs);
      }
      var o := UpdatedOrder(orders[id], input, StatusFromChoice(input.status).value);
      orders := orders[id := o];
      r := Ok(o);
    }

    method DeletePurchaseOrder(id: nat) returns (r: Outcome<()>)
      requires Valid()
      modifies this
      ensures Valid()
      ensures id !in old(orders) ==> r == NotFound && unchanged(this)
      ensures id in old(orders) ==>
        && r == Ok(())
        && orders == old(orders) - {id}
        && vendors == old(vendors) && history == old(history)
        && nextVendorId == old(nextVendorId) && nextOrderId == old(nextOrderId)
    {
      if id !in orders {
        return NotFound;
      }
      orders := orders - {id};
      r := Ok(());
    }

    // ----- the metrics engine -----

    /** The full recompute: all four metrics are overwritten at once, or none is. */
    method GetVendorPerformance(id: nat) returns (r: Outcome<Vendor>)
      requires Valid()
      modifies this
      ensures Valid()
      ensures orders == old(orders) && history == old(history)
      ensures nextVendorId == old(nextVendorId) && nextOrderId == old(nextOrderId)
      ensures id !in old(vendors) ==> r == NotFound && vendors == old(vendors)
      ensures id in old(vendors) ==>
        var computed := Recompute(OrderHistory(), id);
        if computed.None? then r == NoCompletedOrders && vendors == old(vendors)
        else if computed.value.qualityRatingAvg.None? then
          r == ServerError(NullQualityAverage) && vendors == old(vendors)
        else
          var v := WithPerformance(old(vendors)[id], computed.value);
          r == Ok(v) && vendors == old(vendors)[id := v]
    {
      if id !in vendors {
        return NotFound;
      }
      var computed := Recompute(OrderHistory(), id);
      if computed.None? {
        return NoCompletedOrders;
      }
      var p := computed.value;
      if p.qualityRatingAvg.None? {
        return ServerError(NullQualityAverage);
      }
      var v := WithPerformance(vendors[id], p);
      RewriteKeepsConsistent(vendors, orders, history, id, v);
      vendors := vendors[id := v];
      r := Ok(v);
    }

    /** The partial recompute: the date is stored whatever the order's status,
        then only the owning vendor's average response time is rederived. */
    method AcknowledgePurchaseOrder(id: nat, dateText: Option<string>, parse: string -> Option<int>)
      returns (r: Outcome<()>)
      requires Valid()
      modifies this
      ensures Valid()
      ensures id !in old(orders) ==> r == NotFound && unchanged(this)
      ensures id in old(orders) && (dateText.None? || dateText.value == "") ==>
        r == BadRequest({AcknowledgmentDate}) && unchanged(this)
      ensures id in old(orders) && dateText.Some? && dateText.value != "" && parse(dateText.value).None? ==>
        r == ServerError(DateParse) && unchanged(this)
      ensures id in old(orders) && dateText.Some? && dateText.value != "" && parse(dateText.value).Some? ==>
        var v := old(orders)[id].vendor;
        && r == Ok(())
        && orders == Acknowledged(old(orders), id, parse(dateText.value).value)
        && vendors == ResponseTimeRederived(old(vendors), orders, nextOrderId, v)
        && history == old(history)
        && nextVendorId == old(nextVendorId) && nextOrderId == old(nextOrderId)
    {
      if id !in orders {
        return NotFound;
      }
      if dateText.None? || dateText.value == "" {
        return BadRequest({AcknowledgmentDate});
      }
      var at := parse(dateText.value);
      if at.None? {
        return ServerError(DateParse);
      }
      var v := orders[id].vendor;
      AcknowledgeKeepsConsistent(vendors, orders, history, nextOrderId, id, at.value);
      orders := Acknowledged(orders, id, at.value);
      vendors := ResponseTimeRederived(vendors, orders, nextOrderId, v);
      r := Ok(());
    }
  }
}
