/**
 The vendor performance-metrics engine (vendor_app/views.py, the two
 metric-computing handlers), as pure functions over a vendor's order history.

 The queries of the handlers become filters and folds over a sequence of
 purchase orders; the database AVG aggregate, which skips nulls and yields
 null on no value, becomes `Average` over a sequence of optional reals.
 */
module Metrics {
  import opened Models

  // ---------------------------------------------------------------------
  // The completed set
  // ---------------------------------------------------------------------

  /** Order `o` enters vendor `v`'s metrics: status Completed, acknowledgment date set. */
  predicate Counts(o: PurchaseOrder, v: nat)
  {
    o.vendor == v && o.status == Completed && o.acknowledgmentDate.Some?
  }

  /** Vendor `v`'s completed orders, in history order. */
  function CompletedOrders(orders: seq<PurchaseOrder>, v: nat): (cs: seq<PurchaseOrder>)
    ensures |cs| <= |orders|
    ensures forall o :: o in cs <==> o in orders && Counts(o, v)
  {
    if orders == [] then []
    else (if Counts(orders[0], v) then [orders[0]] else []) + CompletedOrders(orders[1..], v)
  }

  /** The filter keeps every copy of a counted order and drops every copy of
      the rest, so the size of the completed set is the number of counted rows. */
  lemma {:induction false} CompletedOrdersMultiplicity(orders: seq<PurchaseOrder>, v: nat)
    ensures forall o :: multiset(CompletedOrders(orders, v))[o] == if Counts(o, v) then multiset(orders)[o] else 0
  {
    if orders != [] {
      CompletedOrdersMultiplicity(orders[1..], v);
      assert orders == [orders[0]] + orders[1..];
      assert multiset(orders) == multiset([orders[0]]) + multiset(orders[1..]);
      var head := if Counts(orders[0], v) then [orders[0]] else [];
      assert CompletedOrders(orders, v) == head + CompletedOrders(orders[1..], v);
      assert multiset(CompletedOrders(orders, v)) == multiset(head) + multiset(CompletedOrders(orders[1..], v));
    }
  }

  // ---------------------------------------------------------------------
  // On-time delivery rate
  // ---------------------------------------------------------------------

  /** Delivered no later than acknowledged; a null date compares as unknown, so not on time. */
  predicate OnTime(o: PurchaseOrder)
  {
    && o.deliveryDate.Some? && o.acknowledgmentDate.Some?
    && o.deliveryDate.value <= o.acknowledgmentDate.value
  }

  predicate AllOnTime(cs: seq<PurchaseOrder>)
  {
    forall o :: o in cs ==> OnTime(o)
  }

  function OnTimeCount(cs: seq<PurchaseOrder>): (n: nat)
    ensures n <= |cs|
    ensures n == |cs| <==> AllOnTime(cs)
  {
    if cs == [] then 0
    else
      var rest := OnTimeCount(cs[1..]);
      assert forall o :: o in cs <==> o == cs[0] || o in cs[1..];
      (if OnTime(cs[0]) then 1 else 0) + rest
  }

  /** The count adds up over concatenated histories ... */
  lemma {:induction false} OnTimeCountAppend(a: seq<PurchaseOrder>, b: seq<PurchaseOrder>)
    ensures OnTimeCount(a + b) == OnTimeCount(a) + OnTimeCount(b)
  {
    if a != [] {
      assert (a + b)[0] == a[0];
      assert (a + b)[1..] == a[1..] + b;
      OnTimeCountAppend(a[1..], b);
    } else {
      assert a + b == b;
    }
  }

  /** ... and a single order counts once exactly when it is on time. */
  lemma OnTimeCountSingle(o: PurchaseOrder)
    ensures OnTimeCount([o]) == if OnTime(o) then 1 else 0
  {
    assert [o][1..] == [];
  }

  /** The share of on-time orders, as a percentage of the completed set. */
  function OnTimeRate(cs: seq<PurchaseOrder>): (r: real)
    requires |cs| > 0
    ensures 0.0 <= r <= 100.0
  {
    ShareBounds(OnTimeCount(cs), |cs|);
    OnTimeCount(cs) as real / |cs| as real * 100.0
  }

  /** A part of a whole, divided by the whole, is a fraction in [0, 1], and 1 for the whole itself. */
  lemma ShareBounds(part: nat, whole: nat)
    requires whole > 0
    ensures 0.0 <= part as real / whole as real
    ensures part <= whole ==> part as real / whole as real <= 1.0
    ensures part == whole ==> part as real / whole as real == 1.0
  {
    var p, w := part as real, whole as real;
    DivAtLeast(p, w, 0.0);
    if part <= whole {
      DivAtMost(p, w, 1.0);
    }
    assert p / w * w == p;
  }

  /** The rate is a percentage; it is 100 exactly when every order is on time,
      so a single undelivered order keeps it below 100. */
  lemma OnTimeRateRange(cs: seq<PurchaseOrder>)
    requires |cs| > 0
    ensures 0.0 <= OnTimeRate(cs) <= 100.0
    ensures OnTimeRate(cs) == 100.0 <==> AllOnTime(cs)
    ensures (exists o :: o in cs && o.deliveryDate.None?) ==> OnTimeRate(cs) < 100.0
  {
    var c, t := OnTimeCount(cs) as real, |cs| as real;
    DivAtLeast(c, t, 0.0);
    DivAtMost(c, t, 1.0);
    assert c / t == 1.0 <==> c == t by {
      assert c / t * t == c;
    }
    if exists o :: o in cs && o.deliveryDate.None? {
      assert !AllOnTime(cs);
    }
  }

  // ---------------------------------------------------------------------
  // The AVG aggregate over a nullable column
  // ---------------------------------------------------------------------

  function PresentSum(xs: seq<Option<real>>): real
  {
    if xs == [] then 0.0
    else (match xs[0] case Some(x) => x case None => 0.0) + PresentSum(xs[1..])
  }

  function PresentCount(xs: seq<Option<real>>): nat
  {
    if xs == [] then 0
    else (if xs[0].Some? then 1 else 0) + PresentCount(xs[1..])
  }

  /** Nulls are not counted: no value is counted exactly when all are null,
      every value exactly when none is. */
  lemma {:induction false} PresentCountSpec(xs: seq<Option<real>>)
    ensures PresentCount(xs) <= |xs|
    ensures PresentCount(xs) == 0 <==> forall k :: 0 <= k < |xs| ==> xs[k].None?
    ensures PresentCount(xs) == |xs| <==> forall k :: 0 <= k < |xs| ==> xs[k].Some?
  {
    if xs != [] {
      PresentCountSpec(xs[1..]);
      assert forall k :: 1 <= k < |xs| ==> xs[k] == xs[1..][k - 1];
    }
  }

  /** Mean of the non-null values; null when there is none. */
  function Average(xs: seq<Option<real>>): (r: Option<real>)
    ensures r.None? <==> forall k :: 0 <= k < |xs| ==> xs[k].None?
  {
    PresentCountSpec(xs);
    var n := PresentCount(xs);
    if n == 0 then None else Some(PresentSum(xs) / n as real)
  }

  lemma {:induction false} PresentSumAtLeast(xs: seq<Option<real>>, lo: real)
    requires forall k :: 0 <= k < |xs| && xs[k].Some? ==> lo <= xs[k].value
    ensures lo * PresentCount(xs) as real <= PresentSum(xs)
  {
    if xs != [] {
      var rest := xs[1..];
      assert forall k :: 0 <= k < |rest| ==> rest[k] == xs[k + 1];
      PresentSumAtLeast(rest, lo);
      var n := PresentCount(rest) as real;
      if xs[0].Some? {
        calc {
          lo * PresentCount(xs) as real;
          == lo * (n + 1.0);
          == { ScaleStep(lo, n); }
          lo * n + lo;
          <= PresentSum(rest) + xs[0].value;
          == PresentSum(xs);
        }
      }
    }
  }

  lemma {:induction false} PresentSumAtMost(xs: seq<Option<real>>, hi: real)
    requires forall k :: 0 <= k < |xs| && xs[k].Some? ==> xs[k].value <= hi
    ensures PresentSum(xs) <= hi * PresentCount(xs) as real
  {
    if xs != [] {
      var rest := xs[1..];
      assert forall k :: 0 <= k < |rest| ==> rest[k] == xs[k + 1];
      PresentSumAtMost(rest, hi);
      var n := PresentCount(rest) as real;
      if xs[0].Some? {
        calc {
          PresentSum(xs);
          == PresentSum(rest) + xs[0].value;
          <= hi * n + hi;
          == { ScaleStep(hi, n); }
          hi * (n + 1.0);
          == hi * PresentCount(xs) as real;
        }
      }
    }
  }

  /** The mean lies within any bounds that hold for every non-null value. */
  lemma AverageWithin(xs: seq<Option<real>>, lo: real, hi: real)
    requires forall k :: 0 <= k < |xs| && xs[k].Some? ==> lo <= xs[k].value <= hi
    ensures Average(xs).Some? ==> lo <= Average(xs).value <= hi
  {
    AverageAtLeast(xs, lo);
    PresentSumAtMost(xs, hi);
    var n := PresentCount(xs) as real;
    if n > 0.0 {
      DivAtMost(PresentSum(xs), n, hi);
    }
  }

  lemma AverageAtLeast(xs: seq<Option<real>>, lo: real)
    requires forall k :: 0 <= k < |xs| && xs[k].Some? ==> lo <= xs[k].value
    ensures Average(xs).Some? ==> lo <= Average(xs).value
  {
    PresentSumAtLeast(xs, lo);
    var n := PresentCount(xs) as real;
    if n > 0.0 {
      DivAtLeast(PresentSum(xs), n, lo);
    }
  }

  lemma ScaleStep(x: real, n: real)
    ensures x * (n + 1.0) == x * n + x
  {
  }

  lemma DivAtLeast(s: real, n: real, lo: real)
    requires n > 0.0 && lo * n <= s
    ensures lo <= s / n
  {
    var q := s / n;
    assert q * n == s;
    if q < lo {
      assert (lo - q) * n > 0.0;
    }
  }

  lemma DivAtMost(s: real, n: real, hi: real)
    requires n > 0.0 && s <= hi * n
    ensures s / n <= hi
  {
    var q := s / n;
    assert q * n == s;
    if q > hi {
      assert (q - hi) * n > 0.0;
    }
  }

  // ---------------------------------------------------------------------
  // Quality rating average and average response time
  // ---------------------------------------------------------------------

  function Qualities(cs: seq<PurchaseOrder>): (xs: seq<Option<real>>)
    ensures |xs| == |cs|
  {
    seq(|cs|, k requires 0 <= k < |cs| => cs[k].qualityRating)
  }

  predicate NoneRated(cs: seq<PurchaseOrder>)
  {
    forall o :: o in cs ==> o.qualityRating.None?
  }

  /** Mean quality rating of the rated orders; null when none is rated. */
  function QualityRatingAverage(cs: seq<PurchaseOrder>): (r: Option<real>)
    ensures r.None? <==> NoneRated(cs)
  {
    var xs := Qualities(cs);
    assert NoneRated(cs) <==> forall k :: 0 <= k < |xs| ==> xs[k].None? by {
      assert forall k :: 0 <= k < |cs| ==> xs[k] == cs[k].qualityRating;
    }
    Average(xs)
  }

  /** Seconds from issue to acknowledgment; null while unacknowledged. */
  function ResponseSeconds(o: PurchaseOrder): Option<real>
  {
    match o.acknowledgmentDate
    case Some(a) => Some((a - o.issueDate) as real)
    case None => None
  }

  function ResponseTimes(cs: seq<PurchaseOrder>): (xs: seq<Option<real>>)
    ensures |xs| == |cs|
  {
    seq(|cs|, k requires 0 <= k < |cs| => ResponseSeconds(cs[k]))
  }

  /** Every acknowledged order was acknowledged at or after its issue. */
  predicate AcknowledgedAfterIssue(cs: seq<PurchaseOrder>)
  {
    forall o :: o in cs && o.acknowledgmentDate.Some? ==> o.issueDate <= o.acknowledgmentDate.value
  }

  /** Mean response time in seconds; 0 when the mean is null (or zero). */
  function AverageResponseTime(cs: seq<PurchaseOrder>): (r: real)
    ensures (forall o :: o in cs ==> o.acknowledgmentDate.None?) ==> r == 0.0
  {
    var xs := ResponseTimes(cs);
    assert forall k :: 0 <= k < |xs| ==> xs[k] == ResponseSeconds(cs[k]);
    assert (forall o :: o in cs ==> o.acknowledgmentDate.None?) ==> forall k :: 0 <= k < |xs| ==> xs[k].None? by {
      assert forall k :: 0 <= k < |cs| ==> cs[k] in cs;
    }
    match Average(xs)
    case Some(a) => a
    case None => 0.0
  }

  /** No clamping is needed when every acknowledgment follows its issue ... */
  lemma ResponseTimeNonNegative(cs: seq<PurchaseOrder>)
    requires AcknowledgedAfterIssue(cs)
    ensures AverageResponseTime(cs) >= 0.0
  {
    var xs := ResponseTimes(cs);
    forall k | 0 <= k < |xs| && xs[k].Some?
      ensures 0.0 <= xs[k].value
    {
      assert cs[k] in cs;
    }
    AverageAtLeast(xs, 0.0);
  }

  /** ... but none is applied: a completed set where one order was acknowledged
      after its issue and one before gets a negative mean from the full recompute. */
  lemma ResponseTimeMayBeNegative()
    ensures exists orders: seq<PurchaseOrder> ::
      && CompletedOrders(orders, 1) == orders
      && (exists o :: o in orders && o.acknowledgmentDate.Some? && o.issueDate <= o.acknowledgmentDate.value)
      && Recompute(orders, 1).Some?
      && Recompute(orders, 1).value.qualityRatingAvg.Some?
      && Recompute(orders, 1).value.averageResponseTime < 0.0
  {
    var timely := PurchaseOrder("PO-1", 1, 0, None, "{}", 1, Completed, Some(3.0), 0, Some(10));
    var early := PurchaseOrder("PO-2", 1, 0, None, "{}", 1, Completed, None, 100, Some(0));
    var cs := [timely, early];
    assert cs[1..] == [early] && cs[1..][1..] == [];
    assert CompletedOrders(cs, 1) == cs;
    var xs := ResponseTimes(cs);
    assert xs == [Some(10.0), Some(-100.0)];
    assert xs[1..] == [Some(-100.0)];
    assert xs[1..][1..] == [];
    assert PresentCount(xs[1..][1..]) == 0 && PresentSum(xs[1..][1..]) == 0.0;
    assert PresentCount(xs[1..]) == 1 && PresentSum(xs[1..]) == -100.0;
    assert PresentCount(xs) == 2 && PresentSum(xs) == -90.0;
    assert AverageResponseTime(cs) == -45.0;
    assert QualityRatingAverage(cs).Some? by {
      assert !NoneRated(cs) by { assert timely in cs; }
    }
    assert timely in cs;
  }

  // ---------------------------------------------------------------------
  // Fulfillment rate and the full recompute
  // ---------------------------------------------------------------------

  /** The share of fulfilled orders, as a percentage. */
  function FulfillmentRate(fulfilled: nat, total: nat): (r: real)
    requires total > 0
    ensures fulfilled <= total ==> 0.0 <= r <= 100.0
    ensures fulfilled == total ==> r == 100.0
  {
    ShareBounds(fulfilled, total);
    fulfilled as real / total as real * 100.0
  }

  /** Numerator and denominator are counts of the same set, so the rate is always 100. */
  lemma FulfillmentAlwaysFull(total: nat)
    requires total > 0
    ensures FulfillmentRate(total, total) == 100.0
  {
    var t := total as real;
    assert t / t == 1.0;
  }

  /** The four metric values one recompute derives. */
  datatype Performance = Performance(
    onTimeDeliveryRate: real,
    qualityRatingAvg: Option<real>,
    averageResponseTime: real,
    fulfillmentRate: real)

  /** The full recompute for vendor `v`; None is the "no completed orders" outcome. */
  function Recompute(orders: seq<PurchaseOrder>, v: nat): (r: Option<Performance>)
    ensures r.None? <==> |CompletedOrders(orders, v)| == 0
    ensures r.Some? ==> 0.0 <= r.value.onTimeDeliveryRate <= 100.0 && r.value.fulfillmentRate == 100.0
  {
    var cs := CompletedOrders(orders, v);
    if |cs| == 0 then None
    else Some(Performance(OnTimeRate(cs), QualityRatingAverage(cs), AverageResponseTime(cs),
                          FulfillmentRate(|cs|, |cs|)))
  }

  /** A recompute yields nothing exactly when no order of the vendor counts. */
  lemma RecomputeEmptyIff(orders: seq<PurchaseOrder>, v: nat)
    ensures Recompute(orders, v).None? <==> forall o :: o in orders ==> !Counts(o, v)
  {
    var cs := CompletedOrders(orders, v);
    if |cs| > 0 {
      assert cs[0] in cs;
    }
  }

  /** What a recompute promises about its four values. */
  lemma RecomputeSpec(orders: seq<PurchaseOrder>, v: nat)
    requires |CompletedOrders(orders, v)| > 0
    ensures Recompute(orders, v).Some?
    ensures
      var p := Recompute(orders, v).value;
      var cs := CompletedOrders(orders, v);
      && 0.0 <= p.onTimeDeliveryRate <= 100.0
      && (p.onTimeDeliveryRate == 100.0 <==> AllOnTime(cs))
      && p.fulfillmentRate == 100.0
      && (p.qualityRatingAvg.None? <==> NoneRated(cs))
      && (AcknowledgedAfterIssue(cs) ==> p.averageResponseTime >= 0.0)
  {
    var cs := CompletedOrders(orders, v);
    OnTimeRateRange(cs);
    FulfillmentAlwaysFull(|cs|);
    if AcknowledgedAfterIssue(cs) {
      ResponseTimeNonNegative(cs);
    }
  }

  /** The quality average stays on the rating scale used by the orders. */
  lemma QualityWithinScale(cs: seq<PurchaseOrder>, lo: real, hi: real)
    requires forall o :: o in cs && o.qualityRating.Some? ==> lo <= o.qualityRating.value <= hi
    ensures QualityRatingAverage(cs).Some? ==> lo <= QualityRatingAverage(cs).value <= hi
  {
    var xs := Qualities(cs);
    forall k | 0 <= k < |xs| && xs[k].Some?
      ensures lo <= xs[k].value <= hi
    {
      assert cs[k] in cs;
    }
    AverageWithin(xs, lo, hi);
  }

  /** The write step of the full recompute: all four columns take the recomputed
      values at once, and the vendor's own fields stay. */
  function WithPerformance(vendor: Vendor, p: Performance): (r: Vendor)
    requires p.qualityRatingAvg.Some?
    ensures r.onTimeDeliveryRate == p.onTimeDeliveryRate && r.qualityRatingAvg == p.qualityRatingAvg.value
    ensures r.averageResponseTime == p.averageResponseTime && r.fulfillmentRate == p.fulfillmentRate
    ensures r.name == vendor.name && r.vendorCode == vendor.vendorCode
    ensures r.contactDetails == vendor.contactDetails && r.address == vendor.address
  {
    vendor.(onTimeDeliveryRate := p.onTimeDeliveryRate,
            qualityRatingAvg := p.qualityRatingAvg.value,
            averageResponseTime := p.averageResponseTime,
            fulfillmentRate := p.fulfillmentRate)
  }

  /** Two completed orders of vendor 1, both issued on day 0: the first acknowledged
      on day 2 and delivered on day 1, the second acknowledged on day 4 and delivered
      on day 9. Half are on time and the mean response is 3 days (72 hours). */
  lemma TwoOrderScenario()
    ensures
      var day := 86400;
      var first := PurchaseOrder("PO-1", 1, 0, Some(day), "{}", 1, Completed, Some(4.0), 0, Some(2 * day));
      var second := PurchaseOrder("PO-2", 1, 0, Some(9 * day), "{}", 1, Completed, Some(5.0), 0, Some(4 * day));
      Recompute([first, second], 1) == Some(Performance(50.0, Some(4.5), 259200.0, 100.0))
  {
    var day := 86400;
    var first := PurchaseOrder("PO-1", 1, 0, Some(day), "{}", 1, Completed, Some(4.0), 0, Some(2 * day));
    var second := PurchaseOrder("PO-2", 1, 0, Some(9 * day), "{}", 1, Completed, Some(5.0), 0, Some(4 * day));
    var cs := [first, second];
    assert cs[1..] == [second];
    assert cs[1..][1..] == [];
    assert CompletedOrders(cs, 1) == cs;
    assert OnTimeCount(cs) == 1;
    var qs := Qualities(cs);
    assert qs == [Some(4.0), Some(5.0)];
    assert qs[1..] == [Some(5.0)] && qs[1..][1..] == [];
    var rs := ResponseTimes(cs);
    assert rs == [Some(172800.0), Some(345600.0)];
    assert rs[1..] == [Some(345600.0)] && rs[1..][1..] == [];
  }
}
