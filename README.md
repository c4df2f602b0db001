# Vendor management: performance metrics and purchase-order acknowledgment

This project models the vendor management app `vendor_app`. The app is a
store of vendors, their purchase orders and historical performance records.
Its request handlers create, list, read, update and delete those records.
Two handlers carry the domain logic, and they are the focus of the model:

- **The performance query** (`get_vendor_performance`) does a full recompute.
  It takes the vendor's *completed set*: orders whose status is `Completed`
  and whose acknowledgment date is set. From that set it derives four metrics
  and overwrites all four on the vendor:
  - the on-time delivery rate;
  - the mean quality rating;
  - the mean response time, in seconds;
  - the fulfillment rate.

  If the completed set is empty, it answers "no completed orders" and leaves
  the vendor as it was.
- **The acknowledgment** (`acknowledge_purchase_order`) does a partial
  recompute. It stores the acknowledgment date on the order, whatever the
  order's status. Then it rederives only the owning vendor's average response
  time.

Layout:

- `models.dfy` (module `Models`) holds the three records and the status
  choices. It also holds the request bodies, with the declared defaults and
  field limits, and the integrity rules between the tables: unique vendor
  codes, unique PO numbers, foreign keys and cascading deletes.
- `metrics.dfy` (module `Metrics`) is the metrics engine, written as pure
  functions over a sequence of purchase orders. The database's `AVG`
  aggregate skips nulls and yields null when no value is present. Here it is
  `Average` over a sequence of optional reals.
- `views.dfy` (module `Views`) holds the handlers, as methods of a `Store`
  class. The class keeps one map per table, an id counter for vendors and one for purchase orders. The
  methods' postconditions state each handler's full effect on the store,
  including what stays unchanged. `Valid()` is the store invariant, and
  every handler preserves it.

Instants are integer seconds, and float columns are exact reals.

Behaviour the code has, which the model keeps:

- The four vendor metrics can be written by clients. The vendor serializer
  lists them as ordinary fields, so create and update accept them. A metric
  that a create request leaves out starts at 0. A metric that an update
  request leaves out keeps its value.
- The quality average is null when no completed order has a rating. The
  handler assigns that null to `quality_rating_avg`, a column declared
  without `null=True`. The save then fails, and the request ends in a
  server error with the vendor unchanged (`NullQualityAverage`).
- The fulfillment rate divides the size of the completed set by itself, so
  it is always 100 (`Metrics.FulfillmentAlwaysFull`).
- The response-time mean is not clamped. A single order acknowledged before
  its issue date can make the mean negative, even when other orders were
  acknowledged on time (`Metrics.ResponseTimeMayBeNegative`).
- Acknowledging an order again overwrites the earlier date.
- An acknowledgment for a vendor with an empty completed set sets that
  vendor's average response time to 0
  (`Views.AcknowledgeOnEmptySetWritesZero`). The full recompute would instead
  leave the metrics as they were.
- Acknowledgment never changes an order's status.

## Model

| member | source | states |
|---|---|---|
| `Models.StatusFromChoice` | vendor_app/models.py:47-60 | a status text is accepted exactly when it is `Pending`, `Completed` or `Canceled`, and the accepted status carries that same name |
| `Models.StatusChoiceRoundTrip` | vendor_app/models.py:47-51 | every status's stored name is accepted back as that status |
| `Models.NewVendor` | vendor_app/serializers.py:11-13 | a created vendor has the request's name, contact details, address and code; each metric the request gives is stored, and each it omits is 0 |
| `Models.UpdatedVendor` | vendor_app/views.py:56-59 | an update replaces the required fields; a metric the request gives replaces the stored one, and an omitted metric keeps its old value |
| `Models.NewOrder` | vendor_app/models.py:53-63 | a created order's issue date is the creation time; PO number, vendor, order date, items, quantity and status are the request's; delivery date, quality rating and acknowledgment date are the request's when given and null otherwise |
| `Models.UpdatedOrder` | vendor_app/views.py:120-123 | an update writes every field the request gives, including order date, items and quantity; an omitted nullable field keeps its value; the issue date is never rewritten |
| `Models.VendorErrors` | vendor_app/models.py:18-21 | a vendor request is error-free exactly when it has a name of 1..100 characters, a non-blank contact and address, and a code of 1..50 characters that no other vendor uses; a code already taken is always reported |
| `Models.OrderErrors` | vendor_app/models.py:53-60 | an order request is error-free exactly when it has a PO number of 1..50 characters that no other order uses, an existing vendor, a 32-bit quantity and a valid status choice; a missing vendor and a bad status are always reported |
| `Models.WithoutOwner` | vendor_app/models.py:54-55 | after the cascade, exactly the rows (orders, or performance records) of other vendors remain, unchanged |
| `Models.CascadeKeepsConsistent` | vendor_app/models.py:53-81 | deleting a vendor with its orders and records keeps codes and PO numbers unique and every foreign key pointing at a stored vendor |
| `Metrics.CompletedOrders` | vendor_app/views.py:153-154 | an order is in the completed set exactly when it is in the history, belongs to the vendor, is Completed and has an acknowledgment date |
| `Metrics.CompletedOrdersMultiplicity` | vendor_app/views.py:153-155 | the completed set holds each counted order as often as the history does and no other order, so its size is the number of rows the query returns |
| `Metrics.OnTimeCount` | vendor_app/views.py:162-163 | the count of on-time orders is at most the set's size, and equals it exactly when every order was delivered no later than acknowledged |
| `Metrics.OnTimeCountAppend` | vendor_app/views.py:162-163 | the on-time count of two histories put together is the sum of their counts |
| `Metrics.OnTimeCountSingle` | vendor_app/views.py:162-163 | one order adds 1 to the on-time count exactly when it has a delivery date no later than its acknowledgment date |
| `Metrics.OnTimeRate` | vendor_app/views.py:162-163 | the on-time rate of a non-empty completed set is a percentage in [0, 100] |
| `Metrics.OnTimeRateRange` | vendor_app/views.py:162-163 | the on-time rate lies in [0, 100]; it is 100 exactly when every completed order is on time; an order with a null delivery date keeps it below 100 |
| `Metrics.PresentCountSpec` | vendor_app/views.py:166-167 | the aggregate counts no value exactly when all values are null, and counts every value exactly when none is null |
| `Metrics.Average` | vendor_app/views.py:166-167 | the mean is null exactly when every value is null |
| `Metrics.AverageWithin` | vendor_app/views.py:166-167 | the mean of the non-null values lies within any bounds that hold for each of them |
| `Metrics.AverageAtLeast` | vendor_app/views.py:170-173 | the mean of the non-null values is at least any lower bound that holds for each of them |
| `Metrics.QualityRatingAverage` | vendor_app/views.py:166-167 | the quality average is null exactly when no order in the set has a rating |
| `Metrics.QualityWithinScale` | vendor_app/views.py:166-167 | the quality average stays within any rating scale that the individual ratings respect |
| `Metrics.AverageResponseTime` | vendor_app/views.py:170-173 | when no order in the set has an acknowledgment date, the mean is null and the stored value falls back to 0 |
| `Metrics.ResponseTimeNonNegative` | vendor_app/views.py:170-173 | the mean response time is non-negative when every order was acknowledged at or after its issue |
| `Metrics.ResponseTimeMayBeNegative` | vendor_app/views.py:170-173 | some history, all of it in vendor 1's completed set and holding an order acknowledged after its issue, gets from the full recompute a quality average and a negative mean response time |
| `Metrics.FulfillmentRate` | vendor_app/views.py:176 | a fulfilled count no larger than the total gives a percentage in [0, 100], and a count equal to the total gives exactly 100 |
| `Metrics.FulfillmentAlwaysFull` | vendor_app/views.py:176 | a rate whose numerator and denominator count the same set is exactly 100 |
| `Metrics.Recompute` | vendor_app/views.py:153-176 | the recompute yields no values exactly when the completed set is empty; otherwise the on-time rate is in [0, 100] and the fulfillment rate is 100 |
| `Metrics.RecomputeEmptyIff` | vendor_app/views.py:153-159 | a recompute yields the no-data outcome exactly when no order of the vendor is both Completed and acknowledged |
| `Metrics.RecomputeSpec` | vendor_app/views.py:153-176 | when the completed set is non-empty, on-time is in [0, 100] and is 100 exactly when all are on time, fulfillment is 100, the quality average is null exactly when nothing is rated, and the response mean is non-negative when no acknowledgment precedes its issue |
| `Metrics.WithPerformance` | vendor_app/views.py:179-183 | the four metrics take the recomputed values, and the vendor's name, code, contact details and address stay as they were |
| `Metrics.TwoOrderScenario` | vendor_app/views.py:153-176 | two completed orders, one on time, responding in 2 and 4 days and rated 4 and 5, give 50% on time, a 4.5 rating average, a 259200-second (72-hour) mean response and 100% fulfillment |
| `Views.Listing` | vendor_app/views.py:30 | listed entries are stored records under their own ids, in strictly ascending id order |
| `Views.ListingComplete` | vendor_app/views.py:94 | every stored record below the bound appears in the listing |
| `Views.ListById` | vendor_app/views.py:30 | the loop collects exactly the ascending-id listing |
| `Views.Acknowledged` | vendor_app/views.py:213-214 | only the acknowledged order changes, and only its acknowledgment date, which becomes the given instant whatever the status |
| `Views.ResponseTimeRederived` | vendor_app/views.py:217-229 | only the owning vendor changes, and only its average response time, which becomes the mean over the completed set of the new order table |
| `Views.AcknowledgedOrderCountedIffCompleted` | vendor_app/views.py:213-222 | after acknowledgment, the order is in its vendor's completed set exactly when its status is Completed |
| `Views.AcknowledgeOnEmptySetWritesZero` | vendor_app/views.py:223-228 | when the acknowledged order's vendor has an empty completed set, so that the full recompute yields nothing, the acknowledgment still writes 0 as that vendor's average response time |
| `Views.AcknowledgeTwiceKeepsSecond` | vendor_app/views.py:213-229 | acknowledging an order twice leaves the order table and the vendor table, average response time included, as one acknowledgment with the second date does |
| `Views.Store.Valid` | vendor_app/models.py:21-81 | the store invariant: ids lie below their counters, vendor codes and PO numbers are unique, and every order and performance record points at a stored vendor; every handler preserves it |
| `Views.Store.CreateVendor` | vendor_app/views.py:15-23 | an invalid request is answered with its field errors and changes nothing; a valid one stores a new vendor under a fresh id and changes nothing else |
| `Views.Store.ListVendors` | vendor_app/views.py:26-32 | the answer is every stored vendor, each under its id, in ascending id order |
| `Views.Store.GetVendor` | vendor_app/views.py:35-45 | answers the stored vendor, or not-found when the id is absent |
| `Views.Store.UpdateVendor` | vendor_app/views.py:48-61 | not-found or field errors leave the store unchanged; otherwise only that vendor is replaced by its update |
| `Views.Store.DeleteVendor` | vendor_app/views.py:64-74 | not-found changes nothing; otherwise the vendor, its orders and its performance records are removed and nothing else |
| `Views.Store.CreatePurchaseOrder` | vendor_app/views.py:79-87 | an invalid request changes nothing; a valid one stores the new order, issued at the given time, under a fresh id |
| `Views.Store.ListPurchaseOrders` | vendor_app/views.py:90-96 | the answer is every stored order, each under its id, in ascending id order |
| `Views.Store.GetPurchaseOrder` | vendor_app/views.py:99-109 | answers the stored order, or not-found when the id is absent |
| `Views.Store.UpdatePurchaseOrder` | vendor_app/views.py:112-125 | not-found or field errors leave the store unchanged; otherwise only that order is replaced, keeping its issue date |
| `Views.Store.DeletePurchaseOrder` | vendor_app/views.py:128-138 | not-found changes nothing; otherwise exactly that order is removed |
| `Views.Store.GetVendorPerformance` | vendor_app/views.py:143-188 | an unknown vendor gets not-found; an empty completed set gets the no-data answer; a null quality average gets a server error; in all three cases nothing changes. Otherwise all four metrics are overwritten with the recompute and nothing else changes. Orders are never touched |
| `Views.Store.AcknowledgePurchaseOrder` | vendor_app/views.py:191-232 | a missing order, or an absent or empty date, or an unparsable date changes nothing. Otherwise the order's acknowledgment date is set whatever its status, and the owning vendor's average response time is rederived over the new history. Its other three metrics and everything else stay as they were |

## Left out

- HTTP, routing, authentication and token issuance (vendor_app/urls.py and the handler decorators). Responses are reduced to the `Outcome` datatype, and the serialized payloads to the records themselves.
- The serializers' wire format. Required fields are always present in the request datatypes, so a request that omits one is not modelled. Whitespace trimming and type coercion are not modelled either.
- The `strptime` parse of the acknowledgment date and `timezone.make_aware` are a function parameter, `parse`. It maps the text to an instant, or to nothing for a malformed date, which the handler does not catch.
- The clock that fills in `issue_date` is a parameter of `CreatePurchaseOrder`.
- Floating-point rounding of the float columns and of the divisions. Values are exact reals.
- Averaging durations in the database: the mean is exact, where a database may round it to microseconds.
- Concurrent requests and lost updates. Handlers run one at a time.
- Creation of historical performance records: no handler writes them. The store keeps the table only for its foreign key and its cascade.
- `vendor_app/admin.py` and the `__str__` methods, which only register and display records.
- The `request.method == 'POST'` test in the acknowledgment handler. It always holds, because the handler accepts only POST.
- Models.VendorErrors: the contract states exactly which requests are accepted, and that a taken code is reported. Which other field is reported for which fault is left to the definition.
- Models.OrderErrors: the contract states exactly which requests are accepted, and that an unknown vendor and a bad status are reported. Which other field is reported for which fault is left to the definition.
- The range of `quantity`: `IntegerField` takes its bounds from the database backend, which is not part of this model. The model assumes a 32-bit integer column, as the common backends use.
