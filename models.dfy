/**
 Entities of the vendor management app (vendor_app/models.py): vendors,
 their purchase orders and historical performance records, the status
 choices, the defaults and field limits the schema declares, and the
 integrity rules the database keeps between the three tables
 (uniqueness, foreign keys, cascading deletes).

 Instants are integer seconds; float columns are exact reals.
 */
module Models {

  datatype Option<+T> = None | Some(value: T)

  /** A request value for a field that has a default or may be null:
      Keep when the request omits the field, Set when it carries a value. */
  datatype Patch<+T> = Keep | Set(value: T)

  function Apply<T>(p: Patch<T>, current: T): (r: T)
    ensures p.Set? ==> r == p.value
    ensures p.Keep? ==> r == current
  {
    match p
    case Keep => current
    case Set(v) => v
  }

  // ---------------------------------------------------------------------
  // Declared limits and defaults
  // ---------------------------------------------------------------------

  const NameMaxLength: nat := 100
  const VendorCodeMaxLength: nat := 50
  const PoNumberMaxLength: nat := 50
  /** Range of `quantity` on a backend whose integer column is 32 bits wide. */
  const MinQuantity: int := -0x8000_0000
  const MaxQuantity: int := 0x7fff_ffff
  /** Default of each of the four vendor metric columns. */
  const MetricDefault: real := 0.0

  // ---------------------------------------------------------------------
  // Purchase order status
  // ---------------------------------------------------------------------

  datatype Status = Pending | Completed | Canceled

  function StatusName(s: Status): string
  {
    match s
    case Pending => "Pending"
    case Completed => "Completed"
    case Canceled => "Canceled"
  }

  /** The choice check on `status`: exactly the three declared names are accepted. */
  function StatusFromChoice(text: string): (r: Option<Status>)
    ensures r.Some? <==> text == "Pending" || text == "Completed" || text == "Canceled"
    ensures r.Some? ==> StatusName(r.value) == text
  {
    if text == "Pending" then Some(Pending)
    else if text == "Completed" then Some(Completed)
    else if text == "Canceled" then Some(Canceled)
    else None
  }

  /** Every status is stored under a name the choice check accepts back. */
  lemma StatusChoiceRoundTrip(s: Status)
    ensures StatusFromChoice(StatusName(s)) == Some(s)
  {
  }

  // ---------------------------------------------------------------------
  // Records
  // ---------------------------------------------------------------------

  datatype Vendor = Vendor(
    name: string,
    contactDetails: string,
    address: string,
    vendorCode: string,
    onTimeDeliveryRate: real,
    qualityRatingAvg: real,
    averageResponseTime: real,
    fulfillmentRate: real)

  /** `vendor` is the id of the owning vendor; `items` is the opaque JSON payload. */
  datatype PurchaseOrder = PurchaseOrder(
    poNumber: string,
    vendor: nat,
    orderDate: int,
    deliveryDate: Option<int>,
    items: string,
    quantity: int,
    status: Status,
    qualityRating: Option<real>,
    issueDate: int,
    acknowledgmentDate: Option<int>)

  datatype HistoricalPerformance = HistoricalPerformance(
    vendor: nat,
    date: int,
    onTimeDeliveryRate: real,
    qualityRatingAvg: real,
    averageResponseTime: real,
    fulfillmentRate: real)

  // ---------------------------------------------------------------------
  // Request bodies for create and update
  // ---------------------------------------------------------------------

  /** Required fields are plain values; the metric columns have a default,
      so a request may leave them out. */
  datatype VendorInput = VendorInput(
    name: string,
    contactDetails: string,
    address: string,
    vendorCode: string,
    onTimeDeliveryRate: Patch<real>,
    qualityRatingAvg: Patch<real>,
    averageResponseTime: Patch<real>,
    fulfillmentRate: Patch<real>)

  /** `status` is the raw choice text; the nullable columns may be left out.
      There is no `issueDate`: that column is filled in by the store. */
  datatype OrderInput = OrderInput(
    poNumber: string,
    vendor: nat,
    orderDate: int,
    deliveryDate: Patch<Option<int>>,
    items: string,
    quantity: int,
    status: string,
    qualityRating: Patch<Option<real>>,
    acknowledgmentDate: Patch<Option<int>>)

  /** A newly created vendor: a metric the request gives is stored, one it
      leaves out starts at 0. */
  function NewVendor(input: VendorInput): (v: Vendor)
    ensures v.name == input.name && v.contactDetails == input.contactDetails
    ensures v.address == input.address && v.vendorCode == input.vendorCode
    ensures v.onTimeDeliveryRate == (if input.onTimeDeliveryRate.Set? then input.onTimeDeliveryRate.value else MetricDefault)
    ensures v.qualityRatingAvg == (if input.qualityRatingAvg.Set? then input.qualityRatingAvg.value else MetricDefault)
    ensures v.averageResponseTime == (if input.averageResponseTime.Set? then input.averageResponseTime.value else MetricDefault)
    ensures v.fulfillmentRate == (if input.fulfillmentRate.Set? then input.fulfillmentRate.value else MetricDefault)
  {
    UpdatedVendor(Vendor(input.name, input.contactDetails, input.address, input.vendorCode,
                         MetricDefault, MetricDefault, MetricDefault, MetricDefault), input)
  }

  /** A full update: required fields are replaced, a metric the request gives
      replaces the stored one, an omitted metric keeps its value. */
  function UpdatedVendor(v: Vendor, input: VendorInput): (v': Vendor)
    ensures v'.name == input.name && v'.contactDetails == input.contactDetails
    ensures v'.address == input.address && v'.vendorCode == input.vendorCode
    ensures v'.onTimeDeliveryRate == (if input.onTimeDeliveryRate.Set? then input.onTimeDeliveryRate.value else v.onTimeDeliveryRate)
    ensures v'.qualityRatingAvg == (if input.qualityRatingAvg.Set? then input.qualityRatingAvg.value else v.qualityRatingAvg)
    ensures v'.averageResponseTime == (if input.averageResponseTime.Set? then input.averageResponseTime.value else v.averageResponseTime)
    ensures v'.fulfillmentRate == (if input.fulfillmentRate.Set? then input.fulfillmentRate.value else v.fulfillmentRate)
  {
    Vendor(input.name, input.contactDetails, input.address, input.vendorCode,
           Apply(input.onTimeDeliveryRate, v.onTimeDeliveryRate),
           Apply(input.qualityRatingAvg, v.qualityRatingAvg),
           Apply(input.averageResponseTime, v.averageResponseTime),
           Apply(input.fulfillmentRate, v.fulfillmentRate))
  }

  /** A newly created order: issued at `now`; every field the request gives is
      stored, and an optional column it leaves out is null. */
  function NewOrder(input: OrderInput, status: Status, now: int): (o: PurchaseOrder)
    ensures o.issueDate == now && o.status == status
    ensures o.poNumber == input.poNumber && o.vendor == input.vendor
    ensures o.orderDate == input.orderDate && o.items == input.items && o.quantity == input.quantity
    ensures o.deliveryDate == (if input.deliveryDate.Set? then input.deliveryDate.value else None)
    ensures o.qualityRating == (if input.qualityRating.Set? then input.qualityRating.value else None)
    ensures o.acknowledgmentDate == (if input.acknowledgmentDate.Set? then input.acknowledgmentDate.value else None)
  {
    UpdatedOrder(PurchaseOrder(input.poNumber, input.vendor, input.orderDate, None, input.items,
                               input.quantity, status, None, now, None), input, status)
  }

  /** A full update of an order: every field the request gives is written, an
      omitted optional column keeps its value, and the issue date is never rewritten. */
  function UpdatedOrder(o: PurchaseOrder, input: OrderInput, status: Status): (o': PurchaseOrder)
    ensures o'.issueDate == o.issueDate && o'.status == status
    ensures o'.poNumber == input.poNumber && o'.vendor == input.vendor
    ensures o'.orderDate == input.orderDate && o'.items == input.items && o'.quantity == input.quantity
    ensures o'.deliveryDate == (if input.deliveryDate.Set? then input.deliveryDate.value else o.deliveryDate)
    ensures o'.qualityRating == (if input.qualityRating.Set? then input.qualityRating.value else o.qualityRating)
    ensures o'.acknowledgmentDate == (if input.acknowledgmentDate.Set? then input.acknowledgmentDate.value else o.acknowledgmentDate)
  {
    PurchaseOrder(input.poNumber, input.vendor, input.orderDate,
                  Apply(input.deliveryDate, o.deliveryDate), input.items, input.quantity,
                  status, Apply(input.qualityRating, o.qualityRating), o.issueDate,
                  Apply(input.acknowledgmentDate, o.acknowledgmentDate))
  }

  // ---------------------------------------------------------------------
  // Validation of request bodies against the declared fields
  // ---------------------------------------------------------------------

  /** The request fields that can be reported invalid. */
  datatype Field =
    | Name | ContactDetails | Address | VendorCode
    | PoNumber | VendorRef | Quantity | StatusChoice
    | AcknowledgmentDate

  /** Some vendor other than `self` already uses `code`. */
  predicate CodeTaken(vendors: map<nat, Vendor>, code: string, self: Option<nat>)
  {
    exists id :: id in vendors && Some(id) != self && vendors[id].vendorCode == code
  }

  /** Some order other than `self` already uses `number`. */
  predicate PoNumberTaken(orders: map<nat, PurchaseOrder>, number: string, self: Option<nat>)
  {
    exists id :: id in orders && Some(id) != self && orders[id].poNumber == number
  }

  /** Every field error of a vendor request; `self` is the vendor being updated, if any. */
  function VendorErrors(vendors: map<nat, Vendor>, input: VendorInput, self: Option<nat>): (errs: set<Field>)
    ensures errs <= {Name, ContactDetails, Address, VendorCode}
    ensures errs == {} <==>
      && 0 < |input.name| <= NameMaxLength
      && 0 < |input.contactDetails| && 0 < |input.address|
      && 0 < |input.vendorCode| <= VendorCodeMaxLength
      && forall id :: id in vendors && Some(id) != self ==> vendors[id].vendorCode != input.vendorCode
    ensures CodeTaken(vendors, input.vendorCode, self) ==> VendorCode in errs
  {
    (if 0 < |input.name| <= NameMaxLength then {} else {Name})
    + (if 0 < |input.contactDetails| then {} else {ContactDetails})
    + (if 0 < |input.address| then {} else {Address})
    + (if 0 < |input.vendorCode| <= VendorCodeMaxLength && !CodeTaken(vendors, input.vendorCode, self)
       then {} else {VendorCode})
  }

  /** Every field error of a purchase-order request; `self` is the order being updated, if any. */
  function OrderErrors(vendors: map<nat, Vendor>, orders: map<nat, PurchaseOrder>,
                       input: OrderInput, self: Option<nat>): (errs: set<Field>)
    ensures errs <= {PoNumber, VendorRef, Quantity, StatusChoice}
    ensures errs == {} <==>
      && 0 < |input.poNumber| <= PoNumberMaxLength
      && input.vendor in vendors
      && MinQuantity <= input.quantity <= MaxQuantity
      && StatusFromChoice(input.status).Some?
      && forall id :: id in orders && Some(id) != self ==> orders[id].poNumber != input.poNumber
    ensures input.vendor !in vendors ==> VendorRef in errs
    ensures StatusFromChoice(input.status).None? ==> StatusChoice in errs
  {
    (if 0 < |input.poNumber| <= PoNumberMaxLength && !PoNumberTaken(orders, input.poNumber, self)
     then {} else {PoNumber})
    + (if input.vendor in vendors then {} else {VendorRef})
    + (if MinQuantity <= input.quantity <= MaxQuantity then {} else {Quantity})
    + (if StatusFromChoice(input.status).Some? then {} else {StatusChoice})
  }

  // ---------------------------------------------------------------------
  // Integrity of the three tables
  // ---------------------------------------------------------------------

  ghost predicate UniqueVendorCodes(vendors: map<nat, Vendor>)
  {
    forall a, b :: a in vendors && b in vendors && a != b ==> vendors[a].vendorCode != vendors[b].vendorCode
  }

  ghost predicate UniquePoNumbers(orders: map<nat, PurchaseOrder>)
  {
    forall a, b :: a in orders && b in orders && a != b ==> orders[a].poNumber != orders[b].poNumber
  }

  /** The foreign keys of orders and performance records point at stored vendors. */
  ghost predicate References(vendors: map<nat, Vendor>, orders: map<nat, PurchaseOrder>,
                             history: map<nat, HistoricalPerformance>)
  {
    && (forall id :: id in orders ==> orders[id].vendor in vendors)
    && (forall id :: id in history ==> history[id].vendor in vendors)
  }

  ghost predicate Consistent(vendors: map<nat, Vendor>, orders: map<nat, PurchaseOrder>,
                             history: map<nat, HistoricalPerformance>)
  {
    UniqueVendorCodes(vendors) && UniquePoNumbers(orders) && References(vendors, orders, history)
  }

  function OrderVendor(o: PurchaseOrder): nat { o.vendor }

  function RecordVendor(h: HistoricalPerformance): nat { h.vendor }

  /** The rows of a table left once vendor `v` is deleted (on_delete=CASCADE):
      `owner` reads a row's foreign key. */
  function WithoutOwner<R>(m: map<nat, R>, owner: R -> nat, v: nat): (r: map<nat, R>)
    ensures forall id :: id in r <==> id in m && owner(m[id]) != v
    ensures forall id :: id in r ==> r[id] == m[id]
  {
    map id | id in m && owner(m[id]) != v :: m[id]
  }

  /** Deleting a vendor together with everything that refers to it keeps the tables consistent. */
  lemma CascadeKeepsConsistent(vendors: map<nat, Vendor>, orders: map<nat, PurchaseOrder>,
                               history: map<nat, HistoricalPerformance>, v: nat)
    requires Consistent(vendors, orders, history)
    ensures Consistent(vendors - {v}, WithoutOwner(orders, OrderVendor, v), WithoutOwner(history, RecordVendor, v))
    ensures forall id :: id in WithoutOwner(orders, OrderVendor, v) ==> WithoutOwner(orders, OrderVendor, v)[id].vendor != v
  {
  }
}
