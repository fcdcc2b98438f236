/**
 * What the prepacking workflow reads from and writes to the reference-data
 * service (orderables, trade items, lots, facility-type approvals) and the
 * stock-management service (stock card summaries, stock events), as values.
 */
module ReferenceData {
  import opened Types

  /** A product. `tradeItemId` is the orderable's "tradeItem" identifier. */
  datatype Orderable = Orderable(
    id: Uuid,
    productCode: Option<string>,
    fullProductName: Option<string>,
    description: Option<string>,
    netContent: int,
    packRoundingThreshold: int,
    programs: seq<Uuid>,
    tradeItemId: Option<Uuid>,
    roundToZero: bool,
    dispensable: Option<string>,
    versionNumber: int)

  datatype TradeItem = TradeItem(id: Uuid, manufacturerOfTradeItem: string)

  datatype Lot = Lot(
    id: Uuid,
    tradeItemId: Option<Uuid>,
    lotCode: Option<string>,
    expirationDate: Option<Date>,
    manufactureDate: Option<Date>,
    active: bool)

  /** A facility-type approved product record. */
  datatype ApprovedProduct = ApprovedProduct(
    orderableId: Uuid,
    facilityTypeCode: string,
    programCode: string,
    maxPeriodsOfStock: real,
    minPeriodsOfStock: real,
    emergencyOrderPoint: real)

  /** The stock-card summary search: program, facility, orderables, as-of date, lot code. */
  datatype StockQuery = StockQuery(
    programId: Option<Uuid>,
    facilityId: Option<Uuid>,
    orderableIds: set<Uuid>,
    asOfDate: Date,
    lotCode: Option<string>)

  datatype StockCardSummary = StockCardSummary(stockOnHand: int)

  datatype StockEventLineItem = StockEventLineItem(
    orderableId: Uuid,
    lotId: Uuid,
    quantity: int,
    occurredDate: Date,
    reasonId: Uuid)

  datatype StockEvent = StockEvent(
    facilityId: Option<Uuid>,
    programId: Option<Uuid>,
    userId: Option<Uuid>,
    lineItems: seq<StockEventLineItem>)

  /** The reference-data catalog at one moment; `nextId` is the next fresh identifier. */
  datatype CatalogState = CatalogState(
    orderables: seq<Orderable>,
    tradeItems: seq<TradeItem>,
    lots: seq<Lot>,
    approvals: seq<ApprovedProduct>,
    nextId: Uuid)

  /** Every identifier the catalog holds, or refers to, was handed out before `nextId`. */
  ghost predicate Fresh(c: CatalogState)
  {
    && (forall i :: 0 <= i < |c.orderables| ==> c.orderables[i].id < c.nextId)
    && (forall i :: 0 <= i < |c.tradeItems| ==> c.tradeItems[i].id < c.nextId)
    && (forall i :: 0 <= i < |c.lots| ==> c.lots[i].id < c.nextId)
    && (forall i :: 0 <= i < |c.lots| && c.lots[i].tradeItemId.Some? ==>
          c.lots[i].tradeItemId.value < c.nextId)
    && (forall i :: 0 <= i < |c.orderables| && c.orderables[i].tradeItemId.Some? ==>
          c.orderables[i].tradeItemId.value < c.nextId)
  }

  /** `c'` holds everything `c` held, in the same order, and hands out no identifier twice. */
  ghost predicate Extends(c: CatalogState, c': CatalogState)
  {
    && c.orderables <= c'.orderables
    && c.tradeItems <= c'.tradeItems
    && c.lots <= c'.lots
    && c.approvals <= c'.approvals
    && c.nextId <= c'.nextId
  }

  /** `findOne(id)`: the first element whose identifier is `id`, or null. */
  function FindById<T>(s: seq<T>, id: Uuid, key: T -> Uuid): (r: Option<T>)
    ensures r.Some? ==> r.value in s && key(r.value) == id
  {
    if s == [] then None
    else if key(s[0]) == id then Some(s[0])
    else FindById(s[1..], id, key)
  }

  /** `findOne` answers null only when no element has the id. */
  lemma {:induction false} FindByIdMissing<T>(s: seq<T>, id: Uuid, key: T -> Uuid)
    requires FindById(s, id, key).None?
    ensures forall x :: x in s ==> key(x) != id
  {
    if s != [] {
      FindByIdMissing(s[1..], id, key);
      assert s == [s[0]] + s[1..];
    }
  }

  /** A lookup by id that succeeds keeps its answer when the catalog grows. */
  lemma {:induction false} FindByIdPrefix<T>(s: seq<T>, more: seq<T>, id: Uuid, key: T -> Uuid)
    requires s <= more && FindById(s, id, key).Some?
    ensures FindById(more, id, key) == FindById(s, id, key)
  {
    if key(s[0]) != id {
      FindByIdPrefix(s[1..], more[1..], id, key);
    }
  }

  function OrderableId(o: Orderable): Uuid { o.id }

  function LotId(l: Lot): Uuid { l.id }

  /** `findOne(id)` on the orderable service. */
  function FindOrderable(os: seq<Orderable>, id: Uuid): Option<Orderable>
  {
    FindById(os, id, OrderableId)
  }

  /** `findOne(id)` on the lot service. */
  function FindLot(lots: seq<Lot>, id: Uuid): Option<Lot>
  {
    FindById(lots, id, LotId)
  }

  /** The search key of the orderable page for the parameters `code` and `name`. */
  function OrderableKey(code: string, name: string): Orderable -> bool
  {
    (o: Orderable) => o.productCode == Some(code) && o.fullProductName == Some(name)
  }

  /** The orderable page for the parameters `code` and `name`, in catalog order. */
  function OrderablesNamed(os: seq<Orderable>, code: string, name: string): seq<Orderable>
  {
    Filter(os, OrderableKey(code, name))
  }

  /** The first orderable of a non-empty page is in the catalog and has that code and name. */
  lemma OrderablesNamedFirst(os: seq<Orderable>, code: string, name: string)
    requires OrderablesNamed(os, code, name) != []
    ensures var first := OrderablesNamed(os, code, name)[0];
      first in os && first.productCode == Some(code) && first.fullProductName == Some(name)
  {
    FilterMembers(os, OrderableKey(code, name));
    assert OrderablesNamed(os, code, name)[0] in OrderablesNamed(os, code, name);
  }

  /** The search key of the approved-product page. */
  function ApprovalKey(facilityTypeCode: string, programCode: string, orderableId: Uuid)
    : ApprovedProduct -> bool
  {
    (a: ApprovedProduct) =>
      a.facilityTypeCode == facilityTypeCode && a.programCode == programCode &&
      a.orderableId == orderableId
  }

  /** The approved-product page for `facilityType`, `program` and `orderableId`. */
  function ApprovalsFor(approvals: seq<ApprovedProduct>, facilityTypeCode: string,
                        programCode: string, orderableId: Uuid): seq<ApprovedProduct>
  {
    Filter(approvals, ApprovalKey(facilityTypeCode, programCode, orderableId))
  }
}
