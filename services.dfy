/**
 * The remote reference-data and stock-management services as state: a
 * catalog that only grows, and an append-only ledger of submitted stock
 * events. Identifiers the catalog hands out come from a counter.
 */
module Services {
  import opened Types
  import opened ReferenceData

  class Catalog {
    var orderables: seq<Orderable>
    var tradeItems: seq<TradeItem>
    var lots: seq<Lot>
    var approvals: seq<ApprovedProduct>
    var nextId: Uuid

    function State(): CatalogState
      reads this
    {
      CatalogState(orderables, tradeItems, lots, approvals, nextId)
    }

    ghost predicate Valid()
      reads this
    {
      Fresh(State())
    }

    constructor (initial: CatalogState)
      requires Fresh(initial)
      ensures Valid() && State() == initial
    {
      orderables, tradeItems, lots := initial.orderables, initial.tradeItems, initial.lots;
      approvals, nextId := initial.approvals, initial.nextId;
    }

    /** A fresh identifier (`UUID.randomUUID()`), never seen in the catalog. */
    method NewUuid() returns (id: Uuid)
      requires Valid()
      modifies this
      ensures Valid()
      ensures id == old(nextId)
      ensures State() == old(State()).(nextId := old(nextId) + 1)
    {
      id := nextId;
      nextId := nextId + 1;
    }

    /** Trade item submission: the service assigns the identifier. */
    method SubmitTradeItem(manufacturer: string) returns (item: TradeItem)
      requires Valid()
      modifies this
      ensures Valid()
      ensures item == TradeItem(old(nextId), manufacturer)
      ensures State() == old(State()).(tradeItems := old(tradeItems) + [item],
                                       nextId := old(nextId) + 1)
    {
      item := TradeItem(nextId, manufacturer);
      tradeItems := tradeItems + [item];
      nextId := nextId + 1;
    }

    /** PUT of an orderable whose identifier the caller drew. */
    method PutOrderable(o: Orderable)
      requires Valid() && o.id < nextId
      requires o.tradeItemId.Some? ==> o.tradeItemId.value < nextId
      modifies this
      ensures Valid()
      ensures State() == old(State()).(orderables := old(orderables) + [o])
    {
      orderables := orderables + [o];
    }

    /** Lot submission: the service assigns the identifier. */
    method SubmitLot(tradeItemId: Uuid, lotCode: string, expirationDate: Option<Date>,
                     manufactureDate: Option<Date>, active: bool) returns (lot: Lot)
      requires Valid() && tradeItemId < nextId
      modifies this
      ensures Valid()
      ensures lot == Lot(old(nextId), Some(tradeItemId), Some(lotCode), expirationDate,
                         manufactureDate, active)
      ensures State() == old(State()).(lots := old(lots) + [lot], nextId := old(nextId) + 1)
    {
      lot := Lot(nextId, Some(tradeItemId), Some(lotCode), expirationDate, manufactureDate, active);
      lots := lots + [lot];
      nextId := nextId + 1;
    }

    /** Creation of a facility-type approved product. */
    method SubmitApproval(a: ApprovedProduct)
      requires Valid()
      modifies this
      ensures Valid()
      ensures State() == old(State()).(approvals := old(approvals) + [a])
    {
      approvals := approvals + [a];
    }
  }

  class StockLedger {
    var submitted: seq<StockEvent>

    constructor (initial: seq<StockEvent>)
      ensures submitted == initial
    {
      submitted := initial;
    }

    /** Stock event submission: the ledger records it after everything before. */
    method Submit(e: StockEvent)
      modifies this
      ensures submitted == old(submitted) + [e]
    {
      submitted := submitted + [e];
    }
  }
}
