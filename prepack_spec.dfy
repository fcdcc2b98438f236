/**
 * What authorizing a prepacking event does, as functions of the catalog and
 * ledger it starts from: per line item, the stock check, the derivation or
 * creation of the prepack product and child lot, the approval record, the
 * debit/credit pair and the remark; then the whole list in order.
 */
module PrepackSpec {
  import opened Types
  import opened ReferenceData
  import opened LotQueries
  import opened PrepackingEvents

  const SUCCESSFUL := "Successful"
  const INADEQUATE_STOCK := "Unsuccessful - inadequate stock"
  const ORDERABLE_MISSING := "Unsuccessful - orderable does not exist"
  const LOCAL_MANUFACTURER := "Local Manufacturer"

  /** The three remarks authorization ever writes. */
  predicate IsRemark(r: string)
  {
    r == SUCCESSFUL || r == INADEQUATE_STOCK || r == ORDERABLE_MISSING
  }

  /** A null dereference that aborts authorization part-way. */
  datatype Failure =
    | BulkLotNotFound
    | BulkOrderableNotFound
    | TradeItemIdentifierMissing
    | FacilityNotFound
    | ProgramNotFound

  /** The configured debit and credit reason identifiers. */
  datatype Reasons = Reasons(debitReasonId: Uuid, creditReasonId: Uuid)

  /**
   * What authorization reads but never changes: today's date, the stock
   * service's answer to a stock-card search given every stock event
   * submitted to it so far, and each facility's type code and each
   * program's code.
   */
  datatype Env = Env(
    today: Date,
    stockCards: (StockQuery, seq<StockEvent>) -> seq<StockCardSummary>,
    facilityTypeCodes: map<Uuid, string>,
    programCodes: map<Uuid, string>)

  /** The catalog and the ledger of submitted stock events. */
  datatype World = World(catalog: CatalogState, ledger: seq<StockEvent>)

  /** The stock-card search, answered against the ledger as it stands. */
  function StockCards(env: Env, q: StockQuery, ledger: seq<StockEvent>): seq<StockCardSummary>
  {
    env.stockCards(q, ledger)
  }

  /** The stock-card search for a line item's bulk orderable and lot, as of today. */
  function BulkStockQuery(ev: PrepackingEvent, item: LineItem, bulkLot: Lot, today: Date): StockQuery
  {
    StockQuery(ev.programId, ev.facilityId, {item.orderableId}, today, bulkLot.lotCode)
  }

  function FacilityTypeCode(env: Env, facilityId: Option<Uuid>): Option<string>
  {
    if facilityId.Some? && facilityId.value in env.facilityTypeCodes
    then Some(env.facilityTypeCodes[facilityId.value]) else None
  }

  function ProgramCode(env: Env, programId: Option<Uuid>): Option<string>
  {
    if programId.Some? && programId.value in env.programCodes
    then Some(env.programCodes[programId.value]) else None
  }

  /** `base + "-" + prepackSize`, with Java's rendering of null and of ints. */
  function DerivedText(base: Option<string>, size: int): string
  {
    JavaString(base) + "-" + IntToString(size)
  }

  /** The prepack orderable authorization creates for a bulk orderable and size. */
  function NewPrepackOrderable(id: Uuid, bulk: Orderable, size: int, tradeItemId: Uuid): Orderable
  {
    Orderable(id, Some(DerivedText(bulk.productCode, size)),
              Some(DerivedText(bulk.fullProductName, size)),
              Some(DerivedText(bulk.description, size)),
              size, JavaDiv(size, 2), bulk.programs, Some(tradeItemId),
              bulk.roundToZero, bulk.dispensable, 1)
  }

  datatype LotChoice = LotChoice(catalog: CatalogState, lot: Lot)

  /**
   * The child lot: the first lot of the trade item with code
   * `bulkLotCode-size` when there is one, otherwise a newly submitted lot
   * with the bulk lot's dates and active flag.
   */
  function FindOrCreateLot(c: CatalogState, tradeItemId: Uuid, bulkLot: Lot, size: int): (r: LotChoice)
    ensures r.lot.tradeItemId == Some(tradeItemId)
    ensures r.lot.lotCode == Some(DerivedText(bulkLot.lotCode, size))
    ensures r.lot in r.catalog.lots
    ensures LotMatching(c.lots, Some(tradeItemId), Some(DerivedText(bulkLot.lotCode, size))).Some? ==>
              r.catalog == c
    ensures LotMatching(c.lots, Some(tradeItemId), Some(DerivedText(bulkLot.lotCode, size))).None? ==>
              r.catalog == c.(lots := c.lots + [r.lot], nextId := c.nextId + 1) &&
              r.lot.id == c.nextId && r.lot.expirationDate == bulkLot.expirationDate &&
              r.lot.manufactureDate == bulkLot.manufactureDate && r.lot.active == bulkLot.active
  {
    var code := DerivedText(bulkLot.lotCode, size);
    LotMatchingFinds(c.lots, tradeItemId, code);
    match LotMatching(c.lots, Some(tradeItemId), Some(code))
    case Some(l) => LotChoice(c, l)
    case None =>
      var l := Lot(c.nextId, Some(tradeItemId), Some(code), bulkLot.expirationDate,
                   bulkLot.manufactureDate, bulkLot.active);
      LotChoice(c.(lots := c.lots + [l], nextId := c.nextId + 1), l)
  }

  datatype Resolution =
    | Resolved(catalog: CatalogState, prepack: Orderable, childLot: Lot)
    | Unresolved(catalog: CatalogState, failure: Failure)

  /**
   * The catalog after creating a prepack: the orderable takes the next
   * identifier, its trade item from the local manufacturer the one after.
   */
  function WithNewPrepack(c: CatalogState, bulk: Orderable, size: int): CatalogState
  {
    c.(orderables := c.orderables + [NewPrepackOrderable(c.nextId, bulk, size, c.nextId + 1)],
       tradeItems := c.tradeItems + [TradeItem(c.nextId + 1, LOCAL_MANUFACTURER)],
       nextId := c.nextId + 2)
  }

  /**
   * The prepack orderable and child lot for a bulk orderable, bulk lot and
   * prepack size: the first orderable with the derived code and name when
   * the catalog has one, otherwise a new trade item and orderable.
   */
  function ResolvePrepack(c: CatalogState, bulk: Orderable, bulkLot: Lot, size: int): (r: Resolution)
    ensures r.Unresolved? ==> r.catalog == c && r.failure == TradeItemIdentifierMissing
    ensures r.Resolved? ==> r.prepack in r.catalog.orderables && r.childLot in r.catalog.lots
    ensures r.Resolved? ==> r.childLot.tradeItemId == r.prepack.tradeItemId
    ensures r.Resolved? ==> r.childLot.lotCode == Some(DerivedText(bulkLot.lotCode, size))
    ensures r.Resolved? ==>
      r.prepack.productCode == Some(DerivedText(bulk.productCode, size)) &&
      r.prepack.fullProductName == Some(DerivedText(bulk.fullProductName, size))
    ensures r.catalog.approvals == c.approvals
  {
    var code := DerivedText(bulk.productCode, size);
    var name := DerivedText(bulk.fullProductName, size);
    var matches := OrderablesNamed(c.orderables, code, name);
    if matches == [] then
      var prepack := NewPrepackOrderable(c.nextId, bulk, size, c.nextId + 1);
      var choice := FindOrCreateLot(WithNewPrepack(c, bulk, size), c.nextId + 1, bulkLot, size);
      Resolved(choice.catalog, prepack, choice.lot)
    else
      var prepack := matches[0];
      OrderablesNamedFirst(c.orderables, code, name);
      if prepack.tradeItemId.None? then Unresolved(c, TradeItemIdentifierMissing)
      else
        var choice := FindOrCreateLot(c, prepack.tradeItemId.value, bulkLot, size);
        Resolved(choice.catalog, prepack, choice.lot)
  }

  /** The catalog with an approval for the triple, created with default rules only when absent. */
  function EnsureApproval(c: CatalogState, facilityTypeCode: string, programCode: string,
                          orderableId: Uuid): (r: CatalogState)
    ensures ApprovalsFor(c.approvals, facilityTypeCode, programCode, orderableId) != [] ==> r == c
    ensures ApprovalsFor(c.approvals, facilityTypeCode, programCode, orderableId) == [] ==>
      r == c.(approvals := c.approvals +
                [ApprovedProduct(orderableId, facilityTypeCode, programCode, 1.0, 1.0, 1.0)])
    ensures ApprovalsFor(r.approvals, facilityTypeCode, programCode, orderableId) != []
  {
    var found := ApprovalsFor(c.approvals, facilityTypeCode, programCode, orderableId);
    if found != [] then c
    else
      var a := ApprovedProduct(orderableId, facilityTypeCode, programCode, 1.0, 1.0, 1.0);
      FilterAppend(c.approvals, a, ApprovalKey(facilityTypeCode, programCode, orderableId));
      c.(approvals := c.approvals + [a])
  }

  /** The debit of the bulk orderable and lot. */
  function DebitEvent(ev: PrepackingEvent, item: LineItem, bulkId: Uuid, today: Date,
                      reasons: Reasons): StockEvent
  {
    StockEvent(ev.facilityId, ev.programId, ev.prepackerUserId,
               [StockEventLineItem(bulkId, item.lotId, QuantityToPrepack(item), today,
                                   reasons.debitReasonId)])
  }

  /** The credit of the prepack orderable and child lot. */
  function CreditEvent(ev: PrepackingEvent, item: LineItem, prepack: Orderable, childLot: Lot,
                       today: Date, reasons: Reasons): StockEvent
  {
    StockEvent(ev.facilityId, ev.programId, ev.prepackerUserId,
               [StockEventLineItem(prepack.id, childLot.id, QuantityToPrepack(item), today,
                                   reasons.creditReasonId)])
  }

  /** A debit followed by the credit that balances it. */
  predicate IsPair(debit: StockEvent, credit: StockEvent, reasons: Reasons)
  {
    && |debit.lineItems| == 1 && |credit.lineItems| == 1
    && debit.lineItems[0].reasonId == reasons.debitReasonId
    && credit.lineItems[0].reasonId == reasons.creditReasonId
    && debit.lineItems[0].quantity == credit.lineItems[0].quantity
    && debit.facilityId == credit.facilityId
    && debit.programId == credit.programId
    && debit.userId == credit.userId
  }

  /** A ledger segment made of debit/credit pairs only. */
  predicate Balanced(s: seq<StockEvent>, reasons: Reasons)
    decreases |s|
  {
    s == [] || (|s| >= 2 && IsPair(s[0], s[1], reasons) && Balanced(s[2..], reasons))
  }

  datatype ItemOutcome =
    | ItemDone(world: World, remark: string)
    | ItemAborted(world: World, failure: Failure)

  /** The second half of a line item whose stock suffices: identity, approval, the pair. */
  function CompleteItem(w: World, env: Env, reasons: Reasons, ev: PrepackingEvent,
                        item: LineItem, bulk: Orderable, bulkLot: Lot): (r: ItemOutcome)
    ensures r.ItemDone? ==> r.remark == SUCCESSFUL
    ensures r.ItemAborted? ==> r.world.ledger == w.ledger
    ensures r.ItemDone? ==>
      |r.world.ledger| == |w.ledger| + 2 && r.world.ledger[..|w.ledger|] == w.ledger &&
      IsPair(r.world.ledger[|w.ledger|], r.world.ledger[|w.ledger| + 1], reasons)
  {
    match ResolvePrepack(w.catalog, bulk, bulkLot, item.prepackSize)
    case Unresolved(c, f) => ItemAborted(w.(catalog := c), f)
    case Resolved(c, prepack, childLot) =>
      match FacilityTypeCode(env, ev.facilityId)
      case None => ItemAborted(w.(catalog := c), FacilityNotFound)
      case Some(facilityTypeCode) =>
        match ProgramCode(env, ev.programId)
        case None => ItemAborted(w.(catalog := c), ProgramNotFound)
        case Some(programCode) =>
          var c' := EnsureApproval(c, facilityTypeCode, programCode, prepack.id);
          var debit := DebitEvent(ev, item, bulk.id, env.today, reasons);
          var credit := CreditEvent(ev, item, prepack, childLot, env.today, reasons);
          ItemDone(World(c', w.ledger + [debit, credit]), SUCCESSFUL)
  }

  /**
   * One pass of the authorization loop body. An empty stock-card search or
   * too little stock only writes a remark; otherwise the prepack is resolved
   * and a balanced debit/credit pair is submitted.
   */
  function AuthorizeItem(w: World, env: Env, reasons: Reasons, ev: PrepackingEvent,
                         item: LineItem): (r: ItemOutcome)
    ensures r.ItemDone? ==> IsRemark(r.remark)
    ensures r.ItemDone? && r.remark != SUCCESSFUL ==> r.world == w
    ensures r.ItemAborted? ==> r.world.ledger == w.ledger
    ensures r.ItemDone? && r.remark == SUCCESSFUL ==>
      |r.world.ledger| == |w.ledger| + 2 && r.world.ledger[..|w.ledger|] == w.ledger &&
      IsPair(r.world.ledger[|w.ledger|], r.world.ledger[|w.ledger| + 1], reasons)
  {
    match FindLot(w.catalog.lots, item.lotId)
    case None => ItemAborted(w, BulkLotNotFound)
    case Some(bulkLot) =>
      var summaries := StockCards(env, BulkStockQuery(ev, item, bulkLot, env.today), w.ledger);
      if summaries == [] then ItemDone(w, ORDERABLE_MISSING)
      else if QuantityToPrepack(item) > summaries[0].stockOnHand then ItemDone(w, INADEQUATE_STOCK)
      else
        match FindOrderable(w.catalog.orderables, item.orderableId)
        case None => ItemAborted(w, BulkOrderableNotFound)
        case Some(bulk) => CompleteItem(w, env, reasons, ev, item, bulk, bulkLot)
  }

  /** Where the loop stands: the world, the remarks written so far, and an abort if one happened. */
  datatype Run = Run(world: World, remarks: seq<string>, failure: Option<Failure>)

  /**
   * The loop over `items` in list order, stopping at the first abort. Every
   * item before an abort gets a remark, and the ledger only grows.
   */
  function AuthorizeItems(w: World, env: Env, reasons: Reasons, ev: PrepackingEvent,
                          items: seq<LineItem>): (r: Run)
    ensures forall i :: 0 <= i < |r.remarks| ==> IsRemark(r.remarks[i])
    ensures r.failure.None? ==> |r.remarks| == |items|
    ensures r.failure.Some? ==> |r.remarks| < |items|
    ensures |w.ledger| <= |r.world.ledger| && r.world.ledger[..|w.ledger|] == w.ledger
    decreases |items|
  {
    if items == [] then Run(w, [], None)
    else
      var prev := AuthorizeItems(w, env, reasons, ev, items[..|items| - 1]);
      if prev.failure.Some? then prev
      else
        var outcome := AuthorizeItem(prev.world, env, reasons, ev, items[|items| - 1]);
        assert outcome.world.ledger[..|prev.world.ledger|] == prev.world.ledger;
        assert outcome.world.ledger[..|w.ledger|] == prev.world.ledger[..|w.ledger|];
        match outcome
        case ItemDone(w', remark) => Run(w', prev.remarks + [remark], None)
        case ItemAborted(w', f) => Run(w', prev.remarks, Some(f))
  }

  /** One more pass of the loop: how the run over `items[..i + 1]` extends the run over `items[..i]`. */
  lemma AuthorizeItemsStep(w: World, env: Env, reasons: Reasons, ev: PrepackingEvent,
                           items: seq<LineItem>, i: nat)
    requires i < |items|
    requires AuthorizeItems(w, env, reasons, ev, items[..i]).failure.None?
    ensures var prev := AuthorizeItems(w, env, reasons, ev, items[..i]);
      var outcome := AuthorizeItem(prev.world, env, reasons, ev, items[i]);
      AuthorizeItems(w, env, reasons, ev, items[..i + 1]) ==
        if outcome.ItemDone? then Run(outcome.world, prev.remarks + [outcome.remark], None)
        else Run(outcome.world, prev.remarks, Some(outcome.failure))
  {
    assert items[..i + 1][..i] == items[..i];
  }

  // ---------------------------------------------------------------------
  // The catalog only grows, and never hands out an identifier twice

  lemma FindOrCreateLotGrows(c: CatalogState, tradeItemId: Uuid, bulkLot: Lot, size: int)
    requires Fresh(c) && tradeItemId < c.nextId
    ensures var r := FindOrCreateLot(c, tradeItemId, bulkLot, size);
      Extends(c, r.catalog) && Fresh(r.catalog) && r.lot.id < r.catalog.nextId
  {
    var r := FindOrCreateLot(c, tradeItemId, bulkLot, size);
    if r.catalog != c {
      assert r.catalog.lots == c.lots + [r.lot];
    } else {
      assert r.lot in c.lots;
    }
  }

  lemma WithNewPrepackGrows(c: CatalogState, bulk: Orderable, size: int)
    ensures Extends(c, WithNewPrepack(c, bulk, size))
    ensures Fresh(c) ==> Fresh(WithNewPrepack(c, bulk, size))
  {
  }

  lemma EnsureApprovalGrows(c: CatalogState, facilityTypeCode: string, programCode: string,
                            orderableId: Uuid)
    ensures var r := EnsureApproval(c, facilityTypeCode, programCode, orderableId);
      Extends(c, r) && (Fresh(c) ==> Fresh(r))
  {
  }

  lemma ResolveGrows(c: CatalogState, bulk: Orderable, bulkLot: Lot, size: int)
    ensures var r := ResolvePrepack(c, bulk, bulkLot, size);
      Extends(c, r.catalog) && (Fresh(c) ==> Fresh(r.catalog))
  {
    var code := DerivedText(bulk.productCode, size);
    var name := DerivedText(bulk.fullProductName, size);
    var matches := OrderablesNamed(c.orderables, code, name);
    if matches == [] {
      var c1 := WithNewPrepack(c, bulk, size);
      ResolveCreates(c, bulk, bulkLot, size);
      WithNewPrepackGrows(c, bulk, size);
      if Fresh(c) {
        FindOrCreateLotGrows(c1, c.nextId + 1, bulkLot, size);
      }
    } else if matches[0].tradeItemId.Some? {
      ResolveFirstMatch(c, bulk, bulkLot, size);
      if Fresh(c) {
        assert matches[0] in c.orderables;
        FindOrCreateLotGrows(c, matches[0].tradeItemId.value, bulkLot, size);
      }
    } else {
      ResolveMissingTradeItem(c, bulk, bulkLot, size);
    }
  }

  lemma AuthorizeItemGrows(w: World, env: Env, reasons: Reasons, ev: PrepackingEvent,
                           item: LineItem)
    ensures var r := AuthorizeItem(w, env, reasons, ev, item);
      Extends(w.catalog, r.world.catalog) && (Fresh(w.catalog) ==> Fresh(r.world.catalog))
  {
    var r := AuthorizeItem(w, env, reasons, ev, item);
    var bulkLot := FindLot(w.catalog.lots, item.lotId);
    var bulk := FindOrderable(w.catalog.orderables, item.orderableId);
    if bulkLot.Some? && bulk.Some? && r != ItemDone(w, ORDERABLE_MISSING)
       && r != ItemDone(w, INADEQUATE_STOCK) {
      CompleteItemGrows(w, env, reasons, ev, item, bulk.value, bulkLot.value);
    } else {
      assert r.world == w;
    }
  }

  lemma CompleteItemGrows(w: World, env: Env, reasons: Reasons, ev: PrepackingEvent,
                          item: LineItem, bulk: Orderable, bulkLot: Lot)
    ensures var r := CompleteItem(w, env, reasons, ev, item, bulk, bulkLot);
      Extends(w.catalog, r.world.catalog) && (Fresh(w.catalog) ==> Fresh(r.world.catalog))
  {
    var res := ResolvePrepack(w.catalog, bulk, bulkLot, item.prepackSize);
    ResolveGrows(w.catalog, bulk, bulkLot, item.prepackSize);
    if res.Resolved? {
      var c := res.catalog;
      var ft := FacilityTypeCode(env, ev.facilityId);
      var pc := ProgramCode(env, ev.programId);
      if ft.Some? && pc.Some? {
        var c' := EnsureApproval(c, ft.value, pc.value, res.prepack.id);
        EnsureApprovalGrows(c, ft.value, pc.value, res.prepack.id);
        ExtendsTrans(w.catalog, c, c');
      }
    }
  }

  /** Over the whole loop the catalog only grows and keeps handing out fresh identifiers. */
  lemma {:induction false} AuthorizeItemsGrows(w: World, env: Env, reasons: Reasons,
                                               ev: PrepackingEvent, items: seq<LineItem>)
    ensures var r := AuthorizeItems(w, env, reasons, ev, items);
      Extends(w.catalog, r.world.catalog) && (Fresh(w.catalog) ==> Fresh(r.world.catalog))
    decreases |items|
  {
    if items != [] {
      var prefix := items[..|items| - 1];
      AuthorizeItemsGrows(w, env, reasons, ev, prefix);
      var prev := AuthorizeItems(w, env, reasons, ev, prefix);
      if prev.failure.None? {
        AuthorizeItemGrows(prev.world, env, reasons, ev, items[|items| - 1]);
        var outcome := AuthorizeItem(prev.world, env, reasons, ev, items[|items| - 1]);
        ExtendsTrans(w.catalog, prev.world.catalog, outcome.world.catalog);
      }
    }
  }

  lemma ExtendsTrans(a: CatalogState, b: CatalogState, c: CatalogState)
    requires Extends(a, b) && Extends(b, c)
    ensures Extends(a, c)
  {
    assert c.orderables[..|a.orderables|] == b.orderables[..|a.orderables|];
    assert c.tradeItems[..|a.tradeItems|] == b.tradeItems[..|a.tradeItems|];
    assert c.lots[..|a.lots|] == b.lots[..|a.lots|];
    assert c.approvals[..|a.approvals|] == b.approvals[..|a.approvals|];
  }

  /** The line items with the first `|remarks|` remarks written. */
  function WithRemarks(items: seq<LineItem>, remarks: seq<string>): (r: seq<LineItem>)
    requires |remarks| <= |items|
    ensures |r| == |items|
    ensures forall i :: 0 <= i < |remarks| ==> r[i] == items[i].(remarks := Some(remarks[i]))
    ensures forall i :: |remarks| <= i < |items| ==> r[i] == items[i]
  {
    seq(|items|, i requires 0 <= i < |items| =>
      if i < |remarks| then items[i].(remarks := Some(remarks[i])) else items[i])
  }

  /** Writing one more remark changes only the next line item. */
  lemma WithRemarksStep(items: seq<LineItem>, remarks: seq<string>, remark: string)
    requires |remarks| < |items|
    ensures WithRemarks(items, remarks + [remark]) ==
      WithRemarks(items, remarks)[|remarks| := items[|remarks|].(remarks := Some(remark))]
  {
  }

  /** The number of successful line items among the remarks. */
  function CountSuccessful(remarks: seq<string>): nat
  {
    if remarks == [] then 0
    else CountSuccessful(remarks[..|remarks| - 1]) + (if remarks[|remarks| - 1] == SUCCESSFUL then 1 else 0)
  }

  /** The sum of the quantities a ledger segment moves with the given reason. */
  function TotalFor(s: seq<StockEvent>, reasonId: Uuid): int
  {
    if s == [] then 0 else LineTotal(s[0].lineItems, reasonId) + TotalFor(s[1..], reasonId)
  }

  function LineTotal(lines: seq<StockEventLineItem>, reasonId: Uuid): int
  {
    if lines == [] then 0
    else (if lines[0].reasonId == reasonId then lines[0].quantity else 0) + LineTotal(lines[1..], reasonId)
  }

  // ---------------------------------------------------------------------
  // Stock movements balance

  lemma {:induction false} BalancedAppendPair(s: seq<StockEvent>, debit: StockEvent,
                                              credit: StockEvent, reasons: Reasons)
    requires Balanced(s, reasons) && IsPair(debit, credit, reasons)
    ensures Balanced(s + [debit, credit], reasons)
    decreases |s|
  {
    if s == [] {
      assert (s + [debit, credit])[2..] == [];
    } else {
      BalancedAppendPair(s[2..], debit, credit, reasons);
      assert (s + [debit, credit])[2..] == s[2..] + [debit, credit];
    }
  }

  /**
   * Over a segment of debit/credit pairs, the total debited equals the total
   * credited (when the two reasons are distinct identifiers).
   */
  lemma {:induction false} BalancedConserves(s: seq<StockEvent>, reasons: Reasons)
    requires Balanced(s, reasons) && reasons.debitReasonId != reasons.creditReasonId
    ensures TotalFor(s, reasons.debitReasonId) == TotalFor(s, reasons.creditReasonId)
    decreases |s|
  {
    if s != [] {
      BalancedConserves(s[2..], reasons);
      var debit, credit := reasons.debitReasonId, reasons.creditReasonId;
      assert s[1..][1..] == s[2..];
      assert LineTotal(s[0].lineItems, debit) == s[0].lineItems[0].quantity
        by { assert s[0].lineItems[1..] == []; }
      assert LineTotal(s[0].lineItems, credit) == 0 by { assert s[0].lineItems[1..] == []; }
      assert LineTotal(s[1].lineItems, credit) == s[1].lineItems[0].quantity
        by { assert s[1].lineItems[1..] == []; }
      assert LineTotal(s[1].lineItems, debit) == 0 by { assert s[1].lineItems[1..] == []; }
      assert TotalFor(s, debit) == LineTotal(s[0].lineItems, debit) +
        LineTotal(s[1].lineItems, debit) + TotalFor(s[2..], debit);
      assert TotalFor(s, credit) == LineTotal(s[0].lineItems, credit) +
        LineTotal(s[1].lineItems, credit) + TotalFor(s[2..], credit);
    }
  }

  /**
   * The events one authorization appends to the ledger are one debit/credit
   * pair per successful line item, and nothing else.
   */
  lemma {:induction false} LedgerDeltaBalanced(w: World, env: Env, reasons: Reasons,
                                               ev: PrepackingEvent, items: seq<LineItem>)
    ensures var r := AuthorizeItems(w, env, reasons, ev, items);
      && Balanced(r.world.ledger[|w.ledger|..], reasons)
      && |r.world.ledger| == |w.ledger| + 2 * CountSuccessful(r.remarks)
    decreases |items|
  {
    if items != [] {
      var prefix := items[..|items| - 1];
      LedgerDeltaBalanced(w, env, reasons, ev, prefix);
      var prev := AuthorizeItems(w, env, reasons, ev, prefix);
      if prev.failure.None? {
        var r := AuthorizeItems(w, env, reasons, ev, items);
        StepBalanced(w.ledger, prev.world, env, reasons, ev, items[|items| - 1]);
        if r.failure.None? {
          assert r.remarks[..|r.remarks| - 1] == prev.remarks;
        }
      }
    }
  }

  /** A ledger that grows by one pair keeps a balanced tail balanced. */
  lemma PairExtendsBalanced(start: nat, before: seq<StockEvent>, after: seq<StockEvent>,
                            reasons: Reasons)
    requires start <= |before| && Balanced(before[start..], reasons)
    requires |after| == |before| + 2 && after[..|before|] == before
    requires IsPair(after[|before|], after[|before| + 1], reasons)
    ensures Balanced(after[start..], reasons)
  {
    var debit, credit := after[|before|], after[|before| + 1];
    BalancedAppendPair(before[start..], debit, credit, reasons);
    assert after == before + [debit, credit];
    assert after[start..] == before[start..] + [debit, credit];
  }

  /** One pass of the loop body keeps the appended segment a run of pairs. */
  lemma StepBalanced(start: seq<StockEvent>, w: World, env: Env, reasons: Reasons,
                     ev: PrepackingEvent, item: LineItem)
    requires |start| <= |w.ledger| && w.ledger[..|start|] == start
    requires Balanced(w.ledger[|start|..], reasons)
    ensures var r := AuthorizeItem(w, env, reasons, ev, item);
      && Balanced(r.world.ledger[|start|..], reasons)
      && |r.world.ledger| == |w.ledger| + (if r.ItemDone? && r.remark == SUCCESSFUL then 2 else 0)
  {
    var r := AuthorizeItem(w, env, reasons, ev, item);
    OutcomeBalanced(|start|, w.ledger, r, reasons);
  }

  lemma OutcomeBalanced(start: nat, ledger: seq<StockEvent>, r: ItemOutcome, reasons: Reasons)
    requires start <= |ledger| && Balanced(ledger[start..], reasons)
    requires r.ItemAborted? || r.remark != SUCCESSFUL ==> r.world.ledger == ledger
    requires r.ItemDone? && r.remark == SUCCESSFUL ==>
      |r.world.ledger| == |ledger| + 2 && r.world.ledger[..|ledger|] == ledger &&
      IsPair(r.world.ledger[|ledger|], r.world.ledger[|ledger| + 1], reasons)
    ensures Balanced(r.world.ledger[start..], reasons)
    ensures |r.world.ledger| == |ledger| + (if r.ItemDone? && r.remark == SUCCESSFUL then 2 else 0)
  {
    if r.ItemDone? && r.remark == SUCCESSFUL {
      PairExtendsBalanced(start, ledger, r.world.ledger, reasons);
    }
  }

  /** Every unit authorization debits from a bulk lot it credits to a prepack lot. */
  lemma AuthorizeConserves(w: World, env: Env, reasons: Reasons, ev: PrepackingEvent,
                           items: seq<LineItem>)
    requires reasons.debitReasonId != reasons.creditReasonId
    ensures var delta := AuthorizeItems(w, env, reasons, ev, items).world.ledger[|w.ledger|..];
      TotalFor(delta, reasons.debitReasonId) == TotalFor(delta, reasons.creditReasonId)
  {
    LedgerDeltaBalanced(w, env, reasons, ev, items);
    BalancedConserves(AuthorizeItems(w, env, reasons, ev, items).world.ledger[|w.ledger|..], reasons);
  }

  // ---------------------------------------------------------------------
  // Line items in list order

  /**
   * The i-th remark is what the loop body answers for the i-th line item in
   * the world the earlier line items left behind.
   */
  lemma {:induction false} RemarkAt(w: World, env: Env, reasons: Reasons, ev: PrepackingEvent,
                                    items: seq<LineItem>, i: nat)
    requires i < |AuthorizeItems(w, env, reasons, ev, items).remarks|
    ensures var before := AuthorizeItems(w, env, reasons, ev, items[..i]);
      && before.failure.None?
      && AuthorizeItem(before.world, env, reasons, ev, items[i]).ItemDone?
      && AuthorizeItems(w, env, reasons, ev, items).remarks[i] ==
           AuthorizeItem(before.world, env, reasons, ev, items[i]).remark
    decreases |items|
  {
    var prefix := items[..|items| - 1];
    var prev := AuthorizeItems(w, env, reasons, ev, prefix);
    if i < |prev.remarks| {
      RemarkAt(w, env, reasons, ev, prefix, i);
      assert prefix[..i] == items[..i];
    } else {
      assert prefix == items[..i];
    }
  }

  // ---------------------------------------------------------------------
  // One line item: which remark, and what it submits

  /**
   * With the bulk lot found, the stock-card answer alone decides the two
   * unsuccessful remarks, and "Successful" needs enough stock (equality
   * counts as enough).
   */
  lemma StockDecidesRemark(w: World, env: Env, reasons: Reasons, ev: PrepackingEvent,
                           item: LineItem)
    requires FindLot(w.catalog.lots, item.lotId).Some?
    ensures var bulkLot := FindLot(w.catalog.lots, item.lotId).value;
      var summaries := StockCards(env, BulkStockQuery(ev, item, bulkLot, env.today), w.ledger);
      var r := AuthorizeItem(w, env, reasons, ev, item);
      && (r.ItemDone? && r.remark == ORDERABLE_MISSING <==> summaries == [])
      && (r.ItemDone? && r.remark == INADEQUATE_STOCK <==>
            summaries != [] && QuantityToPrepack(item) > summaries[0].stockOnHand)
      && (r.ItemDone? && r.remark == SUCCESSFUL <==>
            summaries != [] && QuantityToPrepack(item) <= summaries[0].stockOnHand && r.ItemDone?)
  {
  }

  /** A missing bulk lot aborts before anything is read or written. */
  lemma MissingBulkLotAborts(w: World, env: Env, reasons: Reasons, ev: PrepackingEvent,
                             item: LineItem)
    requires forall l :: l in w.catalog.lots ==> l.id != item.lotId
    ensures AuthorizeItem(w, env, reasons, ev, item) == ItemAborted(w, BulkLotNotFound)
  {
  }

  /**
   * A successful line item appends exactly a debit of the bulk orderable and
   * lot and a credit of the resolved prepack orderable and child lot, both of
   * the quantity to prepack, on the event's facility, program and prepacker.
   */
  lemma SuccessfulEntries(w: World, env: Env, reasons: Reasons, ev: PrepackingEvent,
                          item: LineItem)
    requires var r := AuthorizeItem(w, env, reasons, ev, item);
      r.ItemDone? && r.remark == SUCCESSFUL
    ensures var r := AuthorizeItem(w, env, reasons, ev, item);
      var bulkLot := FindLot(w.catalog.lots, item.lotId);
      var bulk := FindOrderable(w.catalog.orderables, item.orderableId);
      && bulkLot.Some? && bulk.Some?
      && var res := ResolvePrepack(w.catalog, bulk.value, bulkLot.value, item.prepackSize);
      && res.Resolved?
      && r.world.ledger == w.ledger +
           [StockEvent(ev.facilityId, ev.programId, ev.prepackerUserId,
                       [StockEventLineItem(item.orderableId, item.lotId, QuantityToPrepack(item),
                                           env.today, reasons.debitReasonId)]),
            StockEvent(ev.facilityId, ev.programId, ev.prepackerUserId,
                       [StockEventLineItem(res.prepack.id, res.childLot.id, QuantityToPrepack(item),
                                           env.today, reasons.creditReasonId)])]
      && res.prepack in r.world.catalog.orderables && res.childLot in r.world.catalog.lots
      && res.childLot.lotCode == Some(DerivedText(bulkLot.value.lotCode, item.prepackSize))
  {
  }

  // ---------------------------------------------------------------------
  // Find before create

  /**
   * When no orderable carries the derived code and name, a trade item from
   * the local manufacturer, the prepack orderable and its child lot are
   * created, in that order of identifiers, and all three are new: a fresh
   * trade item has no lots yet, so the child lot is always submitted.
   */
  lemma CreatesPrepackWhenAbsent(c: CatalogState, bulk: Orderable, bulkLot: Lot, size: int)
    requires Fresh(c)
    requires OrderablesNamed(c.orderables, DerivedText(bulk.productCode, size),
                             DerivedText(bulk.fullProductName, size)) == []
    ensures var r := ResolvePrepack(c, bulk, bulkLot, size);
      && r.Resolved?
      && r.prepack == NewPrepackOrderable(c.nextId, bulk, size, c.nextId + 1)
      && r.childLot == Lot(c.nextId + 2, Some(c.nextId + 1),
                           Some(DerivedText(bulkLot.lotCode, size)),
                           bulkLot.expirationDate, bulkLot.manufactureDate, bulkLot.active)
      && r.catalog == c.(orderables := c.orderables + [r.prepack],
                         tradeItems := c.tradeItems + [TradeItem(c.nextId + 1, LOCAL_MANUFACTURER)],
                         lots := c.lots + [r.childLot],
                         nextId := c.nextId + 3)
      && (forall o :: o in c.orderables ==> o.id != r.prepack.id)
  {
    var tradeItemId := c.nextId + 1;
    var code := DerivedText(bulkLot.lotCode, size);
    LotMatchingFinds(c.lots, tradeItemId, code);
  }

  /**
   * When an orderable carries the derived code and name, the first one is
   * reused: no trade item or orderable is created, and the child lot is
   * either found or the one new lot.
   */
  lemma ReusesFirstMatch(c: CatalogState, bulk: Orderable, bulkLot: Lot, size: int)
    requires OrderablesNamed(c.orderables, DerivedText(bulk.productCode, size),
                             DerivedText(bulk.fullProductName, size)) != []
    ensures var first := OrderablesNamed(c.orderables, DerivedText(bulk.productCode, size),
                                         DerivedText(bulk.fullProductName, size))[0];
      var r := ResolvePrepack(c, bulk, bulkLot, size);
      && r.catalog.orderables == c.orderables && r.catalog.tradeItems == c.tradeItems
      && (r.Unresolved? <==> first.tradeItemId.None?)
      && (r.Resolved? ==> r.prepack == first)
      && (r.Resolved? ==> r.catalog.lots == c.lots || r.catalog.lots == c.lots + [r.childLot])
  {
  }

  /**
   * Running `FindOrCreateLot` again on the lots it produced finds the same
   * lot and creates nothing.
   */
  lemma FindOrCreateLotStable(c: CatalogState, tradeItemId: Uuid, bulkLot: Lot, size: int,
                              c2: CatalogState)
    requires c2.lots == FindOrCreateLot(c, tradeItemId, bulkLot, size).catalog.lots
    ensures FindOrCreateLot(c2, tradeItemId, bulkLot, size) ==
              LotChoice(c2, FindOrCreateLot(c, tradeItemId, bulkLot, size).lot)
  {
    var code := DerivedText(bulkLot.lotCode, size);
    var ch := FindOrCreateLot(c, tradeItemId, bulkLot, size);
    if LotMatching(c.lots, Some(tradeItemId), Some(code)).None? {
      LotMatchingAppendNew(c.lots, ch.lot, tradeItemId, code);
    }
  }

  /**
   * Resolving the same bulk orderable, lot and size against the catalog a
   * resolution produced (whatever approvals were added since) reuses the
   * prepack orderable and child lot and creates nothing.
   */
  lemma ResolveIdempotent(c: CatalogState, bulk: Orderable, bulkLot: Lot, size: int,
                          approvals: seq<ApprovedProduct>)
    requires ResolvePrepack(c, bulk, bulkLot, size).Resolved?
    ensures var r := ResolvePrepack(c, bulk, bulkLot, size);
      var c2 := r.catalog.(approvals := approvals);
      ResolvePrepack(c2, bulk, bulkLot, size) == Resolved(c2, r.prepack, r.childLot)
  {
    var code := DerivedText(bulk.productCode, size);
    var name := DerivedText(bulk.fullProductName, size);
    if OrderablesNamed(c.orderables, code, name) == [] {
      ResolveIdempotentCreated(c, bulk, bulkLot, size, approvals);
    } else {
      ResolveIdempotentReused(c, bulk, bulkLot, size, approvals);
    }
  }

  lemma ResolveIdempotentCreated(c: CatalogState, bulk: Orderable, bulkLot: Lot, size: int,
                                 approvals: seq<ApprovedProduct>)
    requires OrderablesNamed(c.orderables, DerivedText(bulk.productCode, size),
                             DerivedText(bulk.fullProductName, size)) == []
    ensures var r := ResolvePrepack(c, bulk, bulkLot, size);
      var c2 := r.catalog.(approvals := approvals);
      ResolvePrepack(c2, bulk, bulkLot, size) == Resolved(c2, r.prepack, r.childLot)
  {
    var tradeItemId := c.nextId + 1;
    var c1 := WithNewPrepack(c, bulk, size);
    ResolveCreates(c, bulk, bulkLot, size);
    var choice := FindOrCreateLot(c1, tradeItemId, bulkLot, size);
    var c2 := choice.catalog.(approvals := approvals);
    NewPrepackIsFirstMatch(c.orderables, c.nextId, bulk, size, tradeItemId);
    FindOrCreateLotStable(c1, tradeItemId, bulkLot, size, c2);
    ResolveFirstMatch(c2, bulk, bulkLot, size);
  }

  /** How `ResolvePrepack` proceeds when the search finds nothing. */
  lemma ResolveCreates(c: CatalogState, bulk: Orderable, bulkLot: Lot, size: int)
    requires OrderablesNamed(c.orderables, DerivedText(bulk.productCode, size),
                             DerivedText(bulk.fullProductName, size)) == []
    ensures var choice := FindOrCreateLot(WithNewPrepack(c, bulk, size), c.nextId + 1, bulkLot, size);
      ResolvePrepack(c, bulk, bulkLot, size) ==
        Resolved(choice.catalog, NewPrepackOrderable(c.nextId, bulk, size, c.nextId + 1), choice.lot)
  {
  }

  /** How `ResolvePrepack` fails when the first match has no trade item identifier. */
  lemma ResolveMissingTradeItem(c: CatalogState, bulk: Orderable, bulkLot: Lot, size: int)
    requires var matches := OrderablesNamed(c.orderables, DerivedText(bulk.productCode, size),
                                            DerivedText(bulk.fullProductName, size));
      matches != [] && matches[0].tradeItemId.None?
    ensures ResolvePrepack(c, bulk, bulkLot, size) == Unresolved(c, TradeItemIdentifierMissing)
  {
  }

  /** Once created, the prepack orderable is the only match of its own code and name. */
  lemma NewPrepackIsFirstMatch(os: seq<Orderable>, id: Uuid, bulk: Orderable, size: int,
                               tradeItemId: Uuid)
    requires OrderablesNamed(os, DerivedText(bulk.productCode, size),
                             DerivedText(bulk.fullProductName, size)) == []
    ensures var prepack := NewPrepackOrderable(id, bulk, size, tradeItemId);
      OrderablesNamed(os + [prepack], DerivedText(bulk.productCode, size),
                      DerivedText(bulk.fullProductName, size)) == [prepack]
  {
    var key := OrderableKey(DerivedText(bulk.productCode, size), DerivedText(bulk.fullProductName, size));
    FilterAppend(os, NewPrepackOrderable(id, bulk, size, tradeItemId), key);
  }

  /** How `ResolvePrepack` proceeds when the search finds a prepack with a trade item. */
  lemma ResolveFirstMatch(c: CatalogState, bulk: Orderable, bulkLot: Lot, size: int)
    requires var matches := OrderablesNamed(c.orderables, DerivedText(bulk.productCode, size),
                                            DerivedText(bulk.fullProductName, size));
      matches != [] && matches[0].tradeItemId.Some?
    ensures var first := OrderablesNamed(c.orderables, DerivedText(bulk.productCode, size),
                                         DerivedText(bulk.fullProductName, size))[0];
      var choice := FindOrCreateLot(c, first.tradeItemId.value, bulkLot, size);
      ResolvePrepack(c, bulk, bulkLot, size) == Resolved(choice.catalog, first, choice.lot)
  {
  }

  lemma ResolveIdempotentReused(c: CatalogState, bulk: Orderable, bulkLot: Lot, size: int,
                                approvals: seq<ApprovedProduct>)
    requires ResolvePrepack(c, bulk, bulkLot, size).Resolved?
    requires OrderablesNamed(c.orderables, DerivedText(bulk.productCode, size),
                             DerivedText(bulk.fullProductName, size)) != []
    ensures var r := ResolvePrepack(c, bulk, bulkLot, size);
      var c2 := r.catalog.(approvals := approvals);
      ResolvePrepack(c2, bulk, bulkLot, size) == Resolved(c2, r.prepack, r.childLot)
  {
    var code := DerivedText(bulk.productCode, size);
    var name := DerivedText(bulk.fullProductName, size);
    var first := OrderablesNamed(c.orderables, code, name)[0];
    var choice := FindOrCreateLot(c, first.tradeItemId.value, bulkLot, size);
    assert ResolvePrepack(c, bulk, bulkLot, size) == Resolved(choice.catalog, first, choice.lot);
    var c2 := choice.catalog.(approvals := approvals);
    assert c2.orderables == c.orderables;
    FindOrCreateLotStable(c, first.tradeItemId.value, bulkLot, size, c2);
  }

  /**
   * Authorizing the same line item again after it succeeded, when the stock
   * service, asked after the first debit, still reports enough stock: no
   * orderable, trade item, lot or approval is created, and the same debit
   * and credit are submitted once more.
   */
  lemma AuthorizeItemTwice(w: World, env: Env, reasons: Reasons, ev: PrepackingEvent,
                           item: LineItem)
    requires var r := AuthorizeItem(w, env, reasons, ev, item);
      r.ItemDone? && r.remark == SUCCESSFUL
    requires FindLot(w.catalog.lots, item.lotId).Some? &&
      var w1 := AuthorizeItem(w, env, reasons, ev, item).world;
      var bulkLot := FindLot(w.catalog.lots, item.lotId).value;
      var again := StockCards(env, BulkStockQuery(ev, item, bulkLot, env.today), w1.ledger);
      again != [] && QuantityToPrepack(item) <= again[0].stockOnHand
    ensures var w1 := AuthorizeItem(w, env, reasons, ev, item).world;
      AuthorizeItem(w1, env, reasons, ev, item) ==
        ItemDone(World(w1.catalog, w1.ledger + w1.ledger[|w.ledger|..]), SUCCESSFUL)
  {
    var bulkLot := FindLot(w.catalog.lots, item.lotId).value;
    var bulk := FindOrderable(w.catalog.orderables, item.orderableId).value;
    PastStockCheck(w, env, reasons, ev, item, bulk, bulkLot);
    var w1 := CompleteItem(w, env, reasons, ev, item, bulk, bulkLot).world;
    CompleteItemGrows(w, env, reasons, ev, item, bulk, bulkLot);
    FindByIdPrefix(w.catalog.lots, w1.catalog.lots, item.lotId, LotId);
    FindByIdPrefix(w.catalog.orderables, w1.catalog.orderables, item.orderableId, OrderableId);
    PastStockCheck(w1, env, reasons, ev, item, bulk, bulkLot);
    CompleteItemTwice(w, env, reasons, ev, item, bulk, bulkLot);
  }

  /** With both lookups answered and enough stock reported, a pass is its second half. */
  lemma PastStockCheck(w: World, env: Env, reasons: Reasons, ev: PrepackingEvent,
                       item: LineItem, bulk: Orderable, bulkLot: Lot)
    requires FindLot(w.catalog.lots, item.lotId) == Some(bulkLot)
    requires FindOrderable(w.catalog.orderables, item.orderableId) == Some(bulk)
    requires var s := StockCards(env, BulkStockQuery(ev, item, bulkLot, env.today), w.ledger);
      s != [] && QuantityToPrepack(item) <= s[0].stockOnHand
    ensures AuthorizeItem(w, env, reasons, ev, item) ==
              CompleteItem(w, env, reasons, ev, item, bulk, bulkLot)
  {
  }

  /**
   * The second pass re-reads the stock after the first pass's debit: when
   * the answer no longer covers the quantity, it remarks inadequate stock
   * and changes nothing.
   */
  lemma AuthorizeItemTwiceInadequate(w: World, env: Env, reasons: Reasons, ev: PrepackingEvent,
                                     item: LineItem)
    requires var r := AuthorizeItem(w, env, reasons, ev, item);
      r.ItemDone? && r.remark == SUCCESSFUL
    requires FindLot(w.catalog.lots, item.lotId).Some? &&
      var w1 := AuthorizeItem(w, env, reasons, ev, item).world;
      var bulkLot := FindLot(w.catalog.lots, item.lotId).value;
      var again := StockCards(env, BulkStockQuery(ev, item, bulkLot, env.today), w1.ledger);
      again != [] && QuantityToPrepack(item) > again[0].stockOnHand
    ensures var w1 := AuthorizeItem(w, env, reasons, ev, item).world;
      AuthorizeItem(w1, env, reasons, ev, item) == ItemDone(w1, INADEQUATE_STOCK)
  {
    var bulkLot := FindLot(w.catalog.lots, item.lotId).value;
    var bulk := FindOrderable(w.catalog.orderables, item.orderableId).value;
    CompleteItemGrows(w, env, reasons, ev, item, bulk, bulkLot);
    var w1 := CompleteItem(w, env, reasons, ev, item, bulk, bulkLot).world;
    FindByIdPrefix(w.catalog.lots, w1.catalog.lots, item.lotId, LotId);
  }

  /** The same, for the part of the loop body past the stock check. */
  lemma CompleteItemTwice(w: World, env: Env, reasons: Reasons, ev: PrepackingEvent,
                          item: LineItem, bulk: Orderable, bulkLot: Lot)
    requires CompleteItem(w, env, reasons, ev, item, bulk, bulkLot).ItemDone?
    ensures var w1 := CompleteItem(w, env, reasons, ev, item, bulk, bulkLot).world;
      CompleteItem(w1, env, reasons, ev, item, bulk, bulkLot) ==
        ItemDone(World(w1.catalog, w1.ledger + w1.ledger[|w.ledger|..]), SUCCESSFUL)
  {
    var w1 := CompleteItem(w, env, reasons, ev, item, bulk, bulkLot).world;
    var res := ResolvePrepack(w.catalog, bulk, bulkLot, item.prepackSize);
    ResolveIdempotent(w.catalog, bulk, bulkLot, item.prepackSize, w1.catalog.approvals);
    assert res.catalog.(approvals := w1.catalog.approvals) == w1.catalog;
  }

  // ---------------------------------------------------------------------
  // Derived identity strings

  /** Integer.toString starts with '-' exactly for negative values. */
  lemma IntToStringSign(n: int)
    ensures IntToString(n)[0] == '-' <==> n < 0
  {
    if n >= 0 {
      assert IsDigits(NatToString(n));
    }
  }

  lemma IntToStringInjective(a: int, b: int)
    requires IntToString(a) == IntToString(b)
    ensures a == b
  {
    IntToStringSign(a);
    IntToStringSign(b);
    if a >= 0 {
      NatToStringInjective(a, b);
    } else {
      assert NatToString(-a) == IntToString(a)[1..] == IntToString(b)[1..] == NatToString(-b);
      NatToStringInjective(-a, -b);
    }
  }

  /**
   * Two prepack sizes of the same bulk product get distinct codes, names and
   * child-lot codes.
   */
  lemma DerivedTextDistinguishesSizes(base: Option<string>, size1: int, size2: int)
    requires DerivedText(base, size1) == DerivedText(base, size2)
    ensures size1 == size2
  {
    var prefix := JavaString(base) + "-";
    assert DerivedText(base, size1)[|prefix|..] == IntToString(size1);
    assert DerivedText(base, size2)[|prefix|..] == IntToString(size2);
    IntToStringInjective(size1, size2);
  }

  /**
   * A created prepack orderable holds the prepack size as net content, half
   * of it (rounded toward zero, also for a negative size) as rounding
   * threshold, and the bulk orderable's programs, rounding and dispensing
   * settings.
   */
  lemma NewPrepackOrderableFields(id: Uuid, bulk: Orderable, size: int, tradeItemId: Uuid)
    ensures var o := NewPrepackOrderable(id, bulk, size, tradeItemId);
      && o.netContent == size
      && (size >= 0 ==> 2 * o.packRoundingThreshold <= size < 2 * o.packRoundingThreshold + 2)
      && (size < 0 ==> 2 * o.packRoundingThreshold - 2 < size <= 2 * o.packRoundingThreshold)
      && o.programs == bulk.programs && o.roundToZero == bulk.roundToZero
      && o.dispensable == bulk.dispensable && o.tradeItemId == Some(tradeItemId)
      && o.versionNumber == 1
  {
  }
}
