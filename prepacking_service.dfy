/**
 * The prepacking service: a keyed store of prepacking events, and the
 * operations that read, update, delete, reject and authorize them.
 * Authorization walks the event's line items, reading stock from the stock
 * service and creating products, lots and approvals in the reference-data
 * catalog, and submits debit/credit stock events to the ledger.
 */
module Prepacking {
  import opened Types
  import opened ReferenceData
  import opened LotQueries
  import opened PrepackingEvents
  import opened PrepackingDto
  import opened PrepackingMapping
  import opened PrepackSpec
  import opened Services

  /** What `authorizePrepack` ends with: null, the authorized event, or an exception. */
  datatype AuthorizeOutcome =
    | EventNotFound
    | AuthorizedEvent(dto: PrepackingEventDto)
    | Aborted(failure: Failure)

  /** `deletePrepackingEvent` returns normally or throws ResourceNotFoundException. */
  datatype DeleteOutcome = Deleted | NotFound(id: Uuid)

  /** What one pass of the loop body ends with: the remark it wrote, or an exception. */
  datatype Step = Remarked(remark: string) | Thrown(failure: Failure)

  /**
   * `copyAttributes(existing, incoming)` as a value: every listed field the
   * incoming event carries replaces the existing one.
   */
  function Merge(existing: PrepackingEvent, incoming: PrepackingEvent): PrepackingEvent
  {
    existing.(dateCreated := Overlay(existing.dateCreated, incoming.dateCreated),
              facilityId := Overlay(existing.facilityId, incoming.facilityId),
              programId := Overlay(existing.programId, incoming.programId),
              comments := Overlay(existing.comments, incoming.comments),
              prepackerUserId := Overlay(existing.prepackerUserId, incoming.prepackerUserId),
              prepackerUserNames := Overlay(existing.prepackerUserNames, incoming.prepackerUserNames),
              status := Overlay(existing.status, incoming.status),
              lineItems := Overlay(existing.lineItems, incoming.lineItems))
  }

  /** The chain of conditional setters of `copyAttributes`. */
  method CopyAttributes(existing: PrepackingEvent, incoming: PrepackingEvent)
    returns (r: PrepackingEvent)
    ensures r == Merge(existing, incoming)
  {
    r := existing;
    if incoming.dateCreated.Some? {
      r := r.(dateCreated := incoming.dateCreated);
    }
    if incoming.facilityId.Some? {
      r := r.(facilityId := incoming.facilityId);
    }
    if incoming.programId.Some? {
      r := r.(programId := incoming.programId);
    }
    if incoming.comments.Some? {
      r := r.(comments := incoming.comments);
    }
    if incoming.prepackerUserId.Some? {
      r := r.(prepackerUserId := incoming.prepackerUserId);
    }
    if incoming.prepackerUserNames.Some? {
      r := r.(prepackerUserNames := incoming.prepackerUserNames);
    }
    if incoming.status.Some? {
      r := r.(status := incoming.status);
    }
    if incoming.lineItems.Some? {
      r := r.(lineItems := incoming.lineItems);
    }
  }

  /**
   * Each listed field takes the incoming value exactly when it is non-null,
   * and the fields `copyAttributes` does not list never change.
   */
  lemma MergeFields(existing: PrepackingEvent, incoming: PrepackingEvent)
    ensures var r := Merge(existing, incoming);
      && (incoming.dateCreated.Some? ==> r.dateCreated == incoming.dateCreated)
      && (incoming.dateCreated.None? ==> r.dateCreated == existing.dateCreated)
      && (incoming.facilityId.Some? ==> r.facilityId == incoming.facilityId)
      && (incoming.facilityId.None? ==> r.facilityId == existing.facilityId)
      && (incoming.programId.Some? ==> r.programId == incoming.programId)
      && (incoming.programId.None? ==> r.programId == existing.programId)
      && (incoming.comments.Some? ==> r.comments == incoming.comments)
      && (incoming.comments.None? ==> r.comments == existing.comments)
      && (incoming.prepackerUserId.Some? ==> r.prepackerUserId == incoming.prepackerUserId)
      && (incoming.prepackerUserId.None? ==> r.prepackerUserId == existing.prepackerUserId)
      && (incoming.prepackerUserNames.Some? ==> r.prepackerUserNames == incoming.prepackerUserNames)
      && (incoming.prepackerUserNames.None? ==> r.prepackerUserNames == existing.prepackerUserNames)
      && (incoming.status.Some? ==> r.status == incoming.status)
      && (incoming.status.None? ==> r.status == existing.status)
      && (incoming.lineItems.Some? ==> r.lineItems == incoming.lineItems)
      && (incoming.lineItems.None? ==> r.lineItems == existing.lineItems)
      && r.id == existing.id && r.supervisoryNodeId == existing.supervisoryNodeId
      && r.draftStatusMessage == existing.draftStatusMessage
  {
  }

  /** Merging the same incoming event twice is merging it once. */
  lemma MergeIdempotent(existing: PrepackingEvent, incoming: PrepackingEvent)
    ensures Merge(Merge(existing, incoming), incoming) == Merge(existing, incoming)
  {
  }

  /**
   * An update through the DTO always restamps the creation date, keeps the
   * stored prepacker, and replaces the line items with the DTO's (an absent
   * list replaces them with the empty list).
   */
  lemma UpdateFromDto(existing: PrepackingEvent, dto: PrepackingEventDto, now: Date)
    ensures var r := Merge(existing, ToPrepackingEvent(dto, now));
      && r.dateCreated == Some(now)
      && r.prepackerUserId == existing.prepackerUserId
      && r.prepackerUserNames == existing.prepackerUserNames
      && r.lineItems == Some(LineItemsOf(dto))
      && r.id == existing.id
  {
  }

  /** Every stored event has its line-item list, as the DTO mapping dereferences it. */
  ghost predicate StoreValid(events: map<Uuid, PrepackingEvent>)
  {
    forall id :: id in events ==> events[id].lineItems.Some?
  }

  class PrepackingService {
    /** The prepacking events repository, keyed by event id. */
    var events: map<Uuid, PrepackingEvent>
    const catalog: Catalog
    const ledger: StockLedger
    /** The configured prepacking debit and credit reasons. */
    const reasons: Reasons

    ghost predicate Valid()
      reads this, catalog
    {
      catalog.Valid() && StoreValid(events)
    }

    /** The state of the two remote services. */
    function Remote(): World
      reads catalog, ledger
    {
      World(catalog.State(), ledger.submitted)
    }

    constructor (events: map<Uuid, PrepackingEvent>, catalog: Catalog, ledger: StockLedger,
                 reasons: Reasons)
      requires catalog.Valid() && StoreValid(events)
      ensures Valid()
      ensures this.events == events && this.catalog == catalog && this.ledger == ledger
      ensures this.reasons == reasons
    {
      this.events := events;
      this.catalog := catalog;
      this.ledger := ledger;
      this.reasons := reasons;
    }

    /** `getPrepackingEventById`: the event as a DTO, or null. */
    method GetPrepackingEventById(id: Uuid) returns (r: Option<PrepackingEventDto>)
      requires Valid()
      ensures id !in events <==> r.None?
      ensures id in events ==> r == Some(ToDto(events[id]))
    {
      if id in events {
        r := Some(ToDto(events[id]));
      } else {
        r := None;
      }
    }

    /**
     * `updatePrepackingEvent`: merges the DTO's event into the stored one and
     * saves it; an unknown id answers null and saves nothing.
     */
    method UpdatePrepackingEvent(dto: PrepackingEventDto, id: Uuid, now: Date)
      returns (r: Option<PrepackingEventDto>)
      requires Valid()
      modifies this
      ensures Valid()
      ensures id !in old(events) ==> r.None? && events == old(events)
      ensures id in old(events) ==>
        var merged := Merge(old(events)[id], ToPrepackingEvent(dto, now));
        events == old(events)[id := merged] && r == Some(ToDto(merged))
    {
      if id in events {
        var incoming := ToPrepackingEvent(dto, now);
        var merged := CopyAttributes(events[id], incoming);
        events := events[id := merged];
        r := Some(ToDto(merged));
      } else {
        r := None;
      }
    }

    /** `deletePrepackingEvent`: removes a stored event, or reports it not found. */
    method DeletePrepackingEvent(id: Uuid) returns (r: DeleteOutcome)
      requires Valid()
      modifies this
      ensures Valid()
      ensures id in old(events) ==> r == Deleted && events == old(events) - {id}
      ensures id !in old(events) ==> r == NotFound(id) && events == old(events)
    {
      if id in events {
        events := events - {id};
        r := Deleted;
      } else {
        r := NotFound(id);
      }
    }

    /** `rejectPrepack`: sets REJECTED whatever the status was, saves, and answers the DTO. */
    method RejectPrepack(id: Uuid) returns (r: Option<PrepackingEventDto>)
      requires Valid()
      modifies this
      ensures Valid()
      ensures id !in old(events) ==> r.None? && events == old(events)
      ensures id in old(events) ==>
        events == old(events)[id := old(events)[id].(status := Some(Rejected))] &&
        r == Some(ToDto(events[id])) && r.value.status == Some(Rejected)
    {
      if id in events {
        var e := events[id].(status := Some(Rejected));
        events := events[id := e];
        r := Some(ToDto(e));
      } else {
        r := None;
      }
    }

    /** The child lot: the lot matching the derived code, or a newly submitted one. */
    method FindOrCreateChildLot(tradeItemId: Uuid, bulkLot: Lot, size: int) returns (lot: Lot)
      requires catalog.Valid() && tradeItemId < catalog.nextId
      modifies catalog
      ensures catalog.Valid()
      ensures FindOrCreateLot(old(catalog.State()), tradeItemId, bulkLot, size) ==
                LotChoice(catalog.State(), lot)
    {
      var lotCode := DerivedText(bulkLot.lotCode, size);
      var existing := LotMatching(catalog.lots, Some(tradeItemId), Some(lotCode));
      if existing.None? {
        lot := catalog.SubmitLot(tradeItemId, lotCode, bulkLot.expirationDate,
                                 bulkLot.manufactureDate, bulkLot.active);
      } else {
        lot := existing.value;
      }
    }

    /**
     * A new prepack orderable: its identifier is drawn first, then its trade
     * item from the local manufacturer is submitted, then the orderable is put.
     */
    method CreatePrepack(bulk: Orderable, size: int) returns (prepack: Orderable)
      requires catalog.Valid()
      modifies catalog
      ensures catalog.Valid()
      ensures prepack == NewPrepackOrderable(old(catalog.nextId), bulk, size, old(catalog.nextId) + 1)
      ensures catalog.State() == WithNewPrepack(old(catalog.State()), bulk, size)
    {
      var id := catalog.NewUuid();
      var tradeItem := catalog.SubmitTradeItem(LOCAL_MANUFACTURER);
      prepack := NewPrepackOrderable(id, bulk, size, tradeItem.id);
      catalog.PutOrderable(prepack);
    }

    /** The branch where no orderable has the derived code and name. */
    method CreatePrepackAndLot(bulk: Orderable, bulkLot: Lot, size: int)
      returns (prepack: Orderable, childLot: Lot)
      requires catalog.Valid()
      requires OrderablesNamed(catalog.orderables, DerivedText(bulk.productCode, size),
                               DerivedText(bulk.fullProductName, size)) == []
      modifies catalog
      ensures catalog.Valid()
      ensures ResolvePrepack(old(catalog.State()), bulk, bulkLot, size) ==
        Resolved(catalog.State(), prepack, childLot)
    {
      ghost var c0 := catalog.State();
      ResolveCreates(c0, bulk, bulkLot, size);
      prepack := CreatePrepack(bulk, size);
      childLot := FindOrCreateChildLot(prepack.tradeItemId.value, bulkLot, size);
    }

    /**
     * The prepack orderable and child lot for one line item: reuse the first
     * orderable with the derived code and name or create a trade item and an
     * orderable, then find the child lot or submit it.
     */
    method FindOrCreatePrepack(bulk: Orderable, bulkLot: Lot, size: int)
      returns (r: Option<(Orderable, Lot)>)
      requires catalog.Valid()
      modifies catalog
      ensures catalog.Valid()
      ensures var spec := ResolvePrepack(old(catalog.State()), bulk, bulkLot, size);
        && catalog.State() == spec.catalog
        && (spec.Resolved? ==> r == Some((spec.prepack, spec.childLot)))
        && (spec.Unresolved? ==> r.None?)
    {
      var code := DerivedText(bulk.productCode, size);
      var name := DerivedText(bulk.fullProductName, size);
      var matches := OrderablesNamed(catalog.orderables, code, name);
      if matches == [] {
        var prepack, childLot := CreatePrepackAndLot(bulk, bulkLot, size);
        r := Some((prepack, childLot));
      } else {
        var prepack := matches[0];
        OrderablesNamedFirst(catalog.orderables, code, name);
        if prepack.tradeItemId.None? {
          ResolveMissingTradeItem(catalog.State(), bulk, bulkLot, size);
          return None;
        }
        ResolveFirstMatch(catalog.State(), bulk, bulkLot, size);
        var childLot := FindOrCreateChildLot(prepack.tradeItemId.value, bulkLot, size);
        r := Some((prepack, childLot));
      }
    }

    /** One pass of the authorization loop body for `item` of `ev`. */
    method AuthorizeLineItem(ev: PrepackingEvent, item: LineItem, env: Env) returns (step: Step)
      requires catalog.Valid()
      modifies catalog, ledger
      ensures catalog.Valid()
      ensures var spec := AuthorizeItem(old(Remote()), env, reasons, ev, item);
        && Remote() == spec.world
        && (spec.ItemDone? ==> step == Remarked(spec.remark))
        && (spec.ItemAborted? ==> step == Thrown(spec.failure))
    {
      var bulkLot := FindLot(catalog.lots, item.lotId);
      if bulkLot.None? {
        return Thrown(BulkLotNotFound);
      }
      var summaries := StockCards(env, BulkStockQuery(ev, item, bulkLot.value, env.today),
                                  ledger.submitted);
      var quantityToPrepack := QuantityToPrepack(item);
      if summaries == [] {
        return Remarked(ORDERABLE_MISSING);
      }
      if quantityToPrepack > summaries[0].stockOnHand {
        return Remarked(INADEQUATE_STOCK);
      }
      var bulk := FindOrderable(catalog.orderables, item.orderableId);
      if bulk.None? {
        return Thrown(BulkOrderableNotFound);
      }
      step := CompleteLineItem(ev, item, env, bulk.value, bulkLot.value);
    }

    /**
     * The approved-product search for the prepack, and the creation of a
     * record with the default periods only when the search is empty.
     */
    method EnsureApproved(facilityTypeCode: string, programCode: string, orderableId: Uuid)
      requires catalog.Valid()
      modifies catalog
      ensures catalog.Valid()
      ensures catalog.State() ==
        EnsureApproval(old(catalog.State()), facilityTypeCode, programCode, orderableId)
    {
      var approved := ApprovalsFor(catalog.approvals, facilityTypeCode, programCode, orderableId);
      if approved == [] {
        catalog.SubmitApproval(ApprovedProduct(orderableId, facilityTypeCode, programCode,
                                               1.0, 1.0, 1.0));
      }
    }

    /**
     * The rest of the loop body once the stock suffices: the prepack and
     * child lot, the approval, and the debit and credit.
     */
    method CompleteLineItem(ev: PrepackingEvent, item: LineItem, env: Env, bulk: Orderable,
                            bulkLot: Lot) returns (step: Step)
      requires catalog.Valid()
      modifies catalog, ledger
      ensures catalog.Valid()
      ensures var spec := CompleteItem(old(Remote()), env, reasons, ev, item, bulk, bulkLot);
        && Remote() == spec.world
        && (spec.ItemDone? ==> step == Remarked(spec.remark))
        && (spec.ItemAborted? ==> step == Thrown(spec.failure))
    {
      var resolved := FindOrCreatePrepack(bulk, bulkLot, item.prepackSize);
      if resolved.None? {
        return Thrown(TradeItemIdentifierMissing);
      }
      var (prepack, childLot) := resolved.value;
      var facilityTypeCode := FacilityTypeCode(env, ev.facilityId);
      if facilityTypeCode.None? {
        return Thrown(FacilityNotFound);
      }
      var programCode := ProgramCode(env, ev.programId);
      if programCode.None? {
        return Thrown(ProgramNotFound);
      }
      SubmitPair(ev, item, env, bulk, prepack, childLot, facilityTypeCode.value, programCode.value);
      step := Remarked(SUCCESSFUL);
    }

    /** The approval for the prepack, then the debit and the credit, in that order. */
    method SubmitPair(ev: PrepackingEvent, item: LineItem, env: Env, bulk: Orderable,
                      prepack: Orderable, childLot: Lot, facilityTypeCode: string,
                      programCode: string)
      requires catalog.Valid()
      modifies catalog, ledger
      ensures catalog.Valid()
      ensures Remote() ==
        World(EnsureApproval(old(catalog.State()), facilityTypeCode, programCode, prepack.id),
              old(ledger.submitted) + [DebitEvent(ev, item, bulk.id, env.today, reasons),
                                       CreditEvent(ev, item, prepack, childLot, env.today, reasons)])
    {
      EnsureApproved(facilityTypeCode, programCode, prepack.id);
      ledger.Submit(DebitEvent(ev, item, bulk.id, env.today, reasons));
      ledger.Submit(CreditEvent(ev, item, prepack, childLot, env.today, reasons));
    }

    /**
     * The loop of `authorizePrepack` over the event's line items in list
     * order: each pass writes the item's remark, and the first exception ends
     * the loop.
     */
    method AuthorizeLineItems(ev: PrepackingEvent, env: Env)
      returns (items: seq<LineItem>, failure: Option<Failure>)
      requires catalog.Valid() && ev.lineItems.Some?
      modifies catalog, ledger
      ensures catalog.Valid()
      ensures var run := AuthorizeItems(old(Remote()), env, reasons, ev, ev.lineItems.value);
        && Remote() == run.world
        && failure == run.failure
        && items == WithRemarks(ev.lineItems.value, run.remarks)
    {
      var original := ev.lineItems.value;
      items := original;
      var remarks: seq<string> := [];
      failure := None;
      ghost var start := Remote();
      var i := 0;
      while i < |items| && failure.None?
        invariant 0 <= i <= |items| == |original|
        invariant catalog.Valid()
        invariant AuthorizeItems(start, env, reasons, ev, original[..i]) == Run(Remote(), remarks, failure)
        invariant failure.None? ==> |remarks| == i
        invariant |remarks| <= i
        invariant items == WithRemarks(original, remarks)
        decreases |items| - i
      {
        assert items[i] == original[i];
        AuthorizeItemsStep(start, env, reasons, ev, original, i);
        var step := AuthorizeLineItem(ev, items[i], env);
        match step {
          case Remarked(remark) =>
            WithRemarksStep(original, remarks, remark);
            items := items[i := items[i].(remarks := Some(remark))];
            remarks := remarks + [remark];
          case Thrown(f) =>
            failure := Some(f);
        }
        i := i + 1;
      }
      AbortSticks(start, env, reasons, ev, original, i);
      if failure.None? {
        assert original[..i] == original;
      }
    }

    /**
     * `authorizePrepack`: every line item in order gets its remark, the
     * catalog and ledger change as the specification of the loop says, and
     * the event ends AUTHORIZED whatever the remarks; an exception leaves the
     * remarks written so far and the status as it was. An unknown id answers
     * null and changes nothing.
     */
    method AuthorizePrepack(id: Uuid, env: Env) returns (r: AuthorizeOutcome)
      requires Valid()
      requires id in events ==> QuantitiesFit(events[id].lineItems.value)
      modifies this, catalog, ledger
      ensures Valid()
      ensures id !in old(events) ==>
        r == EventNotFound && events == old(events) && Remote() == old(Remote())
      ensures id in old(events) ==>
        var ev := old(events)[id];
        var run := AuthorizeItems(old(Remote()), env, reasons, ev, ev.lineItems.value);
        var items := WithRemarks(ev.lineItems.value, run.remarks);
        && Remote() == run.world
        && (run.failure.None? ==>
              events == old(events)[id := ev.(lineItems := Some(items), status := Some(Authorized))] &&
              r == AuthorizedEvent(ToDto(events[id])))
        && (run.failure.Some? ==>
              events == old(events)[id := ev.(lineItems := Some(items))] &&
              r == Aborted(run.failure.value))
    {
      if id !in events {
        return EventNotFound;
      }
      var ev := events[id];
      var items, failure := AuthorizeLineItems(ev, env);
      if failure.Some? {
        events := events[id := ev.(lineItems := Some(items))];
        return Aborted(failure.value);
      }
      var authorized := ev.(lineItems := Some(items), status := Some(Authorized));
      events := events[id := authorized];
      r := AuthorizedEvent(ToDto(authorized));
    }
  }

  /** Once the loop has thrown, the later line items are never reached. */
  lemma {:induction false} AbortSticks(w: World, env: Env, reasons: Reasons, ev: PrepackingEvent,
                                       items: seq<LineItem>, i: nat)
    requires i <= |items|
    requires i == |items| || AuthorizeItems(w, env, reasons, ev, items[..i]).failure.Some?
    ensures AuthorizeItems(w, env, reasons, ev, items) == AuthorizeItems(w, env, reasons, ev, items[..i])
    decreases |items| - i
  {
    if i < |items| {
      assert items[..|items| - 1][..i] == items[..i];
      AbortSticks(w, env, reasons, ev, items[..|items| - 1], i);
    } else {
      assert items[..i] == items;
    }
  }
}
