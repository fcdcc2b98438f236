/**
 * Point-of-delivery events: the persisted record of a received shipment and
 * its discrepancies, its transfer object, and the service's keyed store with
 * its update, delete and listing operations.
 */
module PointOfDelivery {
  import opened Types

  /** A rejection reason as the requisition service answers it. */
  datatype RejectionReason = RejectionReason(id: Uuid, name: Option<string>)

  /** One recorded discrepancy of a delivery. */
  datatype Discrepancy = Discrepancy(
    id: Option<Uuid>,
    rejectionReasonId: Option<Uuid>,
    shipmentType: Option<string>,
    quantityAffected: Option<int>,
    comments: Option<string>)

  datatype DiscrepancyDto = DiscrepancyDto(
    id: Option<Uuid>,
    rejectionReason: Option<RejectionReason>,
    shipmentType: Option<string>,
    quantityAffected: Option<int>,
    comments: Option<string>)

  /** Who is receiving, as the process context supplies it. */
  datatype PodContext = PodContext(currentUserId: Option<Uuid>, currentUserNames: Option<string>)

  datatype PodEvent = PodEvent(
    id: Option<Uuid>,
    sourceId: Option<Uuid>,
    sourceFreeText: Option<string>,
    destinationId: Option<Uuid>,
    destinationFreeText: Option<string>,
    receivedByUserId: Option<Uuid>,
    receivedByUserNames: Option<string>,
    receivingDate: Option<Date>,
    referenceNumber: Option<string>,
    packingDate: Option<Date>,
    packedBy: Option<string>,
    cartonsQuantityOnWaybill: Option<int>,
    cartonsQuantityShipped: Option<int>,
    cartonsQuantityAccepted: Option<int>,
    cartonsQuantityRejected: Option<int>,
    containersQuantityOnWaybill: Option<int>,
    containersQuantityShipped: Option<int>,
    containersQuantityAccepted: Option<int>,
    containersQuantityRejected: Option<int>,
    remarks: Option<string>,
    discrepancies: Option<seq<Discrepancy>>)

  datatype PodEventDto = PodEventDto(
    id: Option<Uuid>,
    sourceId: Option<Uuid>,
    sourceFreeText: Option<string>,
    destinationId: Option<Uuid>,
    destinationFreeText: Option<string>,
    receivedByUserId: Option<Uuid>,
    receivedByUserNames: Option<string>,
    receivingDate: Option<Date>,
    referenceNumber: Option<string>,
    packingDate: Option<Date>,
    packedBy: Option<string>,
    cartonsQuantityOnWaybill: Option<int>,
    cartonsQuantityShipped: Option<int>,
    cartonsQuantityAccepted: Option<int>,
    cartonsQuantityRejected: Option<int>,
    containersQuantityOnWaybill: Option<int>,
    containersQuantityShipped: Option<int>,
    containersQuantityAccepted: Option<int>,
    containersQuantityRejected: Option<int>,
    remarks: Option<string>,
    discrepancies: Option<seq<DiscrepancyDto>>,
    context: Option<PodContext>)

  // ---------------------------------------------------------------------
  // The transfer object

  function HasSourceId(dto: PodEventDto): (b: bool)
    ensures b <==> dto.sourceId != None
  {
    dto.sourceId.Some?
  }

  function HasDestinationId(dto: PodEventDto): (b: bool)
    ensures b <==> dto.destinationId != None
  {
    dto.destinationId.Some?
  }

  /** Element-wise conversion with the DTO's own `toDiscrepancy`, keeping length and order. */
  function ToDiscrepancies(ds: seq<DiscrepancyDto>, toDiscrepancy: DiscrepancyDto -> Discrepancy)
    : (r: seq<Discrepancy>)
    ensures |r| == |ds|
    ensures forall i :: 0 <= i < |ds| ==> r[i] == toDiscrepancy(ds[i])
  {
    if ds == [] then [] else [toDiscrepancy(ds[0])] + ToDiscrepancies(ds[1..], toDiscrepancy)
  }

  /** `discrepancies()`: an absent list converts to the empty list. */
  function DiscrepanciesOf(dto: PodEventDto, toDiscrepancy: DiscrepancyDto -> Discrepancy)
    : (r: seq<Discrepancy>)
    ensures dto.discrepancies.None? ==> r == []
    ensures dto.discrepancies.Some? ==> |r| == |dto.discrepancies.value|
    ensures dto.discrepancies.Some? ==>
      forall i :: 0 <= i < |r| ==> r[i] == toDiscrepancy(dto.discrepancies.value[i])
  {
    match dto.discrepancies
    case None => []
    case Some(ds) => ToDiscrepancies(ds, toDiscrepancy)
  }

  /** The loop of `discrepancies()`: converts each DTO in turn and appends it. */
  method Discrepancies(dto: PodEventDto, toDiscrepancy: DiscrepancyDto -> Discrepancy)
    returns (r: seq<Discrepancy>)
    ensures r == DiscrepanciesOf(dto, toDiscrepancy)
  {
    if dto.discrepancies.None? {
      return [];
    }
    var ds := dto.discrepancies.value;
    r := [];
    var i := 0;
    while i < |ds|
      invariant 0 <= i <= |ds|
      invariant |r| == i
      invariant forall k :: 0 <= k < i ==> r[k] == toDiscrepancy(ds[k])
    {
      r := r + [toDiscrepancy(ds[i])];
      i := i + 1;
    }
  }

  /**
   * `toPointOfDeliveryEvent()`: the receiving user comes from the process
   * context, never from the DTO's own fields, and the receiving date is
   * `now`; without a context the call throws.
   */
  function ToPodEvent(dto: PodEventDto, now: Date, toDiscrepancy: DiscrepancyDto -> Discrepancy)
    : (r: Option<PodEvent>)
    ensures r.None? <==> dto.context.None?
    ensures r.Some? ==>
      && r.value.receivedByUserId == dto.context.value.currentUserId
      && r.value.receivedByUserNames == dto.context.value.currentUserNames
      && r.value.receivingDate == Some(now)
      && r.value.id.None?
      && r.value.discrepancies == Some(DiscrepanciesOf(dto, toDiscrepancy))
      && r.value.sourceId == dto.sourceId && r.value.destinationId == dto.destinationId
      && r.value.remarks == dto.remarks && r.value.referenceNumber == dto.referenceNumber
  {
    match dto.context
    case None => None
    case Some(ctx) =>
      Some(PodEvent(None, dto.sourceId, dto.sourceFreeText, dto.destinationId,
                    dto.destinationFreeText, ctx.currentUserId, ctx.currentUserNames, Some(now),
                    dto.referenceNumber, dto.packingDate, dto.packedBy,
                    dto.cartonsQuantityOnWaybill, dto.cartonsQuantityShipped,
                    dto.cartonsQuantityAccepted, dto.cartonsQuantityRejected,
                    dto.containersQuantityOnWaybill, dto.containersQuantityShipped,
                    dto.containersQuantityAccepted, dto.containersQuantityRejected,
                    dto.remarks, Some(DiscrepanciesOf(dto, toDiscrepancy))))
  }

  // ---------------------------------------------------------------------
  // The service's mappings back to transfer objects

  /** `discrepancyToDto`: the rejection reason is looked up by its id. */
  function DiscrepancyToDto(d: Discrepancy, findReason: Option<Uuid> -> Option<RejectionReason>)
    : DiscrepancyDto
  {
    DiscrepancyDto(d.id, findReason(d.rejectionReasonId), d.shipmentType, d.quantityAffected,
                   d.comments)
  }

  /** `discrepaciesToDtos`: one DTO per discrepancy, in order. */
  function DiscrepanciesToDtos(ds: seq<Discrepancy>,
                               findReason: Option<Uuid> -> Option<RejectionReason>)
    : (r: seq<DiscrepancyDto>)
    ensures |r| == |ds|
    ensures forall i :: 0 <= i < |ds| ==>
      r[i].id == ds[i].id && r[i].shipmentType == ds[i].shipmentType &&
      r[i].quantityAffected == ds[i].quantityAffected && r[i].comments == ds[i].comments &&
      r[i].rejectionReason == findReason(ds[i].rejectionReasonId)
  {
    if ds == [] then []
    else [DiscrepancyToDto(ds[0], findReason)] + DiscrepanciesToDtos(ds[1..], findReason)
  }

  /** `podToDto`: a field-by-field copy; the discrepancy list is dereferenced. */
  function PodToDto(e: PodEvent, findReason: Option<Uuid> -> Option<RejectionReason>)
    : (d: PodEventDto)
    requires e.discrepancies.Some?
    ensures d.id == e.id && d.sourceId == e.sourceId && d.destinationId == e.destinationId
    ensures d.sourceFreeText == e.sourceFreeText && d.destinationFreeText == e.destinationFreeText
    ensures d.receivedByUserId == e.receivedByUserId && d.receivingDate == e.receivingDate
    ensures d.receivedByUserNames == e.receivedByUserNames
    ensures d.referenceNumber == e.referenceNumber && d.packingDate == e.packingDate
    ensures d.packedBy == e.packedBy
    ensures d.cartonsQuantityOnWaybill == e.cartonsQuantityOnWaybill
    ensures d.cartonsQuantityShipped == e.cartonsQuantityShipped
    ensures d.cartonsQuantityAccepted == e.cartonsQuantityAccepted
    ensures d.cartonsQuantityRejected == e.cartonsQuantityRejected
    ensures d.containersQuantityOnWaybill == e.containersQuantityOnWaybill
    ensures d.containersQuantityShipped == e.containersQuantityShipped
    ensures d.containersQuantityAccepted == e.containersQuantityAccepted
    ensures d.containersQuantityRejected == e.containersQuantityRejected
    ensures d.remarks == e.remarks
    ensures d.context.None?
    ensures d.discrepancies == Some(DiscrepanciesToDtos(e.discrepancies.value, findReason))
  {
    PodEventDto(e.id, e.sourceId, e.sourceFreeText, e.destinationId, e.destinationFreeText,
                e.receivedByUserId, e.receivedByUserNames, e.receivingDate, e.referenceNumber,
                e.packingDate, e.packedBy, e.cartonsQuantityOnWaybill, e.cartonsQuantityShipped,
                e.cartonsQuantityAccepted, e.cartonsQuantityRejected,
                e.containersQuantityOnWaybill, e.containersQuantityShipped,
                e.containersQuantityAccepted, e.containersQuantityRejected, e.remarks,
                Some(DiscrepanciesToDtos(e.discrepancies.value, findReason)), None)
  }

  predicate AllHaveDiscrepancies(es: seq<PodEvent>)
  {
    forall i :: 0 <= i < |es| ==> es[i].discrepancies.Some?
  }

  function PodsToDtos(es: seq<PodEvent>, findReason: Option<Uuid> -> Option<RejectionReason>)
    : (r: seq<PodEventDto>)
    requires AllHaveDiscrepancies(es)
    ensures |r| == |es|
    ensures forall i :: 0 <= i < |es| ==> r[i] == PodToDto(es[i], findReason)
  {
    if es == [] then [] else [PodToDto(es[0], findReason)] + PodsToDtos(es[1..], findReason)
  }

  /**
   * `getPointOfDeliveryEventsByDestinationId` on the repository's answer:
   * a null answer becomes the empty list.
   */
  function ListingOf(found: Option<seq<PodEvent>>, findReason: Option<Uuid> -> Option<RejectionReason>)
    : (r: seq<PodEventDto>)
    requires found.Some? ==> AllHaveDiscrepancies(found.value)
    ensures found.None? ==> r == []
    ensures found.Some? ==> |r| == |found.value|
    ensures found.Some? ==> forall i :: 0 <= i < |r| ==> r[i] == PodToDto(found.value[i], findReason)
  {
    match found
    case None => []
    case Some(es) => PodsToDtos(es, findReason)
  }

  // ---------------------------------------------------------------------
  // copyAttributes

  /** Source and destination, each overwritten by a non-null incoming value. */
  function MergeParties(existing: PodEvent, incoming: PodEvent): PodEvent
  {
    existing.(
      sourceId := Overlay(existing.sourceId, incoming.sourceId),
      sourceFreeText := Overlay(existing.sourceFreeText, incoming.sourceFreeText),
      destinationId := Overlay(existing.destinationId, incoming.destinationId),
      destinationFreeText := Overlay(existing.destinationFreeText, incoming.destinationFreeText))
  }

  /** Reference number, packing date and packer, each overwritten by a non-null incoming value. */
  function MergePacking(existing: PodEvent, incoming: PodEvent): PodEvent
  {
    existing.(
      referenceNumber := Overlay(existing.referenceNumber, incoming.referenceNumber),
      packingDate := Overlay(existing.packingDate, incoming.packingDate),
      packedBy := Overlay(existing.packedBy, incoming.packedBy))
  }

  /** The four carton quantities, each overwritten by a non-null incoming value. */
  function MergeCartons(existing: PodEvent, incoming: PodEvent): PodEvent
  {
    existing.(
      cartonsQuantityOnWaybill := Overlay(existing.cartonsQuantityOnWaybill, incoming.cartonsQuantityOnWaybill),
      cartonsQuantityShipped := Overlay(existing.cartonsQuantityShipped, incoming.cartonsQuantityShipped),
      cartonsQuantityAccepted := Overlay(existing.cartonsQuantityAccepted, incoming.cartonsQuantityAccepted),
      cartonsQuantityRejected := Overlay(existing.cartonsQuantityRejected, incoming.cartonsQuantityRejected))
  }

  /** The four container quantities, each overwritten by a non-null incoming value. */
  function MergeContainers(existing: PodEvent, incoming: PodEvent): PodEvent
  {
    existing.(
      containersQuantityOnWaybill := Overlay(existing.containersQuantityOnWaybill, incoming.containersQuantityOnWaybill),
      containersQuantityShipped := Overlay(existing.containersQuantityShipped, incoming.containersQuantityShipped),
      containersQuantityAccepted := Overlay(existing.containersQuantityAccepted, incoming.containersQuantityAccepted),
      containersQuantityRejected := Overlay(existing.containersQuantityRejected, incoming.containersQuantityRejected))
  }

  /** Remarks and the discrepancy list, each overwritten by a non-null incoming value. */
  function MergeNotes(existing: PodEvent, incoming: PodEvent): PodEvent
  {
    existing.(
      remarks := Overlay(existing.remarks, incoming.remarks),
      discrepancies := Overlay(existing.discrepancies, incoming.discrepancies))
  }

  /** `copyAttributes(existing, incoming)` as a value: its setters, group by group, in order. */
  function Merge(existing: PodEvent, incoming: PodEvent): PodEvent
  {
    MergeNotes(MergeContainers(MergeCartons(MergePacking(MergeParties(existing, incoming),
      incoming), incoming), incoming), incoming)
  }

  /** The setters for source and destination. */
  method CopyParties(existing: PodEvent, incoming: PodEvent) returns (r: PodEvent)
    ensures r == MergeParties(existing, incoming)
  {
    r := existing;
    if incoming.sourceId.Some? {
      r := r.(sourceId := incoming.sourceId);
    }
    if incoming.sourceFreeText.Some? {
      r := r.(sourceFreeText := incoming.sourceFreeText);
    }
    if incoming.destinationId.Some? {
      r := r.(destinationId := incoming.destinationId);
    }
    if incoming.destinationFreeText.Some? {
      r := r.(destinationFreeText := incoming.destinationFreeText);
    }
  }

  /** The setters for reference number, packing date and packer. */
  method CopyPacking(existing: PodEvent, incoming: PodEvent) returns (r: PodEvent)
    ensures r == MergePacking(existing, incoming)
  {
    r := existing;
    if incoming.referenceNumber.Some? {
      r := r.(referenceNumber := incoming.referenceNumber);
    }
    if incoming.packingDate.Some? {
      r := r.(packingDate := incoming.packingDate);
    }
    if incoming.packedBy.Some? {
      r := r.(packedBy := incoming.packedBy);
    }
  }

  /** The setters for the four carton quantities. */
  method CopyCartons(existing: PodEvent, incoming: PodEvent) returns (r: PodEvent)
    ensures r == MergeCartons(existing, incoming)
  {
    r := existing;
    if incoming.cartonsQuantityOnWaybill.Some? {
      r := r.(cartonsQuantityOnWaybill := incoming.cartonsQuantityOnWaybill);
    }
    if incoming.cartonsQuantityShipped.Some? {
      r := r.(cartonsQuantityShipped := incoming.cartonsQuantityShipped);
    }
    if incoming.cartonsQuantityAccepted.Some? {
      r := r.(cartonsQuantityAccepted := incoming.cartonsQuantityAccepted);
    }
    if incoming.cartonsQuantityRejected.Some? {
      r := r.(cartonsQuantityRejected := incoming.cartonsQuantityRejected);
    }
  }

  /** The setters for the four container quantities. */
  method CopyContainers(existing: PodEvent, incoming: PodEvent) returns (r: PodEvent)
    ensures r == MergeContainers(existing, incoming)
  {
    r := existing;
    if incoming.containersQuantityOnWaybill.Some? {
      r := r.(containersQuantityOnWaybill := incoming.containersQuantityOnWaybill);
    }
    if incoming.containersQuantityShipped.Some? {
      r := r.(containersQuantityShipped := incoming.containersQuantityShipped);
    }
    if incoming.containersQuantityAccepted.Some? {
      r := r.(containersQuantityAccepted := incoming.containersQuantityAccepted);
    }
    if incoming.containersQuantityRejected.Some? {
      r := r.(containersQuantityRejected := incoming.containersQuantityRejected);
    }
  }

  /** The setters for remarks and the discrepancy list. */
  method CopyNotes(existing: PodEvent, incoming: PodEvent) returns (r: PodEvent)
    ensures r == MergeNotes(existing, incoming)
  {
    r := existing;
    if incoming.remarks.Some? {
      r := r.(remarks := incoming.remarks);
    }
    if incoming.discrepancies.Some? {
      r := r.(discrepancies := incoming.discrepancies);
    }
  }

  /** The chain of conditional setters of `copyAttributes`. */
  method CopyAttributes(existing: PodEvent, incoming: PodEvent) returns (r: PodEvent)
    ensures r == Merge(existing, incoming)
  {
    r := CopyParties(existing, incoming);
    r := CopyPacking(r, incoming);
    r := CopyCartons(r, incoming);
    r := CopyContainers(r, incoming);
    r := CopyNotes(r, incoming);
  }

  /** The delivery fields `copyAttributes` lists, in its order. */
  datatype Listed = Listed(
    sourceId: Option<Uuid>, sourceFreeText: Option<string>,
    destinationId: Option<Uuid>, destinationFreeText: Option<string>,
    referenceNumber: Option<string>, packingDate: Option<Date>, packedBy: Option<string>,
    cartons: seq<Option<int>>, containers: seq<Option<int>>,
    remarks: Option<string>, discrepancies: Option<seq<Discrepancy>>)

  function ListedOf(e: PodEvent): Listed
  {
    Listed(e.sourceId, e.sourceFreeText, e.destinationId, e.destinationFreeText,
           e.referenceNumber, e.packingDate, e.packedBy,
           [e.cartonsQuantityOnWaybill, e.cartonsQuantityShipped, e.cartonsQuantityAccepted,
            e.cartonsQuantityRejected],
           [e.containersQuantityOnWaybill, e.containersQuantityShipped,
            e.containersQuantityAccepted, e.containersQuantityRejected],
           e.remarks, e.discrepancies)
  }

  /**
   * Each listed field takes the incoming value exactly when that value is
   * non-null; the identity and the receipt (who received, when) never change.
   */
  lemma MergeFields(existing: PodEvent, incoming: PodEvent)
    ensures var r := ListedOf(Merge(existing, incoming));
      var e := ListedOf(existing);
      var i := ListedOf(incoming);
      && r.sourceId == Overlay(e.sourceId, i.sourceId)
      && r.sourceFreeText == Overlay(e.sourceFreeText, i.sourceFreeText)
      && r.destinationId == Overlay(e.destinationId, i.destinationId)
      && r.destinationFreeText == Overlay(e.destinationFreeText, i.destinationFreeText)
      && r.referenceNumber == Overlay(e.referenceNumber, i.referenceNumber)
      && r.packingDate == Overlay(e.packingDate, i.packingDate)
      && r.packedBy == Overlay(e.packedBy, i.packedBy)
      && (forall k :: 0 <= k < 4 ==> r.cartons[k] == Overlay(e.cartons[k], i.cartons[k]))
      && (forall k :: 0 <= k < 4 ==> r.containers[k] == Overlay(e.containers[k], i.containers[k]))
      && r.remarks == Overlay(e.remarks, i.remarks)
      && r.discrepancies == Overlay(e.discrepancies, i.discrepancies)
    ensures var r := Merge(existing, incoming);
      && r.id == existing.id
      && r.receivedByUserId == existing.receivedByUserId
      && r.receivedByUserNames == existing.receivedByUserNames
      && r.receivingDate == existing.receivingDate
  {
  }

  /** Merging the same incoming event twice is merging it once. */
  lemma MergeIdempotent(existing: PodEvent, incoming: PodEvent)
    ensures Merge(Merge(existing, incoming), incoming) == Merge(existing, incoming)
  {
  }

  /** An event with no non-null field changes nothing. */
  lemma MergeNothing(existing: PodEvent, incoming: PodEvent)
    requires ListedOf(incoming) == Listed(None, None, None, None, None, None, None,
                                          [None, None, None, None], [None, None, None, None],
                                          None, None)
    ensures Merge(existing, incoming) == existing
  {
    assert ListedOf(incoming).cartons[0] == incoming.cartonsQuantityOnWaybill;
    assert ListedOf(incoming).cartons[1] == incoming.cartonsQuantityShipped;
    assert ListedOf(incoming).cartons[2] == incoming.cartonsQuantityAccepted;
    assert ListedOf(incoming).cartons[3] == incoming.cartonsQuantityRejected;
    assert ListedOf(incoming).containers[0] == incoming.containersQuantityOnWaybill;
    assert ListedOf(incoming).containers[1] == incoming.containersQuantityShipped;
    assert ListedOf(incoming).containers[2] == incoming.containersQuantityAccepted;
    assert ListedOf(incoming).containers[3] == incoming.containersQuantityRejected;
  }

  /**
   * An update through the DTO never changes who received the delivery or
   * when, and always replaces the discrepancy list with the DTO's (an absent
   * list with the empty one).
   */
  lemma UpdateKeepsReceipt(existing: PodEvent, dto: PodEventDto, now: Date,
                           toDiscrepancy: DiscrepancyDto -> Discrepancy)
    requires dto.context.Some?
    ensures var r := Merge(existing, ToPodEvent(dto, now, toDiscrepancy).value);
      && r.receivedByUserId == existing.receivedByUserId
      && r.receivedByUserNames == existing.receivedByUserNames
      && r.receivingDate == existing.receivingDate
      && r.id == existing.id
      && r.discrepancies == Some(DiscrepanciesOf(dto, toDiscrepancy))
  {
  }

  // ---------------------------------------------------------------------
  // The service

  /** `deletePointOfDeliveryEvent` returns normally or throws ResourceNotFoundException. */
  datatype DeleteOutcome = Deleted | NotFound(id: Uuid)

  ghost predicate StoreValid(events: map<Uuid, PodEvent>)
  {
    forall id :: id in events ==> events[id].discrepancies.Some?
  }

  class PointOfDeliveryService {
    /** The point-of-delivery events repository, keyed by event id. */
    var events: map<Uuid, PodEvent>
    /** The DTO's conversion of one discrepancy. */
    const toDiscrepancy: DiscrepancyDto -> Discrepancy
    /** `rejectionReasonService.findOne`. */
    const findReason: Option<Uuid> -> Option<RejectionReason>

    ghost predicate Valid()
      reads this
    {
      StoreValid(events)
    }

    constructor (events: map<Uuid, PodEvent>, toDiscrepancy: DiscrepancyDto -> Discrepancy,
                 findReason: Option<Uuid> -> Option<RejectionReason>)
      requires StoreValid(events)
      ensures Valid()
      ensures this.events == events && this.toDiscrepancy == toDiscrepancy
      ensures this.findReason == findReason
    {
      this.events := events;
      this.toDiscrepancy := toDiscrepancy;
      this.findReason := findReason;
    }

    /** `getPointOfDeliveryEventById`: the stored event, if any. */
    method GetPointOfDeliveryEventById(id: Uuid) returns (r: Option<PodEvent>)
      ensures r.Some? <==> id in events
      ensures r.Some? ==> r.value == events[id]
    {
      r := if id in events then Some(events[id]) else None;
    }

    /**
     * `updatePointOfDeliveryEvent`: the DTO gets the built context, its event
     * is merged into the stored one and saved; an unknown id answers null and
     * saves nothing.
     */
    method UpdatePointOfDeliveryEvent(dto: PodEventDto, id: Uuid, context: PodContext, now: Date)
      returns (r: Option<PodEventDto>)
      requires Valid()
      modifies this
      ensures Valid()
      ensures id !in old(events) ==> r.None? && events == old(events)
      ensures id in old(events) ==>
        var incoming := ToPodEvent(dto.(context := Some(context)), now, toDiscrepancy).value;
        var merged := Merge(old(events)[id], incoming);
        events == old(events)[id := merged] && r == Some(PodToDto(merged, findReason))
    {
      if id !in events {
        return None;
      }
      var existing := events[id];
      var withContext := dto.(context := Some(context));
      var incoming := ToPodEvent(withContext, now, toDiscrepancy).value;
      var merged := CopyAttributes(existing, incoming);
      events := events[id := merged];
      r := Some(PodToDto(merged, findReason));
    }

    /** `deletePointOfDeliveryEvent`: removes a stored event, or reports it not found. */
    method DeletePointOfDeliveryEvent(id: Uuid) returns (r: DeleteOutcome)
      requires Valid()
      modifies this
      ensures Valid()
      ensures id in old(events) ==> r == Deleted && events == old(events) - {id}
      ensures id !in old(events) ==> r == NotFound(id) && events == old(events)
    {
      if id in events {
        events := events - {id};
        r := Deleted;
      } else {
        r := NotFound(id);
      }
    }
  }
}
