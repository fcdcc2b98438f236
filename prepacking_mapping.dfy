/**
 * The service's conversions from the persisted aggregate back to transfer
 * objects, and what the listing queries return.
 */
module PrepackingMapping {
  import opened Types
  import opened PrepackingEvents
  import opened PrepackingDto

  /** `prepackingEventLineItemDto`: field-by-field copy. */
  function LineItemToDto(item: LineItem): LineItemDto
  {
    LineItemDto(item.id, item.prepackingEventId, item.orderableId, item.lotId,
                item.prepackSize, item.numberOfPrepacks, item.remarks,
                item.stockOnHand, item.status)
  }

  /** `prepackingEventLineItemsToDtos`: one DTO per line item, in order. */
  function LineItemsToDtos(items: seq<LineItem>): (r: seq<LineItemDto>)
    ensures |r| == |items|
    ensures forall i :: 0 <= i < |items| ==> r[i] == LineItemToDto(items[i])
  {
    if items == [] then [] else [LineItemToDto(items[0])] + LineItemsToDtos(items[1..])
  }

  /**
   * `prepackingToDto(PrepackingEvent)`. The line-item list is dereferenced,
   * so it must be present; the builder never sets the draft message or the
   * event-level remarks.
   */
  function ToDto(e: PrepackingEvent): (d: PrepackingEventDto)
    requires e.lineItems.Some?
    ensures d.id == e.id && d.dateCreated == e.dateCreated
    ensures d.facilityId == e.facilityId && d.programId == e.programId
    ensures d.comments == e.comments && d.status == e.status
    ensures d.prepackerUserId == e.prepackerUserId
    ensures d.prepackerUserNames == e.prepackerUserNames
    ensures d.draftStatusMessage.None? && d.remarks.None?
    ensures d.lineItems.Some? && |d.lineItems.value| == |e.lineItems.value|
  {
    PrepackingEventDto(e.id, e.dateCreated, e.facilityId, e.programId, e.comments,
                       e.prepackerUserId, e.prepackerUserNames, e.status, None, None,
                       Some(LineItemsToDtos(e.lineItems.value)))
  }

  predicate AllHaveLineItems(es: seq<PrepackingEvent>)
  {
    forall i :: 0 <= i < |es| ==> es[i].lineItems.Some?
  }

  /** `prepackingToDto(Collection)`: one DTO per event, in order. */
  function ToDtos(es: seq<PrepackingEvent>): (r: seq<PrepackingEventDto>)
    requires AllHaveLineItems(es)
    ensures |r| == |es|
    ensures forall i :: 0 <= i < |es| ==> r[i] == ToDto(es[i])
  {
    if es == [] then [] else [ToDto(es[0])] + ToDtos(es[1..])
  }

  /**
   * The three `getPrepackingEventsBy*` listings: whatever the repository
   * query answers, a null answer becomes the empty list.
   */
  function ListingOf(found: Option<seq<PrepackingEvent>>): (r: seq<PrepackingEventDto>)
    requires found.Some? ==> AllHaveLineItems(found.value)
    ensures found.None? ==> r == []
    ensures found.Some? ==> |r| == |found.value|
    ensures found.Some? ==> forall i :: 0 <= i < |r| ==> r[i] == ToDto(found.value[i])
  {
    match found
    case None => []
    case Some(es) => ToDtos(es)
  }

  /**
   * Converting persisted line items to DTOs and back through the DTO's
   * `lineItems()` gives back the same line items.
   */
  lemma {:induction false} LineItemsRoundTrip(items: seq<LineItem>)
    ensures ToLineItems(LineItemsToDtos(items)) == items
  {
    if items != [] {
      LineItemsRoundTrip(items[1..]);
      assert LineItemsToDtos(items)[1..] == LineItemsToDtos(items[1..]);
    }
  }

  /** The whole event's line items survive `toPrepackingEvent(prepackingToDto(e))`. */
  lemma EventRoundTripKeepsLineItems(e: PrepackingEvent, now: Date)
    requires e.lineItems.Some?
    ensures ToPrepackingEvent(ToDto(e), now).lineItems == e.lineItems
    ensures ToPrepackingEvent(ToDto(e), now).facilityId == e.facilityId
    ensures ToPrepackingEvent(ToDto(e), now).programId == e.programId
    ensures ToPrepackingEvent(ToDto(e), now).status == e.status
  {
    LineItemsRoundTrip(e.lineItems.value);
  }
}
