/**
 * The transfer object of a prepacking event and its conversion to the
 * persisted aggregate.
 */
module PrepackingDto {
  import opened Types
  import opened PrepackingEvents

  datatype LineItemDto = LineItemDto(
    id: Option<Uuid>,
    prepackingEventId: Option<Uuid>,
    orderableId: Uuid,
    lotId: Uuid,
    prepackSize: int,
    numberOfPrepacks: int,
    remarks: Option<string>,
    stockOnHand: Option<int>,
    status: Option<string>)

  datatype PrepackingEventDto = PrepackingEventDto(
    id: Option<Uuid>,
    dateCreated: Option<Date>,
    facilityId: Option<Uuid>,
    programId: Option<Uuid>,
    comments: Option<string>,
    prepackerUserId: Option<Uuid>,
    prepackerUserNames: Option<string>,
    status: Option<EventStatus>,
    draftStatusMessage: Option<string>,
    remarks: Option<string>,
    lineItems: Option<seq<LineItemDto>>)

  /** A line item DTO becomes the line item with the same fields. */
  function ToLineItem(d: LineItemDto): LineItem
  {
    LineItem(d.id, d.prepackingEventId, d.orderableId, d.lotId, d.prepackSize,
             d.numberOfPrepacks, d.remarks, d.stockOnHand, d.status)
  }

  /** Element-wise conversion, keeping length and order. */
  function ToLineItems(ds: seq<LineItemDto>): (r: seq<LineItem>)
    ensures |r| == |ds|
    ensures forall i :: 0 <= i < |ds| ==> r[i] == ToLineItem(ds[i])
  {
    if ds == [] then [] else [ToLineItem(ds[0])] + ToLineItems(ds[1..])
  }

  /** `lineItems()`: an absent list converts to the empty list. */
  function LineItemsOf(dto: PrepackingEventDto): (r: seq<LineItem>)
    ensures dto.lineItems.None? ==> r == []
    ensures dto.lineItems.Some? ==>
      |r| == |dto.lineItems.value| &&
      forall i :: 0 <= i < |r| ==> r[i] == ToLineItem(dto.lineItems.value[i])
  {
    match dto.lineItems
    case None => []
    case Some(ds) => ToLineItems(ds)
  }

  /** The loop of `lineItems()`: converts each DTO in turn and appends it. */
  method LineItems(dto: PrepackingEventDto) returns (r: seq<LineItem>)
    ensures r == LineItemsOf(dto)
  {
    if dto.lineItems.None? {
      return [];
    }
    var ds := dto.lineItems.value;
    r := [];
    var i := 0;
    while i < |ds|
      invariant 0 <= i <= |ds|
      invariant |r| == i
      invariant forall k :: 0 <= k < i ==> r[k] == ToLineItem(ds[k])
    {
      r := r + [ToLineItem(ds[i])];
      i := i + 1;
    }
  }

  /**
   * `toPrepackingEvent()`: stamps the creation date with `now` and carries
   * facility, program, comments, status, draft message and line items. The
   * persisted constructor takes no prepacker fields, so they stay null.
   */
  function ToPrepackingEvent(dto: PrepackingEventDto, now: Date): (e: PrepackingEvent)
    ensures e.dateCreated == Some(now)
    ensures e.facilityId == dto.facilityId && e.programId == dto.programId
    ensures e.comments == dto.comments && e.status == dto.status
    ensures e.draftStatusMessage == dto.draftStatusMessage
    ensures e.lineItems == Some(LineItemsOf(dto))
    ensures e.id.None? && e.supervisoryNodeId.None?
    ensures e.prepackerUserId.None? && e.prepackerUserNames.None?
  {
    PrepackingEvent(None, Some(now), dto.facilityId, dto.programId, dto.comments,
                    None, None, None, dto.status, dto.draftStatusMessage,
                    Some(LineItemsOf(dto)))
  }
}
