/**
 * The persisted prepacking aggregate: an event and its ordered line items.
 * These are plain data holders; every nullable column is an Option.
 */
module PrepackingEvents {
  import opened Types

  /** Lifecycle of an event: drafted, then authorized or rejected. */
  datatype EventStatus = Draft | Authorized | Rejected

  /** One requested split of a bulk product lot into prepacks. */
  datatype LineItem = LineItem(
    id: Option<Uuid>,
    prepackingEventId: Option<Uuid>,
    orderableId: Uuid,
    lotId: Uuid,
    prepackSize: int,
    numberOfPrepacks: int,
    remarks: Option<string>,
    stockOnHand: Option<int>,
    status: Option<string>)

  datatype PrepackingEvent = PrepackingEvent(
    id: Option<Uuid>,
    dateCreated: Option<Date>,
    facilityId: Option<Uuid>,
    programId: Option<Uuid>,
    comments: Option<string>,
    prepackerUserId: Option<Uuid>,
    prepackerUserNames: Option<string>,
    supervisoryNodeId: Option<Uuid>,
    status: Option<EventStatus>,
    draftStatusMessage: Option<string>,
    lineItems: Option<seq<LineItem>>)

  /** The number of units a line item moves: prepack size times number of prepacks. */
  function QuantityToPrepack(item: LineItem): int
  {
    item.prepackSize * item.numberOfPrepacks
  }

  /** Every line item's quantity fits in a Java int, so the product does not wrap. */
  predicate QuantitiesFit(items: seq<LineItem>)
  {
    forall i :: 0 <= i < |items| ==> InIntRange(QuantityToPrepack(items[i]))
  }
}
