/**
 * The two status entities recorded against a prepacking event: a status
 * change (who moved the event to which status) and the status message that
 * goes with it. Both copy the event's status when they are made, refuse an
 * event without one, and export their fields into a caller's exporter.
 */
module StatusEntities {
  import opened Types
  import opened PrepackingEvents

  /** A rejection recorded against a status change (its fields are not part of this model). */
  datatype Rejection = Rejection(id: Option<Uuid>)

  class StatusChange {
    var id: Option<Uuid>
    var createdDate: Option<Date>
    var prepackingEvent: PrepackingEvent
    var statusMessage: StatusMessage?
    var authorId: Option<Uuid>
    var supervisoryNodeId: Option<Uuid>
    var status: EventStatus
    var rejections: seq<Rejection>

    /** The private constructor: the event must carry a status. */
    constructor (prepackingEvent: PrepackingEvent, authorId: Option<Uuid>)
      requires prepackingEvent.status.Some?
      ensures this.prepackingEvent == prepackingEvent && this.authorId == authorId
      ensures supervisoryNodeId == prepackingEvent.supervisoryNodeId
      ensures status == prepackingEvent.status.value
      ensures rejections == [] && statusMessage == null
      ensures id.None? && createdDate.None?
    {
      id := None;
      createdDate := None;
      this.prepackingEvent := prepackingEvent;
      statusMessage := null;
      this.authorId := authorId;
      supervisoryNodeId := prepackingEvent.supervisoryNodeId;
      status := prepackingEvent.status.value;
      rejections := [];
    }

    /** `export`: hands the exporter the stored status, author, message and rejections. */
    method Export(exporter: StatusChangeExporter)
      modifies exporter
      ensures exporter.createdDate == createdDate && exporter.status == Some(status)
      ensures exporter.statusMessage == statusMessage && exporter.authorId == authorId
      ensures exporter.rejections == rejections
    {
      exporter.createdDate := createdDate;
      exporter.status := Some(status);
      exporter.statusMessage := statusMessage;
      exporter.authorId := authorId;
      exporter.rejections := rejections;
    }
  }

  /**
   * `newStatusChange`: a null event, or an event without a status, makes
   * `requireNonNull` throw; that is the `None` answer.
   */
  method NewStatusChange(prepackingEvent: Option<PrepackingEvent>, authorId: Option<Uuid>)
    returns (r: Option<StatusChange>)
    ensures r.None? <==> prepackingEvent.None? || prepackingEvent.value.status.None?
    ensures r.Some? ==>
      && fresh(r.value)
      && r.value.prepackingEvent == prepackingEvent.value
      && r.value.status == prepackingEvent.value.status.value
      && r.value.supervisoryNodeId == prepackingEvent.value.supervisoryNodeId
      && r.value.authorId == authorId
      && r.value.rejections == []
  {
    if prepackingEvent.None? || prepackingEvent.value.status.None? {
      return None;
    }
    var c := new StatusChange(prepackingEvent.value, authorId);
    r := Some(c);
  }

  /** The status-change DTO that `export` fills in. */
  class StatusChangeExporter {
    var createdDate: Option<Date>
    var status: Option<EventStatus>
    var statusMessage: StatusMessage?
    var authorId: Option<Uuid>
    var rejections: seq<Rejection>

    constructor ()
      ensures createdDate.None? && status.None? && statusMessage == null
      ensures authorId.None? && rejections == []
    {
      createdDate, status, statusMessage, authorId, rejections := None, None, null, None, [];
    }
  }

  class StatusMessage {
    var id: Option<Uuid>
    var createdDate: Option<Date>
    var prepackingEvent: PrepackingEvent
    var statusChange: StatusChange
    var authorId: Option<Uuid>
    var authorFirstName: Option<string>
    var authorLastName: Option<string>
    var status: EventStatus
    var body: string

    /**
     * The private constructor: the event must carry a status; the author
     * fields are stored as given, null or not.
     */
    constructor (prepackingEvent: PrepackingEvent, statusChange: StatusChange,
                 authorId: Option<Uuid>, authorFirstName: Option<string>,
                 authorLastName: Option<string>, body: string)
      requires prepackingEvent.status.Some?
      ensures this.prepackingEvent == prepackingEvent && this.statusChange == statusChange
      ensures this.authorId == authorId && this.authorFirstName == authorFirstName
      ensures this.authorLastName == authorLastName && this.body == body
      ensures status == prepackingEvent.status.value
      ensures id.None? && createdDate.None?
    {
      id := None;
      createdDate := None;
      this.prepackingEvent := prepackingEvent;
      this.statusChange := statusChange;
      this.authorId := authorId;
      this.authorFirstName := authorFirstName;
      this.authorLastName := authorLastName;
      status := prepackingEvent.status.value;
      this.body := body;
    }

    /**
     * `export`: the stored fields, plus the ids of the event and of the
     * status change it refers to.
     */
    method Export(exporter: StatusMessageExporter)
      modifies exporter
      ensures exporter.id == id && exporter.authorId == authorId
      ensures exporter.authorFirstName == authorFirstName
      ensures exporter.authorLastName == authorLastName
      ensures exporter.prepackingEventId == prepackingEvent.id
      ensures exporter.statusChangeId == statusChange.id
      ensures exporter.status == Some(status) && exporter.body == Some(body)
      ensures exporter.createdDate == createdDate
    {
      exporter.id := id;
      exporter.authorId := authorId;
      exporter.authorFirstName := authorFirstName;
      exporter.authorLastName := authorLastName;
      exporter.prepackingEventId := prepackingEvent.id;
      exporter.statusChangeId := statusChange.id;
      exporter.status := Some(status);
      exporter.body := Some(body);
      exporter.createdDate := createdDate;
    }
  }

  /**
   * `newStatusMessage`: the constructor, with each `requireNonNull` that
   * throws (null event, null status change, event without status, null
   * body) answered by `None`.
   */
  method NewStatusMessage(prepackingEvent: Option<PrepackingEvent>, statusChange: StatusChange?,
                          authorId: Option<Uuid>, authorFirstName: Option<string>,
                          authorLastName: Option<string>, body: Option<string>)
    returns (r: Option<StatusMessage>)
    ensures r.None? <==>
      prepackingEvent.None? || statusChange == null || prepackingEvent.value.status.None? ||
      body.None?
    ensures r.Some? ==>
      && fresh(r.value)
      && r.value.prepackingEvent == prepackingEvent.value
      && r.value.statusChange == statusChange
      && r.value.status == prepackingEvent.value.status.value
      && r.value.authorId == authorId
      && r.value.authorFirstName == authorFirstName
      && r.value.authorLastName == authorLastName
      && r.value.body == body.value
  {
    if prepackingEvent.None? || statusChange == null || prepackingEvent.value.status.None? ||
       body.None? {
      return None;
    }
    var m := new StatusMessage(prepackingEvent.value, statusChange, authorId, authorFirstName,
                               authorLastName, body.value);
    r := Some(m);
  }

  /** The status-message DTO that `export` fills in. */
  class StatusMessageExporter {
    var id: Option<Uuid>
    var authorId: Option<Uuid>
    var authorFirstName: Option<string>
    var authorLastName: Option<string>
    var prepackingEventId: Option<Uuid>
    var statusChangeId: Option<Uuid>
    var status: Option<EventStatus>
    var body: Option<string>
    var createdDate: Option<Date>

    constructor ()
      ensures id.None? && authorId.None? && authorFirstName.None? && authorLastName.None?
      ensures prepackingEventId.None? && statusChangeId.None? && status.None?
      ensures body.None? && createdDate.None?
    {
      id, authorId, authorFirstName, authorLastName := None, None, None, None;
      prepackingEventId, statusChangeId, status, body, createdDate := None, None, None, None, None;
    }
  }
}
