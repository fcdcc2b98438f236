/**
 * The process context built before a prepacking event is processed: the
 * acting user's id and display names and the event's facility, each held as
 * a deferred value that is only fetched when read.
 */
module ContextBuilder {
  import opened Types
  import opened PrepackingDto

  /** The authenticated user as the authentication helper returns it. */
  datatype User = User(id: Option<Uuid>, firstName: Option<string>, lastName: Option<string>)

  datatype Facility = Facility(id: Uuid, name: Option<string>)

  /** What a read of a deferred value may consult: the session user and the facility service. */
  datatype Session = Session(currentUser: User, findFacility: Option<Uuid> -> Option<Facility>)

  /** The supplier of the user id: a value captured from the DTO, or the session user. */
  datatype UserIdSupplier = DtoUserId(id: Option<Uuid>) | SessionUserId

  /** The supplier of the user names. */
  datatype UserNamesSupplier = DtoUserNames(names: Option<string>) | SessionUserNames

  /** The facility supplier: a reference-data lookup of one facility id. */
  datatype FacilitySupplier = FacilityLookup(facilityId: Option<Uuid>)

  datatype ProcessContext = ProcessContext(
    currentUserId: UserIdSupplier,
    currentUserNames: UserNamesSupplier,
    facility: FacilitySupplier)

  /**
   * `buildContext(dto)`. It takes no session: building calls no supplier, so
   * no user or facility is fetched here.
   */
  function BuildContext(dto: PrepackingEventDto, clientOnly: bool): (c: ProcessContext)
    ensures c.facility.facilityId == dto.facilityId
    ensures c.currentUserId.DtoUserId? <==> clientOnly
    ensures c.currentUserNames.DtoUserNames? <==> clientOnly
    ensures clientOnly ==>
      c.currentUserId.id == dto.prepackerUserId && c.currentUserNames.names == dto.prepackerUserNames
  {
    if clientOnly then
      ProcessContext(DtoUserId(dto.prepackerUserId), DtoUserNames(dto.prepackerUserNames),
                     FacilityLookup(dto.facilityId))
    else
      ProcessContext(SessionUserId, SessionUserNames, FacilityLookup(dto.facilityId))
  }

  /** The display names of a user: first name, a comma and a space, last name. */
  function DisplayNames(u: User): (s: string)
    ensures |s| == |JavaString(u.firstName)| + 2 + |JavaString(u.lastName)|
  {
    JavaString(u.firstName) + ", " + JavaString(u.lastName)
  }

  /** Reading the user id out of the context. */
  function UserId(c: ProcessContext, session: Session): Option<Uuid>
  {
    match c.currentUserId
    case DtoUserId(id) => id
    case SessionUserId => session.currentUser.id
  }

  function UserNames(c: ProcessContext, session: Session): Option<string>
  {
    match c.currentUserNames
    case DtoUserNames(names) => names
    case SessionUserNames => Some(DisplayNames(session.currentUser))
  }

  function FacilityOf(c: ProcessContext, session: Session): Option<Facility>
  {
    session.findFacility(c.facility.facilityId)
  }

  /**
   * A client-only caller asserts the prepacker: whatever session the values
   * are read in, they are the DTO's prepacker fields.
   */
  lemma ClientOnlyTakesDtoUser(dto: PrepackingEventDto, session: Session)
    ensures UserId(BuildContext(dto, true), session) == dto.prepackerUserId
    ensures UserNames(BuildContext(dto, true), session) == dto.prepackerUserNames
  {
  }

  /**
   * Otherwise the user is the authenticated one, whatever the DTO says, and
   * the names read "first, last".
   */
  lemma SessionUserOtherwise(dto: PrepackingEventDto, session: Session)
    ensures UserId(BuildContext(dto, false), session) == session.currentUser.id
    ensures UserNames(BuildContext(dto, false), session) ==
      Some(JavaString(session.currentUser.firstName) + ", " +
           JavaString(session.currentUser.lastName))
  {
  }

  /** The facility is the one the DTO names, in both modes. */
  lemma FacilityFromDto(dto: PrepackingEventDto, clientOnly: bool, session: Session)
    ensures FacilityOf(BuildContext(dto, clientOnly), session) ==
      session.findFacility(dto.facilityId)
  {
  }

  /**
   * The context depends on the DTO only through its prepacker fields and its
   * facility id, and on nothing else: no lookup result enters it.
   */
  lemma ContextReadsOnly(a: PrepackingEventDto, b: PrepackingEventDto, clientOnly: bool)
    requires a.facilityId == b.facilityId
    requires clientOnly ==>
      a.prepackerUserId == b.prepackerUserId && a.prepackerUserNames == b.prepackerUserNames
    ensures BuildContext(a, clientOnly) == BuildContext(b, clientOnly)
  {
  }

  /** The display names never lose the separator, even when a name is null. */
  lemma DisplayNamesSeparated(u: User)
    ensures var s := DisplayNames(u);
      var n := |JavaString(u.firstName)|;
      s[..n] == JavaString(u.firstName) && s[n..n + 2] == ", " &&
      s[n + 2..] == JavaString(u.lastName)
  {
  }
}
