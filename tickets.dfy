/** Tickets, the requests the ticket handlers read and the responses they write. */
module Tickets {
  import opened Wrappers

  /** A UUID in its canonical text form (section 3 of RFC 4122), as Go's
      `uuid.UUID.String()` prints it. */
  type Uuid = string

  /** The nil UUID (section 4.1.7 of RFC 4122), Go's `uuid.Nil`. */
  const NilUuid: Uuid := "00000000-0000-0000-0000-000000000000"

  /** `uuid.Parse`, a collaborator: the canonical UUID a string denotes, if any. */
  type UuidParser = string -> Option<Uuid>

  /** Canonical UUID text: 36 characters, hyphens at positions 8, 13, 18 and 23,
      lower-case hexadecimal digits everywhere else. The JSON decoder of a ticket
      only ever yields UUIDs of this form. */
  predicate IsCanonicalUuid(u: string) {
    |u| == 36 &&
    forall i :: 0 <= i < 36 ==>
      if i == 8 || i == 13 || i == 18 || i == 23 then u[i] == '-' else u[i] in "0123456789abcdef"
  }

  /** The parser reads every canonical UUID as itself, as `uuid.Parse` does. */
  ghost predicate AcceptsCanonical(parse: UuidParser) {
    forall u :: IsCanonicalUuid(u) ==> parse(u) == Some(u)
  }

  /** A ticket (Go's db.Tickets), reduced to the columns the handlers read or write. */
  datatype Ticket = Ticket(
    uuid: Uuid,
    featureUuid: string,
    phaseUuid: string,
    name: string,
    description: string,
    status: string)

  /** What the store's GetFeatureByUuid answers; an empty `uuid` means not found. */
  datatype Feature = Feature(uuid: string, workspaceUuid: string)

  /** The review callback's payload (Go's utils.TicketReviewRequest). */
  datatype ReviewRequest = ReviewRequest(ticketUuid: string, ticketDescription: string)

  /** A request body: it could not be read, it is not valid JSON for `T`, or it decoded. */
  datatype RequestBody<T> = Unreadable(readError: string) | Malformed(parseError: string) | Decoded(value: T)

  const StatusOK: int := 200
  const StatusBadRequest: int := 400
  const StatusUnauthorized: int := 401
  const StatusNotFound: int := 404
  const StatusInternalServerError: int := 500

  /** The text of the store's error for a missing ticket. */
  const TicketNotFound: string := "ticket not found"

  /** The text of the store's error for a ticket without its required fields. */
  const RequiredFieldsMissing: string := "feature_uuid, phase_uuid, and name are required"

  /** Go's TicketResponse; an empty `ticketId` or `errors` is omitted from the JSON. */
  datatype TicketResponse = TicketResponse(success: bool, ticketId: string, message: string, errors: seq<string>)

  /** The JSON a handler writes, if any. */
  datatype Body =
    | NoBody
    | ErrorJson(error: string)          // {"error": ...}
    | MessageJson(message: string)      // {"message": ...}
    | TicketJson(ticket: Ticket)
    | TicketListJson(tickets: seq<Ticket>)
    | Structured(reply: TicketResponse)

  datatype Response = Response(status: int, body: Body)

  function ErrorResponse(status: int, error: string): Response {
    Response(status, ErrorJson(error))
  }

  /** The store methods a handler calls, with their arguments. */
  datatype StoreCall =
    | GetTicketCall(key: string)
    | DeleteTicketCall(key: string)
    | CreateOrEditTicketCall(ticket: Ticket)
    | UpdateTicketCall(ticket: Ticket)
    | GetFeatureCall(featureUuid: string)
    | GetFeaturePhaseCall(featureUuid: string, phaseUuid: string)
    | GetTicketsByPhaseCall(featureUuid: string, phaseUuid: string)
    | GetProductBriefCall(workspaceUuid: string)
    | GetFeatureBriefCall(featureUuid: string)

  /** A handler's response and the store calls it made, in order. */
  datatype Handled = Handled(response: Response, calls: seq<StoreCall>)
}
