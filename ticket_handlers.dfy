/** The ticket CRUD handlers and the review callback of handlers/ticket.go.
    Each handler is a chain of guards ending in a status code. Authentication is
    reduced to the caller's pubkey ("" when absent), the store's answers are
    inputs, and every store call a handler makes is recorded. */
module TicketHandlers {
  import opened Wrappers
  import opened Tickets

  /** GetTicket: an empty uuid is refused before the store is asked; the store's
      "ticket not found" error is a 404 and any other error a 500. */
  function GetTicket(key: string, lookup: Result<Ticket, string>): (h: Handled)
    ensures h.calls == [] <==> key == ""
    ensures h.calls != [] ==> h.calls == [GetTicketCall(key)]
    ensures h.response.status == StatusBadRequest <==> key == ""
    ensures h.response.status == StatusNotFound <==> key != "" && lookup == Err(TicketNotFound)
    ensures h.response.status == StatusInternalServerError <==>
              key != "" && lookup.Err? && lookup.error != TicketNotFound
    ensures h.response.status == StatusOK <==> key != "" && lookup.Ok?
    ensures h.response.status == StatusOK ==> h.response.body == TicketJson(lookup.value)
  {
    if key == "" then
      Handled(ErrorResponse(StatusBadRequest, "UUID is required"), [])
    else
      var calls := [GetTicketCall(key)];
      match lookup
      case Err(e) =>
        if e == TicketNotFound then Handled(ErrorResponse(StatusNotFound, "Ticket not found"), calls)
        else Handled(ErrorResponse(StatusInternalServerError, "Failed to get ticket: " + e), calls)
      case Ok(t) => Handled(Response(StatusOK, TicketJson(t)), calls)
  }

  /** DeleteTicket: GetTicket's chain behind a pubkey check; `deletion` is the
      store's error, if it fails. */
  function DeleteTicket(pubkey: string, key: string, deletion: Option<string>): (h: Handled)
    ensures h.calls == [] <==> pubkey == "" || key == ""
    ensures h.calls != [] ==> h.calls == [DeleteTicketCall(key)]
    ensures h.response.status == StatusUnauthorized <==> pubkey == ""
    ensures h.response.status == StatusBadRequest <==> pubkey != "" && key == ""
    ensures h.response.status == StatusNotFound <==> pubkey != "" && key != "" && deletion == Some(TicketNotFound)
    ensures h.response.status == StatusInternalServerError <==>
              pubkey != "" && key != "" && deletion.Some? && deletion.value != TicketNotFound
    ensures h.response.status == StatusOK <==> pubkey != "" && key != "" && deletion.None?
    ensures h.response.status == StatusOK ==> h.response.body == MessageJson("Ticket deleted successfully")
  {
    if pubkey == "" then
      Handled(ErrorResponse(StatusUnauthorized, "Unauthorized"), [])
    else if key == "" then
      Handled(ErrorResponse(StatusBadRequest, "UUID is required"), [])
    else
      var calls := [DeleteTicketCall(key)];
      match deletion
      case Some(e) =>
        if e == TicketNotFound then Handled(ErrorResponse(StatusNotFound, "Ticket not found"), calls)
        else Handled(ErrorResponse(StatusInternalServerError, "Failed to delete ticket: " + e), calls)
      case None => Handled(Response(StatusOK, MessageJson("Ticket deleted successfully")), calls)
  }

  /** With a caller present, DeleteTicket answers with the status GetTicket gives
      for the same key and the same store error. */
  lemma DeleteAnswersLikeGet(pubkey: string, key: string, deletion: Option<string>, found: Ticket)
    requires pubkey != ""
    ensures DeleteTicket(pubkey, key, deletion).response.status
         == GetTicket(key, if deletion.Some? then Err(deletion.value) else Ok(found)).response.status
  {
  }

  /** GetTicketsByPhaseUUID: pubkey, then both UUIDs' format, then the feature,
      the phase and the listing, each failure with its own status. */
  function GetTicketsByPhaseUUID(
    pubkey: string, featureUuid: string, phaseUuid: string, parse: UuidParser,
    feature: Feature, phaseLookup: Option<string>, listing: Result<seq<Ticket>, string>): (h: Handled)
    ensures h.calls != [] <==> pubkey != "" && parse(featureUuid).Some? && parse(phaseUuid).Some?
    ensures h.response.status == StatusUnauthorized <==> pubkey == ""
    ensures h.response.status == StatusUnauthorized ==> h.response.body == NoBody
    ensures h.response.status == StatusBadRequest <==>
              pubkey != "" && (parse(featureUuid).None? || parse(phaseUuid).None?)
    ensures h.response.status == StatusNotFound <==>
              h.calls != [] && (feature.uuid == "" || phaseLookup.Some?)
    ensures h.response.status == StatusInternalServerError <==>
              h.calls != [] && feature.uuid != "" && phaseLookup.None? && listing.Err?
    ensures h.response.status == StatusOK <==>
              h.calls != [] && feature.uuid != "" && phaseLookup.None? && listing.Ok?
    ensures h.response.status == StatusOK ==>
              h.response.body == TicketListJson(listing.value) &&
              h.calls == [GetFeatureCall(featureUuid), GetFeaturePhaseCall(featureUuid, phaseUuid),
                          GetTicketsByPhaseCall(featureUuid, phaseUuid)]
  {
    if pubkey == "" then
      Handled(Response(StatusUnauthorized, NoBody), [])
    else if parse(featureUuid).None? then
      Handled(ErrorResponse(StatusBadRequest, "invalid feature UUID format"), [])
    else if parse(phaseUuid).None? then
      Handled(ErrorResponse(StatusBadRequest, "invalid phase UUID format"), [])
    else if feature.uuid == "" then
      Handled(ErrorResponse(StatusNotFound, "feature not found"), [GetFeatureCall(featureUuid)])
    else
      var calls := [GetFeatureCall(featureUuid), GetFeaturePhaseCall(featureUuid, phaseUuid)];
      if phaseLookup.Some? then
        Handled(ErrorResponse(StatusNotFound, "Phase not found"), calls)
      else
        var calls := calls + [GetTicketsByPhaseCall(featureUuid, phaseUuid)];
        match listing
        case Err(e) => Handled(ErrorResponse(StatusInternalServerError, e), calls)
        case Ok(ts) => Handled(Response(StatusOK, TicketListJson(ts)), calls)
  }

  /** The guards UpdateTicket passes before it writes: a caller, a parseable URL
      uuid, a decoded body, and a status that is empty or in the allow-list. */
  predicate UpdateAdmissible(pubkey: string, key: string, parse: UuidParser, body: RequestBody<Ticket>, allowed: set<string>) {
    pubkey != "" && key != "" && parse(key).Some? && body.Decoded? &&
    (body.value.status == "" || body.value.status in allowed)
  }

  /** The guard chain of UpdateTicket: the ticket to persist, whose uuid is the
      URL's, or the response of the first guard that fails. */
  function AdmitUpdate(pubkey: string, key: string, parse: UuidParser, body: RequestBody<Ticket>, allowed: set<string>)
    : (r: Result<Ticket, Response>)
    ensures r.Ok? <==> UpdateAdmissible(pubkey, key, parse, body, allowed)
    ensures r.Ok? ==> r.value == body.value.(uuid := parse(key).value)
    ensures pubkey == "" ==> r == Err(ErrorResponse(StatusUnauthorized, "Unauthorized"))
    ensures pubkey != "" && key == "" ==> r == Err(ErrorResponse(StatusBadRequest, "UUID is required"))
    ensures pubkey != "" && key != "" && parse(key).None? ==>
              r == Err(ErrorResponse(StatusBadRequest, "Invalid UUID format"))
    ensures pubkey != "" && key != "" && parse(key).Some? && body.Unreadable? ==>
              r == Err(ErrorResponse(StatusBadRequest, "Error reading request body"))
    ensures pubkey != "" && key != "" && parse(key).Some? && body.Malformed? ==>
              r == Err(ErrorResponse(StatusBadRequest, "Error parsing request body"))
    ensures pubkey != "" && key != "" && parse(key).Some? && body.Decoded? &&
            body.value.status != "" && body.value.status !in allowed ==>
              r == Err(ErrorResponse(StatusBadRequest, "Invalid ticket status"))
  {
    if pubkey == "" then Err(ErrorResponse(StatusUnauthorized, "Unauthorized"))
    else if key == "" then Err(ErrorResponse(StatusBadRequest, "UUID is required"))
    else
      match parse(key)
      case None => Err(ErrorResponse(StatusBadRequest, "Invalid UUID format"))
      case Some(u) =>
        match body
        case Unreadable(_) => Err(ErrorResponse(StatusBadRequest, "Error reading request body"))
        case Malformed(_) => Err(ErrorResponse(StatusBadRequest, "Error parsing request body"))
        case Decoded(t) =>
          var ticket := t.(uuid := u);
          if ticket.status != "" && ticket.status !in allowed then
            Err(ErrorResponse(StatusBadRequest, "Invalid ticket status"))
          else Ok(ticket)
  }

  /** An empty status is never checked against the allow-list. */
  lemma EmptyStatusSkipsAllowList(pubkey: string, key: string, parse: UuidParser, t: Ticket, allowed: set<string>)
    requires t.status == ""
    ensures AdmitUpdate(pubkey, key, parse, Decoded(t), allowed) == AdmitUpdate(pubkey, key, parse, Decoded(t), {})
  {
  }

  /** The guards ProcessTicketReview passes before it looks the ticket up. */
  function AdmitReview(body: RequestBody<ReviewRequest>, validate: ReviewRequest -> Option<string>)
    : (r: Result<ReviewRequest, Response>)
    ensures r.Ok? <==> body.Decoded? && validate(body.value).None?
    ensures r.Ok? ==> r.value == body.value
    ensures r.Err? ==> r.error.status == StatusBadRequest
    ensures body.Decoded? && validate(body.value).Some? ==>
              r == Err(ErrorResponse(StatusBadRequest, validate(body.value).value))
  {
    match body
    case Unreadable(_) => Err(ErrorResponse(StatusBadRequest, "Error reading request body"))
    case Malformed(_) => Err(ErrorResponse(StatusBadRequest, "Error parsing request body"))
    case Decoded(req) =>
      match validate(req)
      case Some(e) => Err(ErrorResponse(StatusBadRequest, e))
      case None => Ok(req)
  }

  /** The ticket a review writes back: the stored one with the reviewed description. */
  function Reviewed(t: Ticket, req: ReviewRequest): Ticket {
    t.(description := req.ticketDescription)
  }

  /** Applying a review to the ticket table; other rows are untouched. */
  function ReviewTable(m: map<Uuid, Ticket>, req: ReviewRequest): (m': map<Uuid, Ticket>)
    ensures m'.Keys == m.Keys
    ensures forall u :: u in m && u != req.ticketUuid ==> m'[u] == m[u]
    ensures req.ticketUuid in m ==> m'[req.ticketUuid] == Reviewed(m[req.ticketUuid], req)
  {
    if req.ticketUuid in m then m[req.ticketUuid := Reviewed(m[req.ticketUuid], req)] else m
  }

  /** Replaying a callback writes the same table: reviews are idempotent. */
  lemma ReviewReplayIdempotent(m: map<Uuid, Ticket>, req: ReviewRequest)
    ensures ReviewTable(ReviewTable(m, req), req) == ReviewTable(m, req)
  {
  }

  /** Two reviews of the same ticket: the last one wins and only the description moves. */
  lemma LastReviewWins(t: Ticket, first: ReviewRequest, second: ReviewRequest)
    ensures Reviewed(Reviewed(t, first), second) == Reviewed(t, second)
    ensures Reviewed(t, second).(description := t.description) == t
  {
  }

  /** The ticket table, keyed by each ticket's own uuid. */
  class TicketStore {
    var tickets: map<Uuid, Ticket>

    ghost predicate Valid()
      reads this
    {
      forall u :: u in tickets ==> tickets[u].uuid == u
    }

    constructor ()
      ensures Valid() && tickets == map[]
    {
      tickets := map[];
    }

    /** The store's GetTicket: `fault` is a storage failure, if any. */
    function Lookup(key: string, fault: Option<string>): (r: Result<Ticket, string>)
      reads this
      ensures r.Ok? <==> fault.None? && key in tickets
      ensures r.Ok? ==> r.value == tickets[key]
    {
      if fault.Some? then Err(fault.value)
      else if key in tickets then Ok(tickets[key])
      else Err(TicketNotFound)
    }

    /** UpdateTicket: the guard chain, then CreateOrEditTicket with the body's ticket
        under the URL's uuid. `refusal` is the store's error, if it fails: its
        required-fields error is a 400, any other a 500. */
    method UpdateTicket(pubkey: string, key: string, parse: UuidParser, body: RequestBody<Ticket>,
                        allowed: set<string>, refusal: Option<string>) returns (h: Handled)
      requires Valid()
      modifies this
      ensures Valid()
      ensures !UpdateAdmissible(pubkey, key, parse, body, allowed) ==>
                h == Handled(AdmitUpdate(pubkey, key, parse, body, allowed).error, []) &&
                tickets == old(tickets)
      ensures UpdateAdmissible(pubkey, key, parse, body, allowed) ==>
                var t := body.value.(uuid := parse(key).value);
                h.calls == [CreateOrEditTicketCall(t)] &&
                (refusal.None? ==> h.response == Response(StatusOK, TicketJson(t)) &&
                                   tickets == old(tickets)[t.uuid := t]) &&
                (refusal == Some(RequiredFieldsMissing) ==>
                   h.response == ErrorResponse(StatusBadRequest, RequiredFieldsMissing)) &&
                (refusal.Some? && refusal.value != RequiredFieldsMissing ==>
                   h.response == ErrorResponse(StatusInternalServerError, "Failed to update ticket: " + refusal.value)) &&
                (refusal.Some? ==> tickets == old(tickets))
    {
      var admitted := AdmitUpdate(pubkey, key, parse, body, allowed);
      if admitted.Err? {
        return Handled(admitted.error, []);
      }
      var ticket := admitted.value;
      var calls := [CreateOrEditTicketCall(ticket)];
      match refusal {
        case Some(e) =>
          if e == RequiredFieldsMissing {
            h := Handled(ErrorResponse(StatusBadRequest, e), calls);
          } else {
            h := Handled(ErrorResponse(StatusInternalServerError, "Failed to update ticket: " + e), calls);
          }
        case None =>
          tickets := tickets[ticket.uuid := ticket];
          h := Handled(Response(StatusOK, TicketJson(ticket)), calls);
      }
    }

    /** ProcessTicketReview: parse and validate the callback, look the ticket up
        (any lookup error is a 404), replace its description and write it back.
        `lookupFault` and `writeFault` are storage failures, if any. */
    method ProcessTicketReview(body: RequestBody<ReviewRequest>, validate: ReviewRequest -> Option<string>,
                               lookupFault: Option<string>, writeFault: Option<string>) returns (h: Handled)
      requires Valid()
      modifies this
      ensures Valid()
      ensures AdmitReview(body, validate).Err? ==>
                h == Handled(AdmitReview(body, validate).error, []) && tickets == old(tickets)
      ensures AdmitReview(body, validate).Ok? ==>
                var req := body.value;
                |h.calls| >= 1 && h.calls[0] == GetTicketCall(req.ticketUuid) &&
                (old(Lookup(req.ticketUuid, lookupFault)).Err? ==>
                   h == Handled(ErrorResponse(StatusNotFound, "Ticket not found"), [GetTicketCall(req.ticketUuid)]) &&
                   tickets == old(tickets)) &&
                (old(Lookup(req.ticketUuid, lookupFault)).Ok? ==>
                   var t := Reviewed(old(tickets)[req.ticketUuid], req);
                   h.calls == [GetTicketCall(req.ticketUuid), UpdateTicketCall(t)] &&
                   (writeFault.Some? ==>
                      h.response == ErrorResponse(StatusInternalServerError, "Failed to update ticket") &&
                      tickets == old(tickets)) &&
                   (writeFault.None? ==>
                      h.response == Response(StatusOK, TicketJson(t)) &&
                      tickets == ReviewTable(old(tickets), req)))
    {
      var admitted := AdmitReview(body, validate);
      if admitted.Err? {
        return Handled(admitted.error, []);
      }
      var req := admitted.value;
      var found := Lookup(req.ticketUuid, lookupFault);
      if found.Err? {
        return Handled(ErrorResponse(StatusNotFound, "Ticket not found"), [GetTicketCall(req.ticketUuid)]);
      }
      var ticket := found.value;
      ticket := ticket.(description := req.ticketDescription);
      h := Handled(Response(StatusOK, TicketJson(ticket)), [GetTicketCall(req.ticketUuid), UpdateTicketCall(ticket)]);
      if writeFault.Some? {
        h := h.(response := ErrorResponse(StatusInternalServerError, "Failed to update ticket"));
        return;
      }
      tickets := tickets[ticket.uuid := ticket];
    }
  }

  /** The same callback received twice: the second delivery answers the same and
      leaves the table as the first left it. */
  method ReviewDeliveredTwice(store: TicketStore, req: ReviewRequest, validate: ReviewRequest -> Option<string>)
    requires store.Valid() && validate(req).None? && req.ticketUuid in store.tickets
    modifies store
  {
    var first := store.ProcessTicketReview(Decoded(req), validate, None, None);
    var afterFirst := store.tickets;
    var second := store.ProcessTicketReview(Decoded(req), validate, None, None);
    ReviewReplayIdempotent(old(store.tickets), req);
    assert store.tickets == afterFirst;
    assert second.response == first.response;
  }
}
