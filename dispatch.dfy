/** PostTicketDataToStakwork: validate a ticket, gather its briefs, and hand it
    to the external builder's "Hive Ticket Builder" workflow. The environment
    (HOST, SWWFKEY) and the builder's reply are inputs; the request the handler
    would send is an output. */
module Dispatch {
  import opened Wrappers
  import opened Tickets

  const WorkflowName: string := "Hive Ticket Builder"
  const WorkflowId: int := 37324
  const ProjectsUrl: string := "https://api.stakwork.com/api/v1/projects"
  const ReviewPath: string := "/bounties/ticket/review/"

  /** The two environment variables read; "" when unset. */
  datatype Environment = Environment(host: string, apiKey: string)

  /** An HTTP status code as Go's client reports it: three digits. */
  type HttpStatus = c: int | 100 <= c <= 999 witness 200

  /** What sending the request produced: a transport error, a body that could not
      be read, or a status code with its body. */
  datatype BuilderReply =
    | TransportFailure(error: string)
    | UnreadableReply(error: string)
    | Reply(statusCode: HttpStatus, body: string)

  /** workflow_params.set_var.attributes.vars of the payload. */
  datatype WorkflowVars = WorkflowVars(
    featureUUID: string, phaseUUID: string, ticketUUID: string,
    ticketName: string, ticketDescription: string,
    productBrief: string, featureBrief: string,
    examples: string, webhookUrl: string)

  datatype Payload = Payload(name: string, workflowId: int, vars: WorkflowVars)

  datatype OutboundRequest = OutboundRequest(
    httpMethod: string, url: string, authorization: string, contentType: string, payload: Payload)

  /** The handler's response, the store calls it made and the request it sent, if any. */
  datatype Dispatched = Dispatched(response: Response, calls: seq<StoreCall>, sent: Option<OutboundRequest>)

  /** Outcome of the brief lookups: both briefs, or the failure response. */
  datatype Briefing =
    | Briefs(productBrief: string, featureBrief: string, calls: seq<StoreCall>)
    | BriefFailure(response: Response, calls: seq<StoreCall>)

  function Failure(status: int, message: string, errors: seq<string>): Response {
    Response(status, Structured(TicketResponse(false, "", message, errors)))
  }

  /** Decimal text of an integer, as `%d` prints it. */
  function DecimalText(n: int): (s: string)
    ensures |s| > 0
  {
    if n < 0 then "-" + NaturalText(-n) else NaturalText(n)
  }

  function NaturalText(n: nat): (s: string)
    ensures |s| > 0
  {
    var digit := "0123456789"[n % 10];
    if n < 10 then [digit] else NaturalText(n / 10) + [digit]
  }

  /** The validation errors of the ticket's UUID. */
  function UuidErrors(u: Uuid, parse: UuidParser): seq<string> {
    if u == NilUuid then ["UUID is required"]
    else if parse(u).None? then ["Invalid UUID format"]
    else []
  }

  /** With a feature set: the feature, then its workspace's product brief, then the
      feature brief; with none, two empty briefs and no store call. */
  function LoadBriefs(t: Ticket, feature: Feature, productBrief: Result<string, string>,
                      featureBrief: Result<string, string>): (b: Briefing)
    ensures t.featureUuid == "" ==> b == Briefs("", "", [])
    ensures b.Briefs? <==> t.featureUuid == "" || (feature.uuid != "" && productBrief.Ok? && featureBrief.Ok?)
    ensures b.Briefs? && t.featureUuid != "" ==> b.productBrief == productBrief.value && b.featureBrief == featureBrief.value
    ensures b.BriefFailure? ==> b.response.status == StatusInternalServerError
  {
    if t.featureUuid == "" then Briefs("", "", [])
    else if feature.uuid == "" then
      BriefFailure(Failure(StatusInternalServerError, "Error retrieving feature details",
                           ["Feature not found with the provided UUID"]),
                   [GetFeatureCall(t.featureUuid)])
    else
      var calls := [GetFeatureCall(t.featureUuid), GetProductBriefCall(feature.workspaceUuid)];
      match productBrief
      case Err(e) => BriefFailure(Failure(StatusInternalServerError, "Error retrieving product brief", [e]), calls)
      case Ok(pb) =>
        var calls := calls + [GetFeatureBriefCall(t.featureUuid)];
        match featureBrief
        case Err(e) => BriefFailure(Failure(StatusInternalServerError, "Error retrieving feature brief", [e]), calls)
        case Ok(fb) => Briefs(pb, fb, calls)
  }

  function BuildRequest(t: Ticket, productBrief: string, featureBrief: string, env: Environment): OutboundRequest {
    var vars := WorkflowVars(t.featureUuid, t.phaseUuid, t.uuid, t.name, t.description,
                             productBrief, featureBrief, "", env.host + ReviewPath);
    OutboundRequest("POST", ProjectsUrl, "Token token=" + env.apiKey, "application/json",
                    Payload(WorkflowName, WorkflowId, vars))
  }

  /** The response to the builder's reply: a non-200 code is passed through. */
  function ReplyResponse(reply: BuilderReply, ticketId: Uuid): Response {
    match reply
    case TransportFailure(e) => Failure(StatusInternalServerError, "Error sending request to Stakwork", [e])
    case UnreadableReply(e) => Failure(StatusInternalServerError, "Error reading response from Stakwork", [e])
    case Reply(code, text) =>
      if code != StatusOK then
        Failure(code, text, ["Stakwork API returned status code: " + DecimalText(code)])
      else
        Response(StatusOK, Structured(TicketResponse(true, ticketId, text, [])))
  }

  /** Every check dispatch makes before it sends anything. */
  predicate DispatchAdmissible(pubkey: string, body: RequestBody<Ticket>, parse: UuidParser, feature: Feature,
                               productBrief: Result<string, string>, featureBrief: Result<string, string>,
                               env: Environment) {
    pubkey != "" && body.Decoded? &&
    body.value.uuid != NilUuid && parse(body.value.uuid).Some? &&
    (body.value.featureUuid != "" ==> feature.uuid != "" && productBrief.Ok? && featureBrief.Ok?) &&
    env.host != "" && env.apiKey != ""
  }

  /** PostTicketDataToStakwork. */
  function PostTicketDataToStakwork(
    pubkey: string, body: RequestBody<Ticket>, parse: UuidParser, feature: Feature,
    productBrief: Result<string, string>, featureBrief: Result<string, string>,
    env: Environment, reply: BuilderReply): (d: Dispatched)
    // nothing is sent unless every check passes
    ensures d.sent.Some? <==> DispatchAdmissible(pubkey, body, parse, feature, productBrief, featureBrief, env)
    ensures d.sent.None? ==> d.response.status != StatusOK
    // each check that fails before sending, with its status and message
    ensures pubkey == "" ==> d == Dispatched(ErrorResponse(StatusUnauthorized, "Unauthorized"), [], None)
    ensures pubkey != "" && body.Unreadable? ==>
              d == Dispatched(Failure(StatusBadRequest, "Validation failed", ["Error reading request body"]), [], None)
    ensures pubkey != "" && body.Malformed? ==>
              d == Dispatched(Failure(StatusBadRequest, "Validation failed",
                                      ["Error parsing request body: " + body.parseError]), [], None)
    ensures pubkey != "" && body.Decoded? && UuidErrors(body.value.uuid, parse) != [] ==>
              d == Dispatched(Failure(StatusBadRequest, "Validation failed", UuidErrors(body.value.uuid, parse)), [], None)
    ensures pubkey != "" && body.Decoded? && UuidErrors(body.value.uuid, parse) == [] ==>
              var b := LoadBriefs(body.value, feature, productBrief, featureBrief);
              d.calls == b.calls &&
              (b.BriefFailure? ==> d.response == b.response && d.sent.None?) &&
              (b.Briefs? && env.host == "" ==>
                 d.response == Failure(StatusInternalServerError, "HOST environment variable not set", [])) &&
              (b.Briefs? && env.host != "" && env.apiKey == "" ==>
                 d.response == Failure(StatusInternalServerError, "API key not set in environment", []))
    // the store is consulted only for a valid ticket with a feature
    ensures d.calls != [] ==> pubkey != "" && body.Decoded? && UuidErrors(body.value.uuid, parse) == [] &&
                              body.value.featureUuid != ""
    ensures d.calls != [] ==> d.calls[0] == GetFeatureCall(body.value.featureUuid)
    // the request: fixed workflow, the ticket's fields, briefs, callback and token
    ensures d.sent.Some? ==>
              var t := body.value;
              var o := d.sent.value;
              o.httpMethod == "POST" && o.url == ProjectsUrl &&
              o.authorization == "Token token=" + env.apiKey && o.contentType == "application/json" &&
              o.payload.name == "Hive Ticket Builder" && o.payload.workflowId == 37324 &&
              o.payload.vars.featureUUID == t.featureUuid && o.payload.vars.phaseUUID == t.phaseUuid &&
              o.payload.vars.ticketUUID == t.uuid && o.payload.vars.ticketName == t.name &&
              o.payload.vars.ticketDescription == t.description && o.payload.vars.examples == "" &&
              o.payload.vars.webhookUrl == env.host + "/bounties/ticket/review/" &&
              o.payload.vars.productBrief == (if t.featureUuid == "" then "" else productBrief.value) &&
              o.payload.vars.featureBrief == (if t.featureUuid == "" then "" else featureBrief.value)
    // the reply: 200 is success with the ticket id; any other code is passed through
    ensures d.sent.Some? && reply.Reply? && reply.statusCode == StatusOK ==>
              d.response == Response(StatusOK, Structured(TicketResponse(true, body.value.uuid, reply.body, [])))
    ensures d.sent.Some? && reply.Reply? && reply.statusCode != StatusOK ==>
              d.response.status == reply.statusCode &&
              d.response.body.Structured? && !d.response.body.reply.success &&
              d.response.body.reply.message == reply.body &&
              d.response.body.reply.errors == ["Stakwork API returned status code: " + DecimalText(reply.statusCode)]
    ensures d.sent.Some? && !reply.Reply? ==> d.response.status == StatusInternalServerError
  {
    if pubkey == "" then
      Dispatched(ErrorResponse(StatusUnauthorized, "Unauthorized"), [], None)
    else
      match body
      case Unreadable(_) =>
        Dispatched(Failure(StatusBadRequest, "Validation failed", ["Error reading request body"]), [], None)
      case Malformed(e) =>
        Dispatched(Failure(StatusBadRequest, "Validation failed", ["Error parsing request body: " + e]), [], None)
      case Decoded(t) =>
        var uuidErrors := UuidErrors(t.uuid, parse);
        if uuidErrors != [] then
          Dispatched(Failure(StatusBadRequest, "Validation failed", uuidErrors), [], None)
        else
          match LoadBriefs(t, feature, productBrief, featureBrief)
          case BriefFailure(response, calls) => Dispatched(response, calls, None)
          case Briefs(pb, fb, calls) =>
            if env.host == "" then
              Dispatched(Failure(StatusInternalServerError, "HOST environment variable not set", []), calls, None)
            else if env.apiKey == "" then
              Dispatched(Failure(StatusInternalServerError, "API key not set in environment", []), calls, None)
            else
              var request := BuildRequest(t, pb, fb, env);
              Dispatched(ReplyResponse(reply, t.uuid), calls, Some(request))
  }

  /** The nil UUID is refused before any store call or request. */
  lemma NilUuidRefused(pubkey: string, t: Ticket, parse: UuidParser, feature: Feature,
                       productBrief: Result<string, string>, featureBrief: Result<string, string>,
                       env: Environment, reply: BuilderReply)
    requires pubkey != "" && t.uuid == NilUuid
    ensures var d := PostTicketDataToStakwork(pubkey, Decoded(t), parse, feature, productBrief, featureBrief, env, reply);
            d.sent.None? && d.calls == [] &&
            d.response == Failure(StatusBadRequest, "Validation failed", ["UUID is required"])
  {
  }

  /** The "Invalid UUID format" branch cannot be taken: the JSON decoder only
      yields canonical UUIDs, and `uuid.Parse` accepts every canonical UUID. */
  lemma InvalidUuidFormatUnreachable(pubkey: string, body: RequestBody<Ticket>, parse: UuidParser, feature: Feature,
                                     productBrief: Result<string, string>, featureBrief: Result<string, string>,
                                     env: Environment, reply: BuilderReply)
    requires AcceptsCanonical(parse)
    requires body.Decoded? ==> IsCanonicalUuid(body.value.uuid)
    ensures var d := PostTicketDataToStakwork(pubkey, body, parse, feature, productBrief, featureBrief, env, reply);
            d.response != Failure(StatusBadRequest, "Validation failed", ["Invalid UUID format"])
  {
    if pubkey != "" && body.Decoded? && body.value.uuid != NilUuid {
      assert parse(body.value.uuid) == Some(body.value.uuid);
      assert UuidErrors(body.value.uuid, parse) == [];
    }
  }

  /** The request depends only on the ticket, the briefs and the environment, not on
      the caller or on what the builder answers. */
  lemma RequestIsDeterministic(pubkey1: string, pubkey2: string, body: RequestBody<Ticket>, parse: UuidParser,
                               feature: Feature, productBrief: Result<string, string>,
                               featureBrief: Result<string, string>, env: Environment,
                               reply1: BuilderReply, reply2: BuilderReply)
    requires pubkey1 != "" && pubkey2 != ""
    ensures PostTicketDataToStakwork(pubkey1, body, parse, feature, productBrief, featureBrief, env, reply1).sent
         == PostTicketDataToStakwork(pubkey2, body, parse, feature, productBrief, featureBrief, env, reply2).sent
  {
  }
}
