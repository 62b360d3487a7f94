# sphinx-tribes: bounty reports, connection codes, proof counter and ticket handlers

A Dafny model of two parts of sphinx-tribes, the backend of a bounty and
work-ticket platform:

- **The store rules fixed by `db/db_test.go`.** A class `Store.Database` holds a
  bounty table and a connection-code table.
  - `GetFilterStatusCount` counts six report buckets over the bounties.
  - `CreateConnectionCode` inserts a batch of single-use codes and fills in
    missing creation dates.
  - `GetConnectionCode` dispenses the unused code created last and marks it used.
  - `IncrementProofCount` adds one proof of work to a bounty and stamps it.

  The `db` package itself is not part of this model. These operations are
  modelled from what its table tests assert.
- **The ticket handlers of `handlers/ticket.go`.** Each handler is a chain of
  guards that ends in an HTTP status.
  - `GetTicket`, `DeleteTicket` and `GetTicketsByPhaseUUID` are functions from the
    request and the store's answers to a response plus the store calls made.
  - `PostTicketDataToStakwork` also returns the request it sends to the external
    builder, if it sends one.
  - `UpdateTicket` and `ProcessTicketReview` are methods of `TicketHandlers.TicketStore`,
    which holds the ticket table they write.

Modules: `Wrappers` (wrappers.dfy), `Clock` (clock.dfy), `Bounties` (bounties.dfy),
`ConnectionCodes` (connection_codes.dfy), `Store` (database.dfy), `Tickets`
(tickets.dfy), `TicketHandlers` (ticket_handlers.dfy) and `Dispatch` (dispatch.dfy).

Choices the tests and the code make, which the model keeps:

- Assigned is not just "assignee non-empty". Paid rows are left out of it
  (db/db_test.go:75-85, 108-123). The buckets overlap: one bounty can be in
  Assigned and in Completed at once.
- Dispensing takes the **latest** creation date, not the oldest
  (db/db_test.go:484-492, 509-517). The tests do not say which of two codes with
  the same date wins. The model takes the one inserted first.
- The store's error is picked by its text. `GetTicket` and `DeleteTicket` give
  404 only for the text "ticket not found" and 500 for any other error.
  `ProcessTicketReview` gives 404 for any lookup error.
- In dispatch, the "Invalid UUID format" branch (handlers/ticket.go:198-200) can
  never be taken. The ticket's UUID is already parsed when the body is decoded,
  and a parsed UUID always parses again (`Dispatch.InvalidUuidFormatUnreachable`).
- An empty ticket status skips the allow-list check (handlers/ticket.go:104).

The collaborators are inputs. A UUID is its canonical text (section 3 of RFC 4122),
and the nil UUID is section 4.1.7's. `uuid.Parse` is a function parameter.
`db.IsValidTicketStatus` is a set of allowed statuses.
`utils.ValidateTicketReviewRequest` is a function parameter. Each store method's
answer is a parameter. `os.Getenv("HOST")` and `os.Getenv("SWWFKEY")` are an
`Environment` value. The reply to `httpClient.Do` is a `BuilderReply` value.
The current time is a parameter `now`.

Test replays. These methods run test rows against the contracts. The verifier
checks their assertions, so they need no contract of their own:

- `Store.IncrementProofCountTable`: db/db_test.go:361-412, a negative count
  incremented, and the non-existent and zero ids.
- `Store.CreateConnectionCodeTable`: db/db_test.go:187-316, the empty batch,
  duplicates, nil, zero and given dates, and a future date.
- `Store.DispenseBasic`: db/db_test.go:485-492, 2023-10-02 before 2006-01-02.
- `Store.DispenseLatestFirst`: db/db_test.go:510-517, two unused codes dispensed
  latest first, then nothing.
- `Store.DispenseNothing`: db/db_test.go:494-500 and 519-523, a used code and
  the empty table.
- `TicketHandlers.ReviewDeliveredTwice`: handlers/ticket.go:360-407, the same
  review callback delivered twice leaves the table and the response as after
  the first.

## Model

| member | source | states |
|---|---|---|
| `Bounties.InBucket` | db/db_test.go:12-144 | the six buckets: a hidden bounty is in none; Open has no assignee; Assigned has an assignee and is not paid (db/db_test.go:76-85, 108-123); Completed, Paid, Pending and Failed each read one flag |
| `Bounties.GetFilterStatusCount` | db/db_test.go:12-144 | every count is at most the number of shown bounties; Open plus Assigned plus the assigned-and-paid rows is exactly the number of shown bounties |
| `Bounties.Tally` | db/db_test.go:31-41 | no bucket counts more rows than there are shown bounties |
| `Bounties.TallyOfVisible` | db/db_test.go:31-41 | each count over a table equals the count over its shown rows only |
| `Bounties.HiddenBountyCountsNowhere` | db/db_test.go:116-122 | adding a hidden bounty anywhere in the table leaves all six counts unchanged, whatever its flags |
| `Bounties.OpenAssignedPartition` | db/db_test.go:42-85 | each shown bounty is exactly one of Open (no assignee), Assigned (assignee, not paid) or assigned-and-paid |
| `Bounties.TallyAppend` | db/db_test.go:126-137 | the count of a table is the sum of the counts of its parts |
| `Bounties.TallyPermutation` | db/db_test.go:126-137 | counts depend on the rows, not on their order |
| `Bounties.HiddenFixture` | db/db_test.go:31-41 | the "Hidden Bounties Should Not Count" table gives all zeros |
| `Bounties.PaidFixture` | db/db_test.go:75-85 | two paid, assigned bounties give Paid 2 and Assigned 0 |
| `Bounties.MixedFixture` | db/db_test.go:108-123 | the mixed table gives Open 1, Assigned 4, Completed 1, Paid 1, Pending 1, Failed 1 |
| `Bounties.FindBounty` | db/db_test.go:436-440 | finds the row with the given id, or reports that no row has it |
| `Bounties.IncrementKeepsStatusCounts` | db/db_test.go:436-450 | bumping a proof count moves no bounty between buckets |
| `ConnectionCodes.WithDefaultDate` | db/db_test.go:193-241 | a nil or zero date becomes `now`; a given date, the id, the string and the used flag are kept |
| `ConnectionCodes.FillMissingDates` | db/db_test.go:243-262 | one record per input in input order, each defaulted, none without a date |
| `ConnectionCodes.LatestUnused` | db/db_test.go:484-523 | picks an unused row no unused row is later than, the first such; none only when every row is used |
| `ConnectionCodes.Unused` | db/db_test.go:493-500 | the number of unused codes is zero exactly when every code is used |
| `ConnectionCodes.MarkUsedConsumesOne` | db/db_test.go:484-491 | marking the dispensed code used lowers the unused count by exactly one |
| `Store.Database.CreateConnectionCode` | db/db_test.go:146-337 | an empty or nil batch fails and stores nothing; otherwise the defaulted batch is appended and returned, duplicate ids included |
| `Store.Database.GetConnectionCode` | db/db_test.go:469-538 | returns the latest unused code and marks it used, or the empty value when none is unused; used flags never reset |
| `Store.Database.IncrementProofCount` | db/db_test.go:339-459 | an existing bounty gets count + 1 and `Updated == now`; a missing id fails with record-not-found and changes nothing |
| `TicketHandlers.GetTicket` | handlers/ticket.go:38-60 | empty uuid gives 400 with no store call; "ticket not found" gives 404, other errors 500, success 200 with the ticket |
| `TicketHandlers.DeleteTicket` | handlers/ticket.go:126-158 | no pubkey gives 401; then the same chain as GetTicket over the store's delete |
| `TicketHandlers.DeleteAnswersLikeGet` | handlers/ticket.go:38-60 | with a caller present, delete answers with the status get gives for the same key and store error |
| `TicketHandlers.GetTicketsByPhaseUUID` | handlers/ticket.go:409-455 | 401 with no body, 400 for either malformed UUID before any store call, 404 for a missing feature or phase, 500 for a listing error, 200 with the tickets |
| `TicketHandlers.AdmitUpdate` | handlers/ticket.go:62-108 | guards in source order (401, then 400 for empty uuid, bad uuid, unreadable body, bad JSON, status outside the allow-list); on pass the ticket carries the URL's uuid |
| `TicketHandlers.EmptyStatusSkipsAllowList` | handlers/ticket.go:104-108 | with an empty status the allow-list has no effect |
| `TicketHandlers.TicketStore.UpdateTicket` | handlers/ticket.go:62-124 | the store is called and written only after every guard passes; the required-fields error gives 400, other errors 500, success 200 with the stored ticket |
| `TicketHandlers.AdmitReview` | handlers/ticket.go:360-384 | a read, parse or validation failure gives 400 before any lookup |
| `TicketHandlers.TicketStore.Lookup` | handlers/ticket.go:386-387 | the store's lookup succeeds exactly for a stored key without a storage failure |
| `TicketHandlers.ReviewTable` | handlers/ticket.go:394-396 | a review rewrites only the reviewed ticket, and only its description |
| `TicketHandlers.ReviewReplayIdempotent` | handlers/ticket.go:394-396 | applying the same callback twice writes the same table as once |
| `TicketHandlers.LastReviewWins` | handlers/ticket.go:394 | of two reviews the last description wins, and nothing but the description changes |
| `TicketHandlers.TicketStore.ProcessTicketReview` | handlers/ticket.go:360-407 | any lookup error gives 404; the fetched ticket with the new description is written back; a write error gives 500 |
| `Dispatch.LoadBriefs` | handlers/ticket.go:213-248 | no feature means two empty briefs and no store call; otherwise a missing feature or a failed brief aborts with 500 |
| `Dispatch.PostTicketDataToStakwork` | handlers/ticket.go:160-358 | no pubkey gives 401 and an unreadable or undecodable body 400, both with no store call; the UUID errors give 400; a failed feature or brief lookup gives its 500; a missing HOST or SWWFKEY gives 500. A request is sent exactly when every check passes. It has the fixed workflow, the ticket's fields, the briefs, HOST + "/bounties/ticket/review/" and "Token token=" + key. A non-200 reply code is passed through with the raw body |
| `Dispatch.NilUuidRefused` | handlers/ticket.go:194-211 | the nil UUID gives 400 "UUID is required" with no store call and no request |
| `Dispatch.InvalidUuidFormatUnreachable` | handlers/ticket.go:194-201 | if the decoder yields only canonical UUIDs and the parser accepts every canonical UUID, the "Invalid UUID format" response never occurs |
| `Dispatch.RequestIsDeterministic` | handlers/ticket.go:260-317 | the request sent depends neither on who the caller is nor on the builder's reply |

## Left out

- The `db` package's code is not part of this model. Its four operations are
  modelled from the table tests. Where the tests are silent, the model makes a
  choice: ties between equal dates go to the first code inserted, and a paid
  bounty with no assignee counts as Open. A shown bounty that is paid and also
  completed, pending or failed counts in each of those buckets too, because the
  buckets are independent; no test row has such a bounty.
- handlers/tribes_test.go is not part of this model. It tests tribe handlers
  that are not modelled here.
- HTTP plumbing is not modelled: chi URL parameters, `io.ReadAll`, JSON encoding
  and decoding, headers and `ResponseWriter`. A body that cannot be read or decoded
  is a `RequestBody` variant, and a response is a status with a `Body` value.
- Logging (`fmt.Println`, `log.Printf`) is not modelled.
- The payload is a record, not serialised JSON. `json.Marshal` cannot fail on a
  map of strings and an integer, and `http.NewRequest` cannot fail with a constant
  method and URL. So the branches at handlers/ticket.go:284-293 and 305-314 are
  not modelled.
- The outbound call's timeout is folded into `TransportFailure`.
- Row locking for dispensing and the atomic increment are not modelled.
  Operations run one at a time.
- `Store.Database.IncrementProofCount`: the count is an unbounded integer, so the
  model does not say what happens past the column's maximum.
- `Store.Database.CreateConnectionCode`: the defaulted batch is returned as a new
  sequence. Whether the caller's slice is also updated in place is not modelled.
- Go's nil slice and empty slice are the same value here: a sequence of length 0.
- Only six ticket columns are modelled. Ticket timestamps, including the
  timestamp bump of a review, are not. `CreateOrEditTicket` stores the ticket
  whole. The store's merge of a partial body is not modelled.
- Store failures other than the ones the handlers look at are inputs. The model
  does not say when the store fails.
