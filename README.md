# tqs client: the protocol decision layer

`tqs` is a Go client for a remote message-queue service spoken over HTTP and
JSON. A `Queue` handle names one queue at an endpoint (with an optional
token); it can create the queue, ask for its statistics and whether it
exists, enqueue a message (Put) and lease one (Get). A `Message` returned by
Get carries a lease identifier and can release the lease (Delete).

This project models what the client decides, not how it talks:

- **Request construction** — the URL, method, headers, query parameters and
  JSON payload of each request (`Tqs.Queue.*Request`, `Tqs.Message.DeleteRequest`,
  `Tqs.GetQuery`, `Tqs.Headers`).
- **Response classification** — how a status code plus an already-read and
  already-decoded body becomes a result in the client's error taxonomy:
  `QueueNotFound`, `QueueEmpty`, `QueueAlreadyExists`, `QueueHTTPError(status)`,
  `LeaseNotFound`, or an opaque error passed on from the transport or the
  decoder (`Tqs.Queue.Create`, `.Statistics`, `.Exists`, `.Get`, `.GetValue`,
  `.Put`, `Tqs.Message.Delete`).

The transport and the JSON codec are inputs (module `Wire`): a round trip is
`NoReply(cause) | Replied(status)` for the operations that never read the
body (Create, Put, Delete) and `NoResponse(cause) | Response(status, body)`
for the ones that do (Statistics, Get), where the body is `ReadFailed`,
`Malformed(cause)` or `Parsed(value)`. Go's `(value, error)` pair is
`Result<T>` (`Ok(v)` for a nil error; every error return of the tqs client
carries the zero value) and a bare `error` is `Outcome` (`Pass` for nil).

Two reference definitions stand beside the client and are related to it by
lemmas: `Routes.RouteOf`, which reads the service's REST route back out of a
URL (the inverse of the client's URL construction), and
`Taxonomy.StatusKinds`, a table of the result kinds each operation may
report for each status.

Behaviour of the code that the model keeps on purpose:

- 404 means "queue not found" on Statistics, Get and Put, but "lease not
  found" on Delete; Create has no 404 case and reports `QueueHTTPError(404)`.
- Delete treats every status other than 404 as success, 5xx included.
- Statistics parses the body on every status other than 404.
- Get yields a message only for a batch of exactly one; a batch of zero or of
  two or more is `QueueEmpty`.
- When the response body cannot be read, Statistics and Get return the zero
  value and no error (the code returns the outer `err`, which is nil there,
  tqs.go:140-143 and tqs.go:262-265). So Exists says `true`, and the
  "leased" message is bound to no queue (`Properties.UnreadableBodyIsSuccess`).
- Queue names are not escaped: a queue named `a/statistics` sends for Get the
  very request that asks for the statistics of queue `a`
  (`Routes.SlashInNameAliasesStatistics`). A `?`, `#` or `%` in a name, an
  endpoint or a lease id is not escaped either; Go's URL parser then reads a
  query, a fragment or a percent escape out of it, so the request addresses
  another path. The route lemmas therefore speak only of plain names
  (`Routes.PlainName`).

GetValue returns only an error (in the model, the decoded value as `Ok(v)`)
and never hands back the retrieved message. Nothing in the client ensures
that a message from Get has a non-empty lease identifier: that is the
service's promise, and the unreadable-body path returns the zero message.

Files: `wire.dfy` (transport outcomes, decimal numerals), `tqs.dfy` (the
client), `routes.dfy`, `taxonomy.dfy`, `properties.dfy` (reference
definitions and cross-operation lemmas).

## Model

| member | source | states |
|---|---|---|
| `Tqs.NewQueue` | tqs.go:107-114 | endpoint, name and token are stored unchanged and the queue URL is exactly endpoint + "/queues/" + name (`Valid()`) |
| `Tqs.Headers` | tqs.go:183-188 | the header set carries `Authentication: token <token>` iff the token is non-empty, and the JSON content type exactly when a payload is sent; no other header |
| `Tqs.GetQuery` | tqs.go:240-249 | no options set no parameter; `delete=true` present iff Delete is set; `wait_time` present iff Wait > 0, and then exactly the numeral `strconv.Itoa` writes for Wait / 10⁹, whose value s satisfies s·10⁹ ≤ Wait < (s+1)·10⁹ (truncated seconds); no other parameter |
| `Tqs.Queue.StatisticsRequest` | tqs.go:116-127 | a GET of queue URL + "/statistics", authenticated, with no query and no payload |
| `Tqs.Queue.Statistics` | tqs.go:129-150 | 404 gives QueueNotFound for this queue and only 404 does; any other status succeeds unless the body is malformed, with the decoded statistics, or zero statistics when the body could not be read; transport and decode errors are passed on unchanged |
| `Tqs.Queue.Exists` | tqs.go:153-162 | `Ok(true)` iff Statistics succeeds, `Ok(false)` iff Statistics reports QueueNotFound, otherwise Statistics' own error unchanged |
| `Tqs.Queue.CreateRequest` | tqs.go:168-188 | a POST to endpoint + "/queues" (not the queue URL) whose payload is the queue's name, authenticated, JSON content type |
| `Tqs.Queue.Create` | tqs.go:190-205 | success iff status 200; QueueAlreadyExists iff 409; any other status gives QueueHTTPError carrying exactly that status, so such an error never carries 200 or 409 |
| `Tqs.Queue.GetRequest` | tqs.go:226-249 | a GET of the queue URL, authenticated, no payload, with the query `GetQuery(options)` |
| `Tqs.Queue.Get` | tqs.go:251-279 | QueueNotFound iff 404, whatever the body; QueueEmpty iff a non-404 body decodes to a batch of other than one message; success iff non-404 and the batch has one message (returned with its queue bound to this queue) or the body was unreadable (zero message); never "empty" on a 404 |
| `Tqs.Queue.GetValue` | tqs.go:218-224 | a retrieval error is returned unchanged; after a successful retrieval the result is `Ok(v)` when the decoder decodes the message's body text to v and the decoder's opaque error when it does not; a taxonomy error can only come from the retrieval |
| `Tqs.Queue.PutRequest` | tqs.go:290-312 | a POST to the queue URL whose payload is a one-message batch holding exactly the given body text and type, authenticated, JSON content type |
| `Tqs.Queue.Put` | tqs.go:314-330 | success iff status 200; QueueNotFound iff 404; any other status gives QueueHTTPError with exactly that status, never 200 or 404 |
| `Tqs.Message.DeleteRequest` | tqs.go:40-53 | a DELETE of the message's queue URL + "/leases/" + lease id, authenticated with that queue's token |
| `Tqs.Message.Delete` | tqs.go:55-66 | LeaseNotFound for this message iff status 404; success for every other status, 5xx included; a transport error is passed on |
| `Wire.Decimal` | tqs.go:246 | the numeral `strconv.Itoa` writes for a non-negative number: non-empty, only digits, a leading zero only for 0, one digit exactly below 10 |
| `Wire.DecimalRoundTrip` | tqs.go:246 | reading the numeral back gives the number |
| `Wire.DecimalInjective` | tqs.go:246 | distinct waits in whole seconds are sent as distinct numerals |
| `Routes.SplitAtSlash` | tqs.go:111 | splits a path at its first '/': the parts concatenate back, the head holds no '/', the tail is empty or starts with '/' |
| `Routes.SplitAtSlashOf` | tqs.go:111 | a '/'-free name followed by a path suffix splits back into that name and suffix |
| `Routes.RouteUnderQueue` | tqs.go:111 | the queue URL followed by "", "/statistics" or "/leases/" + id decodes to the queue, its statistics or that lease |
| `Routes.RequestsAddressTheirResource` | tqs.go:107-119 | for a plain name (no '/', '?', '#' or '%') under an endpoint without '?', '#' or '%', Create addresses the collection, Statistics the statistics resource and Get and Put the queue itself |
| `Routes.DeleteAddressesItsLease` | tqs.go:43 | releasing a message of a plain-named queue, with an endpoint and lease id free of '?', '#' and '%', addresses exactly that queue's lease with the message's lease id |
| `Routes.SlashInNameAliasesStatistics` | tqs.go:111 | because names are not escaped, Get on queue "a/statistics" sends the same request as Statistics on queue "a" |
| `Taxonomy.ReportedKindsFollowTable` | tqs.go:61-65 | for every status and body, each of Create, Put, Delete, Statistics and Get reports a kind its row of the status table allows |
| `Taxonomy.GetTableIsTight` | tqs.go:258-278 | every kind the table allows Get for a status (success, empty, opaque after a non-404; not-found after 404) is reached by some body |
| `Taxonomy.StatisticsTableIsTight` | tqs.go:136-150 | every kind the table allows Statistics for a status is reached by some body |
| `Taxonomy.NotFoundIsQueueOrLease` | tqs.go:258-260 | status 404 is QueueNotFound on Statistics, Get and Put, LeaseNotFound on Delete, QueueHTTPError(404) on Create, and "empty" for no operation |
| `Taxonomy.NoResponseIsUnclassified` | tqs.go:129-131 | when no response arrives, every operation reports the transport's own (unclassified) error |
| `Properties.UrlsDeriveFromQueueUrl` | tqs.go:107-119 | the create URL plus "/" + name is the queue URL; the statistics and lease URLs extend the queue URL |
| `Properties.EveryRequestAuthenticates` | tqs.go:49-51 | all five requests carry `Authentication: token <token>` iff the token is non-empty |
| `Properties.RetryIsNeverConsulted` | tqs.go:212-216 | flipping Retry does not change the Get request |
| `Properties.SubSecondWaitSendsZero` | tqs.go:245-247 | a positive wait under one second sends `wait_time=0` |
| `Properties.WholeSecondWaitIsExact` | tqs.go:245-247 | a wait of n whole seconds sends the numeral of n |
| `Properties.LeasedMessageIsBoundToItsQueue` | tqs.go:272-275 | a message Get returns from a decoded batch is that batch's only message with its queue set to the calling queue, so its release goes to that queue's lease URL with that queue's token |
| `Properties.UnreadableBodyIsSuccess` | tqs.go:262-265 | an unreadable non-404 body makes Statistics return zero statistics, Exists `true` and Get the zero message, whose release targets "/leases/" without a token |
| `Properties.UnreadableBodyDecodesEmptyText` | tqs.go:218-224 | after an unreadable body GetValue reports the decoder's verdict on the empty text |
| `Properties.ExistsByResponse` | tqs.go:153-162 | Exists is `Ok(false)` iff the status is 404, `Ok(true)` iff the status is not 404 and the body is not malformed, and otherwise an opaque error |
| `Properties.ErrorsNameTheirSubject` | tqs.go:197-202 | every taxonomy error of Create, Put, Statistics and Get names the calling queue, and LeaseNotFound names the message being released |

## Left out

- HTTP transport (`http.Client`, `client.Do`, `res.Body.Close`): a round trip is an input, either an opaque error or a status with a body outcome.
- `http.NewRequest` failures (an unparsable URL) are folded into the same opaque "no response" input, because the client reports them the same way.
- `req.Close` and the client timeouts (2 seconds for Create, Statistics and Delete, none for Get and Put): connection and timing policy of the transport. Statistics is the one request not marked to close its connection; that too is not modelled.
- JSON encoding: the Create and Put payloads are modelled as values; `json.Marshal` of these string-only records is taken never to fail.
- JSON decoding, including GetValue's decode into a caller's `interface{}`: the decoder is an input (`Body`, and the `decode` parameter of GetValue). GetValue's result carries the decoded value instead of writing it through a pointer.
- `Tqs.GetQuery`: models the parameters the client sets; that a non-nil options value re-encodes a query already present in the queue URL (normalising its order and escaping) is not modelled.
- `time.Time` fields are opaque integers and `time.Duration` an unbounded integer of nanoseconds.
- Tqs.GetQuery: assumes Go's `int` is 64 bits wide. `int(options.Wait)` (tqs.go:246) narrows the wait to the platform `int`; on a 32-bit platform a wait above about 2.147 s wraps (3 s sends `wait_time=-1`), which the model does not capture.
- URL parsing by `http.NewRequest` (tqs.go:44, 120, 178, 229, 302) is not modelled: request URLs are the formatted strings. A name, endpoint or lease id holding '?', '#' or '%' is read by the parser as a query, a fragment or an escape; `Routes.RouteOf` reads raw strings, so the route lemmas require plain names (`Routes.PlainName`, `Routes.NoUrlDelimiters`).
- `Error()` message strings: formatting only; the model keeps each error's kind and the values it carries.
- The service's lease and visibility state machine (visible, leased, deleted, expired): it is enforced by the remote service and not present in the client, so properties that need it (Put then Get returns the message, a second Delete reports LeaseNotFound) are not modelled.
- Concurrency: the client has none.
