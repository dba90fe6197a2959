# bouncehandler — a Dafny model

`bouncehandler` is an HTTP endpoint that subscribes to Amazon SNS topics carrying
SES bounce and complaint notifications. For every permanently bounced or
complained-about recipient it hands the address to a per-sender queue, whose
worker runs a configured MySQL statement to unsubscribe that address.

This project models the deterministic core of `bouncehandler.go`:

- **Router** (`handler.ServeHTTP`) as a pure function. It maps the configured basic-auth
  credentials, one request and the current registry to a status (204/400/401), the
  registry afterwards, and the subscription URL it fetched, if any. The stages run in
  order: auth gate, envelope type dispatch, payload decode, event-type filter, sender
  resolution (exact key, then `"*"`), and non-blocking enqueue.
- **BoundedQueue**: a sender's channel buffer of capacity 100. `Offer` is the
  non-blocking send loop: it appends while there is room and drops the rest.
- **Registry**: `handler.m` as `map<string, seq<string>>`. It covers `Register`
  (a duplicate is a fatal error, returned as a `Failure`) and the start-up loop that
  registers every configured sender.
- **Config** (`readConfig`): rejects an empty mapping, empty `sql`/`dsn` fields, and
  queries that do not contain exactly one `?`. Go visits the records in an unspecified
  order; the model picks them with `:|`.
- **Messages**: the `snsMsg` envelope and the `payload` shapes, and the list of
  recipient addresses a payload yields.
- **Text**: `strings.Contains` and `strings.Count` with a one-character needle. The
  substring scan is proved equal to "occurs at some index"; the count is proved equal to
  the number of positions holding the character.

Two behaviours of the program are easy to miss:
- The confirmation URL is followed when `"amazonaws.com"` occurs anywhere in it. The
  code does not check the URL's host.
- The `bounce` and `complaint` sub-objects are not checked against `notificationType`.
  A `Complaint` event that also carries a permanent `bounce` enqueues both lists
  (`Router.ComplaintWithPermanentBounce`, with a concrete instance in
  `Router.ComplaintWithPermanentBounceExample`).

JSON decoding is a parameter. The envelope arrives already decoded as
`Option<Envelope>`. The decoding of its `Message` text is a function
`string -> Option<Payload>`, so the payload the router acts on is the one that decodes
from that text.

## Model

| member | source | states |
|---|---|---|
| Router.ServeHTTP | bouncehandler.go:163-238 | The key set never changes. The status is 401 exactly when both credentials are configured and the request lacks them. Queues only grow, by appends, and never beyond capacity. Any status other than 204 leaves the registry untouched and fetches nothing. A fetched URL comes from a subscription handshake, contains the trusted domain, and leaves the registry unchanged. |
| Router.AuthGate | bouncehandler.go:164-170 | With both credentials configured, a request with absent or wrong credentials gets 401 and changes nothing. With either credential empty, no request gets 401. |
| Router.MalformedEnvelope | bouncehandler.go:171-176 | A body that does not decode as an envelope gets 400, with no queue change and no fetch. |
| Router.SubscriptionHandshake | bouncehandler.go:177-184 | A `SubscriptionConfirmation` gets 204 with no enqueue. The URL is fetched exactly when the trusted domain occurs in it at some position. |
| Router.UnknownEnvelopeType | bouncehandler.go:185-190 | Any envelope type other than `SubscriptionConfirmation` or `Notification` gets 400 and changes nothing. |
| Router.MalformedMessage | bouncehandler.go:192-197 | A `Notification` whose `Message` text does not decode gets 400 and changes nothing. |
| Router.NonActionableEvent | bouncehandler.go:198-204 | An event type other than `Bounce` or `Complaint` gets 204 and changes nothing. |
| Router.UnconfiguredSender | bouncehandler.go:205-214 | A sender with no queue of its own and no `"*"` queue gets 204 and changes nothing. |
| Router.DispatchToResolvedQueue | bouncehandler.go:205-237 | The target is the sender's own queue if present, otherwise `"*"`. It receives the longest prefix of the candidate list that fits under the capacity; the rest is dropped. Every other queue is unchanged, and the status is 204. |
| Router.ComplaintWithPermanentBounce | bouncehandler.go:215-236 | For every `Complaint` event that also carries a permanent bounce, and whose resolved queue has room for all candidates, the queue receives all bounced addresses followed by all complained addresses, with status 204. |
| Router.ComplaintWithPermanentBounceExample | bouncehandler.go:215-236 | Example: a complaint carrying a one-recipient permanent bounce, sent for a sender with an empty queue, leaves that queue holding the bounced address and then the complained one. |
| Messages.BouncedAddresses | bouncehandler.go:215-225 | The bounce sub-object contributes its recipients' addresses in list order only when its type is `Permanent`. Otherwise it contributes nothing. |
| Messages.ComplainedAddresses | bouncehandler.go:226-236 | A complaint sub-object always contributes all its recipients' addresses in list order. |
| Messages.CandidatesOrder | bouncehandler.go:215-236 | The candidate list is the permanent bounce's recipients followed by the complaint's recipients, each in list order. A non-permanent bounce contributes nothing. |
| BoundedQueue.Room | bouncehandler.go:146 | The number of accepted addresses never exceeds the number offered. It falls short only when the queue would reach the capacity of 100. |
| BoundedQueue.Offer | bouncehandler.go:218-223 | Non-blocking sends produce the old queue followed by the longest prefix of the offered addresses that fits. The queue never exceeds 100 entries. Everything is taken when there is room; nothing is taken when the queue is full. |
| BoundedQueue.OfferConcat | bouncehandler.go:215-236 | The bounce send loop followed by the complaint send loop equals one send loop over the concatenated list. |
| Registry.Register | bouncehandler.go:142-147 | Registering a present sender fails and never replaces its queue. Otherwise exactly that key is added with an empty queue, and every other key is unchanged. |
| Registry.RegisterAll | bouncehandler.go:42-48 | After the start-up registration loop succeeds, earlier queues are kept, each listed sender has an empty queue, and nothing else is added. A failure names a listed sender. |
| Registry.RegisterAllSucceedsIff | bouncehandler.go:143-147 | Registering a list succeeds exactly when no sender repeats and none was already registered. |
| Registry.StartupRegistry | bouncehandler.go:36-48 | Registering the keys of a configuration, each once and in any order, never fails. The result has exactly those keys, each with an empty queue. |
| Registry.Resolve | bouncehandler.go:205-209 | Resolution yields the sender's own key if registered, else `"*"` if registered, else nothing. The key it yields is always registered. |
| Config.ReadConfig | bouncehandler.go:73-95 | The mapping is accepted exactly when it is readable, non-empty, and every record is valid. An accepted mapping is returned unchanged. Each error kind corresponds exactly to its condition, and a record error always names a record that really has that defect. |
| Config.ValidCredIff | bouncehandler.go:87-92 | A record is valid exactly when its DSN is non-empty and its query holds `?` at exactly one position. |
| Text.ContainsIff | bouncehandler.go:179 | The substring scan is true exactly when the needle occurs at some index. |
| Text.CountOneIff | bouncehandler.go:90 | A `?` count of one means one occurrence and no other. |
| Text.CountZeroIff | bouncehandler.go:90 | A count of zero means the character does not occur. |
| Text.CountIsPositions | bouncehandler.go:90 | The count equals the number of indices holding the character. |

## Left out

- `main`, flag parsing, `newHandler`/`withLog`/`withBasicAuth` and the `http.Server` setup (bouncehandler.go:23-57, 114-135) are process start-up. Only the registration loop (lines 42-48) is modelled.
- `sqlBlacklister` (bouncehandler.go:59-71) is a foreign MySQL connection and query, so its failure at start-up is not modelled.
- `confirm` (bouncehandler.go:282-289) is an outbound HTTP GET. It is modelled only as the URL returned in `Response.confirmed`.
- The worker goroutine, the `select` on `ctx.Done()` and `Close` (bouncehandler.go:138, 148-159) are concurrency and cancellation, and they call a foreign callback. Queues are modelled as buffers that only the router changes, one request at a time.
- Router.DispatchToResolvedQueue: requests are modelled one at a time, each as one indivisible step. Go's `net/http` runs each request on its own goroutine, so concurrent requests for the same sender may interleave their sends and fill the buffer mid-loop, and one request's addresses need not be contiguous. The worker may also drain a queue mid-loop and let later addresses in. Neither is modelled.
- Router.ComplaintWithPermanentBounce: requests are modelled one at a time. A concurrent request for the same sender may put addresses between the bounced and the complained ones, or fill the buffer before all of them are in.
- JSON decoding, including the 2 MiB `io.LimitReader` (bouncehandler.go:80, 172, 193), is a library call. It appears as `Option` values and a decoding function parameter.
- `r.BasicAuth()` header parsing (bouncehandler.go:165) is abstract. A request's credentials are an `Option<Credentials>`.
- Logging, the text of `http.Error` responses, and the `WWW-Authenticate` header value are output formatting.
- Config.ReadConfig: error messages are reduced to an error kind and key. Which bad record is reported depends on Go's map order, so only "some bad record" is promised.
- Text.ContainsIff: Go's `strings.Contains` compares bytes of UTF-8 strings and this model compares characters. The two agree for the ASCII needle `"amazonaws.com"` on valid UTF-8.
- Text.CountOneIff: Go counts bytes of a UTF-8 string and this model counts characters. The two agree for the ASCII `?`.
