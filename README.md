# Form-responses pipeline of the CCB proxy, in Dafny

This project models the form-responses pipeline of a small HTTP proxy in
front of the Church Community Builder (CCB) XML API. It covers these parts:

- How `GetFormResponses` (lib/ccb/ccb.go) builds the `form_responses` query.
- How `doRequestWithRetry` retries the call under exponential backoff.
- The status gate and the stage labels on errors.
- How `handleFormsCCBResponse` turns the decoded XML envelope into
  `FormResponse` records.
- The older `formResponseHandler` (ccb.go). It uses the same record
  projection but a different empty-page rule.

Modules, one per component:

- `Wrappers`: `Option` and `Result`.
- `Decimal`: `strconv.Itoa`, the zero-padded numeric fields of a Go time
  layout, and the decimal reading that inverts them.
- `Query`: `GetFormResponsesRequest`, the date, the `"2006-01-02"` layout,
  `url.Values` as a map from key to its list of values, and `BuildQuery`.
- `Envelope`: the `form_responses` and `errors` parts of both XML
  envelopes, with every nilable Go pointer as an `Option`.
- `Projection`: the per-record loops both handlers share. The profile
  fields fold into a map, titles pair with choices by index, and the list
  of records is projected in order.
- `Retry`: the retry loop. The variables the retried closure captures
  (`resp`, `retryCount`, `retryErr`, `retryRespStatusCode`) are the fields
  of a `RetryState` class. `backoff.Retry` is a `while` loop proved
  against a closed-form reference, `RetrySpec`.
- `Service`: `handleFormsCCBResponse` and `GetFormResponses`.
- `Handler`: `formResponseHandler` of ccb.go.

Each loop of the Go code (the profile loop, the answers loop, the record
loop, the retry loop) is a Dafny `while` loop in a method. The method's
postcondition equates its result with a reference function. Lemmas then
prove what the source promises about that function.

The outside world enters as inputs:

- Each call to `client.Do` has a given outcome, an `Attempt`: a transport
  error, or a response with a status and a body.
- The 15-second elapsed-time budget of the backoff policy is `maxAttempts`,
  the number of attempts the budget admits. The first attempt is always
  made, so `0 < maxAttempts <= |outcomes|`.
- A response body carries what the XML decoder makes of it: a decoded
  envelope, or the decoder's error text.
- A failure of `http.NewRequestWithContext` is the input `createError`.

The Go code dereferences `ProfileFields`, `Answers`, `Form` (and in ccb.go
`FormResponses`) without a nil check. It also indexes `Choice[i]` for each
title. Each of these is an explicit panic outcome, in the order the Go code
reaches it.

Behaviour of the code that is easy to mistake:

- Statuses 500, 503 and 504 are retried (`StatusGatewayTimeout`). 502 is
  not retried.
- When there are fewer choices than titles, the answers loop panics on the
  first title without a choice. Extra choices are ignored. Nothing checks
  that the two lists have the same length.
- An upstream `errors` section gives the fixed message "errors returned
  from CCB response". The error list itself is only logged.
- A non-200 status gives "unexpected response from CCB: <status>". The
  body is read only for the log.
- An exhausted budget gives "failed to call CCB service after N retries:
  unsuccessful response from CCB service". N is the value of `retryCount`,
  which then equals the number of attempts made.
- An empty page of `handleFormsCCBResponse` is a nil slice, modelled as
  the empty sequence.

## Model

| member | source | states |
|---|---|---|
| `Decimal.NatDigits` | lib/ccb/ccb.go:97-99 | the decimal rendering of a natural number is a non-empty string of digits that has a leading zero only for 0 itself |
| `Decimal.ItoaRoundTrip` | lib/ccb/ccb.go:97-99 | the text `strconv.Itoa` gives any integer, negative ones included, reads back as that same integer |
| `Decimal.PaddedIntValue` | lib/ccb/ccb.go:100-103 | a layout field of width w for 0 <= x < 10^w is exactly w digits whose value is x |
| `Query.FormatDateRoundTrip` | lib/ccb/ccb.go:100-103 | a date with a four-digit year renders as exactly ten characters YYYY-MM-DD, with no time of day, and reads back as the same date |
| `Query.BuildQuery` | lib/ccb/ccb.go:94-103 | the query has exactly the keys srv, page, per_page and form_id, plus modified_since if and only if a date is given; each key has one value; srv is form_responses; page, per_page and form_id are the decimal renderings of the request fields and read back as them; modified_since is the date as YYYY-MM-DD |
| `Projection.AssocLastWriteWins` | lib/ccb/ccb.go:163-174 | assigning pairs into a map in order leaves exactly the keys of the pairs, and each key maps to the value of its last pair |
| `Projection.BuildProfileInfo` | lib/ccb/ccb.go:166-169 | the profile loop builds the name-to-text map: every name present, each with the text of its last entry |
| `Projection.BuildAnswers` | lib/ccb/ccb.go:171-174 | the answers loop maps Title[i] to Choice[i] for every title, the last duplicate title winning; with fewer choices than titles it panics with an index equal to the length of Choice out of range |
| `Projection.ProjectRecord` | lib/ccb/ccb.go:162-186 | the body of the record loop equals the reference projection, the nil-pointer and index panics included |
| `Projection.ProjectRecordProperties` | lib/ccb/ccb.go:161-188 | a record projects exactly when ProfileFields, Answers and Form are present and there are at least as many choices as titles; its id is Form.ID and not the record's own id; Created and Modified are copied; the profile and answer maps are last-write-wins folds |
| `Projection.ExtraChoicesIgnored` | lib/ccb/ccb.go:172-174 | choices beyond the number of titles do not affect the projection |
| `Projection.ProjectRecords` | lib/ccb/ccb.go:160-188 | the record loop equals the reference projection of the list: the first panic, or every record's projection appended in order |
| `Projection.ProjectAllProperties` | lib/ccb/ccb.go:160-188 | the list projection completes exactly when every record projects; then it has one output per record, in upstream order; otherwise it panics with the panic of the first record that does not project |
| `Retry.RetryState.constructor` | lib/ccb/ccb.go:200-203 | the captured variables start as nil response, status 0, retry count 0 and nil error |
| `Retry.RetryState.HandleRetryError` | lib/ccb/ccb.go:205-218 | a nil error changes nothing; any other error adds exactly one to retryCount, records the error, records the current response's status, and is returned |
| `Retry.RetryState.Operation` | lib/ccb/ccb.go:235-253 | one attempt: a transport error clears resp and is permanent; status 500, 503 or 504 is retryable and counted once; any other status succeeds and leaves the counters alone |
| `Retry.FirstFinal` | lib/ccb/ccb.go:247-250 | the index where the loop settles: every earlier attempt was a 500/503/504 response, and the attempt at that index is not one |
| `Retry.DoRequestWithRetry` | lib/ccb/ccb.go:191-259 | a nil request fails with "req is nil" and no attempt is made; otherwise the backoff loop over the RetryState gives exactly the reference outcome: its result, its attempt count and its retryCount |
| `Retry.RetrySpecProperties` | lib/ccb/ccb.go:224-258 | every attempt but the last was retryable; retryCount is the number of retryable responses seen; the loop succeeds exactly when the last status is not 500, 503 or 504 (3xx, 4xx, 502 and non-200 2xx included), and then returns that response unchanged; a transport error ends the loop with an error carrying the retry count; an all-retryable run uses the whole budget |
| `Retry.RetryBudgetOnlyBoundsRetries` | lib/ccb/ccb.go:196-198 | a loop that settled before its budget ran out settles the same way under any larger budget |
| `Retry.RetryTwiceThenOk` | lib/ccb/ccb.go:205-258 | the outcomes 503, 503, 200 give three attempts, retryCount 2, and the 200 response |
| `Retry.AllRetryableExhausts` | lib/ccb/ccb.go:247-256 | when every admitted attempt is a 500, 503 or 504 response, the call fails after maxAttempts attempts with "failed to call CCB service after maxAttempts retries: unsuccessful response from CCB service" |
| `Retry.TransportErrorIsPermanent` | lib/ccb/ccb.go:240-243 | a transport error on the first attempt gives one attempt, no retry, and an error that names 0 retries and the transport message |
| `Service.HandleFormsCCBResponse` | lib/ccb/ccb.go:140-189 | the handler equals the reference outcome: decode error, upstream errors, empty page, or the projection of the records |
| `Service.HandleProperties` | lib/ccb/ccb.go:143-158 | a malformed body is "unmarshal xml body: " plus the decoder error; a non-empty errors list is an error whatever the form responses hold; with no errors, an absent section or a Count of 0 gives an empty result whatever the list holds; otherwise there is one projection per record, in order, exactly when every record projects |
| `Service.GetFormResponses` | lib/ccb/ccb.go:86-138 | the pipeline sends the form_responses query, makes the retry loop's attempts (none when the request cannot be built) and gives the reference outcome |
| `Service.GetFormResponsesStages` | lib/ccb/ccb.go:106-133 | each error is its stage's label followed by that stage's error: "create request: " plus the request-building error, "do request with retry: " plus the retry loop's error, "unexpected response from CCB: " plus any final status other than exactly 200, "handle forms in CCB response: " plus the handler's error; a result or a panic comes only from a 200 response and is the projection or the panic of its body |
| `Service.OneRecordScenario` | lib/ccb/ccb.go:94-188 | a first-attempt 200 page with one record (profile Email, title Q1 answered Yes, form id 85) gives one response with id "85" and the one-entry maps |
| `Handler.FormResponseHandler` | ccb.go:72-128 | the handler equals the reference outcome: a panic when FormResponses is absent, 404 "No results found" for a Count of 0, otherwise the projected records with the upstream Count |
| `Handler.FormResponseHandlerProperties` | ccb.go:72-117 | FormResponses must be present; a Count of 0 gives status 404 with "No results found" and builds no response; otherwise the output Count equals the upstream Count, and there is one FormData per record, in upstream order, exactly when every record projects |
| `Handler.NonZeroCountEmptyList` | ccb.go:81-108 | a nonzero Count with an empty record list gives zero responses, not 404 |

## Left out

- HTTP I/O: `http.Client.Do`, `SetBasicAuth`, the credentials and the API
  URL. It is network I/O, so each attempt's outcome is an input. A failure
  of `http.NewRequestWithContext` is the input `createError`.
- `url.Values.Encode` (percent-encoding, key order) and the URL string. It
  is a foreign library call; the query is modelled as the map it encodes.
- The per-attempt `context.WithTimeout` and caller cancellation. This is
  concurrency; a timed-out attempt appears as a transport-error outcome.
- Backoff timing (100 ms initial interval, the multiplier, the
  randomisation, the 15 s maximum elapsed time). These are foreign-library
  and clock behaviour, so the budget is the number of attempts it admits.
- XML decoding. It is a foreign library; a body carries its decoded
  envelope or the decoder's error. The `request`, `service`,
  `service_action`, `availability` and `individuals` parts of the envelope
  are not read by the pipeline and are not modelled.
- Logging: logrus fields, `dumpResponse`, the vouslog logger and the
  middleware. This is telemetry only. The best-effort body read on a
  non-200 status only feeds the log and is left out with it.
- The JSON marshalling in `formResponseHandler`, and its 500 "Error
  marshalling to JSON" branch: marshalling strings and string maps cannot
  fail. Writing to the iris context is an outcome value instead.
- Recovery of a panic by the web framework: a panic is an outcome, and
  what the server does with it is outside this model.
- Nil versus empty slices: an empty result is the empty sequence either
  way, so JSON `null` versus `[]` is not modelled.
- Go's 64-bit `int`: page, page size, form id and count are unbounded
  integers. No Go value overflows in these operations, and `Itoa` agrees
  with `strconv.Itoa` on every 64-bit value.
- `makeCCBRequest` and `whoIsResponseHandler` in ccb.go, main.go,
  autopilot.go, formResponses.go and the commented-out code of
  lib/ccb/ccb.go. They are network handlers, routing, type declarations or
  dead code.
- Query.FormatDateRoundTrip: proved only for years 0 to 9999. `FormatDate`
  itself renders other years as Go does (a minus sign, or more than four
  digits), but those no longer have the ten-character YYYY-MM-DD shape.
