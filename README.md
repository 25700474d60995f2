# Jala: a verified model of the data and payment core

Jala connects musicians with Feast committees. Committees post requests for music, musicians reply,
a committee confirms one musician per request, and the request is paid for through a hosted checkout.
This project models the parts of Jala whose behaviour can be stated precisely, and proves properties of
them:

- **Spreadsheet storage adapter** (`Sheets`). A table is a header row followed by data rows of text
  cells. Rows are read into records: each column becomes a field, `available` becomes a boolean and
  `performances` a number. Records are written back as cells. Rows are found by id with a linear scan
  that skips the header. The adapter appends, patches and deletes rows in place (class `Sheet`).
- **`/api/requests` handler** (`RequestsApi`). It dispatches on the HTTP method over the requests sheet,
  with its 400/404/405 rules.
- **Row-store storage adapter** (`RowStore`). `ToApi`/`FromApi` rename snake_case columns to camelCase
  fields and back. The `Table` class lists rows newest first and inserts, updates and deletes them.
- **Payment status rules**:
  - `PaymentStatus`: the status writes and what they do to the requests table.
  - `Checkout`: amount validation in cents, the platform fee, and the "Awaiting Payment" write.
  - `Webhook`: maps a provider event to a "Paid" or "Payment Expired" write.
  - `Verify`: the browser-initiated payment check.
  - `Reconciliation`: how the webhook and verify handlers combine on one session.
- **Browser client**:
  - `Entities`: the client's records, the status update and the last-write-wins match map.
  - `ClientState`: the data state the App component and the `useJalaData` hook hold, and its updates.
  - `MusiciansContext`: instrument categories and the six-bucket directory.
  - `AppViews`: suggestions, the community filter, the active count and responses grouped by request.
  - `MusicianEmail`: the e-mail draft to a musician.

External services are parameters of the model:

- Storage is an in-memory sheet or row sequence. The two stores never meet: `/api/requests` reads and
  writes the spreadsheet (`Sheets`), while the payment handlers write statuses into the row store's
  `requests` table (`RowStore`).
- The payment provider's answers (session created, event verified, session retrieved) are `Result` values.
- Fresh ids and the current time are strings passed in.
- Configuration checks are booleans.

Shared vocabulary lives in `Basics` (Option, Result, order-preserving `Filter`), `Text` (ASCII
lower-casing, substring search, lexicographic order), `Numbers` (JavaScript numbers restricted to
integers and NaN), `Json` (values, truthiness and string conversion) and `Http` (responses and the
shared error guard).

## Model

| member | source | states |
|---|---|---|
| Sheets.Columns | api/_sheets.js:5-22 | each table's column list; the id is the first column and no column repeats |
| Sheets.NormalizeRow | api/_sheets.js:44-54 | exactly one field per configured column, holding that column's cell (empty when the row is short) after coercion |
| Sheets.RawFields | api/_sheets.js:45-48 | the `forEach` fill: one key per column seen so far, holding that column's cell or '' |
| Sheets.MissingCellIsEmpty | api/_sheets.js:47 | a cell beyond the end of the row reads as '' |
| Sheets.AvailableCoercion | api/_sheets.js:50 | `available` is true iff the lower-cased cell equals "true" |
| Sheets.PerformancesCoercion | api/_sheets.js:51 | an empty `performances` cell gives 0 and any other cell `Number` of its text, so a cell whose first character is not a digit, a sign, '.', the 'I' of Infinity or white space gives NaN rather than 0 |
| Sheets.RowToArray | api/_sheets.js:56 | one cell per column in column order; absent, null and undefined fields become '', text fields their text, booleans "true"/"false" and numbers their `String` form |
| Sheets.RowToArrayOnlyColumns | api/_sheets.js:56 | fields outside the column list never reach the sheet |
| Sheets.CoerceText | api/_sheets.js:50-51 | re-reading the written text of a coerced cell gives the same value |
| Sheets.NormalizeSerializeRoundTrip | api/_sheets.js:44-56 | reading a row, writing the record back and reading again yields the same record |
| Sheets.NormalizeAll | api/_sheets.js:69 | every row is normalised, in order |
| Sheets.ListRows | api/_sheets.js:58-70 | no records when the sheet has at most one row; otherwise one record per data row, header dropped |
| Sheets.HeaderNeverListed | api/_sheets.js:66-69 | the listing does not depend on the header row |
| Sheets.FindFrom | api/_sheets.js:104-108 | the first row at or after a position whose first cell is the id, or -1 when none is |
| Sheets.DataRowIndex | api/_sheets.js:95-109 | -1 iff no data row holds the id; otherwise a data row (never the header) holding it, with no earlier data row holding it |
| Sheets.RowIndexById | api/_sheets.js:95-109 | the scan loop returns -1 iff no data row matches; otherwise the 1-based row number of the first matching data row |
| Sheets.WithIdentity | api/_sheets.js:75-83 | caller-supplied id, createdAt and updatedAt are kept when truthy, otherwise filled with the fresh id and `now`; other fields unchanged |
| Sheets.Sheet.AppendRow | api/_sheets.js:72-93 | exactly one row, the serialised completed payload, is added after the last row |
| Sheets.ListAfterAppend | api/_sheets.js:72-93 | after an append the listing is the old listing plus the new record |
| Sheets.Merged | api/_sheets.js:118-124 | existing fields, overwritten by the patch's fields; the id is the looked-up id and updatedAt is `now` |
| Sheets.Sheet.PatchRow | api/_sheets.js:111-134 | absent id: null and no write; otherwise only the found row is overwritten with the merged record's cells |
| Sheets.PatchReadsBack | api/_sheets.js:118-133 | after a patch, columns the patch does not touch read back as before |
| Sheets.ListAfterPatch | api/_sheets.js:126-133 | overwriting data row k changes exactly record k-1 of the listing |
| Sheets.RemoveAt | api/_sheets.js:148-150 | the rows before k are kept, the rows after k shift down by one |
| Sheets.Sheet.DeleteRow | api/_sheets.js:136-158 | false and no write when the id is absent; otherwise the sheet minus exactly the found row, others in order |
| Sheets.ListAfterDelete | api/_sheets.js:136-158 | after deleting data row k the listing loses exactly that record, the others keep their order |
| Sheets.WithErrorHandling | api/_sheets.js:160-172 | missing configuration gives 500 with the configuration message; a handler's own response passes through; a thrown error gives 500 with its message, or 'Unexpected server error' when that is empty |
| RequestsApi.RouteOf | api/requests.js:3-27 | GET lists, POST creates, PATCH/DELETE with a truthy id update/remove; the patch is the body without its id; DELETE reads the query id before the body id; a missing id and any other method are recognised exactly |
| RequestsApi.DeleteId | api/requests.js:18 | the query's id when it is truthy, otherwise the body's id (undefined without a body) |
| RequestsApi.PatchBodyIdIgnored | api/requests.js:10-12 | the id is never part of the patch |
| RequestsApi.Effect | api/requests.js:5-25 | GET answers 200 with the listed records and leaves the sheet; POST answers 201 with the completed payload and appends its row; PATCH of a found id answers 200 with the merged record and overwrites exactly that row; DELETE of a found id answers `{ ok: true }` and removes exactly that row; 404 'Not found' iff the id is not found; 400 'id is required' and 405 'Method not allowed' leave the sheet unchanged |
| RequestsApi.Dispatch | api/requests.js:5-25 | the sheet and the response after dispatch are exactly the route's effect |
| RequestsApi.Handle | api/requests.js:3-27 | missing configuration answers 500 without touching the sheet; otherwise the handler's response and sheet are the effect of the request's route |
| RowStore.WritableShape | api/_db.js:76-121 | each table's writable fields; any table name but responses, matches and musicians gets the requests fields |
| RowStore.ShapeDistinct | api/_db.js:21-121 | no two fields of a table share an API name or a column name |
| RowStore.Rename | api/_db.js:21-121 | the object literal: one key per pair, holding the source's value for the paired name |
| RowStore.ToApi | api/_db.js:21-74 | every API field of the table, timestamps included, read from its column |
| RowStore.FromApi | api/_db.js:76-121 | exactly the writable columns, each read from its API field; never `created_at` or `updated_at` |
| RowStore.ApiRoundTrip | api/_db.js:21-121 | mapping to a row and back keeps every writable field; createdAt and updatedAt come back undefined |
| RowStore.RowRoundTrip | api/_db.js:21-121 | mapping a row to the API and back keeps every writable column |
| RowStore.UnknownTableIsRequests | api/_db.js:63-73 | an unknown table name maps exactly like requests, in both directions |
| RowStore.MaybeRow | api/_db.js:123 | the first row of a non-empty result, none for an empty or absent one |
| RowStore.Merge | api/_db.js:132-145 | an update overwrites the columns it sets; columns it leaves undefined keep their value |
| RowStore.PatchRows | api/_db.js:141 | rows holding the id are merged with the update, all others are unchanged |
| RowStore.IndexOfId | api/_db.js:141-143 | the first row holding the id, or -1 exactly when none does |
| RowStore.PatchIdempotent | api/_db.js:139-145 | applying the same update twice equals applying it once |
| RowStore.StatusOnlyPatch | api/_db.js:139-145 | a status-only patch changes the status column and nothing else |
| RowStore.Insert | api/_db.js:127 | inserting keeps the multiset of rows |
| RowStore.InsertSorted | api/_db.js:127 | inserting into a newest-first listing keeps it newest first |
| RowStore.SortNewestFirst | api/_db.js:127 | a permutation of the rows ordered by created_at descending, nulls first |
| RowStore.AllToApi | api/_db.js:129 | every row is mapped to its API form, in order |
| RowStore.Table.ListRows | api/_db.js:125-130 | every stored row in API form, each exactly once, ordered newest first |
| RowStore.Table.AppendRow | api/_db.js:132-137 | one row is added: the database defaults merged with the writable columns; the answer is that row in API form |
| RowStore.AppendThenList | api/_db.js:125-137 | after an insert the listing includes the new record, carrying every field the payload set |
| RowStore.Table.PatchRow | api/_db.js:139-145 | every row holding the id is updated; none iff no row holds the id, otherwise the first updated row in API form |
| RowStore.Table.DeleteRow | api/_db.js:147-152 | every row holding the id is removed; the answer is true iff at least one was |
| RowStore.DeleteLeavesNoMatch | api/_db.js:147-152 | after a delete no row holds the id, every other row stays, and their order is kept |
| RowStore.WithErrorHandling | api/_db.js:154-166 | missing configuration gives 500 with the configuration message; a handler's own response passes through; a thrown error gives 500 with its message, or 'Unexpected server error' when that is empty |
| PaymentStatus.Written | api/_db.js:139-145 | a status write sets the status of exactly the rows holding the request id; no write changes nothing |
| PaymentStatus.ApplyWrite | api/payments/webhook.js:38 | performing a write through the adapter leaves exactly the written rows |
| PaymentStatus.WriteIdempotent | api/payments/webhook.js:38-46 | performing the same write twice equals performing it once |
| PaymentStatus.LaterWriteWins | api/payments/webhook.js:38-46 | writes are unconditional: of two writes to one request, the later status stays |
| Numbers.ParseRoundTrip | api/payments/checkout.js:44-48 | a number written into the session metadata with `String` reads back as the same number |
| Json.OrText | src/hooks/useJalaData.js:121-128 | `${v \|\| fallback}`: a truthy value gives its non-empty text, any other value the fallback |
| Checkout.PlatformFee | api/payments/checkout.js:24 | the fee is the nearest whole cent to a tenth of the base, halves rounding up |
| Checkout.FeeBounds | api/payments/checkout.js:20-25 | for every accepted base the fee is between 50 and 3000 and the total is at least the base |
| Checkout.FeeExample | api/payments/checkout.js:24-25 | a base of 10000 gives a fee of 1000 and a total of 11000 |
| Checkout.AmountBoundaries | api/payments/checkout.js:20 | 500 and 30000 are accepted; 499, 30001 and NaN are refused |
| Checkout.ToOrigin | api/payments/checkout.js:6-10 | the forwarded protocol, or https when it is missing, then `://`, then the forwarded host, or the Host header when that is missing |
| Checkout.PlanCheckout | api/payments/checkout.js:14-51 | 405 for other methods; 400 for a missing requestId or amount; 400 for an amount out of range; otherwise a session priced at base plus fee whose metadata reads back as the base and the fee, with success and cancel URLs on the request's origin, named after the committee and described by the needs, each with its default |
| Checkout.CheckoutEffect | api/payments/checkout.js:28-57 | the Awaiting Payment write happens iff the plan proceeds and the session is created; a provider error gives 500 with its message or the default |
| Checkout.HandleCheckout | api/payments/checkout.js:12-59 | the response and the requests table are exactly the plan's effect |
| Checkout.RejectedWritesNothing | api/payments/checkout.js:14-22 | a refused request answers 400 or 405 and writes no status |
| Webhook.WebhookWrite | api/payments/webhook.js:34-48 | Paid iff a completed event names a request and is paid; Payment Expired iff an expired event names a request; other events write nothing |
| Webhook.WebhookEffect | api/payments/webhook.js:20-54 | 405 for other methods; 400 without signature or secret; 400 with the error text when verification fails; 200 `{ received: true }` iff the event is verified; only then a write |
| Webhook.HandleWebhook | api/payments/webhook.js:20-54 | the response and the requests table are exactly the delivery's effect |
| Webhook.RedeliveryHarmless | api/payments/webhook.js:38-46 | delivering an event twice leaves the table as one delivery does |
| Verify.VerifyWrite | api/payments/verify.js:15-16 | a Paid write iff the session is paid and names a request |
| Verify.VerifyEffect | api/payments/verify.js:6-24 | 405 for other methods; 400 without a session id; 500 with the error text on a provider error; a paid session writes Paid and answers paid with its request id; any other retrieved session answers 200 `{ ok: true, paid: false }` without a write |
| Verify.HandleVerify | api/payments/verify.js:6-24 | the response and the requests table are exactly the check's effect |
| Reconciliation.WebhookAgreesWithVerify | api/payments/verify.js:15-16 | for a completed session the webhook and verify handlers decide on the same write |
| Reconciliation.PaidConverges | api/payments/verify.js:16 | webhook and verify for one paid session, in either order, end as one write does |
| Reconciliation.UnpaidVerifyKeepsExpiry | api/payments/verify.js:20 | verifying an unpaid session after its expiry leaves the request expired |
| Reconciliation.LateExpiryOverwritesPaid | api/payments/webhook.js:42-47 | an expiry arriving after payment overwrites Paid, since the current status is not checked |
| Entities.WithFallback | src/hooks/useJalaData.js:23-25 | a non-empty fetched collection is kept, an empty one replaced by its sample |
| Entities.WithStatus | src/hooks/useJalaData.js:147 | only requests with the id get the status, nothing else about any request changes |
| Entities.WithStatusIdempotent | src/hooks/useJalaData.js:147 | setting a status twice equals setting it once |
| Entities.MatchMap | src/hooks/useJalaData.js:27-29 | the keys are exactly the request ids that occur among the matches |
| Entities.LastMatchFor | src/hooks/useJalaData.js:28 | the last match for a request id, with no later match for it |
| Entities.MatchMapLastWins | src/hooks/useJalaData.js:27-29 | for duplicate request ids the later match's musician wins |
| Entities.MatchesByRequest | src/App.jsx:351-353 | the loop builds exactly the last-write-wins match map (the hook's loop is the same) |
| ClientState.MatchCall | src/hooks/useJalaData.js:138-143 | patch iff a match already exists under the rule in force, create otherwise; the call carries the request and musician ids |
| ClientState.RulesDiverge | src/App.jsx:398 | among string musician ids, the App's key test and the hook's truthiness test disagree exactly on a request mapped to an empty musician id |
| ClientState.CheckoutRequest | src/hooks/useJalaData.js:97-102 | the checkout body carries the new request's id, committee and needs and the form's amount |
| ClientState.DataState.Load | src/hooks/useJalaData.js:12-41 | after a successful load each collection is the fetched one or its sample, and the match map is rebuilt; on failure the samples are shown and the map is kept |
| ClientState.DataState.AddMusician | src/hooks/useJalaData.js:82-90 | sends the form with zero performances; a stored musician is prepended; nothing else changes |
| ClientState.DataState.AddRequest | src/hooks/useJalaData.js:92-113 | sends the form as Open; a stored request is prepended; the hook then asks for checkout for it |
| ClientState.DataState.ApplyVerifyResult | src/hooks/useJalaData.js:52-53 | a paid result sets only the request with that id to Paid; other results change nothing |
| ClientState.DataState.AcceptMusician | src/App.jsx:396-412 | the match call, then the status call; only when both succeed does exactly that request's map entry and status change |
| MusiciansContext.FirstMatching | src/context/MusiciansContext.jsx:13-18 | the reference rule: the first category in order whose pattern matches, else Other |
| MusiciansContext.FirstMatchingIsFirst | src/context/MusiciansContext.jsx:13-18 | the chosen category's pattern matches and no earlier category's does; Other only when no pattern matches |
| MusiciansContext.GetCategory | src/context/MusiciansContext.jsx:11-19 | the category is the reference rule applied to the lower-cased instrument in the order Vocals, Strings, Keys, Rhythm, Wind |
| MusiciansContext.CaseInsensitive | src/context/MusiciansContext.jsx:12 | an instrument and its lower-cased spelling fall in the same category |
| MusiciansContext.MissingInstrumentIsOther | src/context/MusiciansContext.jsx:11 | a missing instrument is Other |
| MusiciansContext.VocalsBeforeStrings | src/context/MusiciansContext.jsx:13-14 | "Vocal Guitar" is Singing & Vocals |
| MusiciansContext.Categorize | src/context/MusiciansContext.jsx:48-64 | all six buckets exist, and each holds exactly its category's musicians in input order |
| MusiciansContext.BucketsPartition | src/context/MusiciansContext.jsx:58-61 | the bucket sizes add up to the number of musicians |
| AppViews.ActiveMusicians | src/App.jsx:60 | equals the number of available musicians counted one by one; at most all of them, all of them iff every one is available, zero iff none is |
| AppViews.SuggestedMusicians | src/App.jsx:193-199 | at most three available musicians; if any available musician shares the community, the first three of those; otherwise the first three available |
| AppViews.FilteredRequests | src/App.jsx:228-231 | an empty filter keeps all requests; otherwise exactly those whose community contains the filter ignoring case, in order, each as often as in the input |
| AppViews.ResponsesByRequest | src/App.jsx:258-265 | one group per request id that occurs, each holding exactly that request's responses in order |
| MusicianEmail.Fill | src/hooks/useJalaData.js:121-129 | each of the five details is its own text when truthy and its placeholder otherwise; none is empty |
| MusicianEmail.DraftFor | src/hooks/useJalaData.js:115-133 | no draft iff the contact is missing or lacks '@'; otherwise a draft to the contact with the filled subject and body |
| MusicianEmail.AllPlaceholders | src/hooks/useJalaData.js:121-129 | with no details the draft reads Feast/Holy Day, TBC, Community member, Not provided and No additional notes |

## Left out

- Google Sheets, Supabase and Stripe clients are not modelled as code. The storage back-ends are
  in-memory tables that never fail. The provider's answers are parameters.
- Errors thrown by the storage back-ends are not modelled, and neither is a failing status write after a
  successful checkout session or paid verification.
- `constructEvent` signature verification is a parameter: the verified event or the message it threw.
- `readRawBody` (stream I/O), environment variable reads (booleans here), `crypto.randomUUID` and
  `new Date().toISOString()` (string parameters) are out of scope.
- Checkout.PlanCheckout: the amount in cents, `Math.round(Number(amountAud) * 100)`, is a parameter,
  because the floating-point arithmetic is not modelled.
- Checkout.PlatformFee: rounds `base * 0.1` exactly, as `(base + 5) / 10`; floating-point error in the
  product is ignored.
- Numbers.ParseNumber: JavaScript's `Number()` is modelled only for the empty string and optionally
  negative decimal integers. Every other text, including decimals, exponents and surrounding blanks,
  reads as NaN.
- Sheets.PerformancesCoercion: reads a cell with the integer-only `Number()` above. The source gives a
  number where the model gives NaN for cells such as "+7", " 7", ".5", "Infinity" and a blank-only cell
  (which is 0). Only the NaN clause for a first character no numeral can start with holds for both.
- ClientState.RulesDiverge: musician ids in the match map are strings. A row-store match whose
  `musician_id` is NULL arrives as `null`; the App's key test counts it as an existing match while the
  hook's truthiness test does not, a further disagreement the model cannot represent.
- Text.ToLower: lower-cases ASCII letters only.
- Json.Value has no nested objects or arrays.
- The spreadsheet adapter is modelled for the four configured tables. An unknown table name, which
  makes the source throw, is not a value of `SheetTable`.
- The spreadsheet range strings and the Sheets API's own formatting of cells are not modelled.
- `RowStore.Table.AppendRow` takes the database's column defaults (id, created_at, updated_at) as a
  record parameter.
- RowStore.SortNewestFirst orders timestamps by code-unit comparison. This equals chronological order
  only for ISO-8601 text in one format.
- MusiciansContext.GetCategory: `None` stands for an undefined instrument, which takes the `''` default.
  A null instrument (a NULL column passed through `toApi`) makes `getCategory` throw on `toLowerCase`;
  the model has no null instrument and so does not capture that crash.
- MusiciansContext.Categorize: keys the buckets by category rather than by label text.
  `Label` gives each bucket's key in the source.
- MusicianEmail.DraftFor: returns the unencoded draft. The `mailto:` URL, `encodeURIComponent`, the
  page redirect and the notices are not modelled.
- Only the data the views show is modelled, not how they show it. JSX rendering, CSS, notices and
  timers, `window.location` and `history` are out of scope.
- The hook's redirect to the checkout URL is not modelled. `ClientState.DataState.AddRequest` returns
  the checkout request body.
- The race between the webhook and verify handlers and the read-then-rewrite race in the spreadsheet
  delete are concurrency issues. The model applies operations one at a time.
- Not modelled: `api/musicians/all.js` (a pass-through to `listRows`), `src/lib/api.js` (a `fetch`
  wrapper), `src/hooks/useTabRouter.js` (browser navigation) and `src/main.jsx` (render bootstrap).
