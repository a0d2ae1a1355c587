# Dashboard service handlers, modelled in Dafny

This project models the request handlers of a small dashboard web service. The service talks to three kinds of outside system: a Firestore database, a countries API and a currency API. Users register a dashboard configuration: a country and a set of feature switches. They then ask for the dashboard, which fetches live data for that country. They can also register webhooks, which are called when an event happens for a country.

The model covers four source files:

- `handler/registrationHandler.go`:
  - method routing;
  - `postRegistration`, including the country check, the currency filter, the missing-field report of `updatedData` and the loop that draws a fresh identifier;
  - `deleteDashboard`;
  - `isEmptyField`.
- `handler/notificationHandler.go`:
  - method routing and `deleteWebhook`;
  - event validation and the localhost-port rule;
  - `postWebhook`, including its identifier loop;
  - `invocationHandler`, `checkWebhook` and `triggerEvent`, which selects the subscribed webhooks, answers an undecodable document with a 500, and panics after writing the 500 of a failing iterator.
- `utils/idGenerator.go`: the 62-character rune table and the identifier generator.
- `handler/dashboardHandler.go`:
  - method routing;
  - `DashboardFunc`, from the identifier in the path to the assembled dashboard;
  - `retrieveCountryData`'s loop that keeps the last record;
  - the projection of exchange rates onto the requested currencies;
  - the gating of each output field by its feature switch.

How the model stands in for the outside world:

- **Response writer.** A response writer is a value `Http.Writer(headerSent, status, body)`.
  - The first `WriteHeader`, or the first body write, fixes the status.
  - Later writes only append to the body.
  - `http.Error` sets the status, then writes the message and a newline.
- **Database.** A Firestore collection is a sequence of documents, in the order its queries return them.
  - A query that fails is a boolean parameter.
  - So is an `Add` that fails.
  - So is a `Delete` that fails.
- **HTTP lookups.** Every lookup is an oracle: a function from the requested URL to what `fetchURLdata` decoded, or to the `FetchError` it met.
  - The URL probe of `postWebhook` is an oracle from a URL to a status code.
  - `None` means the GET itself failed.
- **Randomness.** The random draws of `rand.Intn` are given as sequences of indices into the rune table.
- **Identifier loop.** The loop `for { uniqueID = GenerateUID(5) ... }` runs over a finite sequence of attempts. Each attempt holds its draws and whether the collision query errs.
  - `IdRetry.FirstFree` is the first attempt that breaks the loop.
  - `Unfinished` means every supplied attempt collided.
- **Handler endings.** A handler either returns, leaving its writer and the new collection, or stops in a Go runtime panic. The panic cases are an out-of-range index or slice. Each module has its own outcome type for this.

Where the tests and the code disagree, the model follows the code:

- `TestInvocationHandler` expects status 200 for the event "INVALID". `invocationHandler` writes a 404 "No webhook invocation" for it.

## Model

| member | source | states |
|---|---|---|
| Idgen.RuneAt | utils/idGenerator.go:15 | the character at position `i` of the rune table is a letter or a digit |
| Idgen.RunesBlocks | utils/idGenerator.go:15 | the table has 62 characters, and position `i` holds upper-case letters, then lower-case letters, then digits |
| Idgen.RunesAlphabet | utils/idGenerator.go:15 | the table has 62 distinct characters, and a character is in it exactly when it is an ASCII letter or digit |
| Idgen.UidOf | utils/idGenerator.go:18-27 | the identifier has one character per draw |
| Idgen.UidAlphanumeric | utils/idGenerator.go:18-27 | every character of a generated identifier is an ASCII letter or digit |
| Idgen.GenerateUid | utils/idGenerator.go:18-27 | an identifier of length `n` whose character `i` is the rune-table entry picked by draw `i` |
| IdRetry.CandidateAt | handler/registrationHandler.go:101-102 | every identifier drawn in the loop has length 5 |
| IdRetry.FirstFreeFromSpec | handler/registrationHandler.go:101-121 | the loop stops at the first attempt whose query errs or whose identifier is free; every earlier attempt collided; without an error the chosen identifier is not taken; `Unfinished` means every attempt collided |
| IdRetry.FirstChoiceFree | handler/registrationHandler.go:101-111 | a free first draw is taken at once |
| IdRetry.PickUniqueId | handler/registrationHandler.go:98-121 | the loop as a method returns exactly the first free pick, of length 5, not in the taken set unless the query erred |
| Registration.IsEmptyFieldExactly | handler/registrationHandler.go:299-310 | a value is empty exactly when it is the empty string, a nil `*bool` or a zero-length `[]string`; values of other types never are |
| Registration.IsEmptyFieldExamples | handler/registrationHandler.go:299-310 | the empty and non-empty cases of each of the three types |
| Registration.MissingFromAllEmpty | handler/registrationHandler.go:503-562 | when every field from `k` on is empty, all their names are reported in order |
| Registration.MissingFromNoneEmpty | handler/registrationHandler.go:503-562 | when no field from `k` on is empty, none is reported |
| Registration.MissingSpec | handler/registrationHandler.go:503-562 | a name is reported exactly when its field is empty; the report follows the order of the fields and has no repeats; the report is empty exactly when every field is filled |
| Registration.AllEmptyMissesAll | handler/registrationHandler.go:503-562 | an input with every field empty reports all nine names |
| Registration.CountryAndIsoMissing | handler/registrationHandler.go:503-562 | an input missing only the country and the ISO code reports exactly "Country", "IsoCode" |
| Registration.FirstFailed | handler/registrationHandler.go:567-614 | the position of the first currency lookup that failed, with every earlier lookup fetched |
| Registration.Upper3Spec | handler/registrationHandler.go:577-590 | a code becomes a candidate exactly when it has three characters, upper-cased |
| Registration.CheckedCurrenciesSpec | handler/registrationHandler.go:567-614 | the result is nil exactly when some candidate's lookup fails; otherwise the writer is untouched, and the result holds exactly the candidates answered "success", without repeats, in request order, as upper-case 3-character codes |
| Registration.QueriedSpec | handler/registrationHandler.go:567-614 | each code is asked about at most once, and only a three-character request code is asked about |
| Registration.CheckCurrenciesExample | handler/registrationHandler.go:567-614 | the request ["NOK", "EUR", "INVALID"] with both codes accepted yields ["NOK", "EUR"] and writes nothing |
| Registration.ValidCurrenciesAnyWriter | handler/registrationHandler.go:567-614 | the filtered currencies do not depend on what was written before |
| Registration.CheckCurrencies | handler/registrationHandler.go:567-614 | the loop returns the result, the codes it queried and the writer of the specification |
| Registration.Record.constructor | handler/registrationHandler.go:503-562 | a record holds the document it is built from |
| Registration.MergedSpec | handler/registrationHandler.go:503-562 | field by field, a non-empty input replaces the stored value and an empty one keeps it; filled currencies are replaced by their filtered form; the identifier is never changed |
| Registration.MergeEmptyInput | handler/registrationHandler.go:503-562 | an empty input leaves the stored document and the writer unchanged |
| Registration.MergeFullInput | handler/registrationHandler.go:503-562 | a fully filled input replaces every field except the identifier |
| Registration.MergeFields | handler/registrationHandler.go:503-562 | the field-by-field loop yields the merge, the missing-field report, the flag "report is non-empty", and the writer of the specification |
| Registration.UpdatedData | handler/registrationHandler.go:503-562 | `updatedData` changes only the target record, to the merge of the old target and input; it returns the missing-field report of the input |
| Registration.MissingUpToAll | handler/registrationHandler.go:503-562 | the report built front to back over all nine fields is the whole report |
| Registration.CheckCountrySpec | handler/registrationHandler.go:618-659 | a name lookup that succeeded decides the country; otherwise a successful ISO lookup decides it; "no valid countries" is returned exactly when both fail; a failed name lookup writes a 500 |
| Registration.CheckCountryNameFirst | handler/registrationHandler.go:618-659 | once the name lookup succeeds, the ISO lookup's answer is irrelevant |
| Registration.CheckCountryResolvedFrom | handler/registrationHandler.go:618-659 | a resolved country is the first record of the lookup that decided it |
| Registration.PostRegistration | handler/registrationHandler.go:59-156 | the handler after decoding gives the outcome of its specification: guard, country check, currency check, missing fields, identifier loop, add, reply |
| Registration.RegistrationBothEmpty | handler/registrationHandler.go:78-82 | with both country and ISO code empty, the reply is the 400 "Fields 'Country' and 'Isocode' are empty" and nothing is stored, whatever the lookups answer |
| Registration.RegistrationAdds | handler/registrationHandler.go:84-138 | a registration that stores something: no field was missing, the add succeeded, one document was appended carrying the loop's identifier (fresh unless the query erred), the resolved country and the filtered currencies |
| Registration.RegistrationKeepsIdsUnique | handler/registrationHandler.go:98-138 | without query errors, a registration keeps identifiers in the collection unique |
| Registration.RegistrationAddsAtMostOne | handler/registrationHandler.go:59-156 | a registration leaves the collection as it was, or appends exactly one document |
| Registration.DeleteNeedsId | handler/registrationHandler.go:255-266 | the reply is the 400 "Dashboard ID not provided", with nothing deleted, exactly when the path has no fifth segment or that segment is empty |
| Registration.DeleteWithoutId | handler/registrationHandler.go:255-266 | the request path "/dashboard/" is refused with that 400 |
| Registration.RegistrationPathSegment | handler/registrationHandler.go:257-258 | under the registrations path, the fifth segment is the identifier that follows the path |
| Registration.DeleteRemovesFirstMatch | handler/registrationHandler.go:255-296 | a 204 means an identifier was given, the query and the delete succeeded, and exactly the first document with that identifier was removed; any other reply leaves the collection unchanged |
| Registration.RouteRegistrationTable | handler/registrationHandler.go:37-54 | POST, GET, PUT, PATCH and DELETE each reach their handler; any other method gets a 405 naming the method |
| Registration.RouteRegistrationHead | handler/registrationHandler.go:50-52 | HEAD is refused with "Unsupported request methodHEAD" and a 405 |
| Notification.ValidateEvent | handler/notificationHandler.go:62-64 | an event is valid exactly when it is one of the four event names |
| Notification.ValidateEventCases | handler/notificationHandler.go:62-64 | there are four events, and event names are matched case-sensitively ("Temperature" and "INVALID" are refused) |
| Notification.IsDigit | handler/notificationHandler.go:66-68 | a character is a digit exactly when it is one of '0' through '9' |
| Notification.CheckLocalPort | handler/notificationHandler.go:94-119 | the check after "http://localhost:" passes exactly when at least five characters follow, the fifth is '/' and the first four are digits |
| Notification.PortAndSlashShape | handler/notificationHandler.go:94-119 | the accepted rests are exactly a four-digit port, a slash, and any path |
| Notification.PortAndSlashExamples | handler/notificationHandler.go:94-119 | too short, no slash, or a non-digit in the port are refused; "8000/path" and "1234/" pass |
| Notification.PostWebhook | handler/notificationHandler.go:70-189 | the handler after decoding gives the outcome of its specification, with the identifier loop querying the dashboard collection |
| Notification.PostWebhookFixed | handler/notificationHandler.go:141-176 | a webhook is only added with an identifier the loop picked, and that identifier is not already a webhook's unless the query erred |
| Notification.PostWebhookNeedsFields | handler/notificationHandler.go:84-87 | a missing URL or event gives the 400 "Not all needed elements are included", with nothing stored |
| Notification.PostWebhookChecksEvent | handler/notificationHandler.go:89-92 | an unknown event gives the 400 "Event is not added in correctly", with nothing stored |
| Notification.PostWebhookLocalhostRule | handler/notificationHandler.go:94-127 | a localhost URL is never probed, so only the country lookup matters; without a valid port and slash it gives the 400 "Localhost url is not valid" |
| Notification.PostWebhookLocalhostExamples | handler/notificationHandler.go:94-119 | three malformed localhost URLs are refused with that 400 |
| Notification.PostWebhookCountryRule | handler/notificationHandler.go:128-137 | with a valid URL and event, a lookup of the country that answers is refused as "isocode: ... is not valid" exactly when it answers 400 and the country is non-empty |
| Notification.PostWebhookStores | handler/notificationHandler.go:70-187 | a webhook is stored only when the body decoded, its URL and event are valid, and the add succeeded; the stored hook has the loop's identifier and the upper-cased country; the reply is 200 with the identifier as JSON |
| Notification.PostWebhookAddsAtMostOne | handler/notificationHandler.go:70-187 | at most one webhook is appended, and any non-200 reply stores nothing |
| Notification.PostWebhookFixedKeepsIdsUnique | handler/notificationHandler.go:141-176 | with the collision query against the webhooks, webhook identifiers stay unique |
| Notification.PostWebhookDuplicateId | handler/notificationHandler.go:141-176 | as written, a draw equal to an existing webhook's identifier is stored again, so two webhooks share it; the fixed form keeps drawing instead |
| Notification.ExampleDraws | handler/notificationHandler.go:141-163 | the example draws yield "AAAAA", which is free among no dashboards but taken among the example webhooks |
| Notification.SubscribersSpec | handler/notificationHandler.go:331-335 | the webhooks the query returns are exactly those whose event is the event and whose country is the country or empty, each as often as it is stored |
| Notification.SubscribersInOrder | handler/notificationHandler.go:331-335 | the query's webhooks come in collection order: they sit at strictly increasing positions, and those positions are exactly the selected ones |
| Notification.TriggerEvent | handler/notificationHandler.go:326-360 | the loop over the query's documents ends or panics exactly as its specification says: a 500 for each document that does not decode, and a failing iterator writes its 500 and then panics in `DataTo` on the nil document |
| Notification.CallsForSpec | handler/notificationHandler.go:349-357 | each document gets exactly one `callUrl`, in order: its webhook, or the undecoded message when `DataTo` fails |
| Notification.WritesForSpec | handler/notificationHandler.go:349-354 | documents that decode write nothing; one that does not decode sends a 500 unless a status was already sent, and the body only grows |
| Notification.TriggerFinished | handler/notificationHandler.go:336-358 | an iteration that reaches its end makes one call per subscriber, in order, and writes nothing when every document decodes |
| Notification.TriggerFailurePanics | handler/notificationHandler.go:336-354 | a failing `Next` sends a 500 unless a status was already sent and appends its message to what the earlier rounds wrote; the handler then panics, having started exactly the calls for the documents before the failure, in order |
| Notification.FirstNextFails | handler/notificationHandler.go:336-354 | when the first `Next` fails on a fresh writer, the status is 500, the body is the iteration message and a newline, and no call is started |
| Notification.WritesKeepSentStatus | handler/notificationHandler.go:349-354 | the documents' writes keep a status that was already sent, and add none but a 500 |
| Notification.AnyForCountry | handler/notificationHandler.go:300-321 | true exactly when some webhook is for the country or for every country |
| Notification.CheckWebhook | handler/notificationHandler.go:300-321 | true exactly when the query succeeds and some webhook is for the country or for every country |
| Notification.CheckWebhookCountryless | handler/notificationHandler.go:300-360 | a webhook without a country counts for every country, and fires on its event wherever it happens |
| Notification.RegisteredWebhookFires | handler/notificationHandler.go:165-176 | a newly registered webhook fires exactly for its event, in its upper-cased country or everywhere when it named none; this holds whatever set the identifier loop checks, so for the handler as written and for the corrected one |
| Notification.InvocationHandler | handler/notificationHandler.go:277-295 | one of the four events behaves as `triggerEvent` on the same writer, 500s and panic included; any other event writes the 404 "No webhook invocation" and calls nothing |
| Notification.InvocationCallsSubscribers | handler/notificationHandler.go:277-360 | for a valid event whose query works and whose documents all decode, nothing is written and every subscriber is called with its webhook, in order |
| Notification.DeleteWebhookNeedsId | handler/notificationHandler.go:36-60 | a path of fewer than five segments panics; an empty fifth segment gives the 400 "Webhook ID not provided"; otherwise the reply is 204, or 500 when the delete fails |
| Notification.DeleteWebhookTestPath | handler/notificationHandler.go:36-60 | the path "/dashboard/v1/webhook/" gets the 400 |
| Notification.EmptyIdRejected | handler/notificationHandler.go:36-60 | any path whose fifth segment exists and is empty gets the 400 "Webhook ID not provided", whether or not the delete would fail |
| Notification.DeleteWebhookUnderPath | handler/notificationHandler.go:36-60 | a non-empty identifier under the notifications path gets 204, or 500 when the delete fails |
| Notification.RouteNotificationTable | handler/notificationHandler.go:20-33 | POST, DELETE and GET each reach their handler; any other method gets a 405 naming the method and the notifications path |
| Dashboard.RouteDashboardTable | handler/dashboardHandler.go:63-74 | only GET shows a dashboard; any other method gets the 405 "Method ... not supported." |
| Dashboard.RouteDashboardExamples | handler/dashboardHandler.go:63-74 | POST gets "Method POST not supported." with a 405 |
| Dashboard.DashboardId | handler/dashboardHandler.go:84 | the identifier exists exactly when the path is at least as long as the dashboards path, and it is the rest of the path after that prefix's length |
| Dashboard.DashboardIdUnderPath | handler/dashboardHandler.go:84 | under the dashboards path, the identifier is what follows it |
| Dashboard.PickCountrySpec | handler/dashboardHandler.go:255-278 | no records give the zero values; otherwise the population and area come from the last record, and the capital is the first capital of the last record that has one |
| Dashboard.RetrieveCountryLoop | handler/dashboardHandler.go:255-278 | the loop returns exactly that pick |
| Dashboard.CountryDataUrlMissesSlash | handler/dashboardHandler.go:246-248 | as written, the country URL is ".../v3.1name/...", which is not under the countries-by-name path and differs from the registration's name lookup |
| Dashboard.CountryDataUrl | handler/dashboardHandler.go:246-248 | the corrected URL is under the countries-by-name path, and the escaped country adds no further path segment |
| Dashboard.CountryDataUrlIsNameLookup | handler/dashboardHandler.go:246-248 | the corrected URL is the one the registration's country check asks |
| Dashboard.ProjectRates | handler/dashboardHandler.go:176-190 | the result has exactly the requested currencies as keys, each mapped to its rate, or 0 when the rate is absent |
| Dashboard.ProjectedUnique | handler/dashboardHandler.go:176-190 | any map with those keys and values is the projection |
| Dashboard.ProjectedExamples | handler/dashboardHandler.go:176-190 | repeated currencies collapse, and an unknown currency maps to 0 |
| Dashboard.AssembleGated | handler/dashboardHandler.go:130-172 | the field-by-field assembly is the gated output with no rates yet |
| Dashboard.ShownCopiesAndGates | handler/dashboardHandler.go:130-193 | the country, ISO code, rates and time are copied; each of temperature, precipitation, capital, coordinates, area and population is its gathered value when its switch is on (temperature, precipitation, coordinates and area through the float formatter) and its zero value when it is off; with every switch off, only the rates remain |
| Dashboard.ShownIgnoresSwitchedOff | handler/dashboardHandler.go:130-172 | the data behind a switched-off feature does not affect the output |
| Dashboard.DashboardFunc | handler/dashboardHandler.go:81-205 | the handler gives the outcome of its specification for the root it passes to `retrieveCountryData`: identifier, document lookup, country at the URL as built, coordinates, weather, rates, assembly |
| Dashboard.DashboardWithoutId | handler/dashboardHandler.go:84-87 | a request for the bare dashboards path writes nothing and gets the default 200, for any countries root |
| Dashboard.DashboardShortPath | handler/dashboardHandler.go:84 | a path shorter than the dashboards path panics |
| Dashboard.DashboardLooksUpId | handler/dashboardHandler.go:84-193 | an unknown identifier gets the 404 "Document with ID ... not found"; a displayed dashboard belongs to the stored document with that identifier, copies its country and ISO code, and has exactly its currencies as keys |
| Dashboard.DashboardAsksGluedUrl | handler/dashboardHandler.go:246-253 | as written, the handler asks for the country at ".../v3.1name/" and the escaped country, and a failure there answers with the 500 naming that URL |
| Dashboard.FixedRootIsNameEndpoint | handler/dashboardHandler.go:246-248 | with the slash restored on the root, the URL built is the corrected name-endpoint URL |
| Dashboard.DashboardFixedAsksNameLookup | handler/dashboardHandler.go:246-253 | the corrected handler asks for the country at the URL of the registration's name lookup, and a failure names that URL |
| Http.ErrorOnFresh | handler/registrationHandler.go:74 | `http.Error` on an untouched writer gives exactly its status and its message with a newline |
| Http.ErrorKeepsStatus | handler/registrationHandler.go:84-88 | after a first error, a second one keeps the first status and appends its message |
| Text.FirstKeyed | handler/registrationHandler.go:159-170 | the position of the first record whose key is the identifier, with no earlier record carrying it: the document a `Limit(1)` query on that key returns |
| Text.JoinSplit | handler/notificationHandler.go:38 | joining the segments of a split with the separator gives back the path |
| Text.QueryEscapeSafe | handler/registrationHandler.go:623-629 | an escaped string holds only unreserved characters, '+' and '%' |
| Text.ToUpperIdempotent | handler/notificationHandler.go:165 | upper-casing twice is upper-casing once |
| Text.DedupSpec | handler/registrationHandler.go:577-590 | removing repeats keeps each element once, in the order of its first occurrence |

## Left out

- Firestore, HTTP and JSON are not modelled as such.
  - Queries, adds and deletes are sequences and failure flags.
  - Lookups are oracles from URL to decoded answer.
  - The decoding of request bodies is an `Option` of the decoded value.
  - JSON encoding failures ("failed to encode result") are not modelled.
  - The `Content-type` header is not modelled.
- `postRegistration`'s decode error (400 "Error: decoding JSON...") is not modelled. The model starts from a decoded input.
- Registration.CreatedReply and Notification.IdReply: the JSON replies put the identifier and the time stamp between quotes without the escaping of Go's encoder (`"`, `\`, `<`, `>`, `&`). The two agree for the alphanumeric identifiers the generator draws and for a time stamp without those characters, but the time stamp is an unconstrained parameter.
- `getDashboards`, `retrieveDocumentData`, `getWebHooks` and `retrieveWebHookData` are not modelled. They are Firestore reads and JSON encodes, and have no logic beyond those.
- `updateDashboard` is modelled only as far as routing and the `updatedData` it calls. Its Firestore set/update paths are not modelled.
- `callUrl` and the goroutines `triggerEvent` starts are not modelled. They are outgoing HTTP and concurrency. `TriggerEvent` returns the sequence of calls it would start.
- TriggerEvent: the panic after a failing `Next` rests on the Firestore client, which is not part of this model: `Next` returns a nil document with its error, and `DataTo` dereferences the nil document to build its own error. `Aborted` records the writer and the calls at the moment of the panic, not what the HTTP server does with the connection afterwards.
- TriggerEvent: the message `DataTo` leaves behind when it fails is `Undecoded`. Its partial contents are not modelled.
- `statusHandler.go` and `defaultHandler.go` are not part of this model.
- `deleteWebhook` deletes by Firestore document name. The model gives only its replies, not the effect on the store.
- Identifier loops run over a finite sequence of attempts, where Go loops until a free identifier is drawn. `Unfinished` stands for "still drawing".
- `rand.Intn` and `time.Now` are parameters.
  - Draws are given indices.
  - The time stamp is a given string.
  - `whatTimeNow`'s format is not modelled.
- Floating point is modelled as `real`.
  - `floatFormat` is a given function `format: real -> real`. Its error path, which cannot occur for finite numbers, is not modelled.
  - The averages of `retrieveWeather` are not modelled.
  - The formatting of coordinates into the forecast URL is a given function `forecastUrl`.
- Map iteration order is random in Go. In the model, the currencies of a country record are a sequence, and the currency taken is the first one of the last record that lists any.
- `GEOCODING_API` and `FORECAST_API` are used by `DashboardFunc`, but `utils/constants.go` does not define them. They are parameters (`geocodingApi` and `forecastUrl`).
- `DashboardFunc` returns an error value, which `DashboardHandler` ignores. It is not modelled. What was written is.
- The `Recieved_Dashboard` conversion of the stored document is not modelled. Its failure is the `dataFails` flag.
- `strings.ToUpper` and `url.QueryEscape` are modelled on ASCII. Other characters pass through `ToUpper` unchanged and are escaped byte-wise as single characters.
- A nil slice and an empty slice are both the empty sequence. `checkCurrencies`'s nil result is `None`.
- The dashboard lookup tests a query failure before the not-found case, where Go tests `iterator.Done` first. `getDocumentByID` reports "not found" as its own error value, so the two cannot both happen, and the replies agree.

## Findings

| source | as written | input that shows it | evidently intended | confidence | as-written member | corrected member |
|---|---|---|---|---|---|---|
| handler/notificationHandler.go:147 | the identifier-collision query of `postWebhook` searches `collection`, which is the "Dashboard" collection | one stored webhook "AAAAA", no dashboards, and a new webhook whose first draw is "AAAAA": it is stored with the same identifier | search the webhooks collection, so that webhook identifiers stay unique | not executed | Notification.PostWebhookDuplicateId | Notification.PostWebhookFixedKeepsIdsUnique |
| handler/dashboardHandler.go:248 | the country URL is `COUNTRIES_API + "name/%s"`, and `COUNTRIES_API` has no trailing slash | any country, e.g. "Norway": the URL is "http://129.241.150.113:8080/v3.1name/Norway" | the name endpoint ".../v3.1/name/Norway", the one `checkCountry` asks | not executed | Dashboard.DashboardAsksGluedUrl | Dashboard.DashboardFixedAsksNameLookup |
