# Event appointments — a Dafny model

This project is a Dafny model of the event-appointments system. That system has three parts:

- **web server:** an actix-web service over PostgreSQL. It stores appointments, issues
  invitations (one short URL and one QR code each), mails invitations to a list of addresses,
  and validates an invitation when its short URL is followed.
- **shared:** a crate with the domain values (`Uri`, `Email`, `NewAppointment`, `Invitation`,
  the duration serde helpers), the configuration settings and the QR client.
- **tickets CLI:** a command-line client. It builds a new appointment from console prompts
  (`create`), mails invitations (`send`), deletes appointments (`delete`) and writes the QR
  images of a fresh batch to disk (`generate`).

How the model works:

- The database is a class, `Store.Database`. Its tables are sequences of rows that its
  methods reassign.
- The route handlers are methods over that class. Where a handler's outcome needs more than
  its own contract, it is specified by a function that gives the reply and, where mail goes
  out, by a second function that gives the mails sent.
- Invitation validation only reads the tables. It is a function with a `reads` clause.
- A write transaction is `Begin`, one statement, then a commit. `Begin` records the tables
  as they are, and `RollBack` returns to that record when the commit fails.
- Standard input is a class, `Console.Stdin`. It holds the lines not yet read.
- Each CLI prompt is a method. It is proved equal to `Console.Ask`, which is a description
  of the retry loop as a function.

Foreign code is modelled as function-typed parameters:

- `url::Url::parse` and the `validator` URL check are one oracle, since they agree.
- `validate_email` and `Uuid::parse_str`.
- chrono's two date-time parsers.
- `Uuid::new_v4`, indexed by position in the batch.
- The URL shortener, the QR renderer and the QR file writer.
- The HTTP call that fetches a batch of invitations.

Database faults are parameters too (`TxFault`, or an `Option<string>` for a single statement).

A handler's outcome is a `Reply`: `Done(value)`, `Failed(CustomError)` or `Panicked(reason)`.
These panics are modelled as outcomes: the `unwrap` on the shortener's reply, the `unwrap` on
the QR renderer's reply, and the `expect`/`unwrap` calls in invitation validation. The
`expect` inside the `From` conversions of stored rows is a precondition instead. Those members
are named under "## Left out".

Behaviour of a debug build:

- `QueryBuilder::push_values` on an empty batch trips its debug assertion, so the model panics
  there.
- `minutes * 60` in the CLI's duration prompt overflows u64 and panics on a large input.

Three facts about invitation validation:

- `validate_invitation_by_id` never marks an invitation as used. So a valid invitation can be
  redeemed any number of times, and `Validation.ValidateInvitationById` is a read-only
  function.
- An unknown invitation id ends in sqlx's `RowNotFound`, which is reported as 500
  (`Validation.UnknownInvitationIs500`).
- An invitation is outdated when its date lies before midnight of the previous day
  (`Validation.RedeemSpec`).

Date-times are modelled as a triple: a day counted from chrono's minimum date, the second of
the day, and the nanoseconds. `Chrono.BeforeMatchesTimeline` shows that chrono's ordering
agrees with comparing nanoseconds on one timeline.

Integer widths are explicit:

- `usize as i32` wraps modulo 2^32.
- A duration is stored as `u64 as i64` and read back as `i64 as u64`. This round trip is
  exact for every value (`Ints.U64RoundTrip`).

## Model

| member | source | states |
|---|---|---|
| Ints.UsizeAsI32 | web_server/src/routes/appointment.rs:44 | `len() as i32` is the length itself below 2^31, and agrees with it modulo 2^32 always |
| Ints.U64AsI64 | web_server/src/repository/appointment.rs:30 | the stored `i64` is the same 64 bits in two's complement: values below 2^63 are kept, larger ones become the value minus 2^64 |
| Ints.I64AsU64 | shared/src/domain/appointment.rs:85 | reading `as u64` keeps non-negative values and adds 2^64 to negative ones |
| Ints.U64RoundTrip | shared/src/domain/appointment.rs:85 | every u64 duration stored as i64 reads back unchanged |
| Chrono.BeforeMatchesTimeline | web_server/src/routes/validation.rs:37 | `<` on date-times holds exactly when the first lies earlier on the nanosecond timeline |
| Chrono.PredDay | web_server/src/routes/validation.rs:31 | `pred_opt` fails only on the minimum date, otherwise gives the day before |
| Chrono.Midnight | web_server/src/routes/validation.rs:32-33 | midnight of a day lies on that day, and no time of that day is before it |
| Chrono.FromMillisExact | shared/src/configuration.rs:56-60 | `Duration::from_millis` keeps every millisecond; the sub-second part is whole milliseconds |
| Ids.Hyphenated | web_server/src/routes/invitation.rs:33 | a UUID's text is 36 characters long, with hyphens at positions 8, 13, 18 and 23 |
| Ids.HyphenatedInjective | web_server/src/routes/appointment.rs:52 | distinct ids get distinct texts, so every invitation of a batch asks for its own short URL |
| Text.TrimIsInnerSlice | tickets_cli/src/appointment/create.rs:21 | `trim` keeps an inner slice of the line that neither starts nor ends with white space |
| Text.TrimEmptyIffBlank | tickets_cli/src/appointment/send.rs:26 | a line trims to the empty string exactly when it is all white space |
| Text.TrimIdempotent | tickets_cli/src/appointment/create.rs:123 | trimming a trimmed line changes nothing |
| Text.ToLowercase | shared/src/configuration.rs:140 | lower-casing keeps the length, lower-cases each ASCII capital and leaves every other character alone |
| Text.ToLowercaseIdempotent | shared/src/configuration.rs:140 | lower-casing twice is lower-casing once |
| Text.ReplaceAbsent | web_server/src/routes/appointment.rs:72 | a template without the placeholder comes back unchanged |
| Text.ReplaceFirst | web_server/src/routes/invitation.rs:40 | the first placeholder is replaced, the text before it is kept and replacement goes on after it |
| Text.StringLessIrreflexive | shared/src/domain/email.rs:7-8 | the derived string order never puts a string before itself |
| Text.StringLessTransitive | shared/src/domain/email.rs:7-8 | the derived string order is transitive |
| Text.StringLessTotal | shared/src/domain/email.rs:7-8 | any two distinct strings are ordered one way or the other |
| Uris.Parse | shared/src/domain/uri.rs:10-16 | a parsed `Uri` holds exactly the input text |
| Uris.ParseSpec | shared/src/domain/uri.rs:10-16 | `parse` accepts exactly the URLs that validate and start with `http://` or `https://`; its error names the input |
| Uris.ParseRejectsWithoutScheme | shared/src/domain/uri.rs:78-89 | the empty string and a misspelt scheme (`htp://…`) are refused, whatever the URL validator says |
| Uris.ParseRejectsMissingDomain | shared/src/domain/uri.rs:91-95 | `https://` with no host is refused once the URL parser refuses it |
| Uris.ViewsGiveParsedInput | shared/src/domain/uri.rs:18-52 | `into_inner`, `as_ref` and `to_string` all give back the text that was parsed |
| Uris.SerdeRoundTrip | shared/src/domain/uri.rs:29-46 | a valid `Uri` serialized and deserialized comes back equal |
| Uris.FromString | shared/src/domain/uri.rs:62-66 | `Uri::from(String)` on text that parses gives a valid `Uri` of exactly that text |
| Uris.ConversionsAgree | shared/src/domain/uri.rs:54-66 | `from_str` and `parse` agree, and `from` agrees with them on valid text |
| Configuration.AsStrIsLowercase | shared/src/configuration.rs:127-133 | each environment's name is lower-case |
| Configuration.EnvironmentRoundTrip | shared/src/configuration.rs:126-149 | parsing an environment's name gives that environment back |
| Configuration.TryFromIgnoresCase | shared/src/configuration.rs:140 | parsing an environment ignores letter case |
| Configuration.TryFromSpec | shared/src/configuration.rs:136-149 | accepted exactly when the lower-cased input names an environment, and then it is that environment; an error starts with the lower-cased input |
| Configuration.ConnectionOptionsBase | shared/src/configuration.rs:73-85 | host, user, password and port are copied; SSL is required exactly when configured, preferred otherwise; no database is named |
| Configuration.ConnectionOptionsWithDb | shared/src/configuration.rs:87-89 | the same options as the base, with the configured database named |
| Configuration.TimeoutsAreConfiguredMillis | shared/src/configuration.rs:56-69 | both client time-outs are exactly the configured milliseconds |
| Errors.StatusCodeClassifies | web_server/src/error.rs:42-55 | the server-side variants are exactly the 500s; every other variant has its own 4xx code: 403, 404, 409, 401 and 400 |
| Errors.BusinessErrorsShowTheirMessage | web_server/src/error.rs:12-40 | a 403, 404 or 409 response carries its own message as the body, with a status that is not 500 |
| Domain.ParseEmail | shared/src/domain/email.rs:12-18 | an address is accepted exactly when the validator accepts it, and kept as it is; the error quotes it |
| Domain.DurationRoundTrip | shared/src/domain/appointment.rs:18-32 | serializing keeps the whole seconds and drops the rest, so the round trip is exact just for whole-second durations |
| Domain.DurationSecondsRoundTrip | shared/src/domain/appointment.rs:18-32 | seconds read as a duration and written back are unchanged |
| Domain.ParseLink | shared/src/domain/appointment.rs:73-76 | no stored link gives `None`; a stored link gives the parsed URL of that text |
| Domain.AppointmentFromDb | shared/src/domain/appointment.rs:71-88 | the stored appointment's fields are kept; the duration is the stored `i64` as whole seconds |
| Domain.AppointmentWithInvitationFromDb | shared/src/domain/appointment.rs:114-132 | the joined row's fields are kept, with both URLs parsed and the duration converted |
| Domain.InvitationFromDb | shared/src/domain/invitation.rs:36-45 | the stored invitation's fields are kept and its short URL is a `Uri` of the stored text |
| Store.Where | web_server/src/repository/invitation.rs:15-22 | a filtered query returns exactly the rows with that id; no filter returns the whole table |
| Store.WhereCounts | web_server/src/repository/invitation.rs:15-22 | each selected row comes back as many times as it is stored, and no other row comes back |
| Store.WhereSnoc | web_server/src/repository/invitation.rs:15-22 | the selection keeps table order: a row at the end of the table is selected last, exactly when it passes the filter |
| Store.FirstIndex | web_server/src/routes/invitation.rs:36 | finds the first row with the id, or reports that there is none |
| Store.WhereFirst | web_server/src/routes/invitation.rs:36-38 | the first row of a filtered query is the first stored row with that id |
| Store.WhereAbsent | web_server/src/routes/invitation.rs:32-34 | an id that is not stored gives an empty result |
| Store.InvitationRows | web_server/src/repository/invitation.rs:38-45 | one row per draft, in order, with its id, appointment and short URL text |
| Store.AppointmentStoreLoad | web_server/src/repository/appointment.rs:16-35 | a stored new appointment reads back with the same fields |
| Store.InvitationStoreLoad | web_server/src/repository/invitation.rs:38-45 | a stored invitation reads back with the same id, appointment and short URL |
| Store.InvitationsFromDb | web_server/src/repository/invitation.rs:25 | one invitation per row, in order |
| Store.WhereKeepsShortUrls | web_server/src/repository/invitation.rs:15-25 | filtering keeps parseable short URLs parseable |
| Store.KeptMembers | web_server/src/repository/appointment.rs:75-86 | after a delete the table holds exactly the other rows |
| Store.KeptUnique | web_server/src/repository/appointment.rs:75-86 | a delete keeps appointment ids unique |
| Store.StoredInvitationsSpec | web_server/src/repository/invitation.rs:6-27 | the listed invitations are exactly the stored rows that pass the filter |
| Store.StoredInvitationsInOrder | web_server/src/repository/invitation.rs:6-27 | the i-th listed invitation is the conversion of the i-th stored row that passes the filter |
| Store.Database.PreserveNewAppointment | web_server/src/repository/appointment.rs:11-38 | on success the new row is appended under the fresh id and the id returned; a failed insert changes nothing and names its context |
| Store.Database.GetStoredAppointments | web_server/src/repository/appointment.rs:44-68 | returns the stored appointments that pass the filter, in table order |
| Store.Database.DeleteStoredAppointment | web_server/src/repository/appointment.rs:75-86 | removes every row with the id and reports whether one existed; a failed statement changes nothing |
| Store.Database.PreserveNewInvitations | web_server/src/repository/invitation.rs:33-52 | an empty batch panics; a non-empty batch is appended in order, or fails with the database error |
| Store.Database.Begin | web_server/src/routes/mod.rs:17-23 | a transaction that begins leaves the tables alone and records them as they are |
| Store.Database.RollBack | web_server/src/routes/mod.rs:25-31 | an uncommitted transaction puts both tables back to what they were when it began |
| Validation.GetStoredInvitation | web_server/src/routes/validation.rs:56-75 | an unknown id is `RowNotFound`; a found row joins a stored invitation with that id to its stored appointment |
| Validation.ValidateInvitationById | web_server/src/routes/validation.rs:18-54 | a failed lookup is returned as the handler's error |
| Validation.UsedIsRefused | web_server/src/routes/validation.rs:26-28 | a used invitation is refused with 403 |
| Validation.RedeemSpec | web_server/src/routes/validation.rs:26-51 | accepted exactly when unused, a previous day exists, the date is not before its midnight and an online event has a link; online redirects to the link, offline returns the ticket, otherwise outdated |
| Validation.OutdatedOnTimeline | web_server/src/routes/validation.rs:30-39 | outdated exactly when the date lies strictly before midnight of the previous day |
| Validation.UnknownInvitationIs500 | web_server/src/routes/validation.rs:69-72 | an unknown invitation id gives a database error with status 500 |
| Validation.StoredInvitationReachesChecks | web_server/src/routes/validation.rs:22-24 | a stored invitation whose URLs parse is judged on its stored fields |
| InvitationRoutes.GetStoredInvitations | web_server/src/routes/invitation.rs:63-90 | lists the stored invitations that pass the filter |
| InvitationRoutes.GetInvitationById | web_server/src/routes/invitation.rs:52-61 | `None` exactly when no row has the id, otherwise the first such row |
| InvitationRoutes.FirstMatchFound | web_server/src/routes/invitation.rs:52-61 | the lookup by id is empty exactly when no row has the id, and starts with the first stored row that has it |
| InvitationRoutes.GetInvitationQr | web_server/src/routes/invitation.rs:23-46 | an unknown id is 404 with the id in the message; otherwise the QR code of the first match's short URL is filled into the page, and a QR failure is passed on |
| Clients.QrCodeBase64 | shared/src/qr_client.rs:85-101 | succeeds exactly when the renderer gives an image, and then gives its base64 text; an encoding error becomes an `Anyhow` error; any other failure panics |
| Clients.OnePlaceholderFilled | web_server/src/routes/invitation.rs:39-40 | a template with one placeholder gets the image in its place and nothing else changes |
| Clients.NoPlaceholderUnchanged | web_server/src/routes/appointment.rs:71-72 | a template without the placeholder is sent as it is |
| Clients.QrFilePathInjective | shared/src/qr_client.rs:69-71 | distinct (appointment, invitation) pairs get distinct image paths |
| Clients.GenerateQrCode | shared/src/qr_client.rs:63-82 | succeeds exactly when the file writer does, and then returns the path written |
| AppointmentRoutes.AddAppointment | web_server/src/routes/appointment.rs:122-138 | succeeds exactly when no fault occurs and returns the fresh id; any fault leaves the tables as they were and names its context |
| AppointmentRoutes.GetAppointmentById | web_server/src/routes/appointment.rs:176-185 | found exactly when an appointment with the id is stored, and then it is the first stored row with the id, as `first()` takes it |
| AppointmentRoutes.FoundAppointmentIsTheStoredOne | web_server/src/routes/appointment.rs:176-185 | with unique ids the lookup returns just the row with the id |
| AppointmentRoutes.BatchSizeSpec | web_server/src/routes/appointment.rs:41-46 | the batch has one invitation per address when addresses are given, otherwise the requested count or 1 |
| AppointmentRoutes.FirstRenderFailure | web_server/src/routes/appointment.rs:68-69 | finds the first draft whose QR code fails, or reports that every one renders |
| AppointmentRoutes.Mails | web_server/src/routes/appointment.rs:67-82 | the i-th mail goes to the i-th address with the i-th invitation's QR code in the template |
| AppointmentRoutes.ShortenAll | web_server/src/routes/appointment.rs:48-65 | panics when any short URL request fails, otherwise gives one draft per fresh id with its short URL |
| AppointmentRoutes.SendInvitationMails | web_server/src/routes/appointment.rs:67-82 | mails address and draft pairs in order and stops at the first QR failure, with the mails sent so far |
| AppointmentRoutes.StoreBatch | web_server/src/routes/appointment.rs:84-89 | the batch is appended only when the transaction commits; appointments are untouched and their ids stay unique |
| AppointmentRoutes.AddInvitation | web_server/src/routes/appointment.rs:27-95 | reply, mails and new tables are those of the handler's specification; invitations are added only on success, and appointment ids stay unique |
| AppointmentRoutes.ShortenerFailurePanicsFirst | web_server/src/routes/appointment.rs:48-57 | when a short URL request fails the handler panics before any mail or insert |
| AppointmentRoutes.PayloadShape | web_server/src/routes/appointment.rs:48-65 | the payload has one entry per batch member, each with its own fresh id, the appointment and its short URL |
| AppointmentRoutes.AddInvitationSuccess | web_server/src/routes/appointment.rs:41-94 | with no failure the reply is the payload and every address has been mailed |
| AppointmentRoutes.AddedInvitationsReadBack | web_server/src/routes/appointment.rs:59-93 | when every short URL comes from `Uri::parse`, the stored batch reads back as the returned invitations, with the default for `used` |
| AppointmentRoutes.EveryEmailGetsItsOwnInvitation | web_server/src/routes/appointment.rs:67-81 | each address is mailed exactly once, with the QR code of the invitation at its position |
| AppointmentRoutes.RenderFailureStoresNothing | web_server/src/routes/appointment.rs:69-80 | a QR failure ends the handler with that error before the insert, after mailing the earlier addresses |
| AppointmentRoutes.MailGoesOutBeforeTheInsert | web_server/src/routes/appointment.rs:67-89 | a database fault still leaves every mail sent |
| AppointmentRoutes.EmptyBatchPanics | web_server/src/routes/appointment.rs:84-86 | a batch of no invitations panics at the insert, with no mail sent |
| Console.Ask | tickets_cli/src/appointment/create.rs:16-25 | a prompt reads no more lines than there are |
| Console.AskTakesFirstAccepted | tickets_cli/src/appointment/create.rs:35-48 | the answer is the first line the prompt accepts, and every earlier line was refused; no answer means every line was refused |
| Console.Stdin.ReadLine | tickets_cli/src/appointment/create.rs:16-25 | reads the next line, or the empty string at end of input, and consumes it |
| Console.Stdin.Prompt | tickets_cli/src/appointment/create.rs:35-48 | re-asks until a line is accepted; the answer and the lines consumed are those of `Ask` |
| Console.BeforeBlank | tickets_cli/src/appointment/send.rs:24-28 | the lines before the first blank one, none of them blank |
| Console.ReadList | tickets_cli/src/appointment/send.rs:17-40 | fails exactly when a line before the first blank one does not parse; otherwise gives each of those lines parsed, in order |
| CreateCommand.DecideNonEmpty | tickets_cli/src/appointment/create.rs:61-70 | accepts exactly the lines that are not empty after trimming, as they are |
| CreateCommand.FormatChoices | tickets_cli/src/appointment/create.rs:35-48 | `0` means online and `1` offline; every other line, `online` and `offline` included, is refused |
| CreateCommand.DecideAddress | tickets_cli/src/appointment/create.rs:84-100 | `none` means no address; every other line is the address |
| CreateCommand.UriDecisionOnReadLine | tickets_cli/src/appointment/create.rs:114-138 | `none` means no link; otherwise a line is accepted exactly when it parses as a URI |
| CreateCommand.DecideDate | tickets_cli/src/appointment/create.rs:202-220 | a local date-time is tried first, then RFC 3339; a line neither parses is refused |
| CreateCommand.ParseU64 | tickets_cli/src/appointment/create.rs:169 | an accepted number is never the empty line or a bare `+` |
| CreateCommand.ParseU64OfDecimal | tickets_cli/src/appointment/create.rs:169 | every u64's decimal text parses back to it, with or without `+`; a `-` sign is refused |
| CreateCommand.MinutesToDuration | tickets_cli/src/appointment/create.rs:170 | the duration is the minutes times 60 in whole seconds, or an overflow when that does not fit in u64 |
| CreateCommand.AskAddress | tickets_cli/src/appointment/create.rs:84-100 | online events are not asked for an address; an offline event's answer is an address |
| CreateCommand.AskUri | tickets_cli/src/appointment/create.rs:114-138 | offline events are not asked for a link |
| CreateCommand.AssembleFrom | tickets_cli/src/appointment/create.rs:227-245 | a created appointment carries the answers given, with a duration of whole minutes |
| CreateCommand.CreatedIsConsistent | tickets_cli/src/appointment/create.rs:227-245 | a created appointment has a non-empty title and description; online ones have no address, offline ones an address and no link; the duration is whole minutes |
| CreateCommand.TitleIsFirstFilledLine | tickets_cli/src/appointment/create.rs:61-70 | the title is the first line that is not blank; input of blank lines only never gets past the title |
| CreateCommand.ReadUriInput | tickets_cli/src/appointment/create.rs:114-138 | the link prompt answers as `AskUri` says and consumes those lines |
| CreateCommand.ReadOptionalAddress | tickets_cli/src/appointment/create.rs:84-100 | the address prompt answers as `AskAddress` says and consumes those lines |
| CreateCommand.ReadDurationInMinutes | tickets_cli/src/appointment/create.rs:165-174 | the duration prompt re-asks until a number parses, then converts it or panics on overflow |
| CreateCommand.ReadNewAppointment | tickets_cli/src/appointment/create.rs:227-245 | the whole dialogue gives the appointment that the input lines determine |
| SendCommand.EmailOrder | shared/src/domain/email.rs:7-8 | the derived order on addresses is a strict total order, so sorting and de-duplication are well defined |
| SendCommand.ReadEmails | tickets_cli/src/appointment/send.rs:17-40 | fails with `InvalidData` exactly when an address before the first blank line is invalid; otherwise gives those addresses in order |
| SendCommand.SendInvitationLetter | tickets_cli/src/appointment/send.rs:60-92 | addresses from the arguments win over standard input; the request carries them sorted, each once, and no count |
| SendCommand.BatchIsOnePerDistinctEmail | tickets_cli/src/appointment/send.rs:72-82 | the server then makes exactly one invitation per distinct address |
| SendCommand.RequestIgnoresOrder | tickets_cli/src/appointment/send.rs:72-74 | two address lists with the same members give the same request |
| Ordering.Sort | tickets_cli/src/appointment/send.rs:73 | the result is sorted and a permutation of the input |
| Ordering.Dedup | tickets_cli/src/appointment/send.rs:74 | keeps exactly the first element of each run of equal neighbours, in input order |
| Ordering.DedupOfSortedIsStrict | tickets_cli/src/appointment/send.rs:72-74 | de-duplicating a sorted list gives a strictly increasing one |
| Ordering.StrictlyIncreasingUnique | tickets_cli/src/appointment/send.rs:72-74 | two strictly increasing lists with the same members are equal |
| Ordering.StrictlyIncreasingCount | tickets_cli/src/appointment/send.rs:72-74 | a strictly increasing list is as long as its set of members |
| Ordering.SortDedup | tickets_cli/src/appointment/delete.rs:39-40 | sort then de-duplicate gives the members strictly increasing, each once |
| DeleteCommand.UuidOrder | tickets_cli/src/appointment/delete.rs:39 | UUIDs are strictly and totally ordered |
| DeleteCommand.ReadUuids | tickets_cli/src/appointment/delete.rs:7-30 | fails exactly when a line before the first blank one is not a UUID; otherwise gives them in order |
| DeleteCommand.DeleteAppointment | tickets_cli/src/appointment/delete.rs:32-45 | ids from the arguments win over standard input; the payload is those ids sorted, each once |
| GenerateCommand.CountOrDefault | tickets_cli/src/appointment/generate.rs:51 | no count given means one invitation |
| GenerateCommand.FetchRequest | tickets_cli/src/appointment/generate.rs:15-17 | the request asks for the count for that appointment and sends no addresses |
| GenerateCommand.ServerMakesCount | tickets_cli/src/appointment/generate.rs:51-53 | the server then makes as many invitations as were asked for, none for a count of zero or less |
| GenerateCommand.QrFilePaths | tickets_cli/src/appointment/generate.rs:30-39 | one image path per invitation, in order |
| GenerateCommand.FirstQrFailure | tickets_cli/src/appointment/generate.rs:30-41 | finds the first invitation whose image cannot be written, or reports that all can |
| GenerateCommand.GenerateQrCodes | tickets_cli/src/appointment/generate.rs:27-42 | writes images in order and stops at the first failure with its error; on success returns every path |
| GenerateCommand.FirstFailureAt | tickets_cli/src/appointment/generate.rs:30-41 | the first failure is the first index that fails, and every earlier one succeeds |
| GenerateCommand.GenerateInvitation | tickets_cli/src/appointment/generate.rs:44-57 | a configuration error stops the command before any request; a failed fetch writes nothing; otherwise the images are written in order, and the first failure stops the command with its error after the paths up to it |

## Left out

- HTTP transport, JSON (de)serialization of requests, routing (`startup.rs`, `main.rs`) and
  tracing are not modelled. Handlers take already-decoded values.
- Queries that only read (`get_stored_*`, the validation lookup) are modelled as never failing.
  Only writes and transactions take a fault parameter.
- `join_all` runs the shortener calls concurrently. The model calls them in batch order,
  because the results are gathered in that order anyway.
- Two validation requests for the same invitation can race. This is not modelled, because
  validation does not write.
- `ON DELETE CASCADE` from appointments to invitations is not modelled. The schema migration is
  not part of this model.
- Uris.FromString: `Uri::from` panics on text that does not parse. The model makes
  parsing a precondition.
- `Text.ToLowercase`: maps only ASCII letters, not Unicode lower-casing. Environment names
  are ASCII.
- `Chrono.BeforeMatchesTimeline`: leap seconds are not modelled.
- chrono's text parsers, URL and e-mail validation, UUID parsing and generation, base64, PNG
  and QR encoding are oracles. The model proves only what holds for any oracle.
- `Ordering.Sort`: `Vec::sort` sorts in place. The model sorts a sequence, so it shows the
  result but not the in-place update.
- SendCommand.SendInvitationLetter: stops at the request it builds, because sending it and
  printing the response are network I/O. It also starts after `get_configuration().unwrap()`,
  so the panic on a configuration error is not modelled.
- DeleteCommand.DeleteAppointment: stops at the payload it builds and prints.
- AppointmentRoutes.GetAppointmentById: requires every matching row's link to parse. The
  source panics in the `expect` of the `From` conversion instead.
- InvitationRoutes.GetStoredInvitations, InvitationRoutes.GetInvitationById and
  InvitationRoutes.GetInvitationQr: require every matching row's short URL to parse. The
  source panics in the `expect` of the `From` conversion instead.
- Store.Database.GetStoredAppointments, Store.Database.StoredInvitations and
  Store.InvitationsFromDb: the same preconditions, for the same `expect`.
- Domain.AppointmentFromDb, Domain.AppointmentWithInvitationFromDb and Domain.InvitationFromDb:
  these are the `From` conversions, so their `expect` is the precondition itself.
- `Database.Valid()` does not state that stored URLs parse, so these preconditions are not
  derived from the inserts. AppointmentRoutes.AddedInvitationsReadBack and
  Store.AppointmentStoreLoad show that they hold for what the handlers insert.
- `GenerateCommand.GenerateInvitation` takes the result of loading the configuration as a
  parameter. Reading configuration files (`get_configuration`) is I/O.
- `lines()` and `read_line(..).expect(..)` can fail on an I/O error. This is not modelled.
  Standard input is a list of lines, and past its end it yields empty lines.
- The result of `EmailClient::send_email` is ignored by the handler, so the model records each
  mail in an outbox and does not model delivery.
- The mail and QR page templates (`include_str!`) are parameters. Their text is not part of
  this model.
- All `println!` output is left out, for example "Generated to: …".
- `AppointmentRoutes.AddInvitation`: a release build skips the empty-batch assertion and sends
  an invalid statement to the database. The model follows a debug build and panics.
- `structopt` argument parsing and command dispatch (`cli.rs`, `main.rs` of the CLI) are not
  modelled.
