# luvento-bot, modelled in Dafny

luvento-bot relays events from a web application to Telegram group chats.
A group subscribes with the chat command `/addgroup` and unsubscribes with `/removegroup`.
Only a chat administrator may run either command.
`/status` lists the subscribed groups, and `/start` and `/help` show the usage text.
Three authenticated webhooks turn an event into a Markdown notice and broadcast it to every subscribed group:
a new user registration, a support message and a server error.
The process is configured from the environment.

The model has one Dafny module per Go package, plus three shared modules.

- `Storage` (`internal/storage/storage.go`) models the SQLite `groups` table.
  - `class Store` holds the rows in table-scan order (ascending id) and the AUTOINCREMENT counter.
  - `AddGroup` is `INSERT OR REPLACE`: the conflicting row is deleted, then the new row is appended with the next id.
  - `RemoveGroup` is the `DELETE`; `GetAllGroups` scans row by row; `IsGroupRegistered` counts rows.
  - Lemmas prove that each statement keeps the UNIQUE constraint on `chat_id` and the id order.
  - Further lemmas show what an upsert and a delete do to each chat's rows.
- `Bot` (`internal/bot/bot.go`) models the Bot API client as an oracle object, `Telegram`.
  - `Telegram` records every message handed to `Send`, knows which sends fail, and answers administrator lookups from a table.
  - `class Bot` has the broadcast and one method per command, and `HandleCommand` dispatches on the command name.
  - Each command method states its one reply and its effect on the store, for every outcome of its checks.
  - `BotTexts` holds the reply texts as the UTF-8 bytes of the source's literals.
- `Webhook` (`internal/webhook/handler.go`) models the three notice texts, including the `02.01.2006 15:04:05` time layout, the metadata block and the 500-byte truncation of error texts.
  - `class Handler` has the API-key middleware and the three handlers.
  - Each handler states its HTTP response and the messages it sends.
  - `WebhookTexts` holds the pieces of the notice templates as UTF-8 bytes.
- `Config` (`internal/config/config.go`) models `Load` as a function of the environment map.
- `GoTypes` defines bytes, Go strings as byte sequences, `int64`, Option/Result, and map indexing with its zero value.
  `Config.Getenv` reads the environment map the same way.
- `Utf8` defines well-formed UTF-8 following section 4 of RFC 3629, used to state the truncation finding.
- `Decimal` models `%d`, the zero-padded fields of `time.Format` and `strconv.ParseInt(s, 10, 64)`.

Things outside the program are parameters or oracles:
- The engine's failures are `fault` parameters: a `bool` for a statement, and a `ReadFault` for a `SELECT` (the query fails, or row `k` fails).
- `CURRENT_TIMESTAMP` is the `now` text.
- Telegram is the `Telegram` object.
- JSON decoding is an abstract `Decoded`/`Malformed` value.
- The process environment is a map.

The limit on `error` and `stack` is 500 *bytes*: `truncate` compares `len(s)` and slices `s[:maxLen]`, and Go measures and slices strings in bytes (`internal/webhook/handler.go:176-179`).
A long text therefore keeps exactly its first 500 bytes, then `...`, and that cut can fall inside a character (see Findings).
The corrected cut `Webhook.TruncateUtf8` keeps between 497 and 500 bytes and never a partial character.

## Model

| member | source | states |
|---|---|---|
| Storage.RowsFor | internal/storage/storage.go:103 | the rows a `WHERE chat_id = ?` selects all carry that chat id, and there are no more of them than rows |
| Storage.Without | internal/storage/storage.go:78 | what `DELETE ... WHERE chat_id = ?` keeps: only rows of other chats, each one taken from the table |
| Storage.RowsForAppend | internal/storage/storage.go:103 | the selection distributes over a split of the table, keeping order |
| Storage.WithoutAppend | internal/storage/storage.go:78 | the delete distributes over a split of the table, keeping order |
| Storage.RegisteredIffRows | internal/storage/storage.go:101-105 | a chat is registered exactly when the count of its rows is positive |
| Storage.SplitCount | internal/storage/storage.go:77-80 | every row is either selected for the chat or kept by its delete, never both |
| Storage.UniqueAtMostOne | internal/storage/storage.go:52 | under `chat_id UNIQUE` a chat has one row if registered and none otherwise |
| Storage.WithoutRemovesAll | internal/storage/storage.go:78 | after deleting a chat no row of it remains |
| Storage.WithoutKeepsOthers | internal/storage/storage.go:78 | deleting one chat leaves every other chat's rows unchanged and in order |
| Storage.WithoutAbsent | internal/storage/storage.go:78 | deleting an unregistered chat leaves the table as it was |
| Storage.WithoutKeepsUnique | internal/storage/storage.go:52 | a delete preserves the UNIQUE constraint on `chat_id` |
| Storage.WithoutKeepsAscending | internal/storage/storage.go:51 | a delete preserves the ascending-id order of the table |
| Storage.UpsertSingleRow | internal/storage/storage.go:71 | after `INSERT OR REPLACE` the chat has exactly one row, the new one |
| Storage.UpsertKeepsOthers | internal/storage/storage.go:71 | `INSERT OR REPLACE` leaves every other chat's rows unchanged |
| Storage.UpsertCount | internal/storage/storage.go:71 | the table grows by one for a new chat and keeps its size for a re-added one |
| Storage.UpsertKeepsOrder | internal/storage/storage.go:50-56 | `INSERT OR REPLACE` with a fresh largest id keeps the table UNIQUE and ordered by id |
| Storage.UpsertTwice | internal/storage/storage.go:69-75 | adding the same chat twice leaves only the second row |
| Storage.RemoveCount | internal/storage/storage.go:77-80 | a delete removes one row if the chat was registered and none otherwise |
| Storage.RemoveIdempotent | internal/storage/storage.go:77-80 | deleting a chat twice is the same as deleting it once |
| Storage.Upserted | internal/storage/storage.go:71 | definition: `INSERT OR REPLACE` deletes the row holding the chat id, then appends the new row |
| Storage.Listing | internal/storage/storage.go:82-99 | definition: what the full `SELECT` returns under a fault: every row, or an error and no list |
| Storage.ListingAllOrNothing | internal/storage/storage.go:82-99 | a listing is all rows in table order, or an error exactly when the query, the fetch of some row, or the final `rows.Next` (reported by `rows.Err()`) fails |
| Storage.Store.constructor | internal/storage/storage.go:50-56 | a freshly created table is empty, with its counter at 0, and satisfies the schema's constraints |
| Storage.Store.AddGroup | internal/storage/storage.go:69-75 | an engine error or an exhausted id counter changes nothing; otherwise the next id is issued and the table is the upsert of the new row; the constraints are kept |
| Storage.Store.RemoveGroup | internal/storage/storage.go:77-80 | an engine error changes nothing; otherwise the chat's rows are deleted, and removing an absent chat is no error |
| Storage.Store.GetAllGroups | internal/storage/storage.go:82-99 | the row-by-row scan returns the listing: every row in order, or the error of the query, of the first failing row, or of `rows.Err()` after the loop |
| Storage.Store.IsGroupRegistered | internal/storage/storage.go:101-105 | the count loop answers whether some row has the chat id, or the engine error |
| Bot.Telegram.Send | internal/bot/bot.go:220-225 | every message handed to Send is recorded, and the result says whether this attempt failed |
| Bot.Fanout | internal/bot/bot.go:219-226 | definition: one Markdown message per listed group, to that group's chat, with the same text, in list order |
| Bot.Refusal | internal/bot/bot.go:100-119 | definition: the reply to a refused command: "groups only", "permission check failed", or the command's own "admins only" text |
| Bot.Bullets | internal/bot/bot.go:184-186 | definition: one `• title` line per group, in list order |
| Bot.StatusText | internal/bot/bot.go:178-188 | definition: the "no groups" text for an empty listing, else the header with the count and the bullet lines |
| Bot.GateFor | internal/bot/bot.go:98-119 | a mutating command is allowed exactly in a group or supergroup whose administrator list holds the sender; it is refused as "groups only" exactly outside groups |
| Bot.BulletsAppend | internal/bot/bot.go:184-186 | the bullet list of a concatenated listing is the concatenation of the parts' lists |
| Bot.BulletAt | internal/bot/bot.go:184-186 | the i-th group contributes exactly its own `• title` line, after the lines of the groups before it |
| Bot.StatusReportsCount | internal/bot/bot.go:183 | a non-empty report starts with the header whose number reads back as the number of groups |
| Bot.BulletsValid | internal/bot/bot.go:185 | well-formed UTF-8 titles give a well-formed UTF-8 bullet list |
| Bot.RenderStatus | internal/bot/bot.go:178-188 | the strings.Builder loop yields the "no groups" text for an empty listing, else the header and every group's line in order |
| Bot.Bot.IsUserAdmin | internal/bot/bot.go:195-210 | a failed administrator lookup is an error; otherwise the answer is whether the user is in the chat's administrator list |
| Bot.Bot.SendToAllGroups | internal/bot/bot.go:212-228 | a failed listing fails the call and sends nothing; otherwise one send per group is attempted, and failed sends do not fail the call |
| Bot.Bot.CmdStart | internal/bot/bot.go:75-92 | exactly one Markdown message with the usage text, to the invoking chat |
| Bot.Bot.CmdHelp | internal/bot/bot.go:94-96 | exactly what /start sends |
| Bot.Bot.CmdAddGroup | internal/bot/bot.go:98-133 | a refused command leaves the store alone and sends the refusal of the first failed check; a failed write changes no row and reports the failure; a success upserts (chat id, title, sender) with a fresh id and reports it |
| Bot.Bot.CmdRemoveGroup | internal/bot/bot.go:135-167 | the same checks and refusals; once allowed, the chat's row is deleted unless the write fails, and the reply says which |
| Bot.Bot.CmdStatus | internal/bot/bot.go:169-193 | a failed listing gets the plain error reply; otherwise the report of the current table goes to the chat in Markdown |
| Bot.Bot.HandleCommand | internal/bot/bot.go:60-73 | an unknown command sends nothing and leaves the store alone; a known one sends exactly one reply to the invoking chat; only an allowed /addgroup or /removegroup changes the store |
| Decimal.Pad | internal/webhook/handler.go:61 | a field of `time.Format`: all digits, zero-padded to the width or the numeral's own length if longer |
| Decimal.ParseInt64 | internal/config/config.go:41 | definition: `strconv.ParseInt(s, 10, 64)`: an optional sign, one or more digits, a value in the int64 range, else no value |
| Decimal.Digits | internal/bot/bot.go:183 | the `%d` numeral is non-empty, all digits, without a leading zero |
| Decimal.ValueOfDigits | internal/bot/bot.go:183 | the `%d` numeral reads back as its number |
| Decimal.PadValue | internal/webhook/handler.go:61 | a zero-padded time field reads back as its number |
| Decimal.PadExact | internal/webhook/handler.go:61 | a number that fits its field width is padded to exactly that width |
| Decimal.ParseFormat | internal/config/config.go:41 | `ParseInt(s, 10, 64)` reads back every int64 that `%d` prints |
| Decimal.ParsePlusZeros | internal/config/config.go:41 | a leading plus sign and leading zeros are accepted |
| Decimal.ParseRejectsOutOfRange | internal/config/config.go:41-44 | one past either end of the int64 range is rejected |
| GoTypes.Lookup | internal/webhook/handler.go:67 | definition: indexing a map with a missing key yields the empty string, and a present key its value |
| Webhook.FormatTime | internal/webhook/handler.go:61 | definition: `Format("02.01.2006 15:04:05")`: day, month, year, then hour, minute, second, zero-padded |
| Webhook.FieldsLayout | internal/webhook/handler.go:61 | `02.01.2006` and `15:04:05`: two 2-digit fields and a third of its width, at fixed offsets, each reading back as its number |
| Webhook.FormatTimeLayout | internal/webhook/handler.go:61 | a formatted time is 19 bytes with its separators at fixed offsets, and each field reads back as the timestamp's field |
| Webhook.Truncate | internal/webhook/handler.go:175-180 | a short text is kept; a long one becomes its first `maxLen` bytes followed by "..." |
| Webhook.TruncateUtf8 | internal/webhook/handler.go:175-180 | a short text is kept; a long one becomes a prefix of at most `maxLen` bytes ending at a character start, followed by "..." |
| Webhook.TruncateUtf8Valid | internal/webhook/handler.go:175-180 | the corrected cut keeps well-formed UTF-8 well-formed and drops at most three bytes more than the byte cut |
| Webhook.TruncateAgreesOnBoundary | internal/webhook/handler.go:175-180 | where byte `maxLen` starts a character, both cuts agree |
| Webhook.SplitExampleValid | internal/webhook/handler.go:157 | the finding's 501-byte error text is well-formed UTF-8, and its byte 500 is a continuation byte |
| Webhook.AsWrittenSplitsCharacter | internal/webhook/handler.go:157 | with that error text, the server-error notice the handler sends is not well-formed UTF-8 |
| Webhook.CorrectedKeepsCharacterWhole | internal/webhook/handler.go:157 | the corrected cut of that text stops before the split character and stays well-formed |
| Webhook.ServerErrorText | internal/webhook/handler.go:151-162 | definition: the notice the handler sends: the fixed part, the error cut by `truncate`, and the cut stack block only when a stack was sent |
| Webhook.CorrectedServerErrorText | internal/webhook/handler.go:151-162 | definition: the same notice with both texts cut by `TruncateUtf8` (the Finding's correction) |
| Webhook.ErrorBlockAsWritten | internal/webhook/handler.go:151-158 | after the fixed part the notice holds the whole error text when it has at most 500 bytes, else exactly its first 500 bytes and then "..." |
| Webhook.CorrectedAgreesOnBoundaries | internal/webhook/handler.go:157-161 | where neither cut falls inside a character, the corrected notice equals the one the handler sends |
| Webhook.FieldLine | internal/webhook/handler.go:67-84 | a metadata line is present exactly when its key has a non-empty value |
| Webhook.MetadataBlockEmpty | internal/webhook/handler.go:64-85 | the metadata block is empty exactly when none of the six known keys has a value |
| Webhook.InfoHeaderIffMetadata | internal/webhook/handler.go:65-66 | the notice extends its fixed part exactly when the metadata map is non-empty, and then with the "Информация" heading first |
| Webhook.InfoHeaderWithoutKnownKeys | internal/webhook/handler.go:65-85 | a non-empty map with no known key set gives the heading and nothing after it |
| Webhook.MetadataBlock | internal/webhook/handler.go:67-84 | definition: the lines of the six recognised keys, in the order country, city, browser, os, referrer, ip |
| Webhook.UserRegisteredText | internal/webhook/handler.go:56-85 | definition: the fixed part with e-mail and time, then the heading and the metadata block when the map is not empty |
| Webhook.AppendMetadata | internal/webhook/handler.go:67-84 | the six `+=` steps append the lines of the set keys, in the fixed order country, city, browser, os, referrer, ip |
| Webhook.RenderUserRegistered | internal/webhook/handler.go:56-85 | the handler's text building gives the registration notice |
| Webhook.SupportMessageText | internal/webhook/handler.go:114-121 | definition: the sender in code, the time, then the uncut message |
| Webhook.SupportMessageWhole | internal/webhook/handler.go:114-121 | the support notice has the known length and ends with the whole, uncut message |
| Webhook.StackBlockIffStack | internal/webhook/handler.go:160-162 | the handler's notice gets the stack-trace block (the stack cut by `truncate`) exactly when a stack was sent, after the error block |
| Webhook.ResponseFor | internal/webhook/handler.go:87-95 | 400 exactly when the body did not decode, 500 exactly when it did but the listing failed, else 200 with body "OK" |
| Webhook.Broadcast | internal/webhook/handler.go:87 | definition: nothing is sent without a notice or a listing; otherwise one Markdown copy of the notice per group, in order |
| Webhook.NoticeFor | internal/webhook/handler.go:50-54 | a route has no notice exactly when its body did not decode; otherwise its notice is the registration, support or as-written server-error text |
| Webhook.Authorized | internal/webhook/handler.go:32 | definition: a key was sent and it equals the configured one |
| Webhook.EmptyKeyRejectsAll | internal/webhook/handler.go:32 | with an empty configured key no request is authorised |
| Webhook.Handler.constructor | internal/webhook/handler.go:20-26 | the handler keeps the configured key and the bot |
| Webhook.Handler.UserRegistered | internal/webhook/handler.go:48-96 | the response and the broadcast of the registration notice, as in ResponseFor and Broadcast |
| Webhook.Handler.SupportMessage | internal/webhook/handler.go:106-132 | the response and the broadcast of the support notice, as in ResponseFor and Broadcast |
| Webhook.Handler.ServerError | internal/webhook/handler.go:143-173 | the response and the broadcast of the server-error notice with both texts cut by `truncate`, as in ResponseFor and Broadcast |
| Webhook.Handler.Serve | internal/webhook/handler.go:29-38 | a missing or wrong key gets 401 and sends nothing; a right key runs the route's handler; 401 happens exactly for a wrong key |
| Config.Getenv | internal/config/config.go:18-39 | definition: `os.Getenv` on the environment map: an unset variable reads as the empty string |
| Config.OrDefault | internal/config/config.go:28-36 | definition: an empty setting takes its default, a non-empty one is kept |
| Config.Load | internal/config/config.go:17-54 | a missing token, then a missing API key, then an unparsable OWNER_ID are the errors exactly when they occur, in that order; otherwise the fields, the defaults and the parsed owner id |
| Config.LoadReadsOnlyItsVariables | internal/config/config.go:17-54 | two environments that agree on the five variables load the same way |
| Config.LoadDefaults | internal/config/config.go:28-38 | with only the two secrets set, the path is /data/bot.db, the port 8080 and the owner 0 |
| Config.LoadEnvFor | internal/config/config.go:38-45 | every configuration with non-empty settings loads back from the environment that spells it out |

## Left out

- `cmd/bot/main.go` is not part of this model: the wiring, the HTTP server, the signal handling and the shutdown.
- `bot.New`, `tgbotapi.NewBotAPI`, `Bot.Start` and `Bot.Stop`: the update polling loop and the stop channel are concurrency and network I/O. `HandleCommand` models what one command message does.
- The `slog` logging calls are left out; logging changes no modelled state.
- `storage.New`, `migrate` and `Close` (opening SQLite, creating the directory, the schema DDL) are left out as I/O. The schema's constraints are the invariant `Store.Valid`.
- The `CURRENT_TIMESTAMP` default is the parameter `now`, because it reads the clock.
- Table-scan order is modelled as ascending id, which is what SQLite does for a plain `SELECT` on an INTEGER PRIMARY KEY table; SQL itself does not promise it.
- JSON decoding and the decoding of `time.Time` are left out as library code: a body is `Decoded(payload)` or `Malformed`.
- A `Timestamp` holds the wall-clock fields already in the offset it was written with, so time zones are not modelled.
- `FormatTimeLayout` is proved for years of at most four digits; negative years are not modelled.
- `Decimal.ParseInt64` models which strings `strconv.ParseInt` accepts and their values. It does not model which error it returns, or the text of the wrapped errors in `Load`.
- `Config.Load` reads `os.Getenv` from a map, so the process environment itself is not modelled.
- HTTP headers and the `Content-Type` that `http.Error` sets are left out; a response is a status and a body.
- The `storage` field of `webhook.Handler` is never read by the handlers, so it is left out.
- The Bot API's own behaviour (rate limits, Markdown parsing errors) is the oracle's set of failing sends.
- `msg.From` being nil (a channel post) is left out: the sender is always a user id here.
- `Storage.Store.IsGroupRegistered` returns an error on failure, where Go returns `false` together with it; nothing in the core calls it, and the error is the part a caller must check.
- The UTF-8 well-formedness of the literal reply texts and templates is not proved; only the parts built from the group titles and the cut texts are.
- `Storage.Store.GetAllGroups` returns only the error when the scan fails, where Go also returns the rows it had scanned; every caller in the core drops them on error.

## Findings

| source | as written | input that shows it | evidently intended | confidence | as-written member | corrected member |
|---|---|---|---|---|---|---|
| internal/webhook/handler.go:175-180 | `truncate` cuts a long error or stack text at byte 500, which can fall inside a multi-byte UTF-8 character, so the notice sent at lines 157 and 161 carries a broken character | an `error` of 499 × `a` followed by `я` (bytes D1 8F): the cut keeps D1 and "..." follows it | cut at the last character boundary at or before byte 500, so the notice stays well-formed UTF-8 text | not executed | Webhook.AsWrittenSplitsCharacter | Webhook.TruncateUtf8Valid |
