# mindbody-brivo, modelled in Dafny

mindbody-brivo mirrors MINDBODY client records into the Brivo access-control
system. This project models the sequential logic under its concurrent bulk
runners and proves properties of it:

- **The per-user pipeline of the migration and the sync** (`Pipeline`,
  `Migrate`, `Sync`). A client is turned into a Brivo user and taken through
  six remote steps: create user, barcode field, user-type or status field,
  create credential, assign credential, assign group.
  - Each step answers in one of three ways:
    - success;
    - a 401 (section 15.5.2 of RFC 9110): the user is pushed onto the bounded
      requeue buffer and the token refresh runs and drains the buffer;
    - another error: a `"<Step>: <error>"` reason is recorded in the
      `failed` map.
  - The migration keeps going after failures in three of the steps and still
    counts the user. The sync aborts on every failure.
  - Around the steps sit the `isRefreshing` flag, the driver that skips
    invalid IDs, the success counter and the text summary.
  - `Pipeline` states all of this as functions of the run's state.
    `Migrate.Migration` and `Sync.SyncRun` are classes whose fields are the
    programs' globals. Their methods update those fields in place and are
    proved equal to the pipeline functions.
- **Cleanup selection** (`Clean`). The users of the member group are deleted
  and their barcode IDs collected into a set. A credential is deleted only if
  its reference ID is in that set.
- **Arrival de-duplication** (`Access`). A MINDBODY arrival is logged only
  when the stored timestamp for the barcode ID is absent or at least 30
  minutes old. The timestamp is written before the arrival is logged.
- **Mappers and encoders**:
  - the MINDBODY to Brivo user mapping and its hexadecimal credential
    (`Brivo`);
  - padded Base64 client credentials (section 4 of RFC 4648) and environment
    defaults (`Config`);
  - the custom-field lookup (`CustomFields`);
  - the duplicate-credential rule (`Credentials`);
  - the response classification of the two HTTP helpers (`Utils`, `Async`).
- **Client pagination** (`MindBody`). The request offset accumulates page
  sizes until no results are left.

Remote services are inputs. A step's answers come in order from a sequence
of replies, token refreshes from a sequence of renewals (each with the clock
reading it sees), and store and HTTP exchanges are parameters. A run whose
answers run out stops with `OracleExhausted`. A push onto a full requeue
buffer stops with `Deadlocked`. `log.Fatal` stops with `Fatal(message)`.

## Model

| member | source | states |
|---|---|---|
| CustomFields.GenerateCustomField | models/customField.go:43-49 | the field has exactly the given ID and value |
| CustomFields.FieldValueSpec | models/customField.go:52-59 | the lookup succeeds iff some field has the ID; it then yields the value of the first such field, so later duplicates are ignored; otherwise the error is "Custom field <id> not found", in particular for an empty list |
| CustomFields.GetFieldValue | models/customField.go:52-59 | the loop returns the value of the first field with the ID, or the not-found error when no field has it |
| Utils.JsonErrorText | utils.go:23-25 | the error text starts "Error code " and ends with a newline |
| Utils.JsonErrorTextNamesCode | utils.go:23-25 | reading the number after "Error code " in the text gives back the code |
| Utils.DoRequest | utils.go:29-72 | a transport error is returned unchanged; every error other than "Error unmarshalling json: ..." leaves `output` untouched; `output` changes only for a status below 400 other than 204, and then to what the decoder left in it (partly filled when the decoder fails); a typed error carries the response's status and parsed body; a 204 returns no error and leaves `output` alone |
| Utils.AnsweredOutcomes | utils.go:44-67 | an unreadable body gives "Error reading response: <e>"; an error status with an unparsable body gives the parse error, otherwise the typed error with status and body; a failed decode gives an "Error unmarshalling json: " error and keeps what the decoder filled into `output`; a decoded body becomes `output` with no error |
| Utils.UnauthorizedVisibleIff | utils.go:50-57 | a caller sees a 401 `JSONError` iff the status is 401 and the body parses as a JSON object, so an unparsable 401 body hides the expired token |
| Utils.Logger | utils.go:75-79 | the message is printed, followed by a newline, iff `DEBUG` is exactly "true" |
| Async.StatusErrorText | utils/async.go:51 | the error text starts with the helper's prefix and contains the decimal status code |
| Async.StatusTextNamesCode | utils/async.go:51 | reading the number after the prefix gives back the code |
| Async.DoRequest | utils/async.go:24-68 | transport and body-read errors are returned unchanged; `output` changes only for a status below 400 other than 204, and then to what the decoder left in it, with the decoder's error; a status of 400 or more always yields an error, and when the body parses, its text contains the code; a 204 returns no error and does not decode |
| Async.AnsweredOutcomes | utils/async.go:46-63 | an error status with an unparsable body returns the parse error; any other status but 204 returns the decoder's error, if any, and what the decoder left in `output` |
| Async.ErrorStatusIsReported | utils/async.go:46-52 | for an error status with a parsable body, the status code can be read back out of the error text; the error is only a text |
| Credentials.CreateCredential | models/credential.go:39-73 | every error result has ID 0; marshal and request-construction errors are returned before any exchange; a result without error is either the new credential's numeric `id` or, for a 400 duplicate, the format ID |
| Credentials.DuplicateReturnsFormatId | models/credential.go:63-69 | a 400 whose `message` contains "Duplicate Credential Found" returns the credential format's ID with no error |
| Credentials.OtherErrorStatusFails | models/credential.go:66-72 | any other error status, including 401 and 409, returns ID 0 with the typed error |
| Credentials.CreatedReturnsId | models/credential.go:58-62 | a decoded success returns the response's `id` with no error |
| GoStrings.Atoi | models/config.go:51 | the parse succeeds iff the text is an optional sign and at least one digit with no range error, and then yields the signed decimal value, within the 64-bit range; a range error (a number outside the 64-bit range, or a leading digit run beyond 2^64 − 1 even when a non-digit follows) yields the bound of the sign; every other failure yields 0 |
| GoStrings.AtoiOverflowBeforeNonDigit | models/config.go:51 | digits beyond 2^64 − 1 followed by a non-digit are a range error with value 9223372036854775807, not a syntax error |
| GoStrings.AtoiOtherSpellings | models/config.go:51 | "+5", "007" and "-0" parse as 5, 7 and 0 |
| GoStrings.AtoiItoa | models/config.go:51 | parsing the decimal text of any 64-bit integer gives back that integer |
| GoStrings.ContainsIff | models/credential.go:66 | `strings.Contains` holds iff the substring occurs at some position |
| GoStrings.Utf8Ascii | models/brivo.go:125 | the bytes of an ASCII string are its character codes, one per character |
| Json.ShowObject | utils.go:24 | the `%+v` text of a decoded object starts "map[" and ends with "]" |
| Json.Get | models/credential.go:62 | a key lookup succeeds iff some member has the key, and then yields that member's value |
| Json.GetDistinct | models/credential.go:62 | on a decoded object, whose keys are distinct, looking up a member's key yields exactly that member's value |
| Config.Base64Encode | models/config.go:64 | the encoding has length 4·⌈n/3⌉ |
| Config.Base64RoundTrip | models/config.go:64 | decoding the padded Base64 of any byte string gives back that byte string |
| Config.GetEnvStrings | models/config.go:68-73 | a variable that is set is returned, even when empty; the default only when it is absent |
| Config.MemberGroupIdDefaults | models/config.go:51 | the member group ID is 0 when the variable is absent, or fails to parse without a range error, because the parse error is dropped (a range error gives the 64-bit bound, as `GoStrings.Atoi` states) |
| Config.MemberGroupIdRead | models/config.go:51 | a group ID written as an optional sign and decimal digits (plus sign and leading zeros included) whose value is in the 64-bit range is taken as that value |
| Config.DebugDefaultsOff | models/config.go:58 | debug is on iff the variable is one of the true spellings of `strconv.ParseBool`; absent or unparsable means off |
| Config.SettingsDefaults | models/config.go:46-59 | each string setting is its variable when set, else "" except the site, whose default is "-99" |
| Config.Config.GetConfig | models/config.go:40-60 | a failed `.env` load exits with the config unchanged; otherwise every field holds the defaulted settings and the client credentials are untouched |
| Config.Config.BuildClientCredentials | models/config.go:63-65 | the client credentials become the Base64 of the UTF-8 bytes of "clientID:clientSecret"; no other field changes |
| Config.ClientCredentialsDecode | models/config.go:64 | the client credentials decode back to "clientID:clientSecret" and have length 4·⌈n/3⌉ |
| Brivo.HexEncode | models/brivo.go:125 | the encoding is twice the byte length and uses only lower-case hexadecimal digits |
| Brivo.HexRoundTrip | models/brivo.go:125 | decoding the hexadecimal of any byte string gives back that byte string |
| Brivo.PhoneAppends | models/brivo.go:101-115 | the appended phones are each a non-empty number of the client's, with the type of its field, at most three of them, in the order home, mobile, work, and each non-empty number appears |
| Brivo.PhonesDetermined | models/brivo.go:101-115 | those conditions pin the phone list down to exactly the three optional appends |
| Brivo.BuildBrivoUser | models/brivo.go:86-126 | the user carries the barcode ID as external ID and the names; it is suspended iff the client is inactive or its status is not "Active"; it has exactly one e-mail, of type "home"; its phones are as above; the credential has format 110, reference ID equal to the external ID and the hexadecimal of the ID's bytes |
| Brivo.EncodedCredentialDecodes | models/brivo.go:120-126 | the encoded credential decodes back to the barcode ID's bytes and is at least twice its length |
| Brivo.BuildBrivoUsers | models/brivo.go:79-126 | the loop maps exactly the first client; an empty client list is an index out of range |
| Brivo.OnlyFirstClientMatters | models/brivo.go:85 | the mapping is a function of the first client alone |
| MindBody.GetClients | models/mindbody.go:46-81 | the loop issues exactly the requests, and ends exactly as, the recursive page walk `Walk` says |
| MindBody.FirstRequestAtZero | models/mindbody.go:47-57 | the first request is always made, at offset 0 |
| MindBody.DebugMakesOneRequest | models/mindbody.go:72-74 | in debug mode exactly one request is made |
| MindBody.OffsetsAccumulate | models/mindbody.go:76-77 | each later offset is the previous offset plus the previous page's size, and results were still left at it |
| MindBody.FetchEndsOnLastPage | models/mindbody.go:53-55 | a successful walk ends on a page after which no results are left, and returns that page's clients only |
| MindBody.ZeroPageSizeNeverEnds | models/mindbody.go:76-77 | with page size 0 and results left, the offset never moves and every answer is consumed without ending the loop |
| MindBody.LastPageOnlyWitness | models/mindbody.go:67-76 | two pages of one client each: the walk returns only the second page's client |
| MindBody.WalkAllKeepsEveryPage | models/mindbody.go:52-78 | the accumulating walk issues the same requests, and its result is every fetched page's clients, in order |
| MindBody.AllPagesWitness | models/mindbody.go:52-78 | on the two-page example the accumulating walk returns both clients |
| Access.GetAccessCredential | models/access.go:110-117 | succeeds iff the list is non-empty and its first credential's ID is not 0, and returns that credential; otherwise fails with "Access credential not found" |
| Access.OnlyFirstCredentialInspected | models/access.go:111-116 | events agreeing on the first credential get the same result |
| Access.IsToday | models/access.go:137-145 | true iff the timestamp parses to an instant on the same civil day, month and year as today |
| Access.AdmissionSpec | models/access.go:73-90 | an arrival is admitted iff no timestamp is stored or the stored one is not active (an unparsable one is not); then `now` is stored under the ID and no other key changes |
| Access.NoSecondArrivalWithinWindow | models/access.go:121-133 | after an admitted arrival at t1, a request at t2 is refused for t1 ≤ t2 < t1 + 30 min and admitted from t1 + 30 min on |
| Access.FirstBadgeLogsArrival | models/access.go:73-77 | a first badge-in with fresh tokens, a valid reference, no stored timestamp and working services stores `now` and logs the arrival |
| Access.ProcessRequest | models/access.go:35-107 | the inputs select the exit: no credential, a failed Brivo refresh of an expired token, a failed lookup, an invalid reference and a failed store read each end the request exactly when they occur; once the store is reached, the request ends with "already arrived" exactly when the stored timestamp is active, and otherwise goes on past the write with the looked-up reference; no credential means no token change and no store write; every exit before the store write leaves the store unchanged; an active timestamp ends with nothing written; after the write the store is the admitted map, or the old map when the write failed, and the request goes on either way; the MINDBODY refresh fails the request exactly when it is needed after the write and fails; the arrival is logged iff the store decision admitted it, a needed MINDBODY refresh succeeded and the arrival call succeeded; the Brivo token changes only when it expired and its refresh succeeded, and a failed refresh ends the request with it unchanged; the MINDBODY token changes only after the write, when it expired and its refresh succeeded |
| Clean.Selected | clean/clean.go:124 | every selected credential carries a reference ID in the set and is one of the listed credentials |
| Clean.UsersPassCollects | clean/clean.go:67-103 | the user pass never removes IDs and stores only `true`; it deletes no credentials; without a fatal refresh, its set is the barcodes of exactly those users whose fields were fetched and held the barcode field |
| Clean.CredentialsPassSelects | clean/clean.go:108-131 | the credential pass leaves the set and the deleted users alone; without a fatal refresh it deletes exactly the selected credentials, in list order |
| Clean.CredentialsPassAfterFatal | clean/clean.go:117-119 | once the process has exited, no credential is visited |
| Clean.DeletedOnlyIfStashed | clean/clean.go:124-129 | every credential the pass deletes has its reference ID in the set |
| Clean.Cleaner.Update | clean/clean.go:140-144 | the ID is mapped to `true`, the key set grows by that ID alone, and no other field changes |
| Clean.Cleaner.CheckToken | clean/clean.go:73-80 | the token is refreshed only when `now` is after the expiry; a failed refresh is fatal |
| Clean.Cleaner.VisitUser | clean/clean.go:69-102 | a failed field fetch or a missing barcode skips the user; otherwise the barcode is stashed and the delete is attempted, whatever it answers |
| Clean.Cleaner.VisitCredential | clean/clean.go:110-130 | the credential is deleted iff its reference ID is in the set |
| Clean.Cleaner.Nuke | clean/clean.go:37-137 | the fatal messages of the token, user-list and credential-list failures, with nothing deleted; otherwise the user pass then the credential pass |
| Clean.NukeDeletesOnlyMemberCredentials | clean/clean.go:95-129 | from an empty set, every deleted credential carries the barcode of a member-group user whose fields held it, and none is deleted after a fatal refresh in the user pass |
| Clean.NukeDeletesEveryMemberCredential | clean/clean.go:95-129 | without a fatal refresh, the set is exactly the collected barcodes and the deleted credentials are exactly those carrying one |
| Pipeline.Fail | migrate/migrate.go:305-309 | the reason is written under the user's ID; the last write wins |
| Pipeline.Step | migrate/migrate.go:167-259 | a step passes iff its field exists (field steps) and the answer is a success, and it then only consumes the answer; it requeues iff its field exists and the answer is a 401; only a requeue touches the buffer, flag or counter; it adds no ID but the user's; the migration's flag stays clear; in the sync (sync/sync.go:168-279) the slot count is unchanged when the run goes on |
| Pipeline.Attempt | migrate/migrate.go:124-162 | an attempt adds no ID but the user's, never lowers the counter, gives back every semaphore slot it takes, and keeps the migration's flag clear |
| Pipeline.Renew | migrate/migrate.go:280-289 | the refresh changes only the flag, renewals, expiry and halt; a migration refresh that goes on clears the flag |
| Pipeline.DoRefresh | migrate/migrate.go:271-302 | a refresh while one is running does nothing; a migration refresh that goes on ends with the flag clear and the buffer empty; no ID is added |
| Pipeline.Drain | migrate/migrate.go:292-301 | a drain that goes on ends with the buffer empty and adds no ID |
| Pipeline.StepUnauthorized | migrate/migrate.go:173-178 | a 401 answer fails the step and reports the requeue; on a full buffer the push blocks for good; otherwise the state is `doRefresh` run after the user is pushed, and while another refresh is under way nothing is recorded in `failed` and the user waits in the buffer (likewise at migrate/migrate.go:193-198, 214-219, 232-237, 250-255 and sync/sync.go:178-183) |
| Pipeline.StepOutcomes | migrate/migrate.go:185-202 | a missing field records "Update Custom Field ID <id>: Custom field <id> not found" with no remote call; another error records "<Step>: <error text>"; running out of answers halts |
| Pipeline.CountedIffPasses | migrate/migrate.go:124-162 | without 401s, the migration counts the user iff the create-user, barcode and create-credential steps pass, whatever the other three answer |
| Pipeline.AttemptFrame | migrate/migrate.go:124-162 | without 401s, the counter grows by one exactly when the user is counted, and the buffer, flag, renewals and expiry are untouched |
| Pipeline.AttemptFailedKeys | migrate/migrate.go:305-309 | an attempt adds at most the user's own key to `failed` and leaves every other entry alone |
| Pipeline.SyncCountedIffAllPass | sync/sync.go:124-160 | the sync counts the user iff every step passes |
| Pipeline.SyncCountsOnlyFullPass | sync/sync.go:124-160 | the sync counts the user iff both fields exist and the first six answers are all successes |
| Pipeline.AllPassIff | sync/sync.go:124-160 | passing all stages means the fields exist and each stage's answer is a success |
| Pipeline.RequeuedAttemptNotCounted | migrate/migrate.go:138-161 | in the sync and in the corrected migration, an attempt that requeued the user does not count it |
| Pipeline.CleanPass | migrate/migrate.go:124-162 | with the fields present and all successes, an attempt consumes one answer per step, counts once and changes nothing else |
| Pipeline.DoubleCountWitness | migrate/migrate.go:138-161 | a 401 on the user-type field: the attempt requeues the user and still counts it, and the re-run counts it again, so one user is counted twice |
| Pipeline.CorrectedCountsOnceWitness | migrate/migrate.go:138-161 | on the same answers the corrected migration counts the user once |
| Pipeline.Admit | migrate/migrate.go:102-109 | routing a user adds no ID but its own and never lowers the counter |
| Pipeline.CreateUsers | migrate/migrate.go:89-110 | the driver never lowers the counter and does nothing once the run has halted |
| Pipeline.DriverTouchesOnlyValid | migrate/migrate.go:93-97 | the IDs the driver leaves in `failed` or the buffer are the starting ones and those of valid clients |
| Pipeline.InvalidClientSkipped | sync/sync.go:93-97 | an invalid client may be removed from the list without changing the result |
| Pipeline.SyncStuck | sync/sync.go:299-304 | with the flag stuck after a failed refresh, every later valid client is buffered and nothing is counted or recorded; the run deadlocks iff the buffer overflows |
| Pipeline.MigrateNeverBuffers | migrate/migrate.go:103-109 | a migration that goes on never leaves the flag set or a user in the buffer |
| Pipeline.MigrateRefreshOnlyWhenExpired | migrate/migrate.go:280-289 | the migration refreshes only when the clock is past the expiry; a failed refresh is fatal with "Failed refreshing Brivo AUTH token with err Error refreshing Brivo token: <e>"; then the buffer is drained |
| Pipeline.SyncRefresh | sync/sync.go:294-318 | the sync refreshes without looking at the clock; a failure leaves the flag set and the buffer undrained; a success stores the expiry and drains |
| Pipeline.FailureLines | migrate/migrate.go:317-319 | one line "External ID: <id> Reason: <reason>" per key, in the order given |
| Pipeline.Summary | migrate/migrate.go:312-319 | the header, "Users Created Successfully: <n>", "Users Failed: <len(failed)>", then one line per failed entry, so 3 + len(failed) lines |
| Pipeline.SummaryOrderFree | migrate/migrate.go:317-319 | any two iteration orders of the map give the same length, the same three header lines and the same set of lines |
| Migrate.Migration.constructor | migrate/migrate.go:79-86 | the buffer's capacity is the rate limit; the run starts with the flag clear, the buffer empty and `failed` empty |
| Migrate.Migration.Failure | migrate/migrate.go:305-309 | `failed[userID] = reason`, nothing else changes |
| Migrate.Migration.Respond | migrate/migrate.go:170-181 | the answer handling of every step equals `Pipeline.Step` |
| Migrate.Migration.CreateUser | migrate/migrate.go:167-182 | equals `Pipeline.Step` for the create-user stage |
| Migrate.Migration.UpdateCustomField | migrate/migrate.go:185-203 | equals `Pipeline.Step` for a field stage, including the missing-field failure |
| Migrate.Migration.CreateCredential | migrate/migrate.go:206-223 | equals `Pipeline.Step` for the create-credential stage |
| Migrate.Migration.AssignCredential | migrate/migrate.go:226-241 | equals `Pipeline.Step` for the assign-credential stage |
| Migrate.Migration.AssignGroup | migrate/migrate.go:244-259 | equals `Pipeline.Step` for the assign-group stage |
| Migrate.Migration.ProcessUser | migrate/migrate.go:119-164 | the state after the six steps equals `Pipeline.ProcessUser` |
| Migrate.Migration.FinishUser | migrate/migrate.go:144-163 | the state after create credential onwards equals `Pipeline.Attempt` of those stages |
| Migrate.Migration.AssignUser | migrate/migrate.go:151-163 | the state after the two assignments and the count equals `Pipeline.Attempt` of those stages |
| Migrate.Migration.RefreshToken | migrate/migrate.go:262-268 | a success stores the new expiry; a failure changes nothing and returns "Error refreshing Brivo token: <e>" |
| Migrate.Migration.DoRefresh | migrate/migrate.go:271-302 | equals `Pipeline.DoRefresh` |
| Migrate.Migration.DrainBuffer | migrate/migrate.go:292-301 | the drain loop equals `Pipeline.Drain` |
| Migrate.Migration.CreateUsers | migrate/migrate.go:77-110 | after resetting the flag, buffer and `failed`, the loop equals `Pipeline.CreateUsers` over all clients |
| Migrate.Migration.PrintLog | migrate/migrate.go:312-319 | the lines built equal `Pipeline.Summary` for the given iteration order |
| Sync.SyncRun.constructor | sync/sync.go:79-86 | the buffer's capacity is the rate limit; the run starts with the flag clear, the buffer empty and `failed` empty |
| Sync.SyncRun.Failure | sync/sync.go:321-325 | `failed[userID] = reason`, nothing else changes |
| Sync.SyncRun.ReleaseSlot | sync/sync.go:170-172 | the deferred release gives the slot back |
| Sync.SyncRun.Respond | sync/sync.go:174-186 | with the step's slot held, the answer handling and the release equal `Pipeline.Step` |
| Sync.SyncRun.CreateUser | sync/sync.go:168-187 | acquiring a slot and responding equals `Pipeline.Step` for the create-user stage |
| Sync.SyncRun.UpdateCustomField | sync/sync.go:190-212 | equals `Pipeline.Step` for a field stage; a missing field releases the slot too |
| Sync.SyncRun.CreateCredential | sync/sync.go:215-235 | equals `Pipeline.Step` for the create-credential stage |
| Sync.SyncRun.AssignCredential | sync/sync.go:238-257 | equals `Pipeline.Step` for the assign-credential stage |
| Sync.SyncRun.AssignGroup | sync/sync.go:260-279 | equals `Pipeline.Step` for the assign-group stage |
| Sync.SyncRun.ProcessUser | sync/sync.go:119-165 | the state after the six steps equals `Pipeline.ProcessUser` |
| Sync.SyncRun.FinishUser | sync/sync.go:143-161 | the state after create credential onwards equals `Pipeline.Attempt` of those stages |
| Sync.SyncRun.AssignUser | sync/sync.go:149-161 | the state after the two assignments and the count equals `Pipeline.Attempt` of those stages |
| Sync.SyncRun.RefreshToken | sync/sync.go:282-291 | consumes one renewal, succeeds iff it did, stores its expiry on success, and gives its slot back |
| Sync.SyncRun.DoRefresh | sync/sync.go:294-318 | equals `Pipeline.DoRefresh` |
| Sync.SyncRun.DrainBuffer | sync/sync.go:308-317 | the drain loop equals `Pipeline.Drain` |
| Sync.SyncRun.CreateUsers | sync/sync.go:77-110 | after resetting the flag, buffer, `failed` and the semaphore, the loop equals `Pipeline.CreateUsers` over all clients |
| Sync.SyncRun.PrintLog | sync/sync.go:328-335 | the lines built equal `Pipeline.Summary` for the given iteration order |

## Left out

- Concurrency. The goroutines, `sync.WaitGroup`, the mutexes, the `go-rate` limiter and `time.Sleep` are left out. The model runs one interleaving: a goroutine runs to completion when it is started, and in the cleanup users are visited before credentials. Single-flight refresh and the semaphore's capacity bound are not stated.
- The sync semaphore is a count of slots held, without blocking. A send on a full requeue buffer is the halt `Deadlocked`, which the sequential model cannot tell from waiting for another goroutine's drain.
- Re-running a drained user is synchronous, inside the refresh that drains it. In the programs it is a new goroutine.
- The network, Redis and file I/O are left out: the token fetches of models/auth.go and fiao.go, the channel coordination of the root sync.go, db.go, the server, the `cmd` entry points, the loggers, and the `ioutil.WriteFile` of the summary. Their results are inputs.
- Functions whose source is not part of this model are inputs: `IsValidID` (called with two different arities), `BuildUser`, `GenerateCredential`, the Brivo user, field, credential and group calls, `DeleteUser`, `GetCredentialByID`, `AddArrival`, `RefreshBrivoToken`, and the store's read and write calls (their errors are inputs).
- models/event.go only declares data.
- Brivo.BuildBrivoUsers: models only the mapping. The credential, user and assignment calls that follow it (models/brivo.go:127-143, each fatal on error) are not part of this model.
- Time. Instants are whole seconds. Formatting and parsing with the "2006-01-02 15:04:05" layout are function parameters, as is the civil date. `ProcessRequest` reads the clock once, where the source reads it at each check.
- Map iteration order. `Pipeline.Summary` takes the order as a parameter. `Pipeline.SummaryOrderFree` proves the content does not depend on it; the line order does.
- JSON numbers are integers. `float64`, and the truncating `int(...)` conversion of a credential ID, are left out.
- Migrate.Migration.Respond: the step functions' returned Go errors ("Access token expired", "Error creating user …") are only printed by the source. The model returns whether the step passed and whether it requeued the user, not the text.
- MindBody.GetClients: a request the reply sequence does not answer ends the walk with `Unanswered`, where the source would go on requesting.
- Version mismatches are left as they are: credential.go switches on `async.JSONError`, which only utils.go defines, so the model classifies its exchange with `Utils.DoRequest`; the `clean.Nuke` arity and configuration fields used but not declared are not reconciled.

## Findings

| source | as written | input that shows it | evidently intended | confidence | as-written member | corrected member |
|---|---|---|---|---|---|---|
| migrate/migrate.go:138-161 | after a 401 in the user-type field, assign-credential or assign-group step, the user is requeued and re-run by the refresh, and the interrupted attempt still goes on to `o.success++` | a user whose answers are success, success, 401 on the user-type field, then successes, with a token that needs no refresh: the summary counts 2 users created for one client | a requeued attempt ends there and the user is counted once, by the re-run | medium, not executed | Pipeline.DoubleCountWitness | Pipeline.CorrectedCountsOnceWitness, Pipeline.RequeuedAttemptNotCounted (`Migrate.Migration` with `requeueStops`) |
| models/mindbody.go:67-76 | every page is decoded into the same `MindBody` value, and decoding a JSON array into a slice replaces it, so only the last page's clients remain | two pages of one client each (page size 1, total 2): `GetClients` returns only the second client | the clients of every page are kept | medium, not executed | MindBody.LastPageOnlyWitness, MindBody.FetchEndsOnLastPage | MindBody.WalkAllKeepsEveryPage, MindBody.AllPagesWitness |
