# File publication tool — a Dafny model of its core

The tool publishes file metadata to a file-distribution service. It proceeds in four steps:

1. It validates a request map built from `global.ini`, from a `config.ini`, or from the command line.
2. It turns that map into a publication payload.
3. It obtains an OAuth bearer token. The token comes from a token file it keeps, from a refresh grant, or from a password grant.
4. It posts the payload. On server errors the post is retried with a growing delay.

This project models those steps in Dafny and proves what they promise.

| file | module | what it holds |
|---|---|---|
| `wrappers.dfy` | `Wrappers` | `Option` and `Result` |
| `text.dfy` | `Text` | the Python string and integer operations the tool uses:<br>`strip`, one-character `split`, `join`, `in`<br>`int()` on text, `str()` on integers |
| `json.dfy` | `Json` | dict and list values, and `d[k]`, `d[k] = v`, `del d[k]`, `int(v)`, `v > n`, `str(v)`<br>the built-in exceptions they raise, as `Fault` |
| `ini.dfy` | `IniFile` | a parsed INI file: its sections, and `config[s]` and `config[s][k]` on them |
| `exceptions.dfy` | `Exceptions` | the five exception classes of `exceptions.py`, plain `Exception(message)` and built-in faults, as one `Error` datatype with the message each constructor builds |
| `validator.dfy` | `Validator` | `validate_global_config`, `validate_config` and `validate_argument`<br>`Request` is a class whose `fields` map they fill in place |
| `payload.dfy` | `Payload` | `modify_file_request` and `create_payload`, as imperative builders proved equal to pure specifications |
| `rdptoken.dfy` | `RdpToken` | `_loadCredentialsFromFile`, `_requestNewToken`, `_saveToken`, `_loadToken` and `getToken`, on a `Session` class |
| `publish.dfy` | `Publish` | the retry settings, `publish_file`, the `@retry` decorator around it, and the start-up check that removes a token saved for another user |

### State and environment

The module globals of `rdpToken.py` and the two files it writes are the fields of `RdpToken.Session`:

- the three credentials;
- `token.txt` and `current_user.json`;
- the clock;
- the number of token and publish requests made;
- a trace of events.

The trace records every grant request, sleep, file write, file removal and publish request, in order.

Each method is proved equal to an effect function over a `State` value, its `Snapshot()`. The properties are lemmas about those functions.

What the session cannot change is its `Env`:

- the parsed `global.ini`;
- the token endpoint's replies, indexed by how many token requests came before;
- the publish endpoint's replies, indexed the same way.

`time.sleep(n)` advances the integer clock by `n`.

### Where the model follows the code rather than the documented design

- **A 201 reply is not a success.** The `else` at `publishFile.py:97` belongs to the `if` at line 84, so a 201 reply goes on to raise `CFSInvalidInputException` once its body was parsed and printed. `Publish.ClassifyPublishReplyCases` states this. The retry decorator therefore stops after that first request, since the error is not a server error.
- **An `invalid_grant` refusal of the password grant does not signal failure.** `_requestNewToken` returns `None`, and `getToken` then calls `_saveToken(None)`. That truncates `token.txt` and raises `TypeError`. `RdpToken.SaveNothingEmptiesTokenFile` states it.
- **Credentials are re-read from `global.ini`** by every token request, every save and every cache hit. The model reloads them at the same points.
- **`validate_argument` stores no role.** It never writes `rolearn`, although `create_payload` reads it (`Validator.RoleArnNeverCopied`).
- **The single-file path reads a different key.** It reads the role under `roleArn`, while the `files` path reads `rolearn` (`Payload.FileRequestsShape`).

## Model

| member | source | states |
|---|---|---|
| `Exceptions.FileNameOnlyWhenGiven` | file_dist_tools/exceptions.py:6-9 | the invalid-field message names the file exactly when one is given; otherwise the two messages are the same text ending in the detail |
| `Exceptions.UnrecognizedFieldDefault` | file_dist_tools/exceptions.py:14-16 | the default message is `Unrecognized field "<name>"` |
| `Exceptions.PublishMessagesShowPayloadAndResult` | file_dist_tools/exceptions.py:27-40 | both publish exceptions start with their message and contain `payload=<payload>` and `result=<body>` |
| `Exceptions.PublishMessagesDifferByIndent` | file_dist_tools/exceptions.py:31-39 | the invalid-input message is the server-error message with one more space before `result=` |
| `Exceptions.Message` | file_dist_tools/exceptions.py:1-40 | the unrecognized-field, publish and plain messages start with their detail text |
| `IniFile.GetOption` | file_dist_tools/rdpToken.py:49-51 | an option is found exactly when the section names it (names compared lower-cased), and the value returned is that entry's |
| `IniFile.GetSection` | file_dist_tools/validator.py:23 | a section is returned exactly when the file has it; otherwise `KeyError` for its name |
| `Json.Subscript` | file_dist_tools/publishFile.py:133-134 | `v[k]` succeeds exactly when `v` is a dict holding `k`, and gives `k`'s value; a dict without `k` raises `KeyError(k)` |
| `Json.ToInt` | file_dist_tools/publishFile.py:147 | `int()` keeps an integer, and accepts a string exactly when it is an optionally signed decimal numeral |
| `Validator.Attributes` | file_dist_tools/validator.py:37-40 | attributes build exactly when every item has an `=`; then there is one `{name, value}` per item, in order; otherwise `IndexError` |
| `Validator.ParseAttributes` | file_dist_tools/validator.py:35-41 | the attribute loop yields the attribute list of the stripped comma-separated items |
| `Validator.AttributesRoundTrip` | file_dist_tools/validator.py:36-40 | writing `name=value` pairs without `,`/`=` (name not starting and value not ending with whitespace) and parsing them gives the pairs back |
| `Validator.CopyGlobalCopiesAll` | file_dist_tools/validator.py:30-41 | without an exception, every `[CFS_GLOBAL]` option is in the map with its value, parsed for `attributes`; every value was non-empty; no other key changed |
| `Validator.EmptyGlobalValueWrittenFirst` | file_dist_tools/validator.py:30-33 | an empty value raises only after it was written into the map, naming its option |
| `Validator.GlobalConfigRequiredOptions` | file_dist_tools/validator.py:22-28 | success needs `[RDP]` with `username`, `password`, `clientId` and `[CFS_GLOBAL]` with `bucketName`, `packageId`; a missing credential raises before anything is written |
| `Validator.FileInputOutcome` | file_dist_tools/validator.py:63-74 | a file line raises exactly when it has fewer than three parts (format message), or four parts whose size `int()` rejects (size message) |
| `Validator.FileInputFields` | file_dist_tools/validator.py:63-83 | a read line holds name and URL; its unquoted description exactly when it has 3 parts; its size exactly when it has 4 |
| `Validator.FileLineRoundTrip` | file_dist_tools/validator.py:63-83 | `name,url,"description"` reads back as those three values |
| `Validator.SizedFileLineRoundTrip` | file_dist_tools/validator.py:68-83 | `name,url,description,size` reads back as name, URL and size, dropping the description |
| `Validator.FileInputsInOrder` | file_dist_tools/validator.py:62-86 | a section that reads gives one record per line, in section order |
| `Validator.CopyAllCopies` | file_dist_tools/validator.py:54-55 | every option of the section is in the map with its text, and every other key is unchanged |
| `Validator.ConfigOutcome` | file_dist_tools/validator.py:46-86 | `validate_config` succeeds exactly when `filesetName` is given, `[CFS_FILES]` exists with at most 10 lines and every line reads; it then leaves the options and the `files` list; more than 10 lines raise after the options were copied |
| `Validator.GetCopyOptionalArguments` | file_dist_tools/validator.py:120-140 | the five plain optional options change only their own key, and only when given |
| `Validator.RequiredArgumentsInOrder` | file_dist_tools/validator.py:92-107 | file set, file name and S3 URL are checked in that order; the first missing one raises its own message after the earlier ones were stored |
| `Validator.RequiredArgumentsCopied` | file_dist_tools/validator.py:92-107 | after the required options the three keys hold the given texts and nothing else changed |
| `Validator.RequiredArgumentsFrame` | file_dist_tools/validator.py:92-107 | the required part writes no key but its three, whatever the outcome |
| `Validator.OptionalArgumentsCopied` | file_dist_tools/validator.py:109-148 | without an exception, each given optional option is stored (attributes parsed, size as a number) and other keys are unchanged |
| `Validator.OptionalArgumentsFrame` | file_dist_tools/validator.py:109-148 | the optional part writes no key but its seven, whatever the outcome |
| `Validator.OptionalArgumentsErrors` | file_dist_tools/validator.py:109-148 | the optional half raises exactly when an attribute item has no `=` (`IndexError`, nothing optional written) or the size is not a number (size message, after the attributes and the five plain options were written) |
| `Validator.ArgumentErrors` | file_dist_tools/validator.py:91-148 | `validate_argument` raises exactly when a required option is missing, an attribute item has no `=`, or `int()` rejects the size, checked in that order |
| `Validator.ArgumentsCopied` | file_dist_tools/validator.py:91-148 | without an exception, `validate_argument` leaves exactly the given options in the map over the old contents |
| `Validator.RoleArnNeverCopied` | file_dist_tools/validator.py:91-148 | `validate_argument` never changes `rolearn` |
| `Validator.ReadFileLine` | file_dist_tools/validator.py:63-85 | the loop body builds the file record of one line, or raises as `FileInput` says |
| `Validator.ReadFiles` | file_dist_tools/validator.py:62-86 | the `[CFS_FILES]` loop gives the records of all lines, or the first line's error |
| `Validator.Request.constructor` | file_dist_tools/publishFile.py:234 | the request map starts empty |
| `Validator.Request.ValidateGlobalConfig` | file_dist_tools/validator.py:18-41 | the map and exception are those of `GlobalConfigEffect` on the old map |
| `Validator.Request.CopyOptions` | file_dist_tools/validator.py:54-55 | the map becomes the old map with every option written in order |
| `Validator.Request.ValidateConfig` | file_dist_tools/validator.py:46-86 | the map and exception are those of `ConfigEffect` on the old map |
| `Validator.Request.SetRequiredArguments` | file_dist_tools/validator.py:92-107 | the map and exception are those of the required-option half |
| `Validator.Request.SetOptionalArguments` | file_dist_tools/validator.py:109-148 | the map and exception are those of the optional-option half |
| `Validator.Request.ValidateArgument` | file_dist_tools/validator.py:91-148 | the map and exception are those of `ArgumentEffect` on the old map |
| `Payload.FillStorage` | file_dist_tools/publishFile.py:133-139 | `storageLocation` is the template's with the URL set and the role kept only when given |
| `Payload.FillFileKeys` | file_dist_tools/publishFile.py:134-149 | the entry is the template with the file name set, and description and size kept only when given |
| `Payload.FillEntry` | file_dist_tools/publishFile.py:131-151 | one file entry equals `Entry`, errors included |
| `Payload.ModifyFileRequest` | file_dist_tools/publishFile.py:115-171 | the file list equals `FileRequests`, errors included |
| `Payload.CreatePayload` | file_dist_tools/publishFile.py:177-200 | the payload equals `Payload`, errors included |
| `Payload.FileEntryFields` | file_dist_tools/publishFile.py:118-149 | an entry has file type `file`, URL and `s3` under `storageLocation`, the file name, and each optional key exactly when given |
| `Payload.EntryOutcome` | file_dist_tools/publishFile.py:133-147 | an entry is built exactly when the input is a dict with `s3url`, `filename` and an `int()`-able size if any; otherwise the first failing read's error |
| `Payload.EntryFields` | file_dist_tools/publishFile.py:132-149 | a built entry carries the input's URL, file name, role, description and `int()` of its size, each optional one exactly when the input has it |
| `Payload.EntriesInOrder` | file_dist_tools/publishFile.py:130-151 | a `files` list gives one entry per input, in order, each read with `rolearn` |
| `Payload.FileRequestsShape` | file_dist_tools/publishFile.py:130-171 | with `files` one entry per element (role key `rolearn`); without it exactly one entry from the request itself (role key `roleArn`) |
| `Payload.CopyOptionalFields` | file_dist_tools/publishFile.py:187-199 | after the optional copies a renamed key holds its source's value when the request has it; other keys are unchanged |
| `Payload.RenamesSources` | file_dist_tools/publishFile.py:188-199 | the optional copies read `rolearn`, `availablefrom`, `availableto`, `contentfrom`, `contentto` and `attributes` |
| `Payload.PayloadOutcome` | file_dist_tools/publishFile.py:179-185 | a payload is built exactly when the file list builds and `filesetname`, `bucketname`, `packageid` are present; the file list's error comes first |
| `Payload.PayloadFields` | file_dist_tools/publishFile.py:177-200 | a payload holds the file list under `files`; under every other key exactly the request value it is copied from, or nothing |
| `RdpToken.LoadCredentialsFrame` | file_dist_tools/rdpToken.py:42-59 | loading credentials changes only the three credential globals |
| `RdpToken.LoadCredentialsValues` | file_dist_tools/rdpToken.py:44-58 | the globals take the `[RDP]` values in order username, password, clientId; the first missing option stops the copy and is swallowed; a missing `[RDP]` section changes nothing |
| `RdpToken.LoadCredentialsIdempotent` | file_dist_tools/rdpToken.py:42-59 | a second load changes nothing |
| `RdpToken.GrantBody` | file_dist_tools/rdpToken.py:69-82 | a refresh grant carries the refresh token; a password grant carries the user name and password |
| `RdpToken.GrantOutcome` | file_dist_tools/rdpToken.py:97-110 | a reply is read as a token or `None` only for status 200 or 400; `Exception` is raised exactly for a non-200 that is not an `invalid_grant` 400 |
| `RdpToken.GrantBodyShape` | file_dist_tools/rdpToken.py:69-82 | a password grant (username, password, scope `trapi`, exclusive sign-on) exactly when there is no refresh token; otherwise a refresh grant with the token |
| `RdpToken.GrantOutcomeCases` | file_dist_tools/rdpToken.py:97-110 | `invalid_grant` 400 gives `None`; any other non-200 raises; a 200 gives its parsed body |
| `RdpToken.RequestNewTokenOneGrant` | file_dist_tools/rdpToken.py:63-110 | one token request: exactly one grant with the reloaded credentials; files untouched; the clock advances 5 s exactly when the status is not 200 |
| `RdpToken.StampedRecord` | file_dist_tools/rdpToken.py:119 | the record exists exactly when the token is a dict whose `expires_in` `int()` accepts, and then it has `expiry_tm` |
| `RdpToken.StampedRecordFields` | file_dist_tools/rdpToken.py:119 | the saved record is the token with `expiry_tm = now + int(expires_in) - 10`; it exists exactly when `expires_in` is there and `int()`-able |
| `RdpToken.SaveNothingEmptiesTokenFile` | file_dist_tools/rdpToken.py:116-119 | saving `None` empties the token file and raises, writing nothing else |
| `RdpToken.SaveThenLoad` | file_dist_tools/rdpToken.py:114-132 | after a save the next load reads the record back; the marker names the configured user; the two writes are the last events; no grant, no time |
| `RdpToken.SaveTokenNoGrant` | file_dist_tools/rdpToken.py:114-132 | saving makes no grant request and takes no time |
| `RdpToken.CachedTokenValid` | file_dist_tools/rdpToken.py:196 | a stored token counts as unexpired only when it is a dict with `expiry_tm` |
| `RdpToken.CachedTokenReused` | file_dist_tools/rdpToken.py:195-200 | an unexpired stored token is returned with no request and no file change, only the credentials reloaded |
| `RdpToken.SaveAndReturnFacts` | file_dist_tools/rdpToken.py:215-218 | a fetched token is saved before its `access_token` is returned, and that token is the one in the file |
| `RdpToken.NoStoredTokenPasswordGrant` | file_dist_tools/rdpToken.py:211-213 | with no stored token exactly one grant is made, a password grant |
| `RdpToken.ExpiredTokenGrants` | file_dist_tools/rdpToken.py:202-210 | an expired token first makes the grant `GrantBody` builds from its stored `refresh_token` (a password grant when that value is JSON null); a password grant follows exactly when that first request comes back as `None`, that is an `invalid_grant` 400 or a 200 whose body is `null` |
| `RdpToken.RefreshGrants` | file_dist_tools/rdpToken.py:202-210 | with a stored `refresh_token`, the grant count and the grant bodies are one grant from `GrantBody` of that value (a password grant when it is null), plus one password grant with the reloaded credentials exactly when the first reply is read as `None` (an `invalid_grant` 400, or a 200 whose body is `null`) |
| `RdpToken.AtMostTwoGrants` | file_dist_tools/rdpToken.py:191-218 | `getToken` makes at most two grant requests |
| `RdpToken.FetchKeepsFiles` | file_dist_tools/rdpToken.py:202-213 | the grant cascade writes neither file |
| `RdpToken.RaisedGrantKeepsFiles` | file_dist_tools/rdpToken.py:103-107 | when a grant failure is raised neither file has been touched |
| `RdpToken.FreshTokenServedFromCache` | file_dist_tools/rdpToken.py:191-218 | a token fetched and saved is served with no request by a call made at the clock reading of the save exactly when `expires_in` exceeds 10 s |
| `RdpToken.RequestAddsTokenEvents` | file_dist_tools/rdpToken.py:63-110 | a token request only appends token events to the trace |
| `RdpToken.SaveAddsTokenEvents` | file_dist_tools/rdpToken.py:114-132 | a save only appends token events |
| `RdpToken.FetchAddsTokenEvents` | file_dist_tools/rdpToken.py:202-213 | the grant cascade only appends token events |
| `RdpToken.GetTokenAddsTokenEvents` | file_dist_tools/rdpToken.py:191-218 | `getToken` only appends token events: no publish request, and no sleep at the start |
| `RdpToken.Session.constructor` | file_dist_tools/rdpToken.py:24-38 | the session starts with the placeholder credentials, the files as found, and no requests |
| `RdpToken.Session.LoadCredentialsFromFile` | file_dist_tools/rdpToken.py:42-59 | the new state is `LoadCredentials` of the old one, and `USERNAME` is returned |
| `RdpToken.Session.Sleep` | file_dist_tools/rdpToken.py:100 | a non-negative sleep advances the clock and is recorded; a negative one raises and changes nothing |
| `RdpToken.Session.RequestNewToken` | file_dist_tools/rdpToken.py:63-110 | state and outcome are those of `RequestNewTokenEffect` |
| `RdpToken.Session.SaveToken` | file_dist_tools/rdpToken.py:114-132 | state and outcome are those of `SaveTokenEffect` |
| `RdpToken.Session.LoadToken` | file_dist_tools/rdpToken.py:136-148 | the stored token, `None` when the file is missing or unreadable |
| `RdpToken.Session.GetToken` | file_dist_tools/rdpToken.py:191-218 | state and outcome are those of `GetTokenEffect` |
| `Publish.RetrySettings` | file_dist_tools/publishFile.py:22-31 | the settings are read only when `[RETRY_CONFIG]` exists; the only failures are the missing section and a value `int()` rejects |
| `Publish.RetrySettingsValues` | file_dist_tools/publishFile.py:22-31 | a missing `[RETRY_CONFIG]` raises; otherwise each setting is `int()` of its option or default, and the settings exist exactly when all three parse |
| `Publish.DefaultRetrySettings` | file_dist_tools/publishFile.py:23-31 | an empty section gives 3 tries, 1 s delay, backoff 2 |
| `Publish.ClassifyPublishReply` | file_dist_tools/publishFile.py:77-109 | a reply gives the server exception exactly for 429 and 500+; a built-in fault only for a 201; both publish exceptions carry the payload and the reply text |
| `Publish.ClassifyPublishReplyCases` | file_dist_tools/publishFile.py:77-109 | 429 and 500+ give the server exception, every other reply (201 included) the invalid-input one unless a 201 body fails to parse or print; both carry payload and body |
| `Publish.PublishAttemptRequest` | file_dist_tools/publishFile.py:63-75 | each attempt fetches a token and sends exactly one request with its bearer header; a token failure sends none and is never a server error |
| `Publish.GetTokenKeepsPublishes` | file_dist_tools/rdpToken.py:191-218 | `getToken` sends no publish request |
| `Publish.GetTokenNeverServerError` | file_dist_tools/rdpToken.py:191-218 | `getToken` raises only its own or built-in errors |
| `Publish.AttemptTrace` | file_dist_tools/publishFile.py:63-109 | one attempt sends at most one request, exactly one on a server error (then last in the trace), and adds no retry sleep |
| `Publish.GeometricTerms` | file_dist_tools/publishFile.py:62 | the `k`-th delay is `delay * backoff^k` |
| `Publish.RetryOutcome` | file_dist_tools/publishFile.py:62 | with tries the decorated call always raises, with none it returns `None`; at most one request per try; a server error escapes after one per try |
| `Publish.RetryExhausted` | file_dist_tools/publishFile.py:62 | a server error escapes only after all tries, with sleeps `delay, delay*backoff, ...` between them |
| `Publish.RetryPublish` | file_dist_tools/publishFile.py:62-109 | decorated `publish_file`: raises when given tries, at most `tries` requests, and a server error only after `tries` requests with the geometric sleeps |
| `Publish.RetryStopsOnOtherError` | file_dist_tools/publishFile.py:62 | any other error ends the decorated call at the first attempt |
| `Publish.DefaultSchedule` | file_dist_tools/publishFile.py:23-62 | by default a server error escapes after 3 requests with sleeps of 1 s and 2 s |
| `Publish.LoadCurrentUser` | file_dist_tools/publishFile.py:206-222 | the recorded user is the `username` of a marker file holding a dict, and `None` when there is none |
| `Publish.StaleUser` | file_dist_tools/publishFile.py:323 | no recorded user is stale; a recorded string is not stale exactly when it equals the configured user name and that name has a character that is not whitespace |
| `Publish.SavedUserNotStale` | file_dist_tools/publishFile.py:320-328 | the marker a save writes keeps the token at the next start-up exactly when the user name is not blank |
| `Publish.StaleCheckRemoves` | file_dist_tools/publishFile.py:320-328 | the start-up check removes `token.txt` exactly when the recorded user is missing, blank or different and the file exists; nothing else changes but the credentials |
| `Publish.StaleTokenForcesPasswordGrant` | file_dist_tools/publishFile.py:323-328 | after a stale token was removed, the next `getToken` makes exactly one password grant |
| `Publish.PublishFile` | file_dist_tools/publishFile.py:63-109 | state and exception are those of `PublishAttemptEffect` |
| `Publish.SendPublish` | file_dist_tools/publishFile.py:67-109 | one request with the bearer header is recorded and the reply classified |
| `Publish.PublishRound` | file_dist_tools/publishFile.py:62 | one round is the decorator's: it ends with its outcome, or leaves a state from which the rest of the retry gives the same outcome |
| `Publish.PublishWithRetry` | file_dist_tools/publishFile.py:62-109 | state and outcome are those of `RetryEffect` |
| `Publish.RemoveStaleToken` | file_dist_tools/publishFile.py:320-331 | the new state is `StaleCheckEffect` of the old one |

## Left out

- HTTP requests are not performed. The replies of the token and publish endpoints are inputs, chosen per request.
- URLs, the `Accept` header and basic-auth transport are not modelled. `CLIENT_SECRET` is recorded with each grant.
- Reading and writing files, and JSON serialisation, are not modelled. A file is missing, unreadable or holds a value, and `json.dump` indentation is not modelled.
- Opening `token.txt` with `"r+"` can fail on permissions. The model counts only a missing file or one that does not parse.
- `os.remove` failing is not modelled.
- `time.time()` is a float. The model uses an integer clock, and `time.sleep` advances it.
- HTTP requests and file operations take no time in the model: only `time.sleep` moves the clock. `RdpToken.FreshTokenServedFromCache` is therefore about a call made at the clock reading of the save, not one made after real time has passed.
- Logging (`loggingFileDist.py` and every `app_logger`/`error_logger` call) is not modelled.
- `print_json_format` is modelled only through the failures that can escape it: a body that is not a dict, or an `error` entry that is not a dict. What it prints is not modelled.
- `read_args`, argparse, rdpToken's getopt `__main__` and `changePassword` are outside the modelled core. They only wire the modelled functions together.
- S3-URL format checks are not modelled.
- configparser is modelled on its parsed result:
  - option names are already lower-cased;
  - a lookup lower-cases ASCII letters;
  - `DEFAULT` merging and interpolation are not modelled.
- For `[RETRY_CONFIG]`, the constructor defaults are applied when an option is missing.
- `Json.ToInt` reads `int()` on text as surrounding whitespace, an optional sign and ASCII digits. The whitespace is the `str.isspace()` set except the information separators U+001C-U+001F, which `int()` does not skip. Underscores and non-ASCII digits are not accepted.
- `Json.Repr` does not escape quotes or backslashes in strings. Floats are not modelled anywhere.
- The `except` around `file_list[2][1:-1]` at `validator.py:76-81` cannot fire, since slicing never raises. The model has no error path there.
- `Publish.PublishWithRetry` requires `tries >= 0`. A negative `RETRY_LIMIT` makes the retry library retry server errors forever, and the model has no result for that.
- The retry library's `max_delay`, `jitter` and logger are not used by the tool and not modelled.
- Parse and print failures are kept where they escape. For a 201 body, such a failure is raised. In the 429/5xx and other branches, the exception raised in `finally` replaces it, as in the code.
