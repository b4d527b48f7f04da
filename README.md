# r6blocker `Auth` — a Dafny model

r6blocker relays "player blocked" notifications from Ubisoft's web services to a
Discord channel. Its one piece of real logic is the `Auth` class of `main.py`.
`Auth` logs in to Ubisoft's session endpoint in two steps: a session ticket
obtained with Basic credentials, then a bearer ticket derived from it. It keeps
both tickets with their expiry times and caches them in a credentials file. Its
`get` wraps every request: it logs in when the ticket it needs is missing, fills
in the request headers, and retries after a 401.

This project models that class and proves properties of the model.

- `wrappers.dfy` holds `Option`, `Result` and the `byte` type.
- `utf8.dfy` holds UTF-8 encoding and a strict decoder.
- `base64.dfy` holds Base64 with the standard alphabet and padding (section 4
  of RFC 4648) and a strict decoder.
- `text.dfy` holds the string helpers the class uses: `str(int)`, `str.split`
  and the message cut out of an HTML error page.
- `auth_model.dfy` (module `AuthModel`) holds the state of an `Auth` object as a
  value, and each method as a function from the old state to the new state and
  the result.
- `auth_object.dfy` (module `AuthObject`) holds the class itself. `Auth` has the
  source's fields, and its methods update them in place. `HeaderDict` is the
  header dictionary that `get` fills in and hands on to its retry. Every method
  is proved to leave the fields exactly as its `AuthModel` function says.
  Most share the method's name. The others are `Login` (`LoginFrom`),
  `FillHeaders` (`DefaultHeaders`), `SaveCreds` and `LoadCreds` (`Save` and
  `Load`), and `GetSession` (`EnsureSessionValid`).
- `auth_properties.dfy` (module `AuthProperties`) holds lemmas about those
  functions. They cover `connect`, the login loop, header defaulting, the
  handling of the reply, the 401 retry, and the credentials file.
- `linked_accounts.dfy` holds the per-platform line that `read_ws` writes for
  each account linked to a blocked profile.

Effects outside the object are inputs or state:

- The clock is an integer `now`, read once per top-level call.
- Ubisoft's reply to the k-th request is `env.server(k)`. A reply carries its
  text and, when that text is JSON, the decoded object. Every request issued is
  appended to the state's `sent` list, so the model can say how many POSTs and
  GETs a call makes and with which headers.
- `datetime.fromisoformat` is `env.parse`. It is applied to the first 26
  characters of the expiry with `+00:00` appended, and None stands for the
  `ValueError` it raises.
- The credentials file is `store`, which is None while the file does not exist.
  `save_creds` overwrites the whole record.
- Python's `None` in a ticket or identifier field is `Str = Option<string>`.
  Truthiness means `Some` and non-empty.

The source recurses in two places that nothing bounds:

- `connect` re-enters itself after a live session ticket (`main.py:161`) and
  after every stored ticket (`main.py:206`).
- `get` calls itself after every 401 (`main.py:265`).

Both carry a `fuel` argument in the model. An `OutOfFuel` result means the
model stopped following the call.

One consequence is proved in `UnauthorizedLoopNeverEnds`. The 30-second
cooldown that a 401 sets once the retries are used up (`main.py:259-261`) is
zeroed by the `load_creds` at the start of the next `connect`
(`main.py:146, 150`) whenever the credentials file exists. So suppose the file
holds two tickets that stay live and the platform keeps answering 401. Then
`get` does not stop: it reaches every bound placed on its recursion, and the
cooldown plays no part. This rests on the model's single clock reading per
call. In the running program the clock moves on, so the tickets expire in the
end, and Python's recursion limit also ends the chain.

In fact the cooldown never stops a login that the object's own calls lead to.
The object holds a ticket or a nonzero cooldown only while the credentials file
exists (`FileBacked`): a new object holds neither, every stored ticket is saved
at once, a login succeeds only with a truthy bearer ticket, so the 401 branch
that sets the cooldown runs only with the file present, and nothing in the
class removes the file. So "Login on cooldown" needs the file to be removed from
outside the process, and `ConnectOnCooldown` and `LoginOnCooldownWithoutFile`
describe only that case. A related fact is proved in
`GetKeepsAuthorization`: each retry reuses the filled-in header dictionary, so
every retried GET carries the first `Authorization` header.

Some behaviour of the code is easy to misread, and the model follows the code:

- The cooldown does not make every login fail fast. `load_creds` zeroes it
  whenever the credentials file exists (`main.py:146,150`), as described above.
- A missing credentials file does not reset the fields. `load_creds` then
  leaves them as they are (`main.py:131-132`).
- Running out of login retries does not set the cooldown. Only the 401 branch
  of `get` sets it (`main.py:259-261`).
- The bearer step does not end the chain. `connect` re-enters
  `connect(_new=True)` after storing the bearer ticket too (`main.py:205-206`);
  only a live bearer ticket ends it (`main.py:156-158`).
- A GET never carries the Basic scheme unless the caller supplies it. The
  default `Authorization` is always `Ubi_v1 t=` followed by a ticket
  (`main.py:234`).

## Model

A method row of `AuthObject.Auth` also covers the `AuthModel` function its
contract names. `Connect`, `Handshake`, `Send`, `Get` and `Respond` are covered
this way, and so are `Load`, `Save`, `Close`, `EnsureSessionValid`,
`RefreshSession` and `DefaultHeaders` through `LoadCreds`, `SaveCreds`,
`Close`, `GetSession`, `RefreshSession` and `FillHeaders`. The lemma rows cover
the helper functions they are stated with. `Live` and `TicketLive` are covered
by the `ConnectWith…` rows and `BearerLoginStoresTicket`, `NeedsLogin` by the
`AuthObject.Auth.Send` row, `HeaderDefault` by the `HeaderDefaulting…` rows, and
`CodeMessage` by `RespondRejectsCode` and `CodeMessageDetail`.

| member | source | states |
|---|---|---|
| Utf8.EncodeChar | main.py:41 | a character becomes 1-4 bytes: one byte below 0x80 exactly when the encoding is one byte long, continuation bytes after the first |
| Utf8.DecodeEncode | main.py:41 | decoding the UTF-8 encoding of any string gives the string back |
| Base64.Encode | main.py:41 | the text is 4 characters for every started group of 3 bytes |
| Base64.DecodeEncode | main.py:41 | decoding the Base64 encoding of any bytes gives the bytes back |
| Base64.EncodeDecode | main.py:41 | whatever the strict decoder accepts, the encoder produces again character for character, so the encoding is canonical |
| AuthModel.BasicToken | main.py:39-41 | the token decodes as Base64 to the UTF-8 bytes of `email:password` |
| AuthProperties.BasicTokenRoundTrip | main.py:40-41 | decoding the token as Base64 and then as UTF-8 gives `email:password` |
| AuthProperties.BasicTokenUnique | main.py:40-41 | any Base64 text that decodes to those bytes is the token |
| AuthObject.Auth.constructor | main.py:43-81 | the token given, else the basic token; the app id given, else the default; eight empty fields, cooldown 0, a fresh session started now |
| AuthObject.Auth.RefreshSession | main.py:89-98 | the session is replaced by a new open one, and its start time is set to now |
| AuthObject.Auth.GetSession | main.py:83-103 | refreshes exactly when `0 <= period <= elapsed`, then returns the current session |
| AuthProperties.SessionRefreshRule | main.py:83-98 | the session and its start change exactly when `0 <= period <= elapsed`, and nothing else changes |
| AuthObject.Auth.SaveCreds | main.py:105-126 | the file holds the eight fields, as a whole record |
| AuthObject.Auth.LoadCreds | main.py:128-146 | with no file nothing changes; otherwise the eight fields come from the file and the cooldown is zeroed |
| AuthProperties.SaveLoadRoundTrip | main.py:105-146 | load after save restores every field and zeroes the cooldown |
| AuthProperties.LoadWithoutFile | main.py:131-132 | with no file, load is the identity |
| AuthObject.Auth.Close | main.py:208-211 | saves the fields, then closes the session |
| AuthProperties.CloseSaves | main.py:208-211 | after close the file holds the fields and the session is closed; fields, requests and cooldown are unchanged |
| AuthObject.Auth.Connect | main.py:148-163 | reload, cooldown check, ticket check and chaining, leaving the fields and the error as `AuthModel.Connect` says |
| AuthObject.Auth.Handshake | main.py:164-206 | session, POST, ticket stored and saved, re-entry, leaving the fields and the error as `AuthModel.Handshake` says |
| AuthObject.Auth.StoreTicket | main.py:184-194 | the reply's ticket and expiry go to the slot `_new` selects, and the four identifiers are overwritten; nothing else changes |
| AuthModel.PostHeaders | main.py:165-174 | a `TypeError` exactly when `_new` is set and `key` is None; otherwise exactly the four headers `User-Agent` (the SDK string), `Content-Type` (JSON, UTF-8), `Ubi-AppId` (the app id) and `Authorization`, which is `Ubi_v1 t=<key>` for `_new` and `Basic <token>` otherwise |
| AuthModel.StoreTicket | main.py:184-194 | the ticket and expiry land in the bearer slot for `_new` and in the session slot otherwise, and the other slot is untouched; the four identifiers come from the reply; cooldown, session, session start, file and requests are unchanged |
| AuthModel.FailureMessage | main.py:195-203 | exactly `HTTP <code>: <message>` when both fields are present, exactly the message when only it is, else exactly `str(code)`, else "Unknown Error" |
| Text.ParseIntToString | main.py:202 | `str` of any integer parses back to that integer |
| AuthProperties.ConnectOnCooldown | main.py:150-153 | on cooldown after the reload, `connect` raises "Login on cooldown" with no POST and no save (reachable only once the file is removed from outside, see `CooldownNeverFiresWhenFileBacked`) |
| AuthProperties.ConnectIgnoresCooldownWithFile | main.py:146-153 | while the file exists, the cooldown held makes no difference to `connect` |
| AuthProperties.ConnectWithLiveSessionTicket | main.py:159-162 | with a live session ticket, `connect()` only chains to `connect(_new=True)` |
| AuthProperties.ConnectWithLiveBearerTicket | main.py:156-158 | with a live bearer ticket, `connect(_new=True)` returns at once with no request |
| AuthProperties.ConnectBothLiveIsQuiet | main.py:155-162 | with both tickets live, `connect()` succeeds with no POST and no file write |
| AuthProperties.ConnectEffects | main.py:148-206 | `connect` only appends POSTs, at most one per re-entry; while a file exists it leaves the fields equal to it; it never raises `InvalidRequest` |
| AuthProperties.HandshakeEffects | main.py:164-206 | the same for the POST half of `connect` |
| AuthProperties.BearerStepKeepsSessionTicket | main.py:184-206 | when the fields equal the file's record, or there is no file, the bearer step never changes `key`/`expiration` |
| AuthProperties.BearerHandshakeKeepsSessionTicket | main.py:184-206 | the same, under the same condition, for the POST half of the bearer step |
| AuthProperties.SessionLoginStoresTicket | main.py:184-206 | after a session login whose reply has a ticket, `key`/`expiration` hold it and the file holds the fields, whatever the bearer step does |
| AuthProperties.BearerLoginStoresTicket | main.py:184-206 | after a bearer login whose live ticket arrives, `new_key`/`new_expiration` hold it and so does the file, with no error and exactly one POST |
| AuthProperties.LoginReplyWithoutTicket | main.py:195-203 | a reply without a ticket raises `FailedToConnect(FailureMessage)` after one POST, with the fields and the file unchanged |
| AuthModel.LoginFrom | main.py:214-229 | at most `max_connect_retries` calls of `connect`, none exactly when none are allowed; when the error is `FailedToConnect`, every attempt was made and the session is closed with the fields saved |
| AuthObject.Auth.Login | main.py:214-229 | the `for`/`else` loop leaves the fields and the error as `LoginFrom` says |
| AuthProperties.LoginWithoutAttempts | main.py:216-229 | with `max_connect_retries <= 0`: no attempt, `close`, and "Unknown Error" |
| AuthProperties.LoginOnCooldownWithoutFile | main.py:214-229 | with no file and an unexpired cooldown (reachable only once the file is removed from outside), every attempt fails with no POST, and the loop closes and raises "Login on cooldown" |
| AuthProperties.LoginStopsAtFirstSuccess | main.py:216-219 | the loop leaves at the first `connect()` that succeeds: one attempt, nothing raised, the fields as that `connect` left them |
| AuthProperties.LoginForgetsEarlierErrors | main.py:216-221 | while attempts remain the outcome does not depend on the error caught before |
| AuthProperties.LoginRaisesLastError | main.py:220-227 | when the final attempt fails with `FailedToConnect`, the loop closes the object and raises exactly that error |
| AuthProperties.LoginEffects | main.py:214-229 | the login loop issues POSTs only and never raises `InvalidRequest` |
| AuthProperties.InitialFileBacked | main.py:56-81 | a new object holds no ticket and no cooldown, so it is file-backed whether or not the file exists |
| AuthProperties.ConnectFileBacked | main.py:148-206 | `connect` keeps the object file-backed, never removes the file, and succeeds only with a truthy bearer ticket |
| AuthProperties.HandshakeFileBacked | main.py:164-206 | the same for the POST half of `connect` |
| AuthProperties.LoginFileBacked | main.py:214-229 | the login loop keeps the object file-backed and succeeds only with a truthy bearer ticket |
| AuthProperties.SendFileBacked | main.py:214-246 | from a file-backed state, the first half of `get` keeps it file-backed and issues the GET only while the file exists |
| AuthProperties.GetFileBacked | main.py:213-274 | `get`, retries included, keeps the object file-backed, so the 401 branch sets the cooldown only while the file exists |
| AuthProperties.CooldownNeverFiresWhenFileBacked | main.py:146-153 | in a file-backed state, with a clock past the epoch, the cooldown check of `connect` never fires |
| AuthObject.HeaderDict.constructor | main.py:231-232 | the dictionary `get` fills in, empty when the caller passed none |
| AuthObject.Auth.FillHeaders | main.py:231-243 | on `TypeError` the dictionary is left alone; otherwise it becomes `DefaultHeaders` |
| AuthProperties.HeaderDefaultingFails | main.py:231-234 | `TypeError` exactly when the caller's `Authorization` is falsy and the ticket in use is None |
| AuthProperties.HeaderDefaulting | main.py:231-243 | exactly the seven headers are added; each keeps a truthy caller value and otherwise takes its default (ticket, app id, en-US, session id, SDK string, keep-alive, `self.expiration`) |
| AuthProperties.HeaderDefaultingKeepsOthers | main.py:237-243 | every other header is left as it was |
| AuthProperties.RetryKeepsAuthorization | main.py:234-265 | after one fill the `Authorization` is truthy, so a second fill keeps it whatever the tickets have become |
| AuthObject.Auth.Get | main.py:213-274 | fields, dictionary and result as `AuthModel.Get` says, with or without a caller's dictionary |
| AuthObject.Auth.Send | main.py:213-246 | login, header fill, session and GET, as `AuthModel.Send` says |
| AuthObject.Auth.Respond | main.py:247-274 | the handling of the reply, the 401 retry included, as `AuthModel.Respond` says |
| Text.FindFirst | main.py:253 | the leftmost position where the separator occurs, or None when it does not occur |
| Text.Split | main.py:253 | at least one part; joining the parts with the separator gives the text back; no part contains the separator |
| Text.DropLastTwo | main.py:254 | `t[:-2]`: the text without its last two characters, empty when shorter |
| Text.HtmlMessage | main.py:253-254 | a text without "h1>" is its own message |
| Text.HtmlMessageOfHeading | main.py:253-254 | on a page whose heading is `<h1>m</h1>`, the message is exactly `m` |
| AuthProperties.RespondHtmlHeading | main.py:248-255 | a text reply to a JSON request raises `InvalidRequest` with code 0 and the heading text |
| AuthProperties.RespondPlainText | main.py:248-255 | a text reply without "h1>" is carried whole in the message |
| AuthProperties.RespondRejectsCode | main.py:266-270 | any `httpCode` other than 401 raises `InvalidRequest` carrying that code, with a message starting `HTTP <code>: ` and nothing changed |
| AuthProperties.CodeMessageDetail | main.py:267-270 | a 404 names the resource, or the URL when there is none; other codes carry the body's message, or nothing |
| AuthProperties.RespondPassesBody | main.py:257-272 | a body without `httpCode` is returned unchanged |
| AuthModel.Unauthorized | main.py:258-264 | `key` becomes None (for `new` too); the cooldown becomes now + 30 exactly when `retries >= max_connect_retries`; the other fields, the session, its start time, the file and the requests are unchanged |
| AuthProperties.RespondUnauthorized | main.py:258-265 | a 401 retries `get` with `retries + 1`, the same dictionary, `json_` true and `new` false |
| AuthProperties.GetResultShape | main.py:248-274 | text is returned exactly when JSON was not asked for; a returned body never has `httpCode`; no `InvalidRequest` carries 401 |
| AuthProperties.SendRequests | main.py:214-246 | the first half of `get` appends only POSTs when it fails, and otherwise POSTs followed by exactly one GET carrying the filled-in dictionary |
| AuthProperties.SendKeepsAuthorization | main.py:214-246 | the filled-in dictionary, and every GET the first half of `get` issues, carry the caller's truthy `Authorization` |
| AuthProperties.GetKeepsAuthorization | main.py:231-265 | every GET of one `get` call, retries included, carries the caller's truthy `Authorization` |
| AuthProperties.LoginFromLiveFile | main.py:214-229 | with a file holding two live tickets, the login loop succeeds with no POST, and the fields are the file's |
| AuthProperties.SendWithLiveFile | main.py:214-246 | under the same conditions the GET is issued unless fuel runs out, and the file stays |
| AuthProperties.UnauthorizedLoopNeverEnds | main.py:258-265 | with a file holding two tickets live at the one clock reading and a platform that always answers 401, `get` does not stop: it reaches every bound on its recursion, and the cooldown plays no part because `load_creds` zeroes it |
| LinkedAccounts.UpperChar | main.py:359 | ASCII lower-case letters become upper-case; every other character is unchanged |
| LinkedAccounts.UpperFirst | main.py:358-360 | the same length and the same tail, with the first character upper-cased; None (`IndexError`) for the empty type |
| LinkedAccounts.LinkedLine | main.py:347-362 | no line exactly when the type is empty |
| LinkedAccounts.UnknownPlatformLine | main.py:356-362 | an unknown type gives the heading with its first letter upper-cased, then the name and the id |
| LinkedAccounts.LinkedAllLines | main.py:346-362 | the line list fails exactly when some type is empty; otherwise it holds each account's line at that account's position |
| LinkedAccounts.LinkedLines | main.py:346-362 | the loop's list is `LinkedAll` |

## Left out

- The Discord bot, the `read_ws` task loop, the websocket stream and the
  statistics `read_ws` computes (`main.py:276-405`) are network, UI and
  floating-point code. Only the linked-account lines are modelled.
- aiohttp sessions are a serial number and an open flag. A request through a
  closed session is not an error in the model, and exceptions from
  `session.close()` are not modelled.
- Requests and replies are values. The JSON body keeps the fields the class
  reads: string fields and an integer `httpCode`. Other JSON types are not
  modelled. A field whose JSON value is `null` is treated as absent.
- A login reply that is not JSON raises `JsonError`. The exception type aiohttp
  raises is not modelled.
- `get` takes a URL and an optional header dictionary. Other positional and
  keyword arguments for `session.get` are not modelled.
- The file system is the `store` field. The directory creation and the empty
  file that `save_creds` writes first are not modelled. Neither is the
  `creds_path` derivation. The file always holds a whole record, so the `""`
  defaults of `load_creds` for missing keys are not modelled.
- `cachetime`, `cache` and `spaceids` are set by `__init__` and used
  by no modelled operation. `item_id` is accepted by `__init__` and never used.
- Time is an integer read once per top-level call. The source calls
  `time.time()` afresh at each check and works with floats.
- Parsing ISO-8601 expiry strings is the parameter `env.parse`.
- Concurrency and async interleaving are not modelled. Every call is sequential.
- AuthModel.Connect: bounded by `fuel`. When the platform keeps returning
  expired tickets, the source's re-entries into `connect` are unbounded; the
  model reports `OutOfFuel` once the fuel is spent.
- AuthModel.Get: bounded by `fuel`. The 401 retries are unbounded in the
  source; the model reports `OutOfFuel` once the fuel is spent, and does not
  claim that `get` terminates.
- LinkedAccounts.UpperChar: upper-cases ASCII letters only. Python's
  `str.upper` also maps other scripts, and can turn one character into two
  (`ß` becomes `SS`).
- Utf8.Encode: covers Unicode scalar values only. Strings with lone
  surrogates, on which Python's encoder raises, cannot be written as Dafny
  strings.
