# electron-push-receiver: the START handler, modelled in Dafny

`setup(webContents)` in `src/index.js` installs one handler for the
renderer's START_NOTIFICATION_SERVICE request. The handler:

- is guarded by a process-wide `started` flag;
- decides whether to register with the push registrar or to reuse the credentials in the
  persisted store;
- writes new credentials to the store, with the 64-bit-plus account identifiers (`acg.id`,
  `acg.securityToken`) as decimal strings;
- turns those strings back into BigInts and builds and connects the push client;
- reports to the renderer with TOKEN_UPDATED, NOTIFICATION_SERVICE_STARTED and
  NOTIFICATION_SERVICE_ERROR;
- forwards every push message as NOTIFICATION_RECEIVED while the web contents are alive.

The project has three modules:

- `Wrappers` (`wrappers.dfy`): `Option` and `Result`.
- `Decimal` (`decimal.dfy`): `ToDecimal` models `BigInt.prototype.toString()` and
  `ParseBigInt` models `BigInt(string)`. The module proves the round trip in both directions:
  parsing the text of any natural number gives that number back, and every canonical decimal
  string is the text of the number it denotes.
- `PushReceiver` (`receiver.dfy`) holds:
  - the conversions at the store boundary (`Stringify`, `ReviveAcg`);
  - the `Receiver` class. Its fields are:
    - `started`;
    - the two store entries (`credentials`, `appID`);
    - the log of events sent to the renderer;
    - the identifiers the push client was built with (`client`);
    - whether the client's `connect()` has resolved (`connected`).

    Ghost counters record how often the registrar and `connect()` were called;
  - two client methods that replay concrete request sequences.

The registrar and the push socket are not modelled. Their outcomes are parameters of
`Receiver.Start`: a `Result` for registration and a `ConnectOutcome` for `connect()`. Whether
the web contents are destroyed is a parameter of `Receiver.OnMessage`.

## Model

| member | source | states |
|---|---|---|
| `Decimal.ToDecimal` | src/index.js:70-71 | `toString()` of a non-negative BigInt is canonical decimal text: one or more digits, no leading zero, and it is "0" exactly for zero |
| `Decimal.DecimalRoundTrip` | src/index.js:70-82 | `BigInt(n.toString())` is `n` for every natural `n`, so the string/integer conversions around the store lose nothing |
| `Decimal.ParseBigInt` | src/index.js:81-82 | `BigInt(s)` succeeds exactly on strings of decimal digits (a SyntaxError otherwise), and the empty string gives 0 |
| `Decimal.CanonicalDecimalRoundTrip` | src/index.js:81-82 | every canonical decimal string is accepted by `BigInt` and is the `toString()` of the number it denotes |
| `Decimal.ToDecimalInjective` | src/index.js:70-71 | distinct identifiers are persisted as distinct strings |
| `PushReceiver.NeedsRegistration` | src/index.js:52-53 | the re-registration condition of line 53, as a definition: registration is skipped only when credentials are stored for the requested appID. `Receiver.Start` uses it in its ensures clauses at receiver.dfy:179-202 (registers exactly when it holds; the failure, success and reuse cases) |
| `PushReceiver.TokenOf` | src/index.js:43 | the token of the stored credentials, or of an empty object when none are stored (line 43), as a definition: no token when nothing is stored, otherwise the stored token. `Receiver.Start`'s ensures at receiver.dfy:173-177 uses it for the echo a repeated request appends |
| `PushReceiver.AfterConnect` | src/index.js:112-117 | lines 112-117 as a definition: STARTED(token) exactly when `connect()` resolved, ERROR with the failure's message exactly when it rejected. `Receiver.Start`'s ensures at receiver.dfy:189-202 uses it for the event that settles the success and reuse cases |
| `PushReceiver.Stringify` | src/index.js:68-71 | the persisted copy of issued credentials keeps the token and holds both identifiers as canonical decimal text |
| `PushReceiver.ReviveAcg` | src/index.js:81-82 | reviving stored identifiers succeeds exactly when both are digit strings; otherwise the SyntaxError for `acg.id` is reported first, then the one for `acg.securityToken` |
| `PushReceiver.PersistedAcgRevives` | src/index.js:69-89 | the identifiers revived from the persisted credentials are exactly those the registrar issued, so the client is built with them |
| `PushReceiver.RevivedCredentialsRestringify` | src/index.js:70-82 | stored credentials in canonical form are reproduced exactly when their revived identifiers are stringified again |
| `PushReceiver.Receiver.constructor` | src/index.js:31 | a process starts with `started` false, no events, no client, and the store as a previous run left it |
| `PushReceiver.Receiver.Start` | src/index.js:36-119 | see the list below the table |
| `PushReceiver.Receiver.OnMessage` | src/index.js:98-105 | a push message is appended as NOTIFICATION_RECEIVED only when the web contents are not destroyed; otherwise the log is unchanged; nothing else changes |
| `PushReceiver.FreshRegistrationScenario` | src/index.js:53-113 | on an empty store, registering "app1" with token "T1" and identifiers 123 and 456 stores `{T1, "123", "456"}` and appID "app1", and sends TOKEN_UPDATED("T1") then STARTED("T1") |
| `PushReceiver.StartTwiceOnFreshStore` | src/index.js:42-46 | on an empty store, when the second START arrives after the first has settled, it only echoes the stored token: STARTED(none) after a failed registration, STARTED(token) after a registration, even when its connect failed |

What the contract of `Receiver.Start` states:

- `started` is true afterwards and no method resets it.
- `Valid()` is preserved: at most one registration and at most one connect per process, and a
  connect is attempted exactly when a client was built.
- A repeated request changes nothing but the event log. It appends exactly one STARTED event,
  carrying the stored token, or none when nothing is stored.
- A first request calls the registrar exactly when nothing is stored or the stored appID differs
  from the requested one.
- When registration fails, the store is unchanged, no client is built, and exactly one ERROR
  with the registrar's message is appended.
- When registration succeeds:
  - the store holds `Stringify` of the issued credentials and the requested appID;
  - the client is built with the issued identifiers;
  - the events are TOKEN_UPDATED(token) followed by STARTED(token) if `connect()` resolved, or
    by ERROR(message) if it failed. A connect failure keeps the store entries already written.
- When stored credentials are reused:
  - the store is unchanged;
  - a malformed identifier gives one ERROR and no client;
  - otherwise the client is built with the revived identifiers, and STARTED(stored token) or
    ERROR(message) follows the connect.

## Left out

- Key generation and encryption (`generateFcmAuthSecret`, `createFcmECDH` and the key pair, lines 48-49, 58, 92) are calls into `@aracna/fcm`. The model carries no key material.
- `registerToFCM` and `FcmClient` (lines 54-66, 85-112) are a network client and a library that is not part of this model. Only their outcomes enter the model, as parameters.
- The identity fields `projectID`, `apiKey` and `vapidKey` are only passed on to the registrar, so they are not parameters of `Receiver.Start`.
- How `electron-config` persists values, and how `ipcMain` and `webContents.send` carry events, are I/O plumbing. The store is two optional fields and the events are an appended sequence.
- The event-name strings from `./constants` are not part of this model. Each channel is one constructor of `Event`.
- The `console.log`/`console.error` calls and the no-op `message-data` handler (lines 84, 95, 99, 107-109, 115) have no observable effect.
- Interleaved START requests: the model covers only requests that arrive after the previous one has settled. The handler suspends at two awaits, and a second START arriving during either skips all work because `started` is already set (line 46). What it echoes depends on which await it interrupts:
  - during the registration await at line 54: the store as it was before the write at line 74, so no token on an empty store or the older stored token. This echo comes before all of the first request's events.
  - during `await client.connect()` at line 112: the token now in the store. After a registration that is the new token, and the echo comes after TOKEN_UPDATED. On the reuse path it is the stored token. In both cases it comes before the first request's STARTED or ERROR.
- `src/index.js` has no reconnection or debounce logic, so neither has the model. `NOTIFICATION_SERVICE_RESTARTED` is declared at `src/electron-push-receiver.d.ts:4` but is never exported or sent.
- A repeated START echoes the token read from the store at line 38 (line 43). That token can come from an earlier run of the application, or from a first request whose connect failed. The model echoes the same token; `StartTwiceOnFreshStore` shows the second case.
- `setup` called more than once would install several handlers that share one `started` flag. The model is one receiver per process.
- Sends at lines 43, 78, 113 and 117 are modelled as always delivered. What Electron does when it is asked to send to destroyed web contents is not modelled; only the check at line 102 is.
- `ParseBigInt` accepts only unsigned decimal digits (the empty string is 0, as in JavaScript). It treats as errors the forms `BigInt` also accepts: a sign, surrounding white space, and `0x`/`0o`/`0b` prefixes. Stored credentials without an `acg` object, whose `credentials.acg.id` would throw a TypeError, are not modelled either.
- The credentials object is mutated in place through the alias at line 69. The model uses value conversions instead: the store receives the stringified copy and the client receives the revived integers. Aliasing itself is not modelled.
- The message of a failed `BigInt` conversion is modelled as V8's "Cannot convert X to a BigInt".
