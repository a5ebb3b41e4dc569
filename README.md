# WhatsApp relay service: connection state and message logs

This project models the in-memory state of a NestJS service that relays text
messages through a QR-paired WhatsApp session. The service exists in two
variants, and they behave differently, so each one is its own class:

- `BaileysService.WhatsappService` models `src/whatsapp/whatsapp.service.ts`.
  It uses the Baileys socket. Its connection state (`isReady`, `currentQR`)
  is driven by `connection.update` events. Its message log is always kept
  under one fixed business number, `221786360662`.
- `WebService.WhatsappService` models `dist/whatsapp/whatsapp.service.js`.
  It uses the whatsapp-web.js client. Its connection state is driven by the
  `qr`, `ready`, `disconnected` and `auth_failure` events. It keeps one log
  per caller-supplied sender, in a JavaScript `Map`.

Both variants share the log entity (`MessageLogStore`). A log has a counter of
successful sends and a history of send attempts. The history is capped at the
100 most recent entries, and the oldest entry is evicted first. Both variants
also share address normalisation (`Address`): the library's domain suffix is
appended to a destination unless the destination already contains it. The
suffix is `@s.whatsapp.net` for Baileys and `@c.us` for whatsapp-web.js.

Calls into the messaging library are parameters of type `Outcome`: sending a
message, closing or destroying a session, and reinitialising. Each one either
completes (`Done`) or throws (`Error(message)`). The clock is also a
parameter: the caller supplies the instant (`Timestamp`). The `sendMessage`
methods return the address they handed to the transport (`dispatchedTo`), or
`None` when they did not reach the transport. The connection handler of the
Baileys variant returns whether it scheduled a reconnection.

Files: `replies.dfy` holds optional values, outcomes and reply records.
`address.dfy` holds normalisation. `message_log.dfy` holds the log entity and
its lemmas. `baileys_service.dfy` and `web_service.dfy` hold the two service
classes, with scenario methods at the end of each file.

## Model

| member | source | states |
|---|---|---|
| `Replies.DeliveryReply` | src/whatsapp/whatsapp.service.ts:141-160 | the reply reports success exactly when the transport call completed; on failure it carries the thrown error's message; sender, destination, content and time are passed through |
| `Address.ContainsSuffix` | src/whatsapp/whatsapp.service.ts:133 | a string with a suffix appended always `includes` that suffix |
| `Address.Normalize` | src/whatsapp/whatsapp.service.ts:133 | the result always contains the domain; it equals the input exactly when the input already contains the domain, and otherwise it is the input with the domain appended; the input is always a prefix of the result |
| `Address.NormalizeIdempotent` | dist/whatsapp/whatsapp.service.js:70 | normalising a normalised address changes nothing |
| `MessageLogStore.LogOf` | src/whatsapp/whatsapp.service.ts:167-175 | the stored log for a key, or a zero-valued log owned by that key when none is stored |
| `MessageLogStore.KeepRecent` | src/whatsapp/whatsapp.service.ts:187-190 | the history never exceeds 100 entries; a history of at most 100 is kept unchanged; a longer one is cut to exactly 100 |
| `MessageLogStore.Record` | src/whatsapp/whatsapp.service.ts:175-190 | recording keeps the owner, adds 1 to the counter for a sent entry and 0 for a failed one, keeps the history bounded, and makes the new entry the last one |
| `MessageLogStore.RecordEvictsOldest` | src/whatsapp/whatsapp.service.ts:180-190 | below 100 entries the entry is appended; at 100 entries exactly the oldest entry is dropped and the new one appended (FIFO eviction) |
| `MessageLogStore.RecordAllCount` | src/whatsapp/whatsapp.service.ts:176-178 | after any sequence of attempts the counter has grown by exactly the number of sent attempts, so it never decreases |
| `MessageLogStore.RecordAllHistory` | dist/whatsapp/whatsapp.service.js:108-116 | after any sequence of attempts on a bounded log, the history is the most recent 100 of the old history followed by the attempts, in insertion order |
| `MessageLogStore.FreshLogKeepsEverything` | dist/whatsapp/whatsapp.service.js:97-113 | with at most 100 attempts on a new log, the counter equals the number of sent attempts and the history is every attempt, in order |
| `MessageLogStore.OverflowKeepsLastHundred` | dist/whatsapp/whatsapp.service.js:114-116 | with at least 100 attempts, the history is exactly the last 100 attempts, and its oldest entry is attempt number n-99 |
| `BaileysService.WhatsappService.constructor` | src/whatsapp/whatsapp.service.ts:29-32 | the service starts with no socket, not ready, no pairing code and no logs |
| `BaileysService.WhatsappService.AttachSocket` | src/whatsapp/whatsapp.service.ts:66-79 | assigning the socket changes nothing else |
| `BaileysService.WhatsappService.OnConnectionUpdate` | src/whatsapp/whatsapp.service.ts:82-111 | a truthy `qr` is stored; `open` sets ready and clears the code even when the same update carried one; a logged-out `close` clears readiness and the code; any other `close` schedules a reconnection and changes nothing else; the logs are untouched |
| `BaileysService.WhatsappService.LogMessage` | src/whatsapp/whatsapp.service.ts:164-191 | whatever `from` is, the attempt is recorded in the log under the business number, which is created empty when missing; the invariant (only that key, owned by the business number, bounded) is kept |
| `BaileysService.WhatsappService.SendMessage` | src/whatsapp/whatsapp.service.ts:126-162 | without readiness or a socket it throws the not-ready error, reaches no transport and logs nothing; otherwise it sends to the normalised JID, logs exactly one attempt (sent exactly when the transport completed) and replies with the business number as sender |
| `BaileysService.WhatsappService.GetMessageLogs` | src/whatsapp/whatsapp.service.ts:193-207 | a truthy number other than the business number gets a zero-valued log of its own; otherwise the business log is returned, or a zero-valued one when nothing is stored; the result is bounded |
| `BaileysService.WhatsappService.GetQRCode` | src/whatsapp/whatsapp.service.ts:209-215 | reports the current code, readiness and business number |
| `BaileysService.WhatsappService.GetStatus` | src/whatsapp/whatsapp.service.ts:241-248 | reports one number and as many messages as the business log reported by `getMessageLogs()` counts |
| `BaileysService.WhatsappService.Reset` | src/whatsapp/whatsapp.service.ts:274-299 | when closing the socket throws, nothing changes and the reset fails; otherwise the service is left not ready with no code, the reply reports the reinitialisation's outcome, and the logs are kept |
| `BaileysService.PairingScenario` | src/whatsapp/whatsapp.service.ts:85-106 | a code `ABC123` is reported while not ready; after `open` the code is empty and the service is ready |
| `BaileysService.SendScenario` | src/whatsapp/whatsapp.service.ts:126-191 | a send while ready succeeds, is reported from the business number, and leaves a counter of 1 with that one entry in the history |
| `WebService.Values` | dist/whatsapp/whatsapp.service.js:126 | the logs in key insertion order, one per key |
| `WebService.SumCountsUpdate` | dist/whatsapp/whatsapp.service.js:138 | replacing one log changes the sum of counters by the difference of the two counters |
| `WebService.SumCountsAppend` | dist/whatsapp/whatsapp.service.js:138 | adding a log adds its counter to the sum |
| `WebService.RecordLeavesOthers` | dist/whatsapp/whatsapp.service.js:95-104 | recording under `from` leaves every other sender's log, and its presence, unchanged |
| `WebService.RecordKeepsStoreValid` | dist/whatsapp/whatsapp.service.js:95-117 | recording keeps every key once in the insertion order, every log owned by its key, and every history bounded |
| `WebService.TotalAfterRecord` | dist/whatsapp/whatsapp.service.js:134-140 | the total that `getStatus` reports grows by 1 for a sent attempt and stays the same for a failed one, whichever sender it is |
| `WebService.KeyCountIsLogCount` | dist/whatsapp/whatsapp.service.js:126-137 | the map's size equals the number of logs `getMessageLogs()` returns |
| `WebService.WhatsappService.constructor` | dist/whatsapp/whatsapp.service.js:14-18 | the service starts with no client, not ready, no code and no logs |
| `WebService.WhatsappService.CreateClient` | dist/whatsapp/whatsapp.service.js:20-43 | assigning the client changes nothing else |
| `WebService.WhatsappService.OnEvent` | dist/whatsapp/whatsapp.service.js:44-62 | `qr` stores the code; `ready` sets ready and keeps the code; `disconnected` clears readiness and the code; `auth_failure` clears only the code; the logs are untouched |
| `WebService.WhatsappService.LogMessage` | dist/whatsapp/whatsapp.service.js:95-117 | the attempt is recorded under `from`, a new sender is created empty and added last in order, and no other sender's log changes |
| `WebService.WhatsappService.SendMessage` | dist/whatsapp/whatsapp.service.js:65-94 | when not ready it throws, reaches no transport and logs nothing; otherwise it sends to the normalised chat id, logs exactly one attempt under `from` (sent exactly when the client completed) and replies with `from` |
| `WebService.WhatsappService.GetMessageLogs` | dist/whatsapp/whatsapp.service.js:118-127 | a truthy number gets its stored log, or a zero-valued log of its own that is not stored; otherwise every log is returned in key insertion order |
| `WebService.WhatsappService.GetQRCode` | dist/whatsapp/whatsapp.service.js:128-133 | reports the current code and readiness |
| `WebService.WhatsappService.GetStatus` | dist/whatsapp/whatsapp.service.js:134-140 | the number of senders equals the map's size and the number of logs `getMessageLogs()` returns; the message total is the sum of their counters |
| `WebService.WhatsappService.Reset` | dist/whatsapp/whatsapp.service.js:141-154 | when destroying the client throws, nothing changes and the reset fails; otherwise the client is left not ready with no code and a new client, the reply reports the initialisation's outcome, and the logs are kept |
| `WebService.TwoSenders` | dist/whatsapp/whatsapp.service.js:95-117 | two senders get two logs, in the order they first sent, each counting only its own sent attempts |
| `WebService.StatusScenario` | dist/whatsapp/whatsapp.service.js:134-140 | with one sent and one failed attempt from two senders, the status reports 2 numbers and 1 message |
| `WebService.LookupScenario` | dist/whatsapp/whatsapp.service.js:118-127 | a sender's lookup returns its own log; an unknown sender reads as a zero-valued log |

## Code that departs from a generic connection manager

The model follows the code in each of these cases:

- In the Baileys variant, a `close` that is not a logout leaves `isReady` as it
  was (src/whatsapp/whatsapp.service.ts:98-99). A send can pass the readiness
  gate until the reconnection's `open` arrives.
- In the whatsapp-web.js variant, `ready` does not clear `currentQR`
  (dist/whatsapp/whatsapp.service.js:50-53). Only `disconnected` and
  `auth_failure` clear it.
- The Baileys variant keys its log by the business number and ignores `from`
  (src/whatsapp/whatsapp.service.ts:165). Its `getStatus` always reports one
  number.
- A `qr` update in the Baileys variant is stored only when truthy. A
  whatsapp-web.js `qr` event stores whatever string it carries.

## Left out

- Socket and client construction is left out: `makeWASocket`, the whatsapp-web.js `Client` and its Puppeteer options, `fetchLatestBaileysVersion`, `useMultiFileAuthState` and `saveCreds`. These are foreign library calls. Only the assignment of the socket or client is modelled (`AttachSocket`, `CreateClient`).
- `ensureSessionDirectory` and the persistence of credentials are left out. They are filesystem I/O.
- `getQRCodeImage` and `qrcode.generate` are left out. Rendering to PNG and to the terminal belongs to the `qrcode` libraries.
- `startKeepAlive`, `stopKeepAlive` and the `setTimeout` retries are left out. They are timers. A transient close reports `reconnectScheduled` instead; the rescheduled `initializeWhatsApp` is not run.
- The `messages.upsert` handler, the pino logger and all console output are left out. They only log.
- The controllers, `main`, and the DTO are left out. They are HTTP routing and bootstrap.
- Asynchrony is not modelled: each method runs to completion in one step. In the source, events can interleave with a `sendMessage` while it awaits the transport.
- `new Date()` is one caller-supplied instant per call. The source reads the clock separately for the log entry and for the reply.
- `count` is an unbounded `nat`. The source's JavaScript number loses precision past 2^53.
- The source returns stored log objects by reference, so a caller could mutate them. The model returns values.
- `BaileysService.WhatsappService.Reset`: the reinitialisation is one outcome. On success a new socket is attached. On failure `sock` is left as it was, because the assignment comes after the awaited auth-state and version calls. The handlers the new socket registers are not modelled.
- `WebService.WhatsappService.Reset`: the reinitialisation is one outcome. A new client is always assigned, because the assignment comes before `client.initialize()` is awaited. The handlers the new client registers are not modelled.
- `BaileysService.LoggedOutCode`: the value 401 stands for Baileys' `DisconnectReason.loggedOut`. The library's source is not part of this model.
