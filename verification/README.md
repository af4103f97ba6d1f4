# NatsConnection: a verified model of the nats.ws client session

This project models `NatsConnection`, the client-facing session object of the
nats.ws WebSocket client (`src/nats.ts`). A session is created by `connect`.
It resolves its options against a default URL, then validates `publish`
calls and turns them into `PUB` wire commands. It forwards `subscribe`,
`flush` and `close` to the protocol handler. It asks the transport whether it
is closed, and it keeps two ordered listener lists (`close` and `error`).
Dispatch calls every listener and swallows listener exceptions.

Modules:

- `Wrappers` (wrappers.dfy): `Option`, and `OrEmpty`, JavaScript's `s || ""`.
- `Wire` (wire.dfy): the `PUB` command, the decimal length field, and a reader
  for the framing. The reader is used to prove that a command carries its
  subject and its payload unambiguously.
- `Events` (events.dfy): listeners, the record of a listener call, and
  `Deliveries`, which says which calls one dispatch makes.
- `Session` (session.dfy): options, subscription requests, promise
  settlement, stand-ins for the two collaborators, and the `NatsConnection`
  class.

The protocol handler and the transport are not part of this model. They
appear as two small stand-in classes. `ProtocolHandler` records every command,
subscription request, flush and close it receives. `Transport` holds the
closed status that `isClosed` reads. The session's `transport` and `protocol`
fields are nullable: the code declares them with `!` and fills them only after
the handshake. `Valid()` states that a wired session has both, and that its
transport is the protocol handler's. Promises are `Settlement` values, and the
first settlement wins (`Resolve`, `Reject`). The handshake's outcome is a
parameter of `Connect`.

The NATS protocol counts a `PUB` payload in bytes. The code writes the
string's character count instead (`data.length`, src/nats.ts:73), and the model
follows the code. A missing or empty subject is reported to the error listeners
with the message `"subject required"` (src/nats.ts:69). `publish` does not use
the exported constant `BAD_SUBJECT_MSG` (src/nats.ts:8).

## Model

| member | source | states |
|---|---|---|
| Session.ResolveOptions | src/nats.ts:42-45 | the URL is `ws://localhost:4222` when the caller gives none, and the caller's URL otherwise |
| Session.NatsConnection.constructor | src/nats.ts:36-45 | a new shell has the resolved options, empty listener lists, and no transport or protocol yet |
| Session.NatsConnection.Connect | src/nats.ts:47-60 | exactly one outcome: a failed handshake gives its error and no session; a successful one gives a fresh, wired session whose transport is the protocol handler's and whose options are resolved |
| Session.NatsConnection.Close | src/nats.ts:62-64 | the protocol handler's close is called exactly once, and no session field changes |
| Wrappers.OrEmpty | src/nats.ts:67 | a missing string argument becomes `""`, and a present one is kept |
| Session.PublishOutcome | src/nats.ts:66-76 | an error is reported exactly when the defaulted subject is empty, and its message is "subject required"; otherwise the one command sent is the `PUB` command for the subject and the defaulted data |
| Session.NatsConnection.Publish | src/nats.ts:66-76 | with an empty or missing subject, nothing is sent and every error listener is called once, in order, with "subject required"; otherwise exactly one command is appended to what the protocol handler was sent, and no listener runs |
| Session.PublishedCommandCarriesArguments | src/nats.ts:72-75 | for a subject that is a NATS token (non-empty, no space, tab, CR or LF), the command sent reads back as that subject and the defaulted data |
| Wire.PubCommand | src/nats.ts:73 | the command is "PUB " + subject + " " + the data's character count in decimal + CRLF + data + CRLF: it opens with `PUB <subject> ` and closes with the data and a CRLF |
| Wire.Decimal | src/nats.ts:73 | the length field is one or more decimal digits, with no leading zero except for the length 0 |
| Wire.ParseDecimalInverse | src/nats.ts:73 | reading the length field back gives the length written |
| Wire.DecimalInjective | src/nats.ts:73 | different lengths never share a length field |
| Wire.PubCommandRoundTrip | src/nats.ts:73 | for a subject that is a NATS token (non-empty, no space, tab, CR or LF), `PUB <subject> <len>\r\n<data>\r\n` reads back as exactly that subject and data, with `len` equal to the data's character count |
| Wire.PubCommandInjective | src/nats.ts:73 | two publishes on such subjects that put the same text on the wire had the same subject and the same data |
| Session.BuildSub | src/nats.ts:85-88 | the request has the given subject and callback, and its queue and max are copied from the options |
| Session.Resolve | src/nats.ts:89 | resolving fulfils a pending promise and leaves a settled one as it was |
| Session.Reject | src/nats.ts:82 | rejecting rejects a pending promise and leaves a settled one as it was |
| Session.NatsConnection.Subscribe | src/nats.ts:78-91 | corrected: always settles; on a closed transport it rejects with "closed" and forwards nothing; otherwise it forwards one request built from the arguments and fulfils with the handle the protocol handler returns |
| Session.NatsConnection.SubscribeAsWritten | src/nats.ts:78-91 | as written: the request is forwarded whether or not the transport is closed; a closed session still settles as "closed", an open one with the handle |
| Session.ClosedSubscribeAsWritten | src/nats.ts:80-89 | on a closed session the as-written subscribe is rejected with "closed", yet one request reaches the protocol handler |
| Session.ClosedSubscribe | src/nats.ts:80-83 | on a closed session the corrected subscribe is rejected with "closed" and no request is forwarded |
| Session.OpenSubscribe | src/nats.ts:85-89 | on an open session subscribing to "foo" forwards one request and fulfils with a handle for "foo" |
| Session.NatsConnection.Flush | src/nats.ts:93-95 | forwards to the protocol handler once, with the optional completion callback, and changes no session field |
| Events.Deliveries | src/nats.ts:98-108 | one dispatch calls every listener of the list exactly once, in registration order, with the event's argument; a listener's throw is recorded as its own outcome only |
| Events.DispatchCallsEveryListener | src/nats.ts:99-107 | the listeners a dispatch calls are exactly the registered list, in order |
| Events.ThrowIsIsolated | src/nats.ts:100 | whether one listener throws changes no other call of the same dispatch |
| Events.DeliveriesAppend | src/nats.ts:98-118 | dispatching over a list that grew by registration calls the earlier listeners first, then the new ones |
| Session.NatsConnection.InvokeIsolated | src/nats.ts:100 | a listener call is recorded with its outcome, and a throw goes no further |
| Session.NatsConnection.Dispatch | src/nats.ts:99-101 | the calls made are exactly `Deliveries` of the list, appended in order |
| Session.NatsConnection.ErrorHandler | src/nats.ts:98-102 | every error listener is called once with the error, in registration order, and the listener lists are unchanged |
| Session.NatsConnection.CloseHandler | src/nats.ts:104-108 | every close listener is called once, in registration order, and the listener lists are unchanged |
| Session.NatsConnection.AddEventListener | src/nats.ts:110-118 | `close` appends to the end of the close list and leaves the error list unchanged; `error` does the reverse; there is no de-duplication |
| Session.CloseWithThrowingListener | src/nats.ts:104-118 | with two close listeners, the first of which throws, both are called, in registration order, and an error listener is not |
| Session.PublishWithoutSubject | src/nats.ts:66-70 | publishing without a subject sends nothing, and the error listener hears "subject required" once |
| Session.NatsConnection.IsClosed | src/nats.ts:120-122 | the session's closed status is the transport's current status, and no session field caches it |

## Left out

- The protocol handler and the transport (src/nats.ts:1, 4) are not part of this model. The WebSocket I/O, the handshake, frame parsing and subscription-id allocation are left out. The stand-in numbers handles by their position in its subscription log.
- The protocol handler's `close` does not change the stand-in transport's status. What closing does to the transport belongs to code that is not part of this model, so `IsClosed` after `Close` is whatever the transport reports.
- `connect`'s promise and event-loop scheduling (src/nats.ts:47-60) are left out. The handshake outcome is a parameter. The code hands the caller's raw options to the protocol handler's connect, not the resolved ones (src/nats.ts:50). Any listener calls the protocol handler makes during the handshake are not modelled.
- `extend` (src/nats.ts:2) is not part of this model. It is assumed to copy the fields the caller supplied, and only the known fields (`url`; `queue` and `max`) are modelled.
- A `subscribe` result that is itself a promise would be adopted by `resolve`. The stand-in returns the handle directly.
- Errors are modelled by their message (and, for `NatsError`, its code). `NatsError` construction (src/nats.ts:5) and the unused `util` import (src/nats.ts:6) are left out.
- `addEventListener` ignores an event name other than `close` or `error`. The two-case `EventKind` rules such a name out, so that branch is not modelled.
- Listeners are an id and a flag saying whether the call throws. A listener that calls back into the session (`publish`, `addEventListener`, `close`) is not modelled. So the frames of `ErrorHandler`, `CloseHandler` and `Publish`'s error branch hold only for listeners that make no such calls. An error listener that publishes without a subject would recurse without bound in JavaScript, and the model does not cover that either. `forEach` visits only the listeners present when the dispatch starts, and `Dispatch`, which takes the list by value, matches that.
- Wire.PubCommandRoundTrip: holds only for subjects that are NATS tokens: non-empty, with no space, tab, CR or LF. Like a NATS server, the reader ends the subject at the first of those. The code does not check subjects, so a subject containing whitespace yields a `PUB` line a server misreads.
- `data.length` counts UTF-16 code units, and Dafny's `|data|` counts Unicode scalar values. The two differ for characters outside the Basic Multilingual Plane.
- On a session that was never wired, the code paths that read `protocol` or `transport` fail in JavaScript (an undefined field). Those are `isClosed`, `close`, `flush`, `subscribe`, and `publish` with a non-empty subject. `publish` with an empty or missing subject only calls `errorHandler` and does not fail. The model requires `Valid()` for all of these methods, and every session returned by `Connect` satisfies it.

## Findings

| source | as written | input that shows it | evidently intended | confidence | as-written member | corrected member |
|---|---|---|---|---|---|---|
| src/nats.ts:80-89 | after `reject` the executor does not return, so it still builds the request and forwards it; the later `resolve` is ignored | `subscribe("foo", cb)` on a session whose transport reports closed: the caller gets the "closed" error, and the protocol handler still receives the request | return right after rejecting: a closed session forwards no request and the promise settles once | high (nothing returns between the reject at line 82 and the request built at line 85), not executed | Session.NatsConnection.SubscribeAsWritten, Session.ClosedSubscribeAsWritten | Session.NatsConnection.Subscribe, Session.ClosedSubscribe |
