# Redux CLI workshop: shared voting record, in Dafny

A model of the workshop's live vote. A WebSocket server holds one shared
record (`locked`, `selectedOption`, `doneBy`, `lastAction`, `lastBy`). It
tracks the connected sockets and their display names. After every accepted
message it pushes the whole record to every open socket. Each command-line
client mirrors that record in a Redux reducer. It turns typed commands into
upstream `{action, payload}` envelopes, and its connection helper normalises
the server URL and keeps two lists of subscribed callbacks.

Modules, one per source file:

- `Shared` (shared.dfy): the shared record, `Option`, and the `NoDuplicates` predicate.
- `Server` (server.dfy): `server/server.ts`. The parsed upstream message `Msg`, the
  action chain `Apply`, the broadcast `Fanout`, and the class `Server`. The class
  holds the record, the set of registered sockets, their names and one outbox per
  socket, and has the handlers `OnConnect`, `OnMessage`, `Broadcast` and `OnClose`.
  `Replay` strings messages together so that whole-session properties can be stated.
- `Reducer` (reducer.dfy): `client/index.ts` and `client/reducer.test.ts`. It has the
  client state, the running reducer `Reduce` and the test suite's copy `ReduceSolution`.
  `Reduce` models the object spread `{ ...state, ...payload }` on objects seen as
  property maps. The suite's assertions are replayed in `ReducerSuite`.
- `Cli` (cli.dfy): the line handler of `client/index.ts`. It has `trim`,
  `split(/\s+/)` over JavaScript's whitespace set, `toUpperCase`, and `Decide`,
  which maps a line and the local lock flag to a `Reaction`.
- `Realtime` (realtime.dfy): `client/realtime.ts`. It has URL normalisation, the
  `filter` used to unsubscribe, and the class `RealtimeClient` with its callback
  lists and the envelopes it sends.

Sockets are natural numbers. Whether a socket is open at a given moment
(`readyState === OPEN`) is a parameter of the operation that sends. The
server's outbox map keeps a socket's entry after it closes, so an id that is
not in the map is a fresh connection. Callbacks are numbers compared by identity.

Behaviour of the code worth noting, which the model keeps:

- An unknown action, or a `hello` without a name, is still followed by a broadcast (server/server.ts:48-82).
  Only a message that fails to parse skips it (server/server.ts:83-85).
- `select` stores its payload unchecked, so `selectedOption` is `Option<string>`,
  not a choice between A and B (server/server.ts:58).
- A socket `error` event only logs. The registry entry goes away only on `close` (server/server.ts:88-97).
- `doneBy` entries come from the `done` payload, while `lastBy` is the registered name
  (server/server.ts:62-66). A client always puts its own user name in that payload
  (client/realtime.ts:102).

## Model

| member | source | states |
|---|---|---|
| `Server.Apply` | server/server.ts:56-79 | every handled action (`select`, `done`, `lock`, `reset`) sets `lastBy` to the sender's name; any other message leaves the record as it is; outside `reset`, the old `doneBy` is a prefix of the new one |
| `Server.DoneRecordsEntry` | server/server.ts:61-66 | after `done p`, p is in `doneBy`; an entry already there leaves `doneBy` as it was, a new one is appended at the end with the earlier entries kept in order; `lastAction` is "done", `lastBy` is the sender's name, `locked` and `selectedOption` unchanged |
| `Server.DoneKeepsNoDuplicates` | server/server.ts:61-64 | every message keeps a duplicate-free `doneBy` duplicate-free |
| `Server.DoneIdempotent` | server/server.ts:61-64 | a second `done` with the same entry leaves `doneBy` as the first left it |
| `Server.SelectStoresPayload` | server/server.ts:57-60 | `select o` stores o unchecked, sets `lastAction` to "select " followed by o (or "null"), `lastBy` to the sender's name, and does not touch `locked` or `doneBy`, so the lock is not enforced |
| `Server.LockSetsLocked` | server/server.ts:67-70 | `lock` sets `locked`, `lastAction` "locked", `lastBy` the sender, and keeps the option and `doneBy` |
| `Server.ResetClears` | server/server.ts:71-78 | `reset` yields unlocked, no option, empty `doneBy`, `lastAction` "reset", `lastBy` the sender, whatever the record was before |
| `Server.OnlyResetUnlocks` | server/server.ts:56-79 | from a locked record, every message except `reset` leaves it locked |
| `Server.UnhandledLeavesState` | server/server.ts:56-79 | `hello`, an unknown action and an unparsable message leave the record unchanged |
| `Server.Replay` | server/server.ts:56-82 | after a sequence of messages, `lastBy` names the sender of the latest handled message, and a sequence with no handled message leaves the record unchanged |
| `Server.ReplayKeepsNoDuplicates` | server/server.ts:56-82 | over any sequence of handled messages, `doneBy` stays duplicate-free |
| `Server.ReplayStaysLocked` | server/server.ts:56-82 | over any sequence of messages without `reset`, a locked record stays locked |
| `Server.ReplayKeepsDoneEntries` | server/server.ts:61-64 | over any sequence without `reset`, an entry of `doneBy` is never removed |
| `Server.Fanout` | server/server.ts:25-32 | a broadcast keeps the set of outboxes, loses nothing already sent, and adds at most one record to each outbox |
| `Server.FanoutDelivers` | server/server.ts:25-32 | a broadcast appends exactly one copy of the record to the outbox of each registered open socket and leaves every other outbox as it was |
| `Server.FanoutIdentical` | server/server.ts:25-32 | any two open recipients of one broadcast receive the same record |
| `Server.Server.constructor` | server/server.ts:12-23 | the server starts with the initial record (unlocked, no option, empty `doneBy`, no last action), no sockets and no names |
| `Server.Server.OnConnect` | server/server.ts:34-40 | a new socket is registered under the name "unknown" and its first and only message is the current record; the record is unchanged |
| `Server.Server.Broadcast` | server/server.ts:25-32 | the outboxes become `Fanout` of the old ones; record, sockets and names unchanged; the registry invariant (names exactly for registered sockets, duplicate-free `doneBy`) is kept |
| `Server.Server.OnMessage` | server/server.ts:42-86 | an unparsable message changes nothing and sends nothing; a `hello` with a name only renames the sender and sends nothing; every other message applies `Apply` with the sender's registered name and then broadcasts, even when the action is unknown (`Unknown` stands only for an action the handler has no branch for) |
| `Server.Server.OnClose` | server/server.ts:88-93 | the socket and its name leave the registry; the record (including `doneBy`) and all outboxes are unchanged, so nothing is sent |
| `Reducer.InitialMirrorsServer` | client/index.ts:37-44 | the initial client state is disconnected and its shared fields equal the server's initial record |
| `Reducer.RecordRoundTrip` | client/index.ts:73 | reading a client state back from its own object view gives the same state |
| `Reducer.Spread` | client/index.ts:73 | merging a snapshot into the state takes every shared field from the snapshot and keeps `connected`, which a snapshot does not have |
| `Reducer.Reduce` | client/index.ts:60-84 | `CONNECTION_CHANGED` sets `connected` and keeps the shared fields; `SNAPSHOT_RECEIVED` makes the shared fields equal to the snapshot and keeps `connected`; `PARTICIPANT_DONE` grows `doneBy` by exactly the name at the end, old list as prefix, all other fields kept; any other type (an `Unrecognised` action whose tag is none of the three, `Reducer.WellFormed`) returns the state unchanged |
| `Reducer.ReduceSolution` | client/reducer.test.ts:45-67 | the suite's copy sets `connected` and keeps the rest on `CONNECTION_CHANGED`, takes the shared fields from the snapshot and keeps `connected`, appends the name to `doneBy` and keeps every other field, and returns the state unchanged for any other type |
| `Reducer.CopiesAgree` | client/reducer.test.ts:45-67 | the test suite's field-by-field copy gives the same result as the running client's spread merge on every state and action |
| `Cli.LeadingSpace` | client/index.ts:194 | the count of leading whitespace: every character before it is whitespace, and the one at it (if any) is not |
| `Cli.TrailingSpace` | client/index.ts:194 | the count of trailing whitespace: every character in that tail is whitespace, and the one just before it (if any) is not |
| `Cli.Trim` | client/index.ts:194 | the result neither starts nor ends with whitespace and is no longer than the line; a line without whitespace is kept as it is |
| `Cli.TrimIsMiddle` | client/index.ts:194 | the trimmed line is a middle part of the line, and everything dropped before and after it is whitespace |
| `Cli.TrimEmpty` | client/index.ts:194 | a line trims to the empty string exactly when it is all whitespace |
| `Cli.FirstSpace` | client/index.ts:194 | the index of the first whitespace character (or the length), with a whitespace-free prefix before it |
| `Cli.NextPiece` | client/index.ts:194 | the start of the next piece lies past the first whitespace character, and everything between is whitespace, with a non-space (or the end) at it |
| `Cli.SplitWs` | client/index.ts:194 | splitting gives at least one piece, no piece contains whitespace, the first piece is the leading whitespace-free run, there is more than one piece exactly when the string holds whitespace, only the first and last pieces can be empty, and a trimmed non-empty line has no empty piece |
| `Cli.Gaps` | client/index.ts:194 | the separators `split` drops are one fewer than the pieces, and each is a non-empty run of whitespace |
| `Cli.SplitRebuilds` | client/index.ts:194 | the pieces joined by the dropped separators give back the string, so every piece, not just the first, is determined |
| `Cli.Words` | client/index.ts:194 | a line's words are whitespace-free; they are all non-empty unless the line is blank, and a blank line gives the single word "" |
| `Cli.Command` | client/index.ts:195 | the command is whitespace-free, and it is empty exactly when the line is blank |
| `Cli.Upper` | client/index.ts:201-204 | upper-casing keeps the length, turns each letter a to z into its capital (code point 32 lower), leaves no letter a to z, and keeps every other character |
| `Cli.UpperIsAOrB` | client/index.ts:201-205 | a word upper-cases to "A" exactly when it is "a" or "A", and to "B" exactly when it is "b" or "B" |
| `Cli.Decide` | client/index.ts:193-236 | `done`, `lock` and `reset` send the matching request; `help` and `state` show help and state; `select X` sends "A" for a or A, "B" for b or B, and is an invalid selection otherwise; a blank line redraws; an unknown-command error is given exactly for a non-blank line whose first word is none of the eight commands, and names that word; a selection the client sends is always "A" or "B" |
| `Cli.LetterRespectsLock` | client/index.ts:197-202 | `a` or `b` is refused when the local record is locked and otherwise sends `select` with the upper-case letter |
| `Cli.SelectIgnoresLock` | client/index.ts:203-210 | `select X` decides the same whether or not the record is locked, and sends exactly when X is a, A, b or B |
| `Cli.LockedSelectOnlyByCommand` | client/index.ts:197-210 | a locked client that sends a selection did so through `select` |
| `Cli.SendingCommands` | client/index.ts:193-236 | a line sends a request exactly when its first word is a or b (unlocked), `select` with a valid option, or `done`, `lock` or `reset` |
| `Realtime.ReplaceLeading` | client/realtime.ts:36-37 | a string that starts with the pattern gets the replacement in its place, followed by the rest; any other string is unchanged |
| `Realtime.ReplaceLeadingUndo` | client/realtime.ts:36-37 | replacing a leading pattern and then the leading replacement by the pattern gives the string back |
| `Realtime.ReplaceFirst` | client/realtime.ts:38 | a string in which the pattern does not occur is unchanged |
| `Realtime.ReplaceFirstAt` | client/realtime.ts:38 | where the pattern first occurs at index k, the result is the part before k, the replacement, and the part after that occurrence |
| `Realtime.ReplaceFirstSame` | client/realtime.ts:38 | replacing the first occurrence of a pattern by itself leaves the string unchanged |
| `Realtime.NormalizeUrl` | client/realtime.ts:35-38 | "https..." becomes "wss" plus the rest, "http..." (not https) becomes "ws" plus the rest, anything else is unchanged, and the result never starts with "http" |
| `Realtime.NormalizeIdempotent` | client/realtime.ts:35-38 | normalising twice is normalising once |
| `Realtime.Without` | client/realtime.ts:82 | the filtered list no longer holds the callback, holds every other callback it held before and nothing new, and is no longer than before |
| `Realtime.WithoutConcat` | client/realtime.ts:90 | filtering a concatenation is concatenating the filtered parts, so the remaining callbacks keep their order |
| `Realtime.WithoutAbsent` | client/realtime.ts:82 | filtering out a callback that is not subscribed changes nothing |
| `Realtime.UnsubscribeUndoesSubscribe` | client/realtime.ts:78-83 | unsubscribing right after subscribing a new callback restores the list |
| `Realtime.RealtimeClient.Connect` | client/realtime.ts:33-43 | the client opens the normalised URL, remembers the user, and starts with no callbacks and nothing sent |
| `Realtime.RealtimeClient.OnConnection` | client/realtime.ts:78-79 | subscribing appends the callback at the end of the connection list |
| `Realtime.RealtimeClient.UnsubscribeConnection` | client/realtime.ts:81-83 | unsubscribing filters every occurrence of the callback out of the connection list |
| `Realtime.RealtimeClient.OnState` | client/realtime.ts:86-87 | subscribing appends the callback at the end of the state list |
| `Realtime.RealtimeClient.UnsubscribeState` | client/realtime.ts:89-91 | unsubscribing filters every occurrence of the callback out of the state list |
| `Realtime.RealtimeClient.SendIfOpen` | client/realtime.ts:95-97 | an envelope is sent exactly once when the socket is open and not at all otherwise |
| `Realtime.RealtimeClient.Select` | client/realtime.ts:94-98 | sends `select` carrying the option, once, only when open |
| `Realtime.RealtimeClient.Done` | client/realtime.ts:100-104 | sends `done` carrying the user name itself, once, only when open |
| `Realtime.RealtimeClient.Reset` | client/realtime.ts:106-110 | sends `reset` with a null payload, once, only when open |
| `Realtime.RealtimeClient.Lock` | client/realtime.ts:112-116 | sends `lock` with a null payload, once, only when open |
| `Realtime.RealtimeClient.OnOpen` | client/realtime.ts:47-53 | on open, sends `hello` carrying `{name: user}` when the socket is open, then calls every connection callback with true, in order |
| `Realtime.RealtimeClient.OnDisconnect` | client/realtime.ts:66-73 | on error or close, every connection callback is called with false, in order |
| `Realtime.RealtimeClient.OnMessage` | client/realtime.ts:55-64 | a record that parses is passed to every state callback in order; one that does not parse reaches no callback |
| `Realtime.Notify` | client/realtime.ts:52 | `forEach` calls each callback once, in list order, with the same value |

## Left out

- The WebSocket transport: the server on port 8765, socket events, `ws.close()` and send failures. Sockets are ids, `readyState` is an `open` parameter, and a send is an append to an outbox.
- Byte-level JSON (`JSON.parse`, `JSON.stringify`). Messages and snapshots are datatypes. A parse failure, or a message that parses to `null`, is `Msg.Malformed`.
- Payloads that are neither strings nor null (numbers, objects) for `select` and `done`. `Msg` carries strings. A `hello` name is carried as its `String(...)` rendering, with `None` for a missing or falsy name.
- The Redux Toolkit store (`configureStore`, `subscribe`, `dispatch`) and the wiring of `onConnection`/`onState` to `dispatch`. It is library code. The store amounts to replacing the current state with `Reduce(current state, action)`.
- The reducer's default `state = initialState` parameter (client/index.ts:60). It never applies here, because the store is created with `preloadedState: initialState` (client/index.ts:97-100), so `Reduce` always receives a state.
- The terminal UI: `render`, the help text, the `state` dump, `readline`, command-line arguments and `process.exit`. The decision between them is kept in `Cli.Decide`.
- Console logging, the startup banner, and the server `error` handler, which only logs and changes nothing.
- Concurrency. Node's event loop runs each event to completion, so each event is one method call.
- The test harness counters and exit code, and the object-identity assertions (`notStrictEqual`/`strictEqual` on references). Reference identity has no meaning for Dafny values. For the same reason, "the reducer does not mutate its input" and "the reducer is deterministic" hold by construction and are not stated as separate lemmas.
- A message from a socket after it closed. `OnMessage` requires a registered socket, because `ws` emits no message after `close`. The `?? 'unknown'` fallback is still modelled, in `Server.Actor`.
- A `done` with a null or missing payload. The code would push `null` into `doneBy` (server/server.ts:62-63); `Done` carries a string and `doneBy` is a sequence of strings. The client always sends its user name (client/realtime.ts:102).
- A `select` without any payload. Its label would read "select undefined" and the key would vanish from the serialised record. `Select(None)` models a null payload only.
- Calling the callbacks. A notification is recorded as the list of (callback, argument) calls it makes.
- Cli.Upper: maps only the letters a to z. Other characters are kept, rather than following Unicode case mapping. No other character upper-cases to "A" or "B", so `Decide` is unaffected.
- Whitespace: `Cli.IsSpace` is the whitespace set of `\s` and `trim` as JavaScript defines it. Characters whose Unicode class may differ between engines are not distinguished.
