# twinspeak session engine, in Dafny

A model of the per-connection session protocol of twinspeak, a WebSocket
server that speaks a Gemini-Live-style protocol. Each connection runs a read
loop. The loop takes one frame at a time, routes it by the `type` field of
its JSON envelope to one of five handlers (`setup`, `input_text`,
`input_audio`, `tool_result`, `end_session`) and writes back at most one
frame. It also drives the connection's session. A session has an identity,
a lifecycle state (Connecting, Configured, Active, Closing, Closed) and an
append-only log. Sessions are kept in a registry (`Store`) shared by all
connections.

Files and modules:

- `state.dfy` (`SessionState`): the lifecycle states as an integer newtype
  and their names, including the "Unknown" fallback.
- `messages.dfy` (`Messages`): client and server messages, the wire strings
  (message types, error codes, reply texts), and `Frame`. A frame is what
  reading and decoding one WebSocket frame yields. It is a non-text frame,
  a text frame whose envelope does not decode, or a typed frame whose
  payload does or does not decode.
- `session.dfy` (`Sessions`): `Session` and `Store` as classes updated in
  place, and a `Clock` whose readings never go backwards.
- `protocol.dfy` (`Protocol`): the loop as a pure specification.
  - `Dispatch` gives one frame's effect on the loop's locals (`sess`,
    `sessionID`) and the frames it writes.
  - `Step` adds the cancellation check and a failed read.
  - `Run` runs the loop over a sequence of events.
  - The invariant `Inv` and the "later point" relation `Advances` say what
    every run keeps.
- `ws.dfy` (`Ws`): the handler as imperative code over the classes.
  - `HandleSpeakWS` and its loop `ServeLoop` read events in order.
  - `HandleFrame` routes each frame to the five handler methods, which
    call `Session.Append`, `Store.Put` and `Store.Delete`.
  - Their contracts tie the frames written, the locals and the registry to
    `Run` and `Dispatch`.

The loop is proved against any function that agrees with `Step`
(`Implements`). `HandleSpeakWS` then connects it to `Run` through
`LoopImplements`.

## Model

| member | source | states |
|---|---|---|
| SessionState.Name | pkg/session/state.go:15-30 | the five lifecycle states, and only they, get a name other than "Unknown" |
| SessionState.NamesOfStates | pkg/session/state.go:15-26 | Connecting, Configured, Active, Closing and Closed render as exactly those names |
| SessionState.NameInjective | pkg/session/state.go:15-30 | distinct lifecycle states have distinct names |
| SessionState.LifecycleOrder | pkg/session/state.go:7-13 | the constants are 0 to 4, consecutive, in lifecycle order, and they are exactly the lifecycle states |
| Sessions.Clock.Now | pkg/session/session.go:45 | a clock reading is never earlier than the previous one |
| Sessions.Session.NewSession | pkg/session/session.go:27-37 | a new session has the given model and ID, state Connecting, an empty log and handle, and CreatedAt equal to UpdatedAt, read from the clock |
| Sessions.Session.Append | pkg/session/session.go:40-46 | the log grows by exactly the message, at the end. ID, model, state, handle and CreatedAt are unchanged, and UpdatedAt becomes the clock's newer reading; the shared clock does not go backwards across the call |
| Sessions.Store.NewStore | pkg/session/session.go:55-59 | a new registry is empty |
| Sessions.Store.Put | pkg/session/session.go:62-66 | the session is stored under its ID, overwriting any earlier entry; every other ID keeps its mapping |
| Sessions.Store.Get | pkg/session/session.go:69-74 | returns (session, true) exactly when the ID is present and (null, false) otherwise; the registry is not changed |
| Sessions.Store.Delete | pkg/session/session.go:77-81 | the ID is absent afterwards; deleting an absent ID changes nothing; every other ID keeps its mapping |
| Protocol.Dispatch | srv/ws.go:50-174 | at most one frame is written. A frame that is not processed leaves the locals unchanged and gets exactly one error. A processed frame gets no error, and gets no reply exactly when it is a tool result. Only a processed end_session ends the loop. A session created here gets the new ID |
| Protocol.DispatchRecords | srv/ws.go:61-174 | a processed message is appended to the session's log, and the state follows the table: setup gives Configured, text and audio give Active, end_session gives Closed, and a tool result keeps the state |
| Protocol.DispatchKeepsInv | srv/ws.go:61-174 | on an open connection, dispatch keeps the invariant and the new locals advance on the old: the same ID, model and handle, a state that does not go back, and a log that only grows |
| Protocol.Loop | srv/ws.go:37-175 | the loop's skeleton for any iteration function. It has no contract of its own; LoopConcat and LoopImplements state its properties |
| Protocol.Run | srv/ws.go:37-175 | the `for` loop over a sequence of events, as Loop over Step. It has no contract of its own; RunAdvances, RunWritesAtMostOnce, PrefixesAdvance, NothingAfterEnd and NoSessionWithoutSetup state its properties |
| Protocol.Transition | srv/ws.go:75-168 | the state assignments of the setup, input_text, input_audio and end_session arms, with tool_result keeping the state. It has no contract of its own; DispatchRecords states that dispatch follows it |
| Protocol.Step | srv/ws.go:38-48 | cancellation or a failed read stops the loop and writes nothing; otherwise the frame is dispatched; the invariant is kept |
| Protocol.RunAdvances | srv/ws.go:37-175 | over any events, the final locals advance on the initial ones and keep the invariant |
| Protocol.RunWritesAtMostOnce | srv/ws.go:37-175 | a run writes at most one frame per event |
| Protocol.LoopConcat | srv/ws.go:37-175 | running over a + b is running over a, then over b from where a stopped, with the frames written concatenated |
| Protocol.PrefixesAdvance | srv/ws.go:37-175 | a longer prefix of the events gives locals that advance on a shorter one's, and the frames written only grow |
| Protocol.NothingAfterEnd | srv/ws.go:168-170 | after the session has ended, later events change nothing and write nothing |
| Protocol.EndedSessionIsClosed | srv/ws.go:158-170 | from a fresh connection, an ended session is Closed, unregistered, and its log starts with its setup request |
| Protocol.UndecodableFrames | srv/ws.go:50-59 | a non-text frame gets bad_json "Only text messages are supported"; a bad envelope gets bad_json "Invalid JSON format"; nothing changes |
| Protocol.SetupTwice | srv/ws.go:63-66 | a second setup gets already_setup whatever its payload, and the session is untouched |
| Protocol.SetupCreatesSession | srv/ws.go:74-86 | a well-formed first setup creates a Configured session under the new ID, with handle "session_" + ID and the request as its only log entry, registers it, and replies with the handle |
| Protocol.SessionRequired | srv/ws.go:89-92 | the other four types without a session get no_session, and nothing changes |
| Protocol.MalformedPayload | srv/ws.go:69-72 | a payload that does not decode gets bad_setup for setup and bad_json for the others, and nothing changes |
| Protocol.UnknownType | srv/ws.go:172-173 | any other type gets unknown_type "Unknown message type: " + type, with or without a session |
| Protocol.TextEchoed | srv/ws.go:100-108 | text input makes the session Active, is logged, and is echoed as "[echo] " + text, final |
| Protocol.AudioAcknowledged | srv/ws.go:122-130 | audio input makes the session Active, is logged, and is acknowledged with its format and final flag |
| Protocol.ToolResultLogged | srv/ws.go:144 | a tool result is logged; the state is kept and nothing is written |
| Protocol.EndSessionCloses | srv/ws.go:158-170 | end_session logs the request, says "Goodbye! Session ended.", leaves the session Closed and unregistered, and ends the loop |
| Protocol.NoSessionWithoutSetup | srv/ws.go:61-174 | as long as no setup frame arrives, there is no session and every frame written is an error |
| Protocol.Conversation | srv/ws.go:37-175 | setup, text, then end_session writes exactly the handle, the echo and the goodbye, and leaves the session Closed with all three messages logged |
| Ws.Server.New | srv/srv.go:20-27 | a new server's registry is empty |
| Ws.Server.WriteJSON | srv/ws.go:179-182 | exactly the message is appended to the frames written |
| Ws.Server.SendError | srv/ws.go:185-194 | exactly one error frame with the given code and message is written |
| Ws.Server.HandleFrame | srv/ws.go:50-174 | the frame written, the new `sess` and `sessionID`, the registry and whether the loop ends are those `Dispatch` gives |
| Ws.Server.HandleSetup | srv/ws.go:62-86 | the setup arm does what `Dispatch` gives for a setup frame: locals, registry and reply |
| Ws.Server.HandleInputText | srv/ws.go:88-108 | the input_text arm does what `Dispatch` gives for a text frame |
| Ws.Server.HandleInputAudio | srv/ws.go:110-130 | the input_audio arm does what `Dispatch` gives for an audio frame |
| Ws.Server.HandleToolResult | srv/ws.go:132-144 | the tool_result arm does what `Dispatch` gives for a tool result frame |
| Ws.Server.HandleEndSession | srv/ws.go:146-170 | the end_session arm does what `Dispatch` gives: the session is Closed, removed from the registry, and the loop ends |
| Ws.Server.Turn | srv/ws.go:38-48 | one turn of the loop does what `Step` gives: it stops on cancellation or a failed read, and otherwise handles the frame |
| Ws.Server.ServeLoop | srv/ws.go:37-175 | the loop writes exactly the frames `Run` gives and ends with the locals `Run` gives. The registry holds the session while it is registered and drops it once ended. A loop stopped by cancellation or a failed read leaves the session in the registry, since only the end_session arm deletes it |
| Ws.Server.HandleSpeakWS | srv/ws.go:23-176 | the handler writes the frames of `Run` from a fresh connection, and its `sess` mirrors the final locals. A session it ends leaves the registry as it found it, given a fresh ID. A session whose connection is cancelled or fails a read stays registered under its ID |

## Left out

- Transport: the WebSocket upgrade, framing and closing the connection are not modelled. A read is the next event of a sequence, and a write appends to `Socket.written`.
- JSON: decoding is an oracle. A frame records whether its envelope decodes and what its payload decodes to. The schema types and their required-field checks in pkg/model are not part of this model, so a payload either decodes to its message or does not.
- The `type` fields of the server's replies (`error`, `session_resumption_update`, `output_text`) are the constructors of `ServerMessage`.
- Setup's session configuration and the text input's turn ID are not carried in `ClientMessage`: the core never reads them.
- The `mustJSON`/`ensure` panics on a serialization failure are not modelled: the values serialized are always well-typed.
- Write failures: the handler ignores the result of `writeJSON`, and `sendError` only logs it, so a failed write never ends the loop. The model follows the code. A write that the transport loses is still recorded in `Socket.written`.
- Concurrency: the mutexes in `Session` and `Store` are treated as making each operation atomic, and only one connection is modelled.
- Identifiers: `uuid.New` is the parameter `newId`, the ID a session created on this connection gets. Uniqueness is assumed only where stated (`newId !in old(store.sessions)`). `NewSession` accepts any `id`, the empty one included, which is also the `sessionID` of a fresh connection (`Initial`); a uuid is never empty, but no stated property depends on it.
- Time: `time.Now` is `Clock.Now`, which advances by one. Timestamps are naturals, and only their ordering is stated.
- Cancellation is the `Cancel` event, seen before each read.
- Protocol.Run and Protocol.Dispatch: the session's `Closing` state is held only between two statements of the end_session arm. The pure model records the end state, Closed, directly. `HandleEndSession` does pass through Closing.
- The session log holds `ClientMessage` values, where the source's log holds `any`: only client messages are ever appended.
- Sessions.Session.Append: "n successive appends add n entries" is not stated as a member. It follows from `Append`'s contract one call at a time, and srv/ws.go has no loop that appends.
- Sessions.Store.Put and Get: "Put then Get returns the session" is not a member. It follows from the two contracts, since Get changes nothing.
- HTTP routing, middleware, the health endpoint and the command-line launcher are not part of this model.
- The model covers a finite sequence of events: a connection that never stops is modelled by its prefixes (`PrefixesAdvance`).
