# Tabby IntelliJ agent transport, modelled in Dafny

The IntelliJ plugin of Tabby talks to its `tabby-agent` child process over
newline-delimited JSON. The `Agent` class (`Agent.kt`) holds the whole transport:

- a line framer that cuts the child's stdout chunks at `'\n'` and keeps the
  trailing partial line in `outputBuffer`;
- a request-id counter starting at 1 and a table `ongoingRequest` from id to
  the callback waiting for that id's response;
- a writer that sends one line `[id, {"func": …, "args": …}]` per request,
  and a second one, `cancelRequest`, under a fresh id when a caller is
  cancelled;
- a dispatcher that drops malformed lines, routes id 0 to the notification
  handler and any other id to the pending callback, which it then removes;
- a status state machine (`NOT_INITIALIZED`, `READY`, `DISCONNECTED`,
  `UNAUTHORIZED`) written only by `statusChanged` notifications, and an
  auth-required signal.

Files:

- `json.dfy` (module `Json`): decoded JSON values and `Option`.
- `framing.dfy` (module `Framing`): Kotlin's `split("\n")`, its inverse
  `Join`, the per-chunk `Feed`, and the proof that chunk boundaries do not
  matter.
- `protocol.dfy` (module `Protocol`): the transport state as a value
  (`AgentState`), the invariant it keeps (`Inv`), and one function per event:
  `Issue`, `Cancel`, `Receive` (through `Respond` and `Notify`),
  `ReceiveLines`, `Ingest`. Lemmas relate them.
- `client.dfy` (module `Client`): the `Agent` class. `status`, `requestId`,
  `ongoingRequest` and `outputBuffer` are the source's own fields. Three
  fields stand for things that are not fields of `Agent.kt`:
  - `calls` stands for the callers' continuations, which the source captures
    in the stored callbacks;
  - `written` stands for the lines written to the child's stdin through
    `streamWriter`;
  - `authRequiredEvents` counts the emissions to the auth-required flow.

  Each method changes the fields in place and promises that the new state is
  the `Protocol` function of the old one, and that `Valid()` is kept.

The caller's suspended coroutine is modelled as an entry of `calls`
(`Suspended`, `Resumed(payload)` or `Cancelled`). A caller's callback resumes
it. The coroutine runtime ignores a resume that arrives after cancellation,
so that response is discarded. `Request` returns the allocated id, which is
the handle the caller waits under.

On cancellation, the code does not remove the original id from
`ongoingRequest`. A late response under that id still finds the entry. It
runs the callback, which cannot resume the cancelled caller, and then removes
the entry. `LateResponseAfterCancel` states this.

## Model

| member | source | states |
|---|---|---|
| `Framing.Split` | clients/intellij/src/main/kotlin/com/tabbyml/intellijtabby/agent/Agent.kt:208 | `split("\n")` gives at least one piece, no piece holds a newline, and the pieces rejoined with newlines give back the input |
| `Framing.SplitJoin` | clients/intellij/src/main/kotlin/com/tabbyml/intellijtabby/agent/Agent.kt:208 | splitting inverts joining for newline-free pieces, so the split is the only newline-free decomposition |
| `Framing.Feed` | clients/intellij/src/main/kotlin/com/tabbyml/intellijtabby/agent/Agent.kt:208-210 | the dispatched lines joined with newlines, plus the new buffer, reproduce old buffer + text; neither the lines nor the new buffer hold a newline |
| `Framing.FeedUnique` | clients/intellij/src/main/kotlin/com/tabbyml/intellijtabby/agent/Agent.kt:208-210 | any lines and rest meeting Feed's two promises are exactly what Feed returns |
| `Framing.FeedTail` | clients/intellij/src/main/kotlin/com/tabbyml/intellijtabby/agent/Agent.kt:208-210 | the new buffer is the tail of old buffer + text after its last newline; a stream holds no newline exactly when no line is dispatched |
| `Framing.FeedConcat` | clients/intellij/src/main/kotlin/com/tabbyml/intellijtabby/agent/Agent.kt:205-211 | feeding x then y dispatches the same lines in the same order and leaves the same buffer as feeding x + y |
| `Protocol.StatusOf` | clients/intellij/src/main/kotlin/com/tabbyml/intellijtabby/agent/Agent.kt:242-248 | the status field is the name of the resulting status, or the result is NOT_INITIALIZED and the field names no status |
| `Protocol.StatusRoundTrip` | clients/intellij/src/main/kotlin/com/tabbyml/intellijtabby/agent/Agent.kt:242-248 | each of the four status names maps back to its own status |
| `Protocol.Classify` | clients/intellij/src/main/kotlin/com/tabbyml/intellijtabby/agent/Agent.kt:214-225 | a line is a frame exactly when it decodes to a 2-element array with a numeric head; the frame's id and payload are those two elements |
| `Protocol.InitialInv` | clients/intellij/src/main/kotlin/com/tabbyml/intellijtabby/agent/Agent.kt:172-173 | the starting state (counter 1, empty table, nothing written) satisfies the transport invariant |
| `Protocol.Issue` | clients/intellij/src/main/kotlin/com/tabbyml/intellijtabby/agent/Agent.kt:175-187 | a request takes the current id, which is fresh, and increments the counter; adds exactly one Caller entry and one suspended caller under it, and no other caller changes; appends exactly one line `[id, {func, args}]`; other entries, status and signals unchanged; keeps the invariant and every settled caller's outcome |
| `Protocol.Cancel` | clients/intellij/src/main/kotlin/com/tabbyml/intellijtabby/agent/Agent.kt:189-200 | cancelling a suspended caller marks it cancelled, allocates a fresh id, registers a log-only entry under it and appends exactly one `cancelRequest` line carrying the original id; the original entry stays; anything else is a no-op; keeps the invariant |
| `Protocol.Invoke` | clients/intellij/src/main/kotlin/com/tabbyml/intellijtabby/agent/Agent.kt:178-194 | a cancel acknowledgement's callback changes nothing; a caller's callback changes at most that caller, and only from suspended to resumed with the payload, which it does whenever the caller is still suspended |
| `Protocol.Respond` | clients/intellij/src/main/kotlin/com/tabbyml/intellijtabby/agent/Agent.kt:230-235 | a response removes exactly its id from the table; an unknown id changes nothing; it resumes only its own caller, and only if that caller is still suspended; no other caller, the counter, the written lines and the status change |
| `Protocol.Notify` | clients/intellij/src/main/kotlin/com/tabbyml/intellijtabby/agent/Agent.kt:238-264 | a notification changes only status and signal count; only `statusChanged` writes the status, through StatusOf; `authRequired` emits exactly one signal; `configUpdated` and unknown names change nothing |
| `Protocol.Receive` | clients/intellij/src/main/kotlin/com/tabbyml/intellijtabby/agent/Agent.kt:213-236 | a malformed frame, or id 0 with a non-object payload, changes nothing; id 0 never touches the table or callers; a response never touches status; no frame adds or changes a pending entry or adds or drops a caller; the invariant and settled outcomes are kept |
| `Protocol.ReceiveLines` | clients/intellij/src/main/kotlin/com/tabbyml/intellijtabby/agent/Agent.kt:209 | dispatching complete lines in order never allocates an id or writes a line, never adds or changes a pending entry, and never adds or drops a caller |
| `Protocol.ReceiveLinesInv` | clients/intellij/src/main/kotlin/com/tabbyml/intellijtabby/agent/Agent.kt:209 | dispatching any sequence of lines keeps the invariant and every settled caller's outcome |
| `Protocol.ReceiveLinesAppend` | clients/intellij/src/main/kotlin/com/tabbyml/intellijtabby/agent/Agent.kt:209 | dispatching a + b is dispatching a and then b |
| `Protocol.Ingest` | clients/intellij/src/main/kotlin/com/tabbyml/intellijtabby/agent/Agent.kt:207-210 | a stdout chunk leaves a newline-free buffer that is the tail of old buffer + text; with no newline in old buffer + text it dispatches nothing and only grows the buffer; it keeps the invariant |
| `Protocol.ChunkingInvisible` | clients/intellij/src/main/kotlin/com/tabbyml/intellijtabby/agent/Agent.kt:205-211 | the agent state and buffer after chunks x then y equal those after the single chunk x + y |
| `Protocol.ResolvedAtMostOnce` | clients/intellij/src/main/kotlin/com/tabbyml/intellijtabby/agent/Agent.kt:231-234 | the first response under a suspended caller's id resumes it with that payload; a second response under the same id changes nothing |
| `Protocol.ResponsesInAnyOrder` | clients/intellij/src/main/kotlin/com/tabbyml/intellijtabby/agent/Agent.kt:230-235 | two suspended callers answered in either order end in the same state, each resumed with its own payload |
| `Protocol.LateResponseAfterCancel` | clients/intellij/src/main/kotlin/com/tabbyml/intellijtabby/agent/Agent.kt:189-235 | after cancellation the original entry is still pending; a late response under it leaves the caller cancelled, removes the entry and keeps the cancel acknowledgement pending |
| `Client.Agent.constructor` | clients/intellij/src/main/kotlin/com/tabbyml/intellijtabby/agent/Agent.kt:39-41 | a new agent is NOT_INITIALIZED with counter 1, an empty table, nothing written and an empty buffer |
| `Client.Agent.Request` | clients/intellij/src/main/kotlin/com/tabbyml/intellijtabby/agent/Agent.kt:175-187 | returns the old counter, an id not pending and greater than every id written before; the new state is Issue of the old one |
| `Client.Agent.OnCancellation` | clients/intellij/src/main/kotlin/com/tabbyml/intellijtabby/agent/Agent.kt:189-200 | the new state is Cancel of the old one; the buffer is unchanged |
| `Client.Agent.HandleNotification` | clients/intellij/src/main/kotlin/com/tabbyml/intellijtabby/agent/Agent.kt:238-264 | the new state is Notify of the old one |
| `Client.Agent.HandleOutput` | clients/intellij/src/main/kotlin/com/tabbyml/intellijtabby/agent/Agent.kt:213-236 | the new state is Receive of the old one on the classified line; the buffer is unchanged |
| `Client.Agent.OnTextAvailable` | clients/intellij/src/main/kotlin/com/tabbyml/intellijtabby/agent/Agent.kt:205-211 | non-stdout text changes nothing; stdout text dispatches newline-free lines in order that, joined and followed by the new newline-free buffer, reproduce old buffer + text; the new state is those lines dispatched in order |

## Left out

- Locating and starting the node process (`init`) and `close`: file system and process I/O.
- Gson: a line is decoded by a `parse` function the caller supplies. Outbound messages are structured `Outbound` values, not JSON text.
- The business wrappers (`initialize`, `updateConfig`, `getCompletions`, `postEvent`, `requestAuthUrl`, `waitForAuthToken`) and their payload classes. Each is `Request` with a fixed name. Arguments and results are opaque `Value`s. The client-identifier string is left out too.
- Decoding a response into the caller's result type. A failure there throws out of the dispatcher midway. The model's callback always succeeds and resumes with the raw payload.
- Coroutine suspension itself, thread safety of the unsynchronised table, and the buffering of the status and auth-signal flows (`extraBufferCapacity = 1`). The auth signal is a counter of emissions.
- Logging.
- Numbers: Gson reads a JSON number as a double, and the id is `toInt()` of it. Here numbers are integers, so truncation and saturation of non-integral or huge ids are not modelled.
- Protocol.Issue: the counter is an unbounded integer. Kotlin's `Int` wraps after 2^31 - 1 allocations, so the ids would stop increasing. This is not modelled.
- Protocol.Issue: the write of the request line always succeeds in the model. In the source, `streamWriter.write` or `flush` can throw, for example after `close()` or once the child has died. The id is then already taken and the entry registered, but no line is written. The cancellation handler is never registered, and the caller fails with the exception. The invariant's "each allocation writes exactly one line" relies on this.
- Protocol.Cancel: the write of the cancelRequest line always succeeds in the model. In the source a failed write leaves the fresh id taken and its log-only entry registered, with no line written, and the exception escapes the handler.
- Protocol.Cancel: the handler is modelled only for a caller cancelled while still suspended; for any other caller it is a no-op. The runtime also runs it when a caller that was already resumed is cancelled before its resumption is dispatched. The caller then fails with a cancellation, and the source writes a `cancelRequest` for an id that was already answered. This window is not modelled: a resumed caller never changes again here.
