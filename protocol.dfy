/** The agent's transport state as a value, and what each event does to it:
    issuing a request, cancelling one, and receiving a frame or a notification. */
module Protocol {
  import opened Json
  import opened Framing

  /** The agent status the plugin observes. */
  datatype Status = NotInitialized | Ready | Disconnected | Unauthorized

  /** What is stored under a pending id: the callback that resumes the caller
      of a request, or the callback that only logs the answer to a
      cancellation notice sent for request `forId`. */
  datatype Pending = Caller | CancelAck(forId: int)

  /** The caller's side of a request: still waiting, resumed with the
      response payload, or cancelled. */
  datatype Continuation = Suspended | Resumed(result: Value) | Cancelled

  /** One line written to the agent's stdin: `[id, {"func": func, "args": args}]`
      followed by '\n'. */
  datatype Outbound = Outbound(id: int, func: string, args: seq<Value>)

  /** A decoded stdout line: a 2-element array with a numeric head, or anything else. */
  datatype Frame = Malformed | Pair(id: int, payload: Value)

  /** Everything the transport keeps: the next request id, the pending table,
      the callers' continuations, the lines written so far, the status, and how
      many auth-required signals were emitted. */
  datatype AgentState = AgentState(
    requestId: int,
    ongoing: map<int, Pending>,
    calls: map<int, Continuation>,
    written: seq<Outbound>,
    status: Status,
    authRequired: nat)

  const Initial := AgentState(1, map[], map[], [], NotInitialized, 0)

  /** The status names used in a statusChanged notification. */
  function StatusName(st: Status): string
  {
    match st
    case NotInitialized => "notInitialized"
    case Ready => "ready"
    case Disconnected => "disconnected"
    case Unauthorized => "unauthorized"
  }

  /** The mapping of a notification's "status" field: a known name gives its
      status, anything else (another string, another kind of value, or no
      field at all) falls back to NotInitialized. */
  function StatusOf(field: Option<Value>): (st: Status)
    ensures field == Some(JStr(StatusName(st)))
            || (st == NotInitialized && forall other: Status :: field != Some(JStr(StatusName(other))))
  {
    if field == Some(JStr("notInitialized")) then NotInitialized
    else if field == Some(JStr("ready")) then Ready
    else if field == Some(JStr("disconnected")) then Disconnected
    else if field == Some(JStr("unauthorized")) then Unauthorized
    else NotInitialized
  }

  /** Every status survives a round trip through its name. */
  lemma StatusRoundTrip(st: Status)
    ensures StatusOf(Some(JStr(StatusName(st)))) == st
  {
  }

  /** Shape check of a decoded line: only `[number, payload]` is a frame. */
  function Classify(decoded: Option<Value>): (f: Frame)
    ensures f.Pair? <==> (decoded.Some? && decoded.value.JArr? && |decoded.value.items| == 2
                          && decoded.value.items[0].JNum?)
    ensures f.Pair? ==> decoded == Some(JArr([JNum(f.id), f.payload]))
  {
    match decoded
    case Some(JArr(items)) =>
      if |items| == 2 && items[0].JNum? then
        assert items == [JNum(items[0].n), items[1]];
        Pair(items[0].n, items[1])
      else
        Malformed
    case _ => Malformed
  }

  /** Request ids are handed out 1, 2, 3, ... and each allocation writes exactly
      one line; the pending table and the continuations only use allocated ids;
      a suspended caller always has its resume callback pending; a resumed one
      never does; a cancel acknowledgement belongs to a cancelled caller and to
      the cancelRequest line written under its own id. */
  ghost predicate Inv(s: AgentState)
  {
    && s.requestId >= 1
    && |s.written| == s.requestId - 1
    && (forall i :: 0 <= i < |s.written| ==> s.written[i].id == i + 1)
    && (forall k :: k in s.ongoing ==> 1 <= k < s.requestId)
    && (forall k :: k in s.calls ==> 1 <= k < s.requestId)
    && (forall k :: k in s.ongoing && s.ongoing[k].Caller? ==> k in s.calls)
    && (forall k :: k in s.ongoing && s.ongoing[k].CancelAck? ==> CancelNotice(s, k))
    && (forall k :: k in s.calls && s.calls[k].Suspended? ==> k in s.ongoing && s.ongoing[k] == Caller)
    && (forall k :: k in s.calls && s.calls[k].Resumed? ==> k !in s.ongoing)
  }

  ghost predicate CancelNotice(s: AgentState, k: int)
    requires k in s.ongoing && s.ongoing[k].CancelAck?
  {
    var f := s.ongoing[k].forId;
    && 1 <= f < k
    && f in s.calls && s.calls[f].Cancelled?
    && 1 <= k <= |s.written| && s.written[k - 1] == Outbound(k, "cancelRequest", [JNum(f)])
  }

  lemma InitialInv()
    ensures Inv(Initial)
  {
  }

  /** A caller whose continuation is no longer suspended keeps its outcome. */
  ghost predicate Settled(s: AgentState, t: AgentState)
  {
    forall k :: k in s.calls && !s.calls[k].Suspended? ==> k in t.calls && t.calls[k] == s.calls[k]
  }

  /** `request(func, args)`: take the current id, register the caller's
      callback under it and write one line. */
  function Issue(s: AgentState, func: string, args: seq<Value>): (t: AgentState)
    ensures t.requestId == s.requestId + 1
    ensures t.written == s.written + [Outbound(s.requestId, func, args)]
    ensures t.ongoing.Keys == s.ongoing.Keys + {s.requestId} && t.ongoing[s.requestId] == Caller
    ensures forall k :: k in s.ongoing && k != s.requestId ==> t.ongoing[k] == s.ongoing[k]
    ensures t.calls == s.calls[s.requestId := Suspended]
    ensures t.status == s.status && t.authRequired == s.authRequired
    ensures Inv(s) ==> s.requestId !in s.ongoing && s.requestId !in s.calls
    ensures Inv(s) ==> Inv(t) && Settled(s, t)
  {
    var id := s.requestId;
    s.(requestId := id + 1,
       ongoing := s.ongoing[id := Caller],
       calls := s.calls[id := Suspended],
       written := s.written + [Outbound(id, func, args)])
  }

  /** The cancellation handler of request `id`, modelled for a caller that is
      cancelled while still suspended (for any other caller nothing happens
      here). It takes a fresh id, registers a log-only callback under it and
      writes one cancelRequest line naming `id`. The entry of `id` itself
      stays in the table. */
  function Cancel(s: AgentState, id: int): (t: AgentState)
    ensures !(id in s.calls && s.calls[id].Suspended?) ==> t == s
    ensures id in s.calls && s.calls[id].Suspended? ==>
      && t.requestId == s.requestId + 1
      && t.written == s.written + [Outbound(s.requestId, "cancelRequest", [JNum(id)])]
      && t.ongoing.Keys == s.ongoing.Keys + {s.requestId}
      && t.ongoing[s.requestId] == CancelAck(id)
      && (forall k :: k in s.ongoing && k != s.requestId ==> t.ongoing[k] == s.ongoing[k])
      && t.calls == s.calls[id := Cancelled]
    ensures t.status == s.status && t.authRequired == s.authRequired
    ensures Inv(s) ==> Inv(t) && Settled(s, t)
    ensures Inv(s) ==> t.ongoing.Keys >= s.ongoing.Keys
  {
    if id in s.calls && s.calls[id].Suspended? then
      var c := s.requestId;
      s.(requestId := c + 1,
         ongoing := s.ongoing[c := CancelAck(id)],
         calls := s.calls[id := Cancelled],
         written := s.written + [Outbound(c, "cancelRequest", [JNum(id)])])
    else
      s
  }

  /** Running the callback stored for `id`: a caller's callback resumes its
      continuation, which the runtime ignores once it was cancelled; a cancel
      acknowledgement's callback only logs. */
  function Invoke(s: AgentState, id: int, entry: Pending, payload: Value): (t: AgentState)
    ensures entry.CancelAck? ==> t == s
    ensures t == s.(calls := t.calls)
    ensures t.calls.Keys == s.calls.Keys
    ensures forall k :: k in s.calls && k != id ==> t.calls[k] == s.calls[k]
    ensures id in s.calls ==> t.calls[id] == s.calls[id] || (s.calls[id] == Suspended && t.calls[id] == Resumed(payload))
    ensures entry == Caller && id in s.calls && s.calls[id].Suspended? ==> t.calls[id] == Resumed(payload)
  {
    match entry
    case Caller =>
      if id in s.calls && s.calls[id].Suspended? then s.(calls := s.calls[id := Resumed(payload)]) else s
    case CancelAck(_) => s
  }

  /** A response frame with a nonzero id: run the callback pending under `id`,
      if any, then drop `id` from the table. */
  function Respond(s: AgentState, id: int, payload: Value): (t: AgentState)
    ensures id !in s.ongoing ==> t == s
    ensures t.ongoing == s.ongoing - {id}
    ensures t.calls.Keys == s.calls.Keys
    ensures forall k :: k in s.calls && k != id ==> t.calls[k] == s.calls[k]
    ensures id in s.calls ==>
      t.calls[id] == (if id in s.ongoing && s.ongoing[id] == Caller && s.calls[id].Suspended?
                      then Resumed(payload) else s.calls[id])
    ensures t.requestId == s.requestId && t.written == s.written
    ensures t.status == s.status && t.authRequired == s.authRequired
  {
    var t := if id in s.ongoing then Invoke(s, id, s.ongoing[id], payload) else s;
    t.(ongoing := t.ongoing - {id})
  }

  /** A notification (id 0 with an object payload). Only "statusChanged"
      writes the status; "authRequired" emits one signal; "configUpdated" and
      any other event name are only logged. */
  function Notify(s: AgentState, event: map<string, Value>): (t: AgentState)
    ensures t == s.(status := t.status, authRequired := t.authRequired)
    ensures Get(event, "event") == Some(JStr("statusChanged")) ==> t.status == StatusOf(Get(event, "status"))
    ensures Get(event, "event") != Some(JStr("statusChanged")) ==> t.status == s.status
    ensures t.authRequired == s.authRequired + (if Get(event, "event") == Some(JStr("authRequired")) then 1 else 0)
  {
    var name := Get(event, "event");
    if name == Some(JStr("statusChanged")) then
      s.(status := StatusOf(Get(event, "status")))
    else if name == Some(JStr("authRequired")) then
      s.(authRequired := s.authRequired + 1)
    else
      s
  }

  /** Dispatch of one classified frame. */
  function Receive(s: AgentState, f: Frame): (t: AgentState)
    ensures f.Malformed? ==> t == s
    ensures f.Pair? && f.id == 0 && !f.payload.JObj? ==> t == s
    ensures f.Pair? && f.id == 0 ==> t.ongoing == s.ongoing && t.calls == s.calls
    ensures f.Pair? && f.id != 0 ==> t.status == s.status && t.authRequired == s.authRequired
    ensures t.requestId == s.requestId && t.written == s.written
    ensures SubMap(t.ongoing, s.ongoing) && t.calls.Keys == s.calls.Keys
    ensures Inv(s) ==> Inv(t) && Settled(s, t)
  {
    match f
    case Malformed => s
    case Pair(id, payload) =>
      if id == 0 then
        if payload.JObj? then Notify(s, payload.fields) else s
      else
        Respond(s, id, payload)
  }

  /** `small` keeps some of the entries of `big`, each unchanged. */
  ghost predicate SubMap(small: map<int, Pending>, big: map<int, Pending>)
  {
    forall k :: k in small ==> k in big && small[k] == big[k]
  }

  /** Dispatch of complete lines in arrival order, each decoded by `parse`.
      Inbound lines never allocate an id or write a line, never add a pending
      entry or change a kept one, and never add or drop a caller. */
  function ReceiveLines(s: AgentState, lines: seq<string>, parse: string -> Option<Value>): (t: AgentState)
    ensures t.requestId == s.requestId && t.written == s.written
    ensures SubMap(t.ongoing, s.ongoing) && t.calls.Keys == s.calls.Keys
  {
    if lines == [] then s
    else Receive(ReceiveLines(s, lines[..|lines| - 1], parse), Classify(parse(lines[|lines| - 1])))
  }

  lemma {:induction false} ReceiveLinesInv(s: AgentState, lines: seq<string>, parse: string -> Option<Value>)
    ensures Inv(s) ==> Inv(ReceiveLines(s, lines, parse)) && Settled(s, ReceiveLines(s, lines, parse))
  {
    if lines != [] {
      ReceiveLinesInv(s, lines[..|lines| - 1], parse);
    }
  }

  lemma {:induction false} ReceiveLinesAppend(s: AgentState, a: seq<string>, b: seq<string>, parse: string -> Option<Value>)
    ensures ReceiveLines(s, a + b, parse) == ReceiveLines(ReceiveLines(s, a, parse), b, parse)
  {
    if b == [] {
      assert a + b == a;
    } else {
      assert (a + b)[..|a + b| - 1] == a + b[..|b| - 1];
      ReceiveLinesAppend(s, a, b[..|b| - 1], parse);
    }
  }

  /** A stdout chunk: frame it against the partial line, dispatch the complete
      lines, keep the new partial line. The new partial line is the tail of
      the stream after its last newline; a stream with no newline dispatches
      nothing and only grows the partial line. */
  function Ingest(s: AgentState, buffer: string, text: string, parse: string -> Option<Value>): (r: (AgentState, string))
    ensures NoNewline(r.1)
    ensures |r.1| <= |buffer + text| && r.1 == (buffer + text)[|buffer + text| - |r.1|..]
    ensures NoNewline(buffer + text) ==> r == (s, buffer + text)
    ensures Inv(s) ==> Inv(r.0)
  {
    var (lines, rest) := Feed(buffer, text);
    FeedTail(buffer, text);
    ReceiveLinesInv(s, lines, parse);
    (ReceiveLines(s, lines, parse), rest)
  }

  /** How the stream is chunked does not change what the agent does with it. */
  lemma ChunkingInvisible(s: AgentState, buffer: string, x: string, y: string, parse: string -> Option<Value>)
    ensures Ingest(Ingest(s, buffer, x, parse).0, Ingest(s, buffer, x, parse).1, y, parse)
            == Ingest(s, buffer, x + y, parse)
  {
    FeedConcat(buffer, x, y);
    ReceiveLinesAppend(s, Feed(buffer, x).0, Feed(Feed(buffer, x).1, y).0, parse);
  }

  /** A suspended caller is resumed by the first response under its id, with
      that response's payload; any later response under the same id changes
      nothing. */
  lemma ResolvedAtMostOnce(s: AgentState, id: int, p: Value, q: Value)
    requires Inv(s) && id in s.calls && s.calls[id].Suspended?
    ensures Receive(s, Pair(id, p)).calls[id] == Resumed(p)
    ensures Receive(Receive(s, Pair(id, p)), Pair(id, q)) == Receive(s, Pair(id, p))
  {
  }

  /** Two suspended callers answered in either order each get their own payload. */
  lemma ResponsesInAnyOrder(s: AgentState, a: int, pa: Value, b: int, pb: Value)
    requires Inv(s) && a != b
    requires a in s.calls && s.calls[a].Suspended? && b in s.calls && s.calls[b].Suspended?
    ensures Receive(Receive(s, Pair(a, pa)), Pair(b, pb)) == Receive(Receive(s, Pair(b, pb)), Pair(a, pa))
    ensures Receive(Receive(s, Pair(a, pa)), Pair(b, pb)).calls[a] == Resumed(pa)
    ensures Receive(Receive(s, Pair(a, pa)), Pair(b, pb)).calls[b] == Resumed(pb)
  {
    assert a != 0 && b != 0;
    var sa := Respond(s, a, pa);
    var sb := Respond(s, b, pb);
    assert sa.calls == s.calls[a := Resumed(pa)];
    assert sb.calls == s.calls[b := Resumed(pb)];
    var ab := Respond(sa, b, pb);
    var ba := Respond(sb, a, pa);
    assert ab.calls == s.calls[a := Resumed(pa)][b := Resumed(pb)];
    assert ba.calls == s.calls[a := Resumed(pa)][b := Resumed(pb)];
    assert ab.ongoing == s.ongoing - {a, b} == ba.ongoing;
  }

  /** After a cancellation, a late response under the cancelled id reaches
      the leftover entry, leaves the caller cancelled and removes the entry;
      the cancel acknowledgement stays pending. */
  lemma LateResponseAfterCancel(s: AgentState, id: int, p: Value)
    requires Inv(s) && id in s.calls && s.calls[id].Suspended?
    ensures id in Cancel(s, id).ongoing
    ensures Receive(Cancel(s, id), Pair(id, p)).calls[id] == Cancelled
    ensures id !in Receive(Cancel(s, id), Pair(id, p)).ongoing
    ensures Receive(Cancel(s, id), Pair(id, p)).ongoing[s.requestId] == CancelAck(id)
  {
  }
}
