/** The `Agent` object: the fields the transport updates in place, and the
    methods that update them. */
module Client {
  import opened Json
  import opened Framing
  import opened Protocol

  /** Which stream of the child process a chunk of text came from. */
  datatype OutputType = Stdout | Stderr | System

  class Agent {
    var status: Status
    var authRequiredEvents: nat
    var requestId: int
    var ongoingRequest: map<int, Pending>
    var calls: map<int, Continuation>
    var written: seq<Outbound>
    var outputBuffer: string

    /** The transport state held in the fields (all but the partial line). */
    function State(): AgentState
      reads this
    {
      AgentState(requestId, ongoingRequest, calls, written, status, authRequiredEvents)
    }

    ghost predicate Valid()
      reads this
    {
      Inv(State()) && NoNewline(outputBuffer)
    }

    constructor ()
      ensures Valid()
      ensures State() == Initial && outputBuffer == ""
    {
      status := NotInitialized;
      authRequiredEvents := 0;
      requestId := 1;
      ongoingRequest := map[];
      calls := map[];
      written := [];
      outputBuffer := "";
      InitialInv();
    }

    /** Sends `func(args)` and returns the id the caller waits under. */
    method Request(func: string, args: seq<Value>) returns (id: int)
      requires Valid()
      modifies this
      ensures Valid()
      ensures id == old(requestId) && id !in old(ongoingRequest) && id !in old(calls)
      ensures forall i :: 0 <= i < |old(written)| ==> old(written)[i].id < id
      ensures State() == Issue(old(State()), func, args)
      ensures outputBuffer == old(outputBuffer)
    {
      id := requestId;
      requestId := requestId + 1;
      ongoingRequest := ongoingRequest[id := Caller];
      calls := calls[id := Suspended];
      written := written + [Outbound(id, func, args)];
    }

    /** The cancellation handler registered by the request with id `id`. */
    method OnCancellation(id: int)
      requires Valid()
      modifies this
      ensures Valid()
      ensures State() == Cancel(old(State()), id)
      ensures outputBuffer == old(outputBuffer)
    {
      if id in calls && calls[id].Suspended? {
        calls := calls[id := Cancelled];
        var cancellationId := requestId;
        requestId := requestId + 1;
        ongoingRequest := ongoingRequest[cancellationId := CancelAck(id)];
        written := written + [Outbound(cancellationId, "cancelRequest", [JNum(id)])];
      }
    }

    /** A notification payload. */
    method HandleNotification(event: map<string, Value>)
      requires Valid()
      modifies this
      ensures Valid()
      ensures State() == Notify(old(State()), event)
      ensures outputBuffer == old(outputBuffer)
    {
      var name := Get(event, "event");
      if name == Some(JStr("statusChanged")) {
        status := StatusOf(Get(event, "status"));
      } else if name == Some(JStr("configUpdated")) {
        // logged only
      } else if name == Some(JStr("authRequired")) {
        authRequiredEvents := authRequiredEvents + 1;
      } else {
        // unknown event name: logged only
      }
    }

    /** One complete stdout line, decoded by `parse`. */
    method HandleOutput(output: string, parse: string -> Option<Value>)
      requires Valid()
      modifies this
      ensures Valid()
      ensures State() == Receive(old(State()), Classify(parse(output)))
      ensures outputBuffer == old(outputBuffer)
    {
      var data := parse(output);
      if data.None? || !data.value.JArr? {
        return;
      }
      var items := data.value.items;
      if |items| != 2 || !items[0].JNum? {
        return;
      }
      var id := items[0].n;
      if id == 0 {
        if items[1].JObj? {
          HandleNotification(items[1].fields);
        }
      } else {
        if id in ongoingRequest {
          var entry := ongoingRequest[id];
          if entry == Caller && id in calls && calls[id].Suspended? {
            calls := calls[id := Resumed(items[1])];
          }
        }
        ongoingRequest := ongoingRequest - {id};
        assert State() == Respond(old(State()), id, items[1]);
      }
    }

    /** A chunk of the child's output. Only stdout is framed: the complete
        lines it finishes are dispatched in order and the trailing fragment
        becomes the new partial line. `dispatched` names the lines handled. */
    method OnTextAvailable(text: string, outputType: OutputType, parse: string -> Option<Value>)
      returns (ghost dispatched: seq<string>)
      requires Valid()
      modifies this
      ensures Valid()
      ensures outputType != Stdout ==> dispatched == [] && State() == old(State()) && outputBuffer == old(outputBuffer)
      ensures outputType == Stdout ==>
        && Join(dispatched + [outputBuffer]) == old(outputBuffer) + text
        && AllNoNewline(dispatched)
        && State() == ReceiveLines(old(State()), dispatched, parse)
        && (State(), outputBuffer) == Ingest(old(State()), old(outputBuffer), text, parse)
    {
      dispatched := [];
      if outputType != Stdout {
        return;
      }
      var lines := Split(outputBuffer + text);
      var i := 0;
      while i < |lines| - 1
        invariant 0 <= i <= |lines| - 1
        invariant Valid() && outputBuffer == old(outputBuffer)
        invariant State() == ReceiveLines(old(State()), lines[..i], parse)
      {
        HandleOutput(lines[i], parse);
        assert lines[..i + 1][..i] == lines[..i];
        i := i + 1;
      }
      dispatched := lines[..|lines| - 1];
      assert lines[..i] == dispatched;
      assert dispatched + [lines[|lines| - 1]] == lines;
      ghost var s0 := old(State());
      ghost var before := old(outputBuffer);
      assert Feed(before, text) == (dispatched, lines[|lines| - 1]);
      outputBuffer := lines[|lines| - 1];
      assert State() == ReceiveLines(s0, dispatched, parse);
    }
  }
}
