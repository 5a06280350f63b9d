// The action batcher of src/action.rs: an `ActionService` collects the
// actions and debug commands bots send between game steps and, on each step,
// flushes both batches to the game instance as two requests, actions first.
// The channels become the `Dispatch` and `Serve` calls; the protocol client
// becomes a `ProtoClient` that logs every request and may fail it.
module Action {
  import opened Lobes

  /** A unit command of a bot. Its fields (src/data) are not part of this
      model; only its identity and position in the batch matter here. */
  datatype Action = Action(command: nat)

  /** A debug drawing or cheat command; its fields are not part of this model. */
  datatype DebugCommand = DebugCommand(command: nat)

  /** The two requests the service sends to the game: an action request
      carrying a list of actions, a debug request carrying a list of commands. */
  datatype ApiRequest = ActionRequest(actions: seq<Action>) | DebugRequest(commands: seq<DebugCommand>)

  /** What the service receives: a step from the control client, or one
      action or debug command from a bot. `waiting` tells whether the sender
      still waits for the acknowledgement (its one-shot receiver is alive). */
  datatype ServiceRequest =
    | Step(waiting: bool)
    | SendAction(action: Action, waiting: bool)
    | SendDebug(command: DebugCommand, waiting: bool)

  /** The acknowledgements the service sends back, one per handled request. */
  datatype Ack = StepAck | ActionAck | DebugAck

  /** The actions carried by the action requests among `sent`, in order. */
  function SentActions(sent: seq<ApiRequest>): seq<Action>
  {
    if sent == [] then []
    else (if sent[0].ActionRequest? then sent[0].actions else []) + SentActions(sent[1..])
  }

  /** The commands carried by the debug requests among `sent`, in order. */
  function SentCommands(sent: seq<ApiRequest>): seq<DebugCommand>
  {
    if sent == [] then []
    else (if sent[0].DebugRequest? then sent[0].commands else []) + SentCommands(sent[1..])
  }

  lemma {:induction false} SentAppend(a: seq<ApiRequest>, b: seq<ApiRequest>)
    ensures SentActions(a + b) == SentActions(a) + SentActions(b)
    ensures SentCommands(a + b) == SentCommands(a) + SentCommands(b)
  {
    if a == [] {
      assert a + b == b;
    } else {
      assert (a + b)[0] == a[0];
      assert (a + b)[1..] == a[1..] + b;
      SentAppend(a[1..], b);
    }
  }

  /** The actions bots send among `reqs`, in order. */
  function Enqueued(reqs: seq<ServiceRequest>): seq<Action>
  {
    if reqs == [] then []
    else (if reqs[0].SendAction? then [reqs[0].action] else []) + Enqueued(reqs[1..])
  }

  /** The debug commands bots send among `reqs`, in order. */
  function EnqueuedCommands(reqs: seq<ServiceRequest>): seq<DebugCommand>
  {
    if reqs == [] then []
    else (if reqs[0].SendDebug? then [reqs[0].command] else []) + EnqueuedCommands(reqs[1..])
  }

  lemma {:induction false} EnqueuedAppend(a: seq<ServiceRequest>, b: seq<ServiceRequest>)
    ensures Enqueued(a + b) == Enqueued(a) + Enqueued(b)
    ensures EnqueuedCommands(a + b) == EnqueuedCommands(a) + EnqueuedCommands(b)
  {
    if a == [] {
      assert a + b == b;
    } else {
      assert (a + b)[0] == a[0];
      assert (a + b)[1..] == a[1..] + b;
      EnqueuedAppend(a[1..], b);
    }
  }

  /** The protocol client: every request it is given is transmitted (and
      logged here); whether the game answers it successfully is outside the
      service's control. */
  class ProtoClient {
    var sent: seq<ApiRequest>

    constructor()
      ensures sent == []
    {
      sent := [];
    }

    /** `ProtoClient::request`: transmit `req`; `ok` reports success. */
    method Request(req: ApiRequest) returns (ok: bool)
      modifies this
      ensures sent == old(sent) + [req]
    {
      sent := sent + [req];
      ok := *;
    }
  }

  class ActionService {
    const client: ProtoClient
    var actionBatch: seq<Action>
    var debugBatch: seq<DebugCommand>
    var acks: seq<Ack>

    /** `ActionService::new`: both batches start empty. */
    constructor(client: ProtoClient)
      ensures this.client == client
      ensures actionBatch == [] && debugBatch == [] && acks == []
    {
      this.client := client;
      actionBatch := [];
      debugBatch := [];
      acks := [];
    }

    /** Every action ever received is either in a request sent to the game or
        still batched, in the order received; likewise for debug commands. */
    ghost predicate Conserves(actions: seq<Action>, commands: seq<DebugCommand>)
      reads this, client
    {
      SentActions(client.sent) + actionBatch == actions
      && SentCommands(client.sent) + debugBatch == commands
    }

    /** The action request `send_actions` builds: every batched action, in
        batch order. */
    method BuildActionRequest() returns (req: ApiRequest)
      ensures req.ActionRequest? && req.actions == actionBatch
    {
      var actions: seq<Action> := [];
      for i := 0 to |actionBatch|
        invariant actions == actionBatch[..i]
      {
        actions := actions + [actionBatch[i]];
      }
      assert actionBatch[..|actionBatch|] == actionBatch;
      req := ActionRequest(actions);
    }

    /** The debug request `send_debug` builds: every batched command, in
        batch order. */
    method BuildDebugRequest() returns (req: ApiRequest)
      ensures req.DebugRequest? && req.commands == debugBatch
    {
      var commands: seq<DebugCommand> := [];
      for i := 0 to |debugBatch|
        invariant commands == debugBatch[..i]
      {
        commands := commands + [debugBatch[i]];
      }
      assert debugBatch[..|debugBatch|] == debugBatch;
      req := DebugRequest(commands);
    }

    /** `send_actions`: send one request with the whole action batch, even an
        empty one, and empty the batch only if the request succeeded. */
    method SendActions() returns (ok: bool)
      modifies this, client
      ensures client.sent == old(client.sent) + [ActionRequest(old(actionBatch))]
      ensures actionBatch == (if ok then [] else old(actionBatch))
      ensures debugBatch == old(debugBatch) && acks == old(acks)
    {
      var req := BuildActionRequest();
      ok := client.Request(req);
      if ok {
        actionBatch := [];
      }
    }

    /** `send_debug`: send one request with the whole debug batch, even an
        empty one, and empty the batch only if the request succeeded. */
    method SendDebugBatch() returns (ok: bool)
      modifies this, client
      ensures client.sent == old(client.sent) + [DebugRequest(old(debugBatch))]
      ensures debugBatch == (if ok then [] else old(debugBatch))
      ensures actionBatch == old(actionBatch) && acks == old(acks)
    {
      var req := BuildDebugRequest();
      ok := client.Request(req);
      if ok {
        debugBatch := [];
      }
    }

    /** A step (`ActionControlRequest::Step`): flush actions, then debug
        commands, then acknowledge. It ends in one of three ways: the action
        flush fails and nothing else is sent; the debug flush fails after the
        action batch was emptied; or both succeed, both batches are empty and
        the step is acknowledged, which is an error when the requester no
        longer waits. Only a failed flush leaves a batch in place. */
    method OnStep(waiting: bool) returns (r: Result<()>)
      modifies this, client
      ensures || (&& client.sent == old(client.sent) + [ActionRequest(old(actionBatch))]
                  && r == Err(RequestFailed)
                  && actionBatch == old(actionBatch) && debugBatch == old(debugBatch) && acks == old(acks))
              || (&& client.sent == old(client.sent) + [ActionRequest(old(actionBatch)), DebugRequest(old(debugBatch))]
                  && r == Err(RequestFailed)
                  && actionBatch == [] && debugBatch == old(debugBatch) && acks == old(acks))
              || (&& client.sent == old(client.sent) + [ActionRequest(old(actionBatch)), DebugRequest(old(debugBatch))]
                  && r == (if waiting then Ok(()) else Err(Bail("unable to ack step")))
                  && actionBatch == [] && debugBatch == []
                  && acks == old(acks) + (if waiting then [StepAck] else []))
      ensures r.Ok? ==> SentActions(client.sent) + actionBatch == SentActions(old(client.sent)) + old(actionBatch)
      ensures r.Ok? ==> SentCommands(client.sent) + debugBatch == SentCommands(old(client.sent)) + old(debugBatch)
    {
      var ok := SendActions();
      if !ok {
        return Err(RequestFailed);
      }
      ok := SendDebugBatch();
      if !ok {
        return Err(RequestFailed);
      }
      ghost var flushed := [ActionRequest(old(actionBatch)), DebugRequest(old(debugBatch))];
      SentAppend(old(client.sent), flushed);
      assert flushed[1..] == [DebugRequest(old(debugBatch))] && flushed[1..][1..] == [];
      assert SentActions(flushed[1..][1..]) == [] && SentCommands(flushed[1..][1..]) == [];
      assert SentActions(flushed[1..]) == [] + [];
      assert SentCommands(flushed[1..]) == old(debugBatch) + [];
      assert SentActions(flushed) == old(actionBatch) + SentActions(flushed[1..]);
      assert SentCommands(flushed) == [] + SentCommands(flushed[1..]);
      if !waiting {
        return Err(Bail("unable to ack step"));
      }
      acks := acks + [StepAck];
      r := Ok(());
    }

    /** `ActionRequest::SendAction`: append the action to the end of the
        action batch, leave the debug batch alone, then acknowledge. */
    method OnSendAction(action: Action, waiting: bool) returns (r: Result<()>)
      modifies this
      ensures actionBatch == old(actionBatch) + [action] && debugBatch == old(debugBatch)
      ensures r == (if waiting then Ok(()) else Err(Bail("unable to ack send command")))
      ensures acks == old(acks) + (if waiting then [ActionAck] else [])
    {
      actionBatch := actionBatch + [action];
      if !waiting {
        return Err(Bail("unable to ack send command"));
      }
      acks := acks + [ActionAck];
      r := Ok(());
    }

    /** `ActionRequest::SendDebug`: append the command to the end of the
        debug batch, leave the action batch alone, then acknowledge. */
    method OnSendDebug(command: DebugCommand, waiting: bool) returns (r: Result<()>)
      modifies this
      ensures debugBatch == old(debugBatch) + [command] && actionBatch == old(actionBatch)
      ensures r == (if waiting then Ok(()) else Err(Bail("unable to ack send debug")))
      ensures acks == old(acks) + (if waiting then [DebugAck] else [])
    {
      debugBatch := debugBatch + [command];
      if !waiting {
        return Err(Bail("unable to ack send debug"));
      }
      acks := acks + [DebugAck];
      r := Ok(());
    }

    /** One turn of the service loop in `run`. A request that succeeds loses
        nothing: what was sent plus what is batched grows by exactly what the
        request carried, and the request is acknowledged. */
    method Dispatch(req: ServiceRequest) returns (r: Result<()>)
      modifies this, client
      ensures r.Ok? ==> SentActions(client.sent) + actionBatch
                        == SentActions(old(client.sent)) + old(actionBatch) + Enqueued([req])
      ensures r.Ok? ==> SentCommands(client.sent) + debugBatch
                        == SentCommands(old(client.sent)) + old(debugBatch) + EnqueuedCommands([req])
      ensures r.Ok? ==> |acks| == |old(acks)| + 1
    {
      assert [req][1..] == [];
      match req
      case Step(waiting) =>
        r := OnStep(waiting);
      case SendAction(action, waiting) =>
        r := OnSendAction(action, waiting);
      case SendDebug(command, waiting) =>
        r := OnSendDebug(command, waiting);
    }

    /** `run`: handle requests in arrival order until one fails. When all
        succeed, no action or command is lost, duplicated or reordered: what
        was sent to the game followed by what is still batched is what was
        batched at the start followed by what the bots sent. Every request
        was acknowledged. */
    method Serve(reqs: seq<ServiceRequest>) returns (r: Result<()>)
      modifies this, client
      ensures r.Ok? ==> SentActions(client.sent) + actionBatch
                        == SentActions(old(client.sent)) + old(actionBatch) + Enqueued(reqs)
      ensures r.Ok? ==> SentCommands(client.sent) + debugBatch
                        == SentCommands(old(client.sent)) + old(debugBatch) + EnqueuedCommands(reqs)
      ensures r.Ok? ==> |acks| == |old(acks)| + |reqs|
    {
      ghost var actions0 := SentActions(client.sent) + actionBatch;
      ghost var commands0 := SentCommands(client.sent) + debugBatch;
      for i := 0 to |reqs|
        invariant Conserves(actions0 + Enqueued(reqs[..i]), commands0 + EnqueuedCommands(reqs[..i]))
        invariant |acks| == |old(acks)| + i
      {
        r := Dispatch(reqs[i]);
        if r.Err? {
          return;
        }
        assert reqs[..i + 1] == reqs[..i] + [reqs[i]];
        EnqueuedAppend(reqs[..i], [reqs[i]]);
      }
      assert reqs[..|reqs|] == reqs;
      r := Ok(());
    }
  }
}
