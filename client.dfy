// The connection state machine of src/client.rs: one `ClientLobe` per game
// instance, with phases Init -> AwaitInstance -> Connect -> Open -> Disconnect.
// Each phase consumes its old value and yields the next `ClientLobe`; the
// transport (WebSocket, timers, channels, protobuf) is reduced to the events
// it delivers back to the lobe and the tasks the lobe spawns.
module Client {
  import opened Lobes

  /** Connect attempts granted each time an instance is assigned. */
  const NumRetries: nat := 10

  /** Seconds a request may take when the caller gives no timeout. */
  const DefaultTimeout: nat := 5

  // ---------------------------------------------------------------------------
  // Request and response kinds

  /** Position of a kind in the priority order both classifiers test fields in;
      `Unknown` comes before all of them and names no field. */
  function Rank(k: ClientMessageKind): nat
  {
    match k
    case Unknown => 0
    case CreateGame => 1
    case JoinGame => 2
    case RestartGame => 3
    case StartReplay => 4
    case LeaveGame => 5
    case QuickSave => 6
    case QuickLoad => 7
    case Quit => 8
    case GameInfo => 9
    case Observation => 10
    case Action => 11
    case Step => 12
    case Data => 13
    case Query => 14
    case SaveReplay => 15
    case ReplayInfo => 16
    case AvailableMaps => 17
    case SaveMap => 18
    case Ping => 19
    case Debug => 20
  }

  /** The classifier both `get_kind`s share: the populated field that comes
      first in priority order, or `Unknown` when none is. */
  function FieldsKind(has: set<ClientMessageKind>): (k: ClientMessageKind)
    ensures k == Unknown <==> forall f :: f in has ==> f == Unknown
    ensures k != Unknown ==> k in has
    ensures forall f :: f in has && f != Unknown ==> Rank(k) <= Rank(f)
  {
    if ClientMessageKind.CreateGame in has then ClientMessageKind.CreateGame
    else if JoinGame in has then JoinGame
    else if RestartGame in has then RestartGame
    else if StartReplay in has then StartReplay
    else if LeaveGame in has then LeaveGame
    else if QuickSave in has then QuickSave
    else if QuickLoad in has then QuickLoad
    else if Quit in has then Quit
    else if GameInfo in has then GameInfo
    else if Observation in has then Observation
    else if Action in has then Action
    else if Step in has then Step
    else if Data in has then Data
    else if Query in has then Query
    else if SaveReplay in has then SaveReplay
    else if ReplayInfo in has then ReplayInfo
    else if AvailableMaps in has then AvailableMaps
    else if SaveMap in has then SaveMap
    else if Ping in has then Ping
    else if Debug in has then Debug
    else OnlyUnknownLeft(has); Unknown
  }

  /** The kind of a request envelope (`ClientRequest::get_kind`). */
  function RequestKind(req: Request): (k: ClientMessageKind)
    ensures k == Unknown <==> forall f :: f in req.fields ==> f == Unknown
    ensures k != Unknown ==> k in req.fields
    ensures forall f :: f in req.fields && f != Unknown ==> Rank(k) <= Rank(f)
  {
    FieldsKind(req.fields)
  }

  /** The kind of a response envelope (`ClientResponse::get_kind`), tested in
      the same order as requests; the errors play no part. */
  function ResponseKind(rsp: Response): (k: ClientMessageKind)
    ensures k == Unknown <==> forall f :: f in rsp.fields ==> f == Unknown
    ensures k != Unknown ==> k in rsp.fields
    ensures forall f :: f in rsp.fields && f != Unknown ==> Rank(k) <= Rank(f)
  {
    FieldsKind(rsp.fields)
  }

  /** A set of kinds holding none of the twenty field kinds holds at most `Unknown`. */
  lemma OnlyUnknownLeft(has: set<ClientMessageKind>)
    requires forall k :: k in has && k != Unknown ==> Rank(k) == 0
    ensures forall f :: f in has ==> f == Unknown
  {
  }

  /** No two kinds share a rank, so "the populated field of least rank" names one field. */
  lemma RankInjective(a: ClientMessageKind, b: ClientMessageKind)
    requires Rank(a) == Rank(b)
    ensures a == b
  {
  }

  /** A request and a response with the same populated fields have the same
      kind, whatever errors the response carries. */
  lemma KindsAgree(fields: set<ClientMessageKind>, errors: seq<string>)
    ensures RequestKind(Request(fields)) == ResponseKind(Response(fields, errors))
  {
  }

  // ---------------------------------------------------------------------------
  // Requests, responses and the requester's side (`Transactor`)

  /** `ClientRequest::with_timeout`: a request under a fresh transaction id
      (`Uuid::new_v4` in the source, a parameter here). */
  function WithTimeout(id: TransactionId, request: Request, timeout: nat): (r: ClientRequest)
    ensures r.transaction == id && r.request == request && r.timeout == timeout
    ensures r.kind == RequestKind(request)
  {
    ClientRequest.ClientRequest(id, request, timeout, RequestKind(request))
  }

  /** `ClientRequest::new`: a request with the default timeout. */
  function NewRequest(id: TransactionId, request: Request): (r: ClientRequest)
    ensures r.timeout == DefaultTimeout && r.transaction == id && r.kind == RequestKind(request)
  {
    WithTimeout(id, request, DefaultTimeout)
  }

  /** `ClientResponse::new`: a response labelled with a transaction id. */
  function NewResponse(id: TransactionId, response: Response): (r: ClientResponse)
    ensures r.transaction == id && r.response == response && r.kind == ResponseKind(response)
  {
    ClientResponse.ClientResponse(id, response, ResponseKind(response))
  }

  /** What a requester remembers of a request it sent. */
  datatype Transactor = Transactor(client: Handle, transaction: TransactionId, kind: ClientMessageKind)

  /** `Transactor::send`: send a request to the connection lobe `client` and
      remember its id and kind. */
  function SendRequest(client: Handle, req: ClientRequest): (r: (Transactor, Effect))
    ensures r.0 == Transactor(client, req.transaction, req.kind)
    ensures r.1 == Send(client, Message.ClientRequest(req))
  {
    (Transactor(client, req.transaction, req.kind), Send(client, Message.ClientRequest(req)))
  }

  /** `Transactor::expect`: accept a response only from the connection lobe,
      for the same transaction and kind, and without game errors. */
  function Expect(t: Transactor, src: Handle, rsp: ClientResponse): (r: Result<ClientResponse>)
    ensures r.Ok? <==> src == t.client && rsp.transaction == t.transaction
                       && rsp.kind == t.kind && |rsp.response.errors| == 0
    ensures r.Ok? ==> r.value == rsp
    ensures src != t.client ==> r == Err(Bail("unexpected source for client response"))
    ensures src == t.client && rsp.transaction != t.transaction ==> r == Err(Bail("transaction id mismatch"))
    ensures (src == t.client && rsp.transaction == t.transaction && rsp.kind != t.kind)
            ==> r == Err(KindMismatch(t.kind, rsp.kind))
    ensures (src == t.client && rsp.transaction == t.transaction && rsp.kind == t.kind
             && |rsp.response.errors| != 0) ==> r == Err(GameErrors(rsp.response.errors))
  {
    if t.client != src then Err(Bail("unexpected source for client response"))
    else if t.transaction != rsp.transaction then Err(Bail("transaction id mismatch"))
    else if t.kind != rsp.kind then Err(KindMismatch(t.kind, rsp.kind))
    else if |rsp.response.errors| != 0 then Err(GameErrors(rsp.response.errors))
    else Ok(rsp)
  }

  // ---------------------------------------------------------------------------
  // The lobe

  /** The phases of the lobe with the data each keeps: the retry budget while
      connecting, and the pending transaction ids (oldest first) while open. */
  datatype ClientLobe =
    | Init
    | AwaitInstance
    | Connect(retries: nat)
    | Open(transactions: seq<TransactionId>)
    | Disconnect

  /** The lobe's own handle and its two required inputs. */
  datatype ClientPeers = ClientPeers(thisLobe: Handle, client: Handle, provider: Handle)

  type Outcome = Result<(ClientLobe, seq<Effect>)>

  function Unexpected(): Outcome { Err(Bail("unexpected protocol message")) }

  /** `AwaitInstance::reset`: tell the client the connection closed, wait again. */
  function Reset(peers: ClientPeers): (r: Outcome)
    ensures r.Ok? && r.value.0 == AwaitInstance
    ensures SentTo(r.value.1, peers.client) == [ClientClosed]
    ensures forall e :: e in r.value.1 ==> e.Send? && e.to == peers.client
  {
    Ok((AwaitInstance, [Send(peers.client, ClientClosed)]))
  }

  /** `AwaitInstance::reset_error`: forward the error, then the closure, in that order. */
  function ResetError(peers: ClientPeers, e: Error): (r: Outcome)
    ensures r.Ok? && r.value.0 == AwaitInstance
    ensures SentTo(r.value.1, peers.client) == [ClientError(e), ClientClosed]
    ensures forall f :: f in r.value.1 ==> f.Send? && f.to == peers.client
  {
    Ok((AwaitInstance, [Send(peers.client, ClientError(e)), Send(peers.client, ClientClosed)]))
  }

  /** `Connect::connect`: start with the full budget and post the first attempt to itself. */
  function StartConnect(peers: ClientPeers, url: Url): (r: Outcome)
    ensures r.Ok? && r.value.0 == Connect(NumRetries)
    ensures SentTo(r.value.1, peers.thisLobe) == [ClientAttemptConnect(url)]
    ensures forall e :: e in r.value.1 ==> e.Send? && e.to == peers.thisLobe
  {
    Ok((Connect(NumRetries), [Send(peers.thisLobe, ClientAttemptConnect(url))]))
  }

  /** `Connect::attempt_connect`: spend one retry and spawn one delayed connect
      attempt, or fail once the budget is spent. The spawned task later posts
      `ClientConnected` or another `ClientAttemptConnect` back to the lobe. */
  function AttemptConnect(retries: nat, peers: ClientPeers, src: Handle, url: Url): (r: Outcome)
    ensures r.Ok? <==> src == peers.thisLobe && retries > 0
    ensures r.Ok? ==> r.value == (Connect(retries - 1), [SpawnConnect(url)])
    ensures src == peers.thisLobe && retries == 0 ==> r == Err(Bail("unable to connect to instance"))
  {
    if src != peers.thisLobe then Err(AssertionFailed("attempt from another lobe"))
    else if retries == 0 then Err(Bail("unable to connect to instance"))
    else Ok((Connect(retries - 1), [SpawnConnect(url)]))
  }

  /** `Open::open`: tell the client the lobe is ready; no transaction is pending. */
  function OpenConnection(peers: ClientPeers): (r: Outcome)
    ensures r.Ok? && r.value.0 == Open([])
    ensures SentTo(r.value.1, peers.client) == [Ready]
    ensures forall e :: e in r.value.1 ==> e.Send? && e.to == peers.client
  {
    Ok((Open([]), [Send(peers.client, Ready)]))
  }

  /** `Open::send`: queue the request's id at the back and spawn its
      transmission, raced against the request's timeout. */
  function SendTransaction(q: seq<TransactionId>, peers: ClientPeers, src: Handle, req: ClientRequest)
    : (r: Outcome)
    ensures r.Ok? <==> src == peers.client
    ensures r.Ok? ==> r.value.0 == Open(q + [req.transaction])
    ensures r.Ok? ==> r.value.1 == [SpawnTransmit(req.transaction, req.request, req.timeout)]
  {
    if src != peers.client then Err(AssertionFailed("request from another lobe"))
    else Ok((Open(q + [req.transaction]), [SpawnTransmit(req.transaction, req.request, req.timeout)]))
  }

  /** `Open::recv`: a binary frame answers the oldest pending transaction; the
      response goes to the client under that transaction's id. */
  function Receive(q: seq<TransactionId>, peers: ClientPeers, src: Handle, frame: Frame): (r: Outcome)
    ensures r.Ok? <==> src == peers.thisLobe && frame.Binary? && frame.decoded.Some? && |q| > 0
    ensures src == peers.thisLobe && frame.NonBinary? ==> r == Err(Bail("unexpected non-binary message"))
    ensures src == peers.thisLobe && frame.Binary? && frame.decoded.Some? && q == []
            ==> r == Err(Bail("no pending transactions for this response"))
    ensures r.Ok? ==> r.value.0 == Open(q[1..])
    ensures r.Ok? ==> SentTo(r.value.1, peers.client)
                      == [Message.ClientResponse(NewResponse(q[0], frame.decoded.value))]
    ensures r.Ok? ==> CompleteTransaction(q[0]) in r.value.1
  {
    if src != peers.thisLobe then Err(AssertionFailed("frame from another lobe"))
    else match frame
      case NonBinary => Err(Bail("unexpected non-binary message"))
      case Binary(None) => Err(DecodeFailed)
      case Binary(Some(rsp)) =>
        if q == [] then Err(Bail("no pending transactions for this response"))
        else Ok((Open(q[1..]), [CompleteTransaction(q[0]), Send(peers.client, Message.ClientResponse(NewResponse(q[0], rsp)))]))
  }

  /** Index of the first occurrence of `id` in `q` (`Iterator::position`). */
  function Position(q: seq<TransactionId>, id: TransactionId): (r: Option<nat>)
    ensures r.None? <==> id !in q
    ensures r.Some? ==> r.value < |q| && q[r.value] == id && id !in q[..r.value]
  {
    if q == [] then None
    else if q[0] == id then Some(0)
    else match Position(q[1..], id)
      case None => None
      case Some(i) =>
        assert q[1..][..i] == q[1..i + 1];
        Some(i + 1)
  }

  /** `q` without its element at index `i` (`VecDeque::remove`). */
  function RemoveAt(q: seq<TransactionId>, i: nat): (r: seq<TransactionId>)
    requires i < |q|
    ensures |r| == |q| - 1
    ensures forall j :: 0 <= j < i ==> r[j] == q[j]
    ensures forall j :: i <= j < |r| ==> r[j] == q[j + 1]
  {
    q[..i] + q[i + 1..]
  }

  /** `Open::on_timeout`: a timeout for a still-pending transaction removes it
      and tells the client; for a resolved one it does nothing. */
  function OnTimeout(q: seq<TransactionId>, peers: ClientPeers, src: Handle, id: TransactionId)
    : (r: Outcome)
    ensures r.Ok? <==> src == peers.thisLobe
    ensures r.Ok? && id !in q ==> r.value == (Open(q), [])
    ensures r.Ok? && id in q ==> r.value.1 == [Send(peers.client, ClientTimeout(id))]
    ensures r.Ok? ==> r.value.0.Open? && multiset(r.value.0.transactions) + multiset(if id in q then [id] else []) == multiset(q)
  {
    if src != peers.thisLobe then Err(AssertionFailed("timeout from another lobe"))
    else match Position(q, id)
      case None => Ok((Open(q), []))
      case Some(i) =>
        assert q == q[..i] + [id] + q[i + 1..];
        Ok((Open(RemoveAt(q, i)), [Send(peers.client, ClientTimeout(id))]))
  }

  /** The events each phase has a handler for. */
  predicate Handles(lobe: ClientLobe, p: Protocol)
  {
    match lobe
    case Init => p.Start?
    case AwaitInstance => p.Deliver? && p.msg.ProvideInstance?
    case Connect(_) => p.Deliver? && (p.msg.ClientAttemptConnect? || p.msg.ClientConnected?)
    case Open(_) =>
      p.Deliver? && (p.msg.ClientRequest? || p.msg.ClientReceive? || p.msg.ClientTimeout?
                     || p.msg.ClientDisconnect? || p.msg.ClientClosed? || p.msg.ClientError?)
    case Disconnect => p.Deliver? && (p.msg.ClientClosed? || p.msg.ClientError?)
  }

  /** `ClientLobe::update`: dispatch an event on the current phase. */
  function Update(lobe: ClientLobe, peers: ClientPeers, p: Protocol): (r: Outcome)
    // Init goes to AwaitInstance on Start and on nothing else.
    ensures lobe.Init? ==> (r.Ok? <==> p.Start?) && (r.Ok? ==> r.value.0 == AwaitInstance)
    // AwaitInstance goes to Connect, with a full budget, on ProvideInstance from its provider.
    ensures lobe.AwaitInstance? ==>
              (r.Ok? <==> p.Deliver? && p.msg.ProvideInstance? && p.src == peers.provider)
              && (r.Ok? ==> r.value.0 == Connect(NumRetries))
    // Every phase rejects the events it has no handler for.
    ensures !Handles(lobe, p) ==> r.Err? && r.error.Bail?
    // Connect only spends retries or opens: an attempt from itself spends one
    // retry while any remain, and the connection from itself opens with an
    // empty queue and tells the client it is ready.
    ensures lobe.Connect? && r.Ok? ==>
              (lobe.retries > 0 && r.value.0 == Connect(lobe.retries - 1)) || r.value.0 == Open([])
    ensures lobe.Connect? && p.Deliver? && p.msg.ClientAttemptConnect? ==>
              (r.Ok? <==> p.src == peers.thisLobe && lobe.retries > 0)
    ensures lobe.Connect? && p.Deliver? && p.msg.ClientConnected? ==>
              (r.Ok? <==> p.src == peers.thisLobe)
              && (r.Ok? ==> r.value.0 == Open([]) && SentTo(r.value.1, peers.client) == [Ready])
    // Open stays open on requests, frames and timeouts, disconnects on
    // ClientDisconnect, and resets on closure or error.
    ensures lobe.Open? && r.Ok? ==>
              && p.Deliver?
              && (r.value.0.Open? <==> p.msg.ClientRequest? || p.msg.ClientReceive? || p.msg.ClientTimeout?)
              && (r.value.0 == Disconnect <==> p.msg.ClientDisconnect?)
              && (r.value.0 == AwaitInstance <==> p.msg.ClientClosed? || p.msg.ClientError?)
    // Open hands requests, frames and timeouts to their handlers, and accepts
    // ClientDisconnect from any sender, every time.
    ensures lobe.Open? && p.Deliver? && p.msg.ClientRequest? ==>
              r == SendTransaction(lobe.transactions, peers, p.src, p.msg.req)
    ensures lobe.Open? && p.Deliver? && p.msg.ClientReceive? ==>
              r == Receive(lobe.transactions, peers, p.src, p.msg.frame)
    ensures lobe.Open? && p.Deliver? && p.msg.ClientTimeout? ==>
              r == OnTimeout(lobe.transactions, peers, p.src, p.msg.transaction)
    ensures lobe.Open? && p.Deliver? && p.msg.ClientDisconnect? ==> r == Ok((Disconnect, []))
    // A closure (from the lobe itself while open, from anyone once
    // disconnecting) tells the client `ClientClosed`; an error tells it the
    // error and then `ClientClosed`.
    ensures (lobe.Open? || lobe.Disconnect?) && p.Deliver? && p.msg.ClientClosed?
            && (lobe.Disconnect? || p.src == peers.thisLobe) ==>
              r.Ok? && SentTo(r.value.1, peers.client) == [ClientClosed]
    ensures (lobe.Open? || lobe.Disconnect?) && p.Deliver? && p.msg.ClientError?
            && (lobe.Disconnect? || p.src == peers.thisLobe) ==>
              r.Ok? && SentTo(r.value.1, peers.client) == [ClientError(p.msg.error), ClientClosed]
    // Disconnect only resets.
    ensures lobe.Disconnect? ==>
              (r.Ok? <==> p.Deliver? && (p.msg.ClientClosed? || p.msg.ClientError?))
              && (r.Ok? ==> r.value.0 == AwaitInstance)
  {
    match lobe
    case Init =>
      if p.Start? then Ok((AwaitInstance, [])) else Unexpected()
    case AwaitInstance =>
      (match p
       case Deliver(src, ProvideInstance(_, url)) =>
         if src != peers.provider then Err(AssertionFailed("instance from another lobe"))
         else StartConnect(peers, url)
       case _ => Unexpected())
    case Connect(retries) =>
      (match p
       case Deliver(src, ClientAttemptConnect(url)) => AttemptConnect(retries, peers, src, url)
       case Deliver(src, ClientConnected) =>
         if src != peers.thisLobe then Err(AssertionFailed("connection from another lobe"))
         else OpenConnection(peers)
       case _ => Unexpected())
    case Open(q) =>
      (match p
       case Deliver(src, ClientRequest(req)) => SendTransaction(q, peers, src, req)
       case Deliver(src, ClientReceive(frame)) => Receive(q, peers, src, frame)
       case Deliver(src, ClientTimeout(id)) => OnTimeout(q, peers, src, id)
       case Deliver(_, ClientDisconnect) => Ok((Disconnect, []))
       case Deliver(src, ClientClosed) =>
         if src != peers.thisLobe then Err(AssertionFailed("closure from another lobe"))
         else Reset(peers)
       case Deliver(src, ClientError(e)) =>
         if src != peers.thisLobe then Err(AssertionFailed("error from another lobe"))
         else ResetError(peers, e)
       case _ => Unexpected())
    case Disconnect =>
      (match p
       case Deliver(_, ClientClosed) => Reset(peers)
       case Deliver(_, ClientError(e)) => ResetError(peers, e)
       case Deliver(_, _) => Err(Bail("unexpected msg"))
       case Start => Unexpected())
  }

  /** The effects of delivering `events` in order, or the first error. */
  function Run(lobe: ClientLobe, peers: ClientPeers, events: seq<Protocol>): Outcome
    decreases |events|
  {
    if events == [] then Ok((lobe, []))
    else match Update(lobe, peers, events[0])
      case Err(e) => Err(e)
      case Ok((next, effects)) =>
        match Run(next, peers, events[1..])
        case Err(e) => Err(e)
        case Ok((last, more)) => Ok((last, effects + more))
  }

  // ---------------------------------------------------------------------------
  // Connect: the retry budget

  /** Number of connect attempts spawned among `effects`. */
  function Attempts(effects: seq<Effect>): nat
  {
    if effects == [] then 0
    else (if effects[0].SpawnConnect? then 1 else 0) + Attempts(effects[1..])
  }

  lemma {:induction false} AttemptsAppend(a: seq<Effect>, b: seq<Effect>)
    ensures Attempts(a + b) == Attempts(a) + Attempts(b)
  {
    if a == [] {
      assert a + b == b;
    } else {
      assert (a + b)[0] == a[0];
      assert (a + b)[1..] == a[1..] + b;
      AttemptsAppend(a[1..], b);
    }
  }

  /** While no connection is reported, every attempt spends one retry: the
      attempts spawned plus the retries left equal the budget at the start. */
  lemma {:induction false} RetriesCountAttempts(retries: nat, peers: ClientPeers, events: seq<Protocol>)
    requires forall i :: 0 <= i < |events| ==> !(events[i].Deliver? && events[i].msg.ClientConnected?)
    requires Run(Connect(retries), peers, events).Ok?
    ensures Run(Connect(retries), peers, events).value.0.Connect?
    ensures Attempts(Run(Connect(retries), peers, events).value.1)
            + Run(Connect(retries), peers, events).value.0.retries == retries
  {
    if events != [] {
      var r := Update(Connect(retries), peers, events[0]);
      var next := r.value.0;
      assert next == Connect(retries - 1);
      assert r.value.1 == [SpawnConnect(events[0].msg.target)];
      RetriesCountAttempts(retries - 1, peers, events[1..]);
      AttemptsAppend(r.value.1, Run(next, peers, events[1..]).value.1);
    }
  }

  /** Entering Connect grants 10 attempts: a connect phase that never sees a
      connection spawns at most 10 attempts, and once 10 have been spawned
      the next attempt fails with "unable to connect to instance". */
  lemma ConnectRetryBound(peers: ClientPeers, events: seq<Protocol>, url: Url)
    requires forall i :: 0 <= i < |events| ==> !(events[i].Deliver? && events[i].msg.ClientConnected?)
    requires Run(Connect(NumRetries), peers, events).Ok?
    ensures Attempts(Run(Connect(NumRetries), peers, events).value.1) <= NumRetries
    ensures Attempts(Run(Connect(NumRetries), peers, events).value.1) == NumRetries ==>
              Update(Run(Connect(NumRetries), peers, events).value.0, peers,
                   Deliver(peers.thisLobe, ClientAttemptConnect(url)))
              == Err(Bail("unable to connect to instance"))
  {
    RetriesCountAttempts(NumRetries, peers, events);
  }

  // ---------------------------------------------------------------------------
  // Open: FIFO pairing of requests and responses

  /** Requests and binary frames: the traffic of an open connection. */
  predicate IsTraffic(p: Protocol)
  {
    p.Deliver? && (p.msg.ClientRequest? || p.msg.ClientReceive?)
  }

  /** Transaction ids of the requests among `events`, in order. */
  function Requested(events: seq<Protocol>): seq<TransactionId>
  {
    if events == [] then []
    else (if events[0].Deliver? && events[0].msg.ClientRequest? then [events[0].msg.req.transaction] else [])
         + Requested(events[1..])
  }

  /** Transaction id of a response sent by `e`, if it sends one. */
  function AnswerOf(e: Effect): seq<TransactionId>
  {
    if e.Send? && e.msg.ClientResponse? then [e.msg.rsp.transaction] else []
  }

  /** Transaction ids of the responses sent among `effects`, in order. */
  function Answered(effects: seq<Effect>): seq<TransactionId>
  {
    if effects == [] then [] else AnswerOf(effects[0]) + Answered(effects[1..])
  }

  lemma {:induction false} AnsweredAppend(a: seq<Effect>, b: seq<Effect>)
    ensures Answered(a + b) == Answered(a) + Answered(b)
  {
    if a == [] {
      assert a + b == b;
    } else {
      assert (a + b)[0] == a[0];
      assert (a + b)[1..] == a[1..] + b;
      AnsweredAppend(a[1..], b);
      assert Answered(a + b) == AnswerOf(a[0]) + (Answered(a[1..]) + Answered(b));
    }
  }

  /** A successful run is a successful first step followed by a successful
      run of the remaining events. */
  lemma RunCons(lobe: ClientLobe, peers: ClientPeers, events: seq<Protocol>)
    requires events != [] && Run(lobe, peers, events).Ok?
    ensures Update(lobe, peers, events[0]).Ok?
    ensures Run(Update(lobe, peers, events[0]).value.0, peers, events[1..]).Ok?
    ensures Run(lobe, peers, events)
            == Ok((Run(Update(lobe, peers, events[0]).value.0, peers, events[1..]).value.0,
                   Update(lobe, peers, events[0]).value.1
                   + Run(Update(lobe, peers, events[0]).value.0, peers, events[1..]).value.1))
  {
  }

  /** One successful request or frame on an open connection: a request queues
      its id at the back, a frame answers the front id. */
  lemma TrafficStep(q: seq<TransactionId>, peers: ClientPeers, e: Protocol)
    requires IsTraffic(e) && Update(Open(q), peers, e).Ok?
    ensures e.msg.ClientRequest? ==>
              Update(Open(q), peers, e).value.0 == Open(q + [e.msg.req.transaction])
              && Answered(Update(Open(q), peers, e).value.1) == []
    ensures e.msg.ClientReceive? ==>
              |q| > 0 && Update(Open(q), peers, e).value.0 == Open(q[1..])
              && Answered(Update(Open(q), peers, e).value.1) == [q[0]]
  {
    if e.msg.ClientReceive? {
      var effs := Update(Open(q), peers, e).value.1;
      var rsp := Message.ClientResponse(NewResponse(q[0], e.msg.frame.decoded.value));
      assert effs == [CompleteTransaction(q[0]), Send(peers.client, rsp)];
      assert effs[1..] == [Send(peers.client, rsp)] && effs[1..][1..] == [];
      assert Answered(effs[1..]) == [q[0]];
    }
  }

  /** FIFO law: over any run of requests and frames on an open connection,
      the ids answered so far followed by the ids still pending are exactly
      the ids pending at the start followed by the ids requested, in order.
      So responses are paired with requests by position, in send order. */
  lemma {:induction false} OpenFifo(q: seq<TransactionId>, peers: ClientPeers, events: seq<Protocol>)
    requires forall i :: 0 <= i < |events| ==> IsTraffic(events[i])
    requires Run(Open(q), peers, events).Ok?
    ensures Run(Open(q), peers, events).value.0.Open?
    ensures Answered(Run(Open(q), peers, events).value.1)
            + Run(Open(q), peers, events).value.0.transactions
            == q + Requested(events)
    decreases |events|
  {
    if events != [] {
      var e := events[0];
      RunCons(Open(q), peers, events);
      var r := Update(Open(q), peers, e).value;
      TrafficStep(q, peers, e);
      var rest := Run(r.0, peers, events[1..]).value;
      OpenFifo(r.0.transactions, peers, events[1..]);
      AnsweredAppend(r.1, rest.1);
      var id := if e.msg.ClientRequest? then e.msg.req.transaction else 0;
      assert e.msg.ClientRequest? ==> Requested(events) == [id] + Requested(events[1..]);
      assert !e.msg.ClientRequest? ==> Requested(events) == Requested(events[1..]);
      FifoShift(q, r.0.transactions, Answered(r.1), Answered(rest.1), rest.0.transactions,
                Requested(events[1..]), Requested(events), e.msg.ClientRequest?, id);
    }
  }

  /** The bookkeeping of one FIFO step, on plain sequences: queuing `id` at the
      back or answering the front keeps answered-then-pending equal to
      initial-then-requested. */
  lemma FifoShift(q: seq<TransactionId>, q': seq<TransactionId>, a1: seq<TransactionId>,
                  a2: seq<TransactionId>, pending: seq<TransactionId>,
                  later: seq<TransactionId>, all: seq<TransactionId>, queued: bool, id: TransactionId)
    requires a2 + pending == q' + later
    requires queued ==> a1 == [] && q' == q + [id] && all == [id] + later
    requires !queued ==> |q| > 0 && a1 == [q[0]] && q' == q[1..] && all == later
    ensures (a1 + a2) + pending == q + all
  {
    if queued {
      calc {
        (a1 + a2) + pending;
        a2 + pending;
        (q + [id]) + later;
        q + ([id] + later);
      }
    } else {
      calc {
        (a1 + a2) + pending;
        [q[0]] + (a2 + pending);
        [q[0]] + (q[1..] + later);
        ([q[0]] + q[1..]) + later;
        { assert [q[0]] + q[1..] == q; }
        q + later;
      }
    }
  }

  /** Sending R requests and then receiving R binary frames on a fresh
      connection answers them in the order they were sent. */
  lemma RequestsAnsweredInOrder(peers: ClientPeers, events: seq<Protocol>)
    requires forall i :: 0 <= i < |events| ==> IsTraffic(events[i])
    requires Run(Open([]), peers, events).Ok?
    requires Run(Open([]), peers, events).value.0 == Open([])
    ensures Answered(Run(Open([]), peers, events).value.1) == Requested(events)
  {
    OpenFifo([], peers, events);
    var run := Run(Open([]), peers, events);
    assert run.value.0.transactions == [];
    assert Answered(run.value.1) + [] == [] + Requested(events);
    assert Answered(run.value.1) + [] == Answered(run.value.1);
    assert [] + Requested(events) == Requested(events);
  }

  // ---------------------------------------------------------------------------
  // Open: timeouts and the response/timeout race

  /** A timeout for a pending id removes exactly that entry, keeps the order of
      the others, and sends one `ClientTimeout`; for an id no longer pending it
      changes nothing and sends nothing. */
  lemma TimeoutRemovesEntry(q: seq<TransactionId>, peers: ClientPeers, id: TransactionId)
    ensures id !in q ==>
      Update(Open(q), peers, Deliver(peers.thisLobe, ClientTimeout(id))) == Ok((Open(q), []))
    ensures id in q ==>
      exists i :: 0 <= i < |q| && q[i] == id && id !in q[..i] &&
        Update(Open(q), peers, Deliver(peers.thisLobe, ClientTimeout(id)))
        == Ok((Open(q[..i] + q[i + 1..]), [Send(peers.client, ClientTimeout(id))]))
  {
    var pos := Position(q, id);
    if pos.Some? {
      var i := pos.value;
      assert RemoveAt(q, i) == q[..i] + q[i + 1..];
    }
  }

  /** A run of one successful event is that event's update. */
  lemma RunSingle(lobe: ClientLobe, peers: ClientPeers, e: Protocol)
    requires Update(lobe, peers, e).Ok?
    ensures Run(lobe, peers, [e]) == Update(lobe, peers, e)
  {
    assert [e][1..] == [];
    var r := Update(lobe, peers, e).value;
    assert r.1 + [] == r.1;
  }

  /** The response wins the race: the client gets the response for `t` and a
      later timeout for `t` is a no-op, so it never gets a timeout for `t`. */
  lemma ResponseBeforeTimeout(t: TransactionId, rest: seq<TransactionId>, peers: ClientPeers, rsp: Response)
    requires t !in rest
    ensures Run(Open([t] + rest), peers,
                [Deliver(peers.thisLobe, ClientReceive(Binary(Some(rsp)))),
                 Deliver(peers.thisLobe, ClientTimeout(t))])
            == Ok((Open(rest), [CompleteTransaction(t), Send(peers.client, Message.ClientResponse(NewResponse(t, rsp)))]))
  {
    var events := [Deliver(peers.thisLobe, ClientReceive(Binary(Some(rsp)))),
                   Deliver(peers.thisLobe, ClientTimeout(t))];
    var first := [CompleteTransaction(t), Send(peers.client, Message.ClientResponse(NewResponse(t, rsp)))];
    assert ([t] + rest)[1..] == rest;
    assert Update(Open([t] + rest), peers, events[0]) == Ok((Open(rest), first));
    assert Update(Open(rest), peers, events[1]) == Ok((Open(rest), []));
    assert events[1..] == [events[1]];
    RunSingle(Open(rest), peers, events[1]);
    assert first + [] == first;
  }

  /** The timeout wins the race: the client gets the timeout for `t`, and the
      late response is paired with the next pending transaction `u`. A
      requester waiting on `u` with a different kind rejects it; one waiting
      with the same kind accepts the late response as its own answer. */
  lemma TimeoutBeforeResponse(t: TransactionId, u: TransactionId, rest: seq<TransactionId>,
                              peers: ClientPeers, rsp: Response, ku: ClientMessageKind)
    requires t != u && t !in rest
    ensures Run(Open([t, u] + rest), peers,
                [Deliver(peers.thisLobe, ClientTimeout(t)),
                 Deliver(peers.thisLobe, ClientReceive(Binary(Some(rsp))))])
            == Ok((Open(rest), [Send(peers.client, ClientTimeout(t)), CompleteTransaction(u),
                                Send(peers.client, Message.ClientResponse(NewResponse(u, rsp)))]))
    ensures ku != ResponseKind(rsp) ==>
              Expect(Transactor(peers.thisLobe, u, ku), peers.thisLobe, NewResponse(u, rsp))
              == Err(KindMismatch(ku, ResponseKind(rsp)))
    ensures ku == ResponseKind(rsp) && rsp.errors == [] ==>
              Expect(Transactor(peers.thisLobe, u, ku), peers.thisLobe, NewResponse(u, rsp))
              == Ok(NewResponse(u, rsp))
  {
    var q := [t, u] + rest;
    var events := [Deliver(peers.thisLobe, ClientTimeout(t)),
                   Deliver(peers.thisLobe, ClientReceive(Binary(Some(rsp))))];
    var timedOut := [Send(peers.client, ClientTimeout(t))];
    var answered := [CompleteTransaction(u), Send(peers.client, Message.ClientResponse(NewResponse(u, rsp)))];
    assert Position(q, t) == Some(0);
    assert RemoveAt(q, 0) == [u] + rest;
    assert Update(Open(q), peers, events[0]) == Ok((Open([u] + rest), timedOut));
    assert ([u] + rest)[1..] == rest;
    assert Update(Open([u] + rest), peers, events[1]) == Ok((Open(rest), answered));
    assert events[1..] == [events[1]];
    RunSingle(Open([u] + rest), peers, events[1]);
    assert timedOut + answered == [Send(peers.client, ClientTimeout(t)), CompleteTransaction(u),
                                   Send(peers.client, Message.ClientResponse(NewResponse(u, rsp)))];
  }

  /** Round trip through the requester: a request sent with `SendRequest`,
      queued by the open lobe and answered by the next frame is accepted by
      `Expect` exactly when the response has the request's kind and no errors. */
  lemma ExpectAcceptsPairedResponse(peers: ClientPeers, req: ClientRequest, rsp: Response)
    ensures var t := SendRequest(peers.thisLobe, req).0;
            var r := Receive([req.transaction], peers, peers.thisLobe, Binary(Some(rsp)));
            r.Ok? && SentTo(r.value.1, peers.client) == [Message.ClientResponse(NewResponse(req.transaction, rsp))]
            && (Expect(t, peers.thisLobe, NewResponse(req.transaction, rsp)).Ok?
                <==> ResponseKind(rsp) == req.kind && rsp.errors == [])
  {
  }
}
