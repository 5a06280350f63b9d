// The agent lobe of src/lobes/agent.rs: a stateless relay between the melee
// controller, the bot (the Agent output), and the client lobe that owns the
// game connection. Each message it handles comes from one expected peer and
// produces at most one message; everything else is ignored.
module AgentLobe {
  import opened Lobes

  /** The ports of the lobe: two required inputs (the controller and the
      instance provider) and three required outputs (the client lobe, the
      bot, and the client lobe again as the instance provider). */
  datatype Port = ControllerIn | ProviderIn | ClientOut | AgentOut | ProviderOut

  /** The handles connected to each port. */
  datatype AgentPeers = AgentPeers(
    controller: Handle, provider: Handle, client: Handle, agent: Handle, providerOut: Handle)

  function PeerAt(peers: AgentPeers, port: Port): Handle
  {
    match port
    case ControllerIn => peers.controller
    case ProviderIn => peers.provider
    case ClientOut => peers.client
    case AgentOut => peers.agent
    case ProviderOut => peers.providerOut
  }

  /** `AgentLobe::update` with its handlers: forward or answer a message from
      its expected peer, fail the sender check otherwise, and ignore every
      message without a handler (and every non-message event). */
  function Update(peers: AgentPeers, p: Protocol): (r: Result<seq<Effect>>)
    ensures r.Ok? ==> |r.value| <= 1
    ensures r.Err? ==> r.error.AssertionFailed?
    ensures r.Ok? ==> forall e :: e in r.value ==> e.Send?
  {
    match p
    case Start => Ok([])
    case Deliver(src, msg) =>
      match msg
      case Connected =>
        if src != peers.client then Err(AssertionFailed("Connected from the client"))
        else Ok([Send(peers.controller, Ready)])
      case RequestPlayerSetup(settings) =>
        if src != peers.controller then Err(AssertionFailed("RequestPlayerSetup from the controller"))
        else Ok([Send(peers.agent, RequestPlayerSetup(settings))])
      case PlayerSetup(setup) =>
        if src != peers.agent then Err(AssertionFailed("PlayerSetup from the agent"))
        else Ok([Send(peers.controller, Message.PlayerSetup(setup))])
      case ProvideInstance(instance, url) =>
        if src != peers.provider then Err(AssertionFailed("ProvideInstance from the instance provider"))
        else Ok([Send(peers.providerOut, ProvideInstance(instance, url))])
      case CreateGame(_, _) =>
        if src != peers.controller then Err(AssertionFailed("CreateGame from the controller"))
        else Ok([Send(peers.controller, GameCreated)])
      case GameReady(_, _) =>
        if src != peers.controller then Err(AssertionFailed("GameReady from the controller"))
        else Ok([])
      case _ => Ok([])
  }

  // ---------------------------------------------------------------------------
  // The routing table

  /** The peer a message must come from, for the messages the lobe handles. */
  function ExpectedSender(msg: Message): Option<Port>
  {
    match msg
    case Connected => Some(ClientOut)
    case RequestPlayerSetup(_) => Some(ControllerIn)
    case PlayerSetup(_) => Some(AgentOut)
    case ProvideInstance(_, _) => Some(ProviderIn)
    case CreateGame(_, _) => Some(ControllerIn)
    case GameReady(_, _) => Some(ControllerIn)
    case _ => None
  }

  /** What the lobe sends for a handled message, and where: `Ready` for a
      connection, the message itself for the three forwarded ones,
      `GameCreated` for a game to create, nothing for a game to join. */
  function Reply(msg: Message): Option<(Port, Message)>
  {
    match msg
    case Connected => Some((ControllerIn, Ready))
    case RequestPlayerSetup(_) => Some((AgentOut, msg))
    case PlayerSetup(_) => Some((ControllerIn, msg))
    case ProvideInstance(_, _) => Some((ProviderOut, msg))
    case CreateGame(_, _) => Some((ControllerIn, GameCreated))
    case _ => None
  }

  /** The lobe follows its routing table: an unhandled message is ignored; a
      handled one from the wrong peer fails the sender check; from the right
      peer it yields exactly the table's reply, if any. */
  lemma UpdateFollowsTable(peers: AgentPeers, src: Handle, msg: Message)
    ensures ExpectedSender(msg).None? ==> Update(peers, Deliver(src, msg)) == Ok([])
    ensures ExpectedSender(msg).Some? && src != PeerAt(peers, ExpectedSender(msg).value) ==>
              Update(peers, Deliver(src, msg)).Err?
    ensures ExpectedSender(msg).Some? && src == PeerAt(peers, ExpectedSender(msg).value) ==>
              Update(peers, Deliver(src, msg))
              == Ok(if Reply(msg).None? then []
                    else [Send(PeerAt(peers, Reply(msg).value.0), Reply(msg).value.1)])
  {
  }

  /** Every message the table replies to is expected from some peer, and the
      three relayed messages leave the lobe unchanged. */
  lemma RelaysUnchanged(msg: Message)
    ensures Reply(msg).Some? ==> ExpectedSender(msg).Some?
    ensures msg.RequestPlayerSetup? || msg.PlayerSetup? || msg.ProvideInstance? ==>
              Reply(msg).Some? && Reply(msg).value.1 == msg
    ensures msg.GameReady? ==> Reply(msg).None? && ExpectedSender(msg) == Some(ControllerIn)
  {
  }

  /** The effects of delivering `events` in order, or the first error. The
      lobe keeps no state, so a run is the concatenation of its replies. */
  function Run(peers: AgentPeers, events: seq<Protocol>): (r: Result<seq<Effect>>)
    ensures r.Ok? ==> |r.value| <= |events|
  {
    if events == [] then Ok([])
    else match Update(peers, events[0])
      case Err(e) => Err(e)
      case Ok(first) =>
        match Run(peers, events[1..])
        case Err(e) => Err(e)
        case Ok(rest) => Ok(first + rest)
  }

  /** The setup requests among `events`, in order. */
  function SetupRequests(events: seq<Protocol>): seq<Message>
  {
    if events == [] then []
    else (if events[0].Deliver? && events[0].msg.RequestPlayerSetup? then [events[0].msg] else [])
         + SetupRequests(events[1..])
  }

  lemma {:induction false} SentToAppend(a: seq<Effect>, b: seq<Effect>, to: Handle)
    ensures SentTo(a + b, to) == SentTo(a, to) + SentTo(b, to)
  {
    if a == [] {
      assert a + b == b;
    } else {
      assert (a + b)[0] == a[0];
      assert (a + b)[1..] == a[1..] + b;
      SentToAppend(a[1..], b, to);
    }
  }

  /** One update sends the bot the event's setup request, or nothing. */
  lemma BotStep(peers: AgentPeers, p: Protocol)
    requires peers.agent != peers.controller && peers.agent != peers.providerOut
    requires Update(peers, p).Ok?
    ensures SentTo(Update(peers, p).value, peers.agent)
            == if p.Deliver? && p.msg.RequestPlayerSetup? then [p.msg] else []
  {
    var out := Update(peers, p).value;
    if out != [] {
      assert out == [out[0]] && out[1..] == [];
    }
  }

  /** Over a successful run, the messages to the bot are exactly the setup
      requests delivered to the lobe, in order and unchanged. */
  lemma {:induction false} BotReceivesSetupRequests(peers: AgentPeers, events: seq<Protocol>)
    requires peers.agent != peers.controller && peers.agent != peers.providerOut
    requires Run(peers, events).Ok?
    ensures SentTo(Run(peers, events).value, peers.agent) == SetupRequests(events)
    decreases |events|
  {
    if events != [] {
      var first := Update(peers, events[0]).value;
      var rest := Run(peers, events[1..]).value;
      assert Run(peers, events).value == first + rest;
      BotStep(peers, events[0]);
      BotReceivesSetupRequests(peers, events[1..]);
      SentToAppend(first, rest, peers.agent);
    }
  }
}
