// The melee controller of src/melee.rs: a `MeleeCell` pits two bots against
// each other (or one bot against the built-in AI), game after game, through
// the phases Init -> Setup -> Launch -> PlayerVsPlayer | PlayerVsComputer ->
// Setup | Completed. Each phase consumes its value and yields the next one;
// the sends it makes through the effector are returned as effects.
module Melee {
  import opened Lobes

  /** The games to play: one game, or the same game forever. */
  datatype MeleeSuite = OneAndDone(game: GameSettings) | EndlessRepeat(game: GameSettings)

  /** The cell's peers as the substrate reports them: the required launcher
      output and the variadic Controller (agent) and InstanceProvider
      (client) outputs, in connection order. */
  datatype MeleePeers = MeleePeers(launcher: Handle, controllers: seq<Handle>, providers: seq<Handle>)

  /** The phases with the data each keeps. The launcher's instance pool (a
      hash map in the source) is a sequence here, in the order the map is
      iterated. */
  datatype MeleeCell =
    | Init(initial: MeleeSuite)
    | Setup(suite: Option<MeleeSuite>, agents: (Handle, Handle), clients: (Handle, Handle),
            game: GameSettings, slots: (Option<PlayerSetup>, Option<PlayerSetup>))
    | Launch(suite: Option<MeleeSuite>, launcher: Handle, agents: (Handle, Handle),
             clients: (Handle, Handle), game: GameSettings, players: (PlayerSetup, PlayerSetup),
             pool: seq<PoolEntry>, portsPool: seq<GamePorts>, isPvp: bool, requested: nat)
    | PlayerVsPlayer(suite: Option<MeleeSuite>, agents: (Handle, Handle), game: GameSettings,
                     gamePorts: GamePorts, players: (PlayerSetup, PlayerSetup),
                     ready: (bool, bool), ended: (bool, bool))
    | PlayerVsComputer(suite: Option<MeleeSuite>, game: GameSettings,
                       playerSetup: PlayerSetup, computerSetup: PlayerSetup, player: Handle)
    | Completed

  type Outcome = Result<(MeleeCell, seq<Effect>)>

  function UnexpectedMessage(): Error { Bail("unexpected message") }
  function UnexpectedProtocol(): Error { Bail("unexpected protocol message") }

  // ---------------------------------------------------------------------------
  // Setup

  /** The suite left after starting a game of `suite`: nothing after a single
      game, the same endless suite otherwise. */
  function FollowOn(suite: MeleeSuite): (r: Option<MeleeSuite>)
    ensures r.None? <==> suite.OneAndDone?
    ensures r.Some? ==> r.value == suite
  {
    match suite
    case OneAndDone(_) => None
    case EndlessRepeat(game) => Some(EndlessRepeat(game))
  }

  /** `Setup::setup`: with exactly two clients and two agents, ask both agents
      for their player setup for the suite's game. */
  function EnterSetup(peers: MeleePeers, suite: MeleeSuite): (r: Outcome)
    ensures r.Ok? <==> |peers.providers| == 2 && |peers.controllers| == 2
    ensures |peers.providers| != 2 ==> r == Err(Bail("expected 2 clients"))
    ensures |peers.providers| == 2 && |peers.controllers| != 2 ==> r == Err(Bail("expected 2 agents"))
    ensures r.Ok? ==>
              r.value.0 == Setup(FollowOn(suite), (peers.controllers[0], peers.controllers[1]),
                                 (peers.providers[0], peers.providers[1]), suite.game, (None, None))
              && r.value.1 == [Send(peers.controllers[0], RequestPlayerSetup(suite.game)),
                               Send(peers.controllers[1], RequestPlayerSetup(suite.game))]
  {
    if |peers.providers| != 2 then Err(Bail("expected 2 clients"))
    else if |peers.controllers| != 2 then Err(Bail("expected 2 agents"))
    else
      var agents := (peers.controllers[0], peers.controllers[1]);
      Ok((Setup(FollowOn(suite), agents, (peers.providers[0], peers.providers[1]), suite.game, (None, None)),
          [Send(agents.0, RequestPlayerSetup(suite.game)), Send(agents.1, RequestPlayerSetup(suite.game))]))
  }

  /** `Setup::on_player_setup`: a setup from agent 0 or agent 1 fills that
      agent's slot only; once both slots are filled the cell moves to Launch. */
  function OnPlayerSetup(cell: MeleeCell, peers: MeleePeers, src: Handle, setup: PlayerSetup): (r: Outcome)
    requires cell.Setup?
    ensures r.Ok? ==> src == cell.agents.0 || src == cell.agents.1
    ensures src != cell.agents.0 && src != cell.agents.1 ==> r == Err(Bail("invalid source for player setup"))
    ensures (src == cell.agents.0 || src == cell.agents.1) ==>
              var slots := if src == cell.agents.0 then (Some(setup), cell.slots.1) else (cell.slots.0, Some(setup));
              if slots.0.Some? && slots.1.Some? then
                r == EnterLaunch(cell.suite, peers.launcher, cell.agents, cell.clients,
                                 (slots.0.value, slots.1.value), cell.game)
              else r == Ok((cell.(slots := slots), []))
  {
    if src != cell.agents.0 && src != cell.agents.1 then Err(Bail("invalid source for player setup"))
    else
      var slots := if src == cell.agents.0 then (Some(setup), cell.slots.1) else (cell.slots.0, Some(setup));
      if slots.0.Some? && slots.1.Some? then
        EnterLaunch(cell.suite, peers.launcher, cell.agents, cell.clients, (slots.0.value, slots.1.value), cell.game)
      else Ok((cell.(slots := slots), []))
  }

  // ---------------------------------------------------------------------------
  // Launch

  /** The game mode two setups call for: `Ok(true)` for player against player,
      `Ok(false)` for a player against the computer in either order. */
  function Classify(players: (PlayerSetup, PlayerSetup)): (r: Result<bool>)
    ensures r == Ok(true) <==> players.0.IsPlayer() && players.1.IsPlayer()
    ensures r == Ok(false) <==> players.0.IsPlayer() != players.1.IsPlayer()
    ensures r.Err? <==> players.0.IsComputer() && players.1.IsComputer()
    ensures r.Err? ==> r.error == Bail("invalid player setups")
  {
    if players.0.IsPlayer() && players.1.IsComputer() then Ok(false)
    else if players.0.IsComputer() && players.1.IsPlayer() then Ok(false)
    else if players.0.IsPlayer() && players.1.IsPlayer() then Ok(true)
    else Err(Bail("invalid player setups"))
  }

  /** `Launch::launch`: classify the game, then ask the launcher for its
      instance and ports pools; nothing is pooled or requested yet. */
  function EnterLaunch(suite: Option<MeleeSuite>, launcher: Handle, agents: (Handle, Handle),
                       clients: (Handle, Handle), players: (PlayerSetup, PlayerSetup),
                       game: GameSettings): (r: Outcome)
    ensures r.Ok? <==> Classify(players).Ok?
    ensures r.Err? ==> r.error == Bail("invalid player setups")
    ensures r.Ok? ==>
              r.value.0 == Launch(suite, launcher, agents, clients, game, players, [], [],
                                  Classify(players).value, 0)
              && r.value.1 == [Send(launcher, GetInstancePool), Send(launcher, GetPortsPool)]
  {
    match Classify(players)
    case Err(e) => Err(e)
    case Ok(isPvp) =>
      Ok((Launch(suite, launcher, agents, clients, game, players, [], [], isPvp, 0),
          [Send(launcher, GetInstancePool), Send(launcher, GetPortsPool)]))
  }

  /** Instances a game needs, which is also the most the cell ever requests:
      two for player against player, one against the computer. */
  function Needed(isPvp: bool): nat { if isPvp then 2 else 1 }

  /** How many `LaunchInstance` requests `launch_instances` sends: none unless
      the pool is short and fewer than the needed number were requested,
      and then enough to bring the count of requests up to that number. */
  function Launches(isPvp: bool, poolSize: nat, requested: nat): (n: nat)
    ensures n > 0 <==> poolSize < Needed(isPvp) && requested < Needed(isPvp)
    ensures n > 0 ==> requested + n == Needed(isPvp)
  {
    if isPvp then (if poolSize < 2 && requested < 2 then 2 - requested else 0)
    else if poolSize < 1 && requested == 0 then 1 else 0
  }

  /** `n` launch requests to the launcher. */
  function LaunchRequests(launcher: Handle, n: nat): (r: seq<Effect>)
    ensures |r| == n && forall i :: 0 <= i < n ==> r[i] == Send(launcher, LaunchInstance)
  {
    seq(n, _ => Send(launcher, LaunchInstance))
  }

  /** `Launch::launch_instances`: top up the launch requests, counting each
      one sent. */
  method LaunchInstances(launcher: Handle, isPvp: bool, poolSize: nat, requested: nat)
    returns (sent: seq<Effect>, requested': nat)
    ensures requested' == requested + Launches(isPvp, poolSize, requested)
    ensures sent == LaunchRequests(launcher, Launches(isPvp, poolSize, requested))
  {
    sent, requested' := [], requested;
    if isPvp {
      if poolSize < 2 && requested' < 2 {
        while requested' < 2
          invariant requested <= requested' <= 2
          invariant sent == LaunchRequests(launcher, requested' - requested)
          decreases 2 - requested'
        {
          sent := sent + [Send(launcher, LaunchInstance)];
          requested' := requested' + 1;
        }
      }
    } else {
      if poolSize < 1 && requested' == 0 {
        sent := [Send(launcher, LaunchInstance)];
        requested' := 1;
      }
    }
  }

  /** `Launch::try_provide_instances`: once enough instances (and, for player
      against player, a ports set) are pooled, hand them out and start the
      game phase; otherwise keep waiting. Player against player binds the
      first two pool entries to clients 0 and 1 and records their port sets,
      in that order, as the game's client ports. Against the computer the
      first instance goes to the agent whose setup is the player. */
  function TryProvide(cell: MeleeCell): (r: Outcome)
    requires cell.Launch?
    ensures cell.isPvp ==>
              if |cell.pool| >= 2 && |cell.portsPool| >= 1 then
                var a, b := cell.pool[0], cell.pool[1];
                r == Ok((PlayerVsPlayer(cell.suite, cell.agents, cell.game,
                                        cell.portsPool[0].(clientPorts := [a.ports, b.ports]),
                                        cell.players, (false, false), (false, false)),
                         [Send(cell.clients.0, ProvideInstance(a.id, a.url)),
                          Send(cell.clients.1, ProvideInstance(b.id, b.url))]))
              else r == Ok((cell, []))
    ensures !cell.isPvp && |cell.pool| == 0 ==> r == Ok((cell, []))
    ensures !cell.isPvp && |cell.pool| >= 1 && r.Ok? ==>
              var player := if cell.players.0.IsPlayer() then cell.agents.0 else cell.agents.1;
              var (mine, theirs) := if cell.players.0.IsPlayer() then cell.players else (cell.players.1, cell.players.0);
              r.value.0 == PlayerVsComputer(cell.suite, cell.game, mine, theirs, player)
              && r.value.0.playerSetup.IsPlayer()
              && r.value.1 == [Send(player, ProvideInstance(cell.pool[0].id, cell.pool[0].url))]
    ensures !cell.isPvp ==> (r.Err? <==> |cell.pool| >= 1 && !cell.players.0.IsPlayer() && !cell.players.1.IsPlayer())
  {
    if cell.isPvp then
      if |cell.pool| >= 2 && |cell.portsPool| >= 1 then
        var a, b := cell.pool[0], cell.pool[1];
        var ports := cell.portsPool[0].(clientPorts := [a.ports, b.ports]);
        Ok((PlayerVsPlayer(cell.suite, cell.agents, cell.game, ports, cell.players, (false, false), (false, false)),
            [Send(cell.clients.0, ProvideInstance(a.id, a.url)), Send(cell.clients.1, ProvideInstance(b.id, b.url))]))
      else Ok((cell, []))
    else if |cell.pool| >= 1 then
      var first := cell.pool[0];
      if cell.players.0.IsPlayer() then
        Ok((PlayerVsComputer(cell.suite, cell.game, cell.players.0, cell.players.1, cell.agents.0),
            [Send(cell.agents.0, ProvideInstance(first.id, first.url))]))
      else if !cell.players.1.IsPlayer() then Err(AssertionFailed("one of the setups is a player"))
      else
        Ok((PlayerVsComputer(cell.suite, cell.game, cell.players.1, cell.players.0, cell.agents.1),
            [Send(cell.agents.1, ProvideInstance(first.id, first.url))]))
    else Ok((cell, []))
  }

  /** `on_instance_pool` / `on_ports_pool` after the pool has been replaced:
      top up launch requests, then try to hand out instances. */
  function Replenish(cell: MeleeCell): (r: Outcome)
    requires cell.Launch?
    ensures var n := Launches(cell.isPvp, |cell.pool|, cell.requested);
            var topped := cell.(requested := cell.requested + n);
            match TryProvide(topped)
            case Err(e) => r == Err(e)
            case Ok((next, sent)) => r == Ok((next, LaunchRequests(cell.launcher, n) + sent))
  {
    var n := Launches(cell.isPvp, |cell.pool|, cell.requested);
    match TryProvide(cell.(requested := cell.requested + n))
    case Err(e) => Err(e)
    case Ok((next, sent)) => Ok((next, LaunchRequests(cell.launcher, n) + sent))
  }

  /** `Launch::on_instance_pool`: only the launcher may replace the instance pool. */
  function OnInstancePool(cell: MeleeCell, src: Handle, pool: seq<PoolEntry>): (r: Outcome)
    requires cell.Launch?
    ensures src != cell.launcher ==> r == Err(AssertionFailed("pool from the launcher"))
    ensures src == cell.launcher ==> r == Replenish(cell.(pool := pool))
  {
    if src != cell.launcher then Err(AssertionFailed("pool from the launcher"))
    else Replenish(cell.(pool := pool))
  }

  /** `Launch::on_ports_pool`: only the launcher may replace the ports pool. */
  function OnPortsPool(cell: MeleeCell, src: Handle, portsPool: seq<GamePorts>): (r: Outcome)
    requires cell.Launch?
    ensures src != cell.launcher ==> r == Err(AssertionFailed("pool from the launcher"))
    ensures src == cell.launcher ==> r == Replenish(cell.(portsPool := portsPool))
  {
    if src != cell.launcher then Err(AssertionFailed("pool from the launcher"))
    else Replenish(cell.(portsPool := portsPool))
  }

  // ---------------------------------------------------------------------------
  // The game phases

  /** After the last game of a suite: stop the network. */
  function Complete(): (r: Outcome)
    ensures r.Ok? && r.value.0.Completed?
    ensures StopNetwork in r.value.1 && forall e :: e in r.value.1 ==> !e.Send?
  {
    Ok((Completed, [StopNetwork]))
  }

  /** The end of a game: complete when the suite is exhausted, otherwise set
      up the next game of the kept suite. */
  function NextGame(peers: MeleePeers, suite: Option<MeleeSuite>): (r: Outcome)
    ensures suite.None? ==> r == Ok((Completed, [StopNetwork]))
    ensures suite.Some? ==> r == EnterSetup(peers, suite.value)
  {
    if suite.None? then Complete() else EnterSetup(peers, suite.value)
  }

  /** `PlayerVsPlayer::on_agent_ready`: mark the agent ready; once both are,
      ask agent 0 to create the game with both setups. */
  function PvpReady(cell: MeleeCell, src: Handle): (r: Outcome)
    requires cell.PlayerVsPlayer?
    ensures r.Ok? <==> src == cell.agents.0 || src == cell.agents.1
    ensures r.Err? ==> r.error == Bail("expected source of Ready to be an agent")
    ensures r.Ok? ==> r.value.0 == cell.(ready := if src == cell.agents.0 then (true, cell.ready.1)
                                                    else (cell.ready.0, true))
    ensures r.Ok? ==>
              (r.value.1 != [] <==> r.value.0.ready == (true, true))
              && (r.value.1 != [] ==>
                    r.value.1 == [Send(cell.agents.0, Message.CreateGame(cell.game, [cell.players.0, cell.players.1]))])
  {
    if src != cell.agents.0 && src != cell.agents.1 then Err(Bail("expected source of Ready to be an agent"))
    else
      var ready := if src == cell.agents.0 then (true, cell.ready.1) else (cell.ready.0, true);
      var sent := if ready == (true, true)
                  then [Send(cell.agents.0, Message.CreateGame(cell.game, [cell.players.0, cell.players.1]))]
                  else [];
      Ok((cell.(ready := ready), sent))
  }

  /** `PlayerVsPlayer::on_game_created`: only agent 0 creates the game; both
      agents are then told to join with their setup and the game's ports. */
  function PvpCreated(cell: MeleeCell, src: Handle): (r: Outcome)
    requires cell.PlayerVsPlayer?
    ensures r.Ok? <==> src == cell.agents.0
    ensures r.Err? ==> r.error.AssertionFailed?
    ensures r.Ok? ==> r.value == (cell, [Send(cell.agents.0, GameReady(cell.players.0, Some(cell.gamePorts))),
                                         Send(cell.agents.1, GameReady(cell.players.1, Some(cell.gamePorts)))])
  {
    if src != cell.agents.0 then Err(AssertionFailed("game created by agent 0"))
    else Ok((cell, [Send(cell.agents.0, GameReady(cell.players.0, Some(cell.gamePorts))),
                    Send(cell.agents.1, GameReady(cell.players.1, Some(cell.gamePorts)))]))
  }

  /** `PlayerVsPlayer::on_game_ended`: mark the agent's game ended; once both
      have ended, move on to the next game or complete. */
  function PvpEnded(cell: MeleeCell, peers: MeleePeers, src: Handle): (r: Outcome)
    requires cell.PlayerVsPlayer?
    ensures src != cell.agents.0 && src != cell.agents.1 ==>
              r == Err(Bail("expected src of GameEnded to be an agent"))
    ensures (src == cell.agents.0 || src == cell.agents.1) ==>
              var ended := if src == cell.agents.0 then (true, cell.ended.1) else (cell.ended.0, true);
              if ended == (true, true) then r == NextGame(peers, cell.suite)
              else r == Ok((cell.(ended := ended), []))
  {
    if src != cell.agents.0 && src != cell.agents.1 then Err(Bail("expected src of GameEnded to be an agent"))
    else
      var ended := if src == cell.agents.0 then (true, cell.ended.1) else (cell.ended.0, true);
      if ended == (true, true) then NextGame(peers, cell.suite)
      else Ok((cell.(ended := ended), []))
  }

  /** `PlayerVsComputer::on_agent_ready`: the player agent asks for a game of
      its setup against the computer's. */
  function PvcReady(cell: MeleeCell, src: Handle): (r: Outcome)
    requires cell.PlayerVsComputer?
    ensures r.Ok? <==> src == cell.player
    ensures r.Err? ==> r.error == Bail("expected source of Ready to be the agent")
    ensures r.Ok? ==> r.value == (cell, [Send(cell.player, Message.CreateGame(cell.game, [cell.playerSetup, cell.computerSetup]))])
  {
    if src != cell.player then Err(Bail("expected source of Ready to be the agent"))
    else Ok((cell, [Send(cell.player, Message.CreateGame(cell.game, [cell.playerSetup, cell.computerSetup]))]))
  }

  /** `PlayerVsComputer::on_game_created`: tell the player to join; a game
      against the computer has no ports. */
  function PvcCreated(cell: MeleeCell, src: Handle): (r: Outcome)
    requires cell.PlayerVsComputer?
    ensures r.Ok? <==> src == cell.player
    ensures r.Err? ==> r.error == Bail("expected source of GameCreated to be the agent")
    ensures r.Ok? ==> r.value == (cell, [Send(cell.player, GameReady(cell.playerSetup, None))])
  {
    if src != cell.player then Err(Bail("expected source of GameCreated to be the agent"))
    else Ok((cell, [Send(cell.player, GameReady(cell.playerSetup, None))]))
  }

  /** `PlayerVsComputer::on_game_ended`: the player's game end ends the game. */
  function PvcEnded(cell: MeleeCell, peers: MeleePeers, src: Handle): (r: Outcome)
    requires cell.PlayerVsComputer?
    ensures src != cell.player ==> r == Err(Bail("expected source of GameEnded to be an agent"))
    ensures src == cell.player ==> r == NextGame(peers, cell.suite)
  {
    if src != cell.player then Err(Bail("expected source of GameEnded to be an agent"))
    else NextGame(peers, cell.suite)
  }

  // ---------------------------------------------------------------------------
  // Dispatch

  /** The events each phase has a handler for. */
  predicate Handles(cell: MeleeCell, p: Protocol)
  {
    match cell
    case Init(_) => p.Start?
    case Setup(_, _, _, _, _) => p.Deliver? && p.msg.PlayerSetup?
    case Launch(_, _, _, _, _, _, _, _, _, _) => p.Deliver? && (p.msg.InstancePool? || p.msg.PortsPool?)
    case PlayerVsPlayer(_, _, _, _, _, _, _) => p.Deliver? && (p.msg.Ready? || p.msg.GameCreated? || p.msg.GameEnded?)
    case PlayerVsComputer(_, _, _, _, _) => p.Deliver? && (p.msg.Ready? || p.msg.GameCreated? || p.msg.GameEnded?)
    case Completed => false
  }

  /** `MeleeCell::update`: dispatch an event on the current phase. Every phase
      rejects the messages it has no handler for. */
  function Update(cell: MeleeCell, peers: MeleePeers, p: Protocol): (r: Outcome)
    ensures !Handles(cell, p) ==> r == Err(if p.Start? then UnexpectedProtocol() else UnexpectedMessage())
    ensures cell.Init? ==> (p.Start? ==> r == EnterSetup(peers, cell.initial))
                           && (p.Deliver? ==> r == Err(UnexpectedMessage()))
    ensures cell.Completed? ==> r.Err?
    ensures r.Ok? && r.value.0.Completed? ==> !cell.Completed? && StopNetwork in r.value.1
  {
    match cell
    case Init(suite) =>
      if p.Start? then EnterSetup(peers, suite) else Err(UnexpectedMessage())
    case Setup(_, _, _, _, _) =>
      (match p
       case Deliver(src, PlayerSetup(setup)) => OnPlayerSetup(cell, peers, src, setup)
       case Deliver(_, _) => Err(UnexpectedMessage())
       case Start => Err(UnexpectedProtocol()))
    case Launch(_, _, _, _, _, _, _, _, _, _) =>
      (match p
       case Deliver(src, InstancePool(pool)) => OnInstancePool(cell, src, pool)
       case Deliver(src, PortsPool(ports)) => OnPortsPool(cell, src, ports)
       case Deliver(_, _) => Err(UnexpectedMessage())
       case Start => Err(UnexpectedProtocol()))
    case PlayerVsPlayer(_, _, _, _, _, _, _) =>
      (match p
       case Deliver(src, Ready) => PvpReady(cell, src)
       case Deliver(src, GameCreated) => PvpCreated(cell, src)
       case Deliver(src, GameEnded) => PvpEnded(cell, peers, src)
       case Deliver(_, _) => Err(UnexpectedMessage())
       case Start => Err(UnexpectedProtocol()))
    case PlayerVsComputer(_, _, _, _, _) =>
      (match p
       case Deliver(src, Ready) => PvcReady(cell, src)
       case Deliver(src, GameCreated) => PvcCreated(cell, src)
       case Deliver(src, GameEnded) => PvcEnded(cell, peers, src)
       case Deliver(_, _) => Err(UnexpectedMessage())
       case Start => Err(UnexpectedProtocol()))
    case Completed =>
      if p.Start? then Err(UnexpectedProtocol()) else Err(UnexpectedMessage())
  }

  /** The effects of delivering `events` in order, or the first error. */
  function Run(cell: MeleeCell, peers: MeleePeers, events: seq<Protocol>): Outcome
    decreases |events|
  {
    if events == [] then Ok((cell, []))
    else match Update(cell, peers, events[0])
      case Err(e) => Err(e)
      case Ok((next, effects)) =>
        match Run(next, peers, events[1..])
        case Err(e) => Err(e)
        case Ok((last, more)) => Ok((last, effects + more))
  }

  // ---------------------------------------------------------------------------
  // Invariants

  /** The suite a game phase keeps is exhausted or repeats that very game. */
  predicate KeptSuite(suite: Option<MeleeSuite>, game: GameSettings)
  {
    suite.None? || suite == Some(EndlessRepeat(game))
  }

  /** What holds of a cell between events: the agents and clients are the two
      peers of each kind; a launching cell's mode matches its setups and its
      request count is within the cap; a game phase has the setups its mode
      calls for. */
  predicate Inv(cell: MeleeCell, peers: MeleePeers)
  {
    match cell
    case Init(_) => true
    case Completed => true
    case Setup(suite, agents, clients, game, _) =>
      |peers.controllers| == 2 && |peers.providers| == 2 && KeptSuite(suite, game)
      && agents == (peers.controllers[0], peers.controllers[1])
      && clients == (peers.providers[0], peers.providers[1])
    case Launch(suite, launcher, agents, clients, game, players, _, _, isPvp, requested) =>
      |peers.controllers| == 2 && |peers.providers| == 2 && KeptSuite(suite, game)
      && launcher == peers.launcher
      && agents == (peers.controllers[0], peers.controllers[1])
      && clients == (peers.providers[0], peers.providers[1])
      && Classify(players) == Ok(isPvp) && requested <= Needed(isPvp)
    case PlayerVsPlayer(suite, agents, game, gamePorts, players, _, _) =>
      |peers.controllers| == 2 && |peers.providers| == 2 && KeptSuite(suite, game)
      && agents == (peers.controllers[0], peers.controllers[1])
      && players.0.IsPlayer() && players.1.IsPlayer() && |gamePorts.clientPorts| == 2
    case PlayerVsComputer(suite, game, playerSetup, computerSetup, player) =>
      |peers.controllers| == 2 && |peers.providers| == 2 && KeptSuite(suite, game)
      && (player == peers.controllers[0] || player == peers.controllers[1])
      && playerSetup.IsPlayer() && computerSetup.IsComputer()
  }

  /** Every successful update keeps the invariant. While launching, the mode
      never changes and the request count never decreases. */
  lemma UpdateKeepsInv(cell: MeleeCell, peers: MeleePeers, p: Protocol)
    requires Inv(cell, peers) && Update(cell, peers, p).Ok?
    ensures Inv(Update(cell, peers, p).value.0, peers)
    ensures cell.Launch? && Update(cell, peers, p).value.0.Launch? ==>
              Update(cell, peers, p).value.0.isPvp == cell.isPvp
              && Update(cell, peers, p).value.0.requested >= cell.requested
  {
    var next := Update(cell, peers, p).value.0;
    if cell.Setup? && next.Launch? {
      assert Classify(next.players) == Ok(next.isPvp);
    } else if cell.Launch? {
      var pooled := if p.msg.InstancePool? then cell.(pool := p.msg.pool) else cell.(portsPool := p.msg.portsPool);
      var n := Launches(pooled.isPvp, |pooled.pool|, pooled.requested);
      assert TryProvide(pooled.(requested := pooled.requested + n)).Ok?;
    }
  }

  /** A cell the invariant holds of never trips the "one of the setups is a
      player" assertion: a launching cell accepts every pool the launcher
      sends. */
  lemma LaunchAcceptsPools(cell: MeleeCell, peers: MeleePeers, msg: Message)
    requires Inv(cell, peers) && cell.Launch?
    requires msg.InstancePool? || msg.PortsPool?
    ensures Update(cell, peers, Deliver(peers.launcher, msg)).Ok?
  {
    var pooled := if msg.InstancePool? then cell.(pool := msg.pool) else cell.(portsPool := msg.portsPool);
    var n := Launches(pooled.isPvp, |pooled.pool|, pooled.requested);
    assert TryProvide(pooled.(requested := pooled.requested + n)).Ok?;
  }

  // ---------------------------------------------------------------------------
  // The launch budget

  /** Number of `LaunchInstance` requests among `effects`. */
  function LaunchesSent(effects: seq<Effect>): nat
  {
    if effects == [] then 0
    else (if effects[0].Send? && effects[0].msg.LaunchInstance? then 1 else 0) + LaunchesSent(effects[1..])
  }

  lemma {:induction false} LaunchesSentAppend(a: seq<Effect>, b: seq<Effect>)
    ensures LaunchesSent(a + b) == LaunchesSent(a) + LaunchesSent(b)
  {
    if a == [] {
      assert a + b == b;
    } else {
      assert (a + b)[0] == a[0];
      assert (a + b)[1..] == a[1..] + b;
      LaunchesSentAppend(a[1..], b);
    }
  }

  lemma {:induction false} LaunchesSentRequests(launcher: Handle, n: nat)
    ensures LaunchesSent(LaunchRequests(launcher, n)) == n
  {
    if n > 0 {
      var r := LaunchRequests(launcher, n);
      assert r[1..] == LaunchRequests(launcher, n - 1);
      LaunchesSentRequests(launcher, n - 1);
    }
  }

  /** A pool message from the launcher. */
  predicate IsPoolEvent(p: Protocol)
  {
    p.Deliver? && (p.msg.InstancePool? || p.msg.PortsPool?)
  }

  /** One pool update: it sends exactly the requests that bring the count up,
      and either stays in Launch with that count or starts the game. */
  lemma PoolStep(cell: MeleeCell, peers: MeleePeers, p: Protocol)
    requires Inv(cell, peers) && cell.Launch? && IsPoolEvent(p) && Update(cell, peers, p).Ok?
    ensures var (next, effects) := Update(cell, peers, p).value;
            cell.requested + LaunchesSent(effects) <= Needed(cell.isPvp)
            && (next.Launch? ==> next.requested == cell.requested + LaunchesSent(effects)
                                 && next.isPvp == cell.isPvp)
            && (!next.Launch? ==> next.PlayerVsPlayer? || next.PlayerVsComputer?)
  {
    var pooled := if p.msg.InstancePool? then cell.(pool := p.msg.pool) else cell.(portsPool := p.msg.portsPool);
    var n := Launches(pooled.isPvp, |pooled.pool|, pooled.requested);
    var provided := TryProvide(pooled.(requested := pooled.requested + n)).value;
    assert Update(cell, peers, p).value == (provided.0, LaunchRequests(cell.launcher, n) + provided.1);
    LaunchesSentAppend(LaunchRequests(cell.launcher, n), provided.1);
    LaunchesSentRequests(cell.launcher, n);
    assert LaunchesSent(provided.1) == 0 by {
      assert provided.1 == [] || provided.1[0].msg.ProvideInstance?;
      if provided.1 != [] {
        assert provided.1[1..] == [] || provided.1[1..][0].msg.ProvideInstance?;
        if provided.1[1..] != [] {
          assert provided.1[1..][1..] == [];
        }
      }
    }
  }

  /** The launch budget: however the launcher's pools arrive, a launching
      cell sends at most two `LaunchInstance` requests for a game between
      players and at most one for a game against the computer, counting
      those it already sent. */
  lemma {:induction false} LaunchRequestsCapped(cell: MeleeCell, peers: MeleePeers, events: seq<Protocol>)
    requires Inv(cell, peers) && cell.Launch?
    requires forall i :: 0 <= i < |events| ==> IsPoolEvent(events[i])
    requires Run(cell, peers, events).Ok?
    ensures cell.requested + LaunchesSent(Run(cell, peers, events).value.1) <= Needed(cell.isPvp)
    ensures Run(cell, peers, events).value.0.Launch? ==>
              Run(cell, peers, events).value.0.requested
              == cell.requested + LaunchesSent(Run(cell, peers, events).value.1)
    decreases |events|
  {
    if events != [] {
      var (next, effects) := Update(cell, peers, events[0]).value;
      PoolStep(cell, peers, events[0]);
      UpdateKeepsInv(cell, peers, events[0]);
      var rest := Run(next, peers, events[1..]).value;
      assert Run(cell, peers, events).value == (rest.0, effects + rest.1);
      LaunchesSentAppend(effects, rest.1);
      if next.Launch? {
        LaunchRequestsCapped(next, peers, events[1..]);
      }
    }
  }

  // ---------------------------------------------------------------------------
  // Games

  /** A run of two successful events is the two updates in sequence. */
  lemma RunPair(cell: MeleeCell, peers: MeleePeers, e0: Protocol, e1: Protocol)
    requires Update(cell, peers, e0).Ok?
    requires Update(Update(cell, peers, e0).value.0, peers, e1).Ok?
    ensures var (mid, first) := Update(cell, peers, e0).value;
            var (last, second) := Update(mid, peers, e1).value;
            Run(cell, peers, [e0, e1]) == Ok((last, first + second))
  {
    var (mid, first) := Update(cell, peers, e0).value;
    var (last, second) := Update(mid, peers, e1).value;
    assert [e0, e1][1..] == [e1] && [e1][1..] == [];
    assert Run(mid, peers, [e1]) == Ok((last, second + []));
    assert second + [] == second;
  }

  /** Both player setups, in either order, move a set-up cell to Launch with
      the setups in agent order, and the launcher is asked for its pools. */
  lemma SetupsReachLaunch(cell: MeleeCell, peers: MeleePeers, s0: PlayerSetup, s1: PlayerSetup, agent0First: bool)
    requires Inv(cell, peers) && cell.Setup? && cell.slots == (None, None)
    requires cell.agents.0 != cell.agents.1
    requires s0.IsPlayer() || s1.IsPlayer()
    ensures var (e0, e1) := if agent0First
              then (Deliver(cell.agents.0, Message.PlayerSetup(s0)), Deliver(cell.agents.1, Message.PlayerSetup(s1)))
              else (Deliver(cell.agents.1, Message.PlayerSetup(s1)), Deliver(cell.agents.0, Message.PlayerSetup(s0)));
            Run(cell, peers, [e0, e1])
            == Ok((Launch(cell.suite, peers.launcher, cell.agents, cell.clients, cell.game, (s0, s1), [], [],
                          s0.IsPlayer() && s1.IsPlayer(), 0),
                   [Send(peers.launcher, GetInstancePool), Send(peers.launcher, GetPortsPool)]))
  {
    var (e0, e1) := if agent0First
      then (Deliver(cell.agents.0, Message.PlayerSetup(s0)), Deliver(cell.agents.1, Message.PlayerSetup(s1)))
      else (Deliver(cell.agents.1, Message.PlayerSetup(s1)), Deliver(cell.agents.0, Message.PlayerSetup(s0)));
    var half := if agent0First then cell.(slots := (Some(s0), None)) else cell.(slots := (None, Some(s1)));
    assert Update(cell, peers, e0) == Ok((half, []));
    var launched := EnterLaunch(cell.suite, peers.launcher, cell.agents, cell.clients, (s0, s1), cell.game);
    assert Update(half, peers, e1) == launched;
    RunPair(cell, peers, e0, e1);
    assert [] + launched.value.1 == launched.value.1;
  }

  /** Between players, the game is created once both agents are ready,
      whichever is ready first, and only agent 0 is asked to create it. */
  lemma PvpCreatesOnceBothReady(cell: MeleeCell, peers: MeleePeers, agent0First: bool)
    requires cell.PlayerVsPlayer? && cell.ready == (false, false) && cell.agents.0 != cell.agents.1
    ensures var (e0, e1) := if agent0First then (Deliver(cell.agents.0, Ready), Deliver(cell.agents.1, Ready))
                            else (Deliver(cell.agents.1, Ready), Deliver(cell.agents.0, Ready));
            Run(cell, peers, [e0, e1])
            == Ok((cell.(ready := (true, true)),
                   [Send(cell.agents.0, Message.CreateGame(cell.game, [cell.players.0, cell.players.1]))]))
  {
    var (e0, e1) := if agent0First then (Deliver(cell.agents.0, Ready), Deliver(cell.agents.1, Ready))
                    else (Deliver(cell.agents.1, Ready), Deliver(cell.agents.0, Ready));
    var half := if agent0First then cell.(ready := (true, false)) else cell.(ready := (false, true));
    var created := [Send(cell.agents.0, Message.CreateGame(cell.game, [cell.players.0, cell.players.1]))];
    assert Update(cell, peers, e0) == Ok((half, []));
    assert Update(half, peers, e1) == Ok((cell.(ready := (true, true)), created));
    RunPair(cell, peers, e0, e1);
    assert [] + created == created;
  }

  /** The end of a game, once every agent of it has ended: a one-off suite
      completes and stops the network; an endless suite sets up the same
      game again, with the same agents and clients, keeping the suite. */
  lemma GameEndKeepsSuite(cell: MeleeCell, peers: MeleePeers)
    requires Inv(cell, peers) && (cell.PlayerVsPlayer? || cell.PlayerVsComputer?)
    ensures cell.suite.None? ==> NextGame(peers, cell.suite) == Ok((Completed, [StopNetwork]))
    ensures cell.suite.Some? ==>
              NextGame(peers, cell.suite)
              == Ok((Setup(cell.suite, (peers.controllers[0], peers.controllers[1]),
                           (peers.providers[0], peers.providers[1]), cell.game, (None, None)),
                     [Send(peers.controllers[0], RequestPlayerSetup(cell.game)),
                      Send(peers.controllers[1], RequestPlayerSetup(cell.game))]))
  {
  }

  /** A completed cell rejects every further event: no run of one or more
      events from it succeeds. */
  lemma CompletedIsFinal(peers: MeleePeers, events: seq<Protocol>)
    requires events != []
    ensures Run(Completed, peers, events).Err?
  {
    assert Update(Completed, peers, events[0]).Err?;
  }
}
