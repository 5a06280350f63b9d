// The shared vocabulary of the actor network: actor identities, port roles,
// the messages exchanged between lobes (src/lobes/mod.rs), the data records
// they carry, and the effects a lobe's update produces.
module Lobes {

  datatype Option<T> = None | Some(value: T)

  /** Errors a lobe's update can return; every one of them ends the network. */
  datatype Error =
    | Bail(reason: string)             // `bail!("...")`
    | GameErrors(errors: seq<string>)  // `ErrorKind::GameErrors`: errors reported by the game
    | KindMismatch(expected: ClientMessageKind, got: ClientMessageKind)
    | AssertionFailed(what: string)    // an `assert_eq!` on the sender that does not hold
    | DecodeFailed                     // a binary frame that does not parse as a response
    | RequestFailed                    // a request through the protocol client that failed
    | ExeDoesNotExist(path: string)    // the game executable is not a file

  datatype Result<T> = Ok(value: T) | Err(error: Error)

  /** Opaque, comparable identity of an actor (a lobe or cell) in the network. */
  type Handle = nat

  type Uuid = nat
  type TransactionId = Uuid
  type Url = string

  /** Roles that name the ports lobes are connected through. */
  datatype Role = Launcher | InstancePool | InstanceProvider | Controller | Agent | Client

  datatype Race = Terran | Zerg | Protoss | Random

  /** A participant of a game: a bot-controlled player or the built-in AI. */
  datatype PlayerSetup = Player(race: Race) | Computer(race: Race, difficulty: nat)
  {
    predicate IsPlayer() { Player? }
    predicate IsComputer() { Computer? }
  }

  /** Settings of one game; the core only copies and forwards them. */
  datatype GameSettings = GameSettings(mapName: string)

  /** The two ports an instance uses for a game. */
  datatype PortSet = PortSet(gamePort: nat, basePort: nat)

  /** The ports of a multiplayer game: shared, server and one set per client. */
  datatype GamePorts = GamePorts(sharedPort: nat, serverPorts: PortSet, clientPorts: seq<PortSet>)

  /** An entry of the launcher's instance pool: instance id, endpoint and its ports. */
  datatype PoolEntry = PoolEntry(id: Uuid, url: Url, ports: PortSet)

  /**
   * The request/response kinds. A request or response envelope is modelled by
   * the set of its populated one-of fields, each field named by the kind it
   * stands for (`Unknown` names no field).
   */
  datatype ClientMessageKind =
    | Unknown | CreateGame | JoinGame | RestartGame | StartReplay | LeaveGame
    | QuickSave | QuickLoad | Quit | GameInfo | Observation | Action | Step
    | Data | Query | SaveReplay | ReplayInfo | AvailableMaps | SaveMap | Ping | Debug

  datatype Request = Request(fields: set<ClientMessageKind>)

  /** A response: its populated fields and the error strings the game reported. */
  datatype Response = Response(fields: set<ClientMessageKind>, errors: seq<string>)

  datatype ClientRequest = ClientRequest(
    transaction: TransactionId, request: Request, timeout: nat, kind: ClientMessageKind)

  datatype ClientResponse = ClientResponse(
    transaction: TransactionId, response: Response, kind: ClientMessageKind)

  /** A WebSocket frame as read from the instance: a binary frame (its
      payload decoded, or `None` when it does not parse) or any other frame. */
  datatype Frame = Binary(decoded: Option<Response>) | NonBinary

  datatype Message =
    | LaunchInstance
    | GetInstancePool
    | GetPortsPool
    | InstancePool(pool: seq<PoolEntry>)
    | PortsPool(portsPool: seq<GamePorts>)
    | ProvideInstance(instance: Uuid, url: Url)
    | ClientAttemptConnect(target: Url)
    | ClientConnected
    | Connected
    | ClientRequest(req: ClientRequest)
    | ClientResponse(rsp: ClientResponse)
    | ClientReceive(frame: Frame)
    | ClientTimeout(transaction: TransactionId)
    | ClientDisconnect
    | ClientClosed
    | ClientError(error: Error)
    | Ready
    | RequestPlayerSetup(settings: GameSettings)
    | PlayerSetup(setup: PlayerSetup)
    | CreateGame(game: GameSettings, players: seq<PlayerSetup>)
    | GameCreated
    | GameReady(player: PlayerSetup, gamePorts: Option<GamePorts>)
    | GameEnded

  /** A lifecycle event delivered to a lobe after the substrate has consumed
      its own wiring events. */
  datatype Protocol = Start | Deliver(src: Handle, msg: Message)

  /** What an update does besides returning the next state: messages sent to
      peers, network shutdown, and the asynchronous tasks it spawns. */
  datatype Effect =
    | Send(to: Handle, msg: Message)
    | StopNetwork
    | SpawnConnect(url: Url)
    | SpawnTransmit(transaction: TransactionId, request: Request, timeout: nat)
    | CompleteTransaction(transaction: TransactionId)

  /** The messages among `effects` that go to `to`, in send order. */
  function SentTo(effects: seq<Effect>, to: Handle): (r: seq<Message>)
    ensures |r| <= |effects|
    ensures forall m :: m in r ==> Send(to, m) in effects
  {
    if effects == [] then []
    else
      var rest := SentTo(effects[1..], to);
      if effects[0].Send? && effects[0].to == to then [effects[0].msg] + rest else rest
  }
}
