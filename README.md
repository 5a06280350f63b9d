# nuro-sc2 lobes, modelled in Dafny

This project models the message-driven core of nuro-sc2, a Rust framework
that connects StarCraft II bots to game instances. The five components are:

- **The client lobe** (`ClientLobe`, src/client.rs) owns the WebSocket
  connection to one game instance. It moves through
  `Init → AwaitInstance → Connect → Open → Disconnect`, with a budget of
  10 connect attempts. While open, it pairs each response frame with the
  oldest pending transaction, first in, first out, and a timeout removes a
  pending transaction by id. The file also holds the request and response
  kind classifiers and `Transactor::expect`, which checks a response for
  the requester.
- **The melee cell** (`MeleeCell`, src/melee.rs) runs a suite of games
  between two agents. It collects their player setups and classifies the
  game as player-vs-player or player-vs-computer. It requests instances
  from the launcher up to a cap, binds instances and port sets to the
  clients, tracks the ready and ended flags, and then repeats the suite or
  completes it.
- **The action service** (`ActionService`, src/action.rs) batches the
  actions and debug commands that bots send. On each game step it flushes
  both batches to the game, actions first, and clears a batch only once
  its request has succeeded.
- **The launcher** (src/launcher.rs) selects the game executable and its
  support directory. It then hands out ports three at a time to every
  instance it launches and every multiplayer game it prepares.
- **The agent lobe** (`AgentLobe`, src/lobes/agent.rs) is a stateless relay
  between the melee controller, the bot, and the bot's client lobe.

The lobes are modelled as pure transition functions of the form
`Update(state, peers, event) -> Result<(state, effects)>`. An event is
`Start` or a message delivered from a peer handle. An effect is a message
sent to a handle, or a request to the environment: spawn a connection
attempt, transmit a request, complete a transaction, or stop the network.
`Run` folds `Update` over a sequence of events, so an interleaving of
events from the network and the timers is just a sequence, and the
timeout/response race is stated over both orders.

The action service and the launcher update fields in place in the source,
so they are classes:

- `ActionService` keeps its batches as `seq` fields. It talks to a
  `ProtoClient` whose `Request` logs each request and may fail.
- `Launcher` keeps a port counter, plus a ghost set of the ports handed
  out so far.

The loops of the source are methods proved against specification
functions:

- the launch loop of `launch_instances`;
- the loops that build the action and debug requests;
- the service's event loop;
- the selection loop of `select_exe`.

Files:

- `lobes.dfy`: the shared vocabulary. It holds the messages, roles, player
  setups, port sets, protocol events, effects and errors.
- `client.dfy`, `melee.dfy`, `action.dfy`, `launcher.dfy` and `agent.dfy`:
  one module per core source file.

## Model

| member | source | states |
|---|---|---|
| Client.FieldsKind | src/client.rs:130-194 | The classifier shared by both `get_kind` chains. The kind is `Unknown` exactly when no known field is set. Otherwise it is a set field, and no set field comes earlier in the fixed priority order. |
| Client.RequestKind | src/client.rs:130-194 | A request's kind is `Unknown` exactly when none of its known fields is set; otherwise it is the set field that comes first in the priority order. |
| Client.ResponseKind | src/client.rs:215-279 | The same classification over the fields of a response. The errors play no part. |
| Client.KindsAgree | src/client.rs:130-279 | A request and a response with the same populated fields get the same kind, whatever errors the response carries. |
| Client.RankInjective | src/client.rs:80 | Distinct kinds have distinct priorities, so the priority order is total. |
| Client.WithTimeout | src/client.rs:118-128 | A request keeps its transaction id, payload and timeout, and its kind is the classifier's kind of the payload. |
| Client.NewRequest | src/client.rs:112-116 | A new request uses the default timeout of 5 seconds and the classified kind. |
| Client.NewResponse | src/client.rs:205-213 | A response is labelled with the given transaction id and the classified kind of its payload. |
| Client.SendRequest | src/client.rs:33-48 | Sending a request sends it to the client handle and returns a transactor that remembers the client, the transaction id and the kind. |
| Client.Expect | src/client.rs:50-76 | The checks run in the source's order. A response from another handle fails with "unexpected source for client response". From the client, a different transaction id fails with "transaction id mismatch". It succeeds, returning the response unchanged, exactly when the source, transaction id and kind match and the error list is empty. A kind mismatch yields `KindMismatch`. A non-empty error list yields `GameErrors` carrying those strings in order. |
| Client.Reset | src/client.rs:361-365 | Resetting returns to `AwaitInstance`. The only message sent is `ClientClosed`, to the client. |
| Client.ResetError | src/client.rs:367-375 | Resetting on an error returns to `AwaitInstance` and sends the client `[ClientError(e), ClientClosed]`, in that order. |
| Client.StartConnect | src/client.rs:411-427 | Entering `Connect` grants 10 retries. The only message sent is one `ClientAttemptConnect` with the instance's URL, to the lobe itself. |
| Client.AttemptConnect | src/client.rs:447-470 | An attempt from the lobe itself succeeds exactly when retries remain. It spends one retry and spawns one connection attempt. With none left it fails with "unable to connect to instance". |
| Client.OpenConnection | src/client.rs:581-599 | Entering `Open` starts with an empty queue. The only message sent is `Ready`, to the client. |
| Client.SendTransaction | src/client.rs:632-642 | A request from the client appends its id to the back of the queue, leaving earlier entries unchanged, and transmits it with its timeout. Any other sender fails. |
| Client.Receive | src/client.rs:677-706 | A non-binary frame is rejected with "unexpected non-binary message" before the queue is touched. An empty queue fails with "no pending transactions for this response". Otherwise the front id is popped and the response goes to the client labelled with that id. |
| Client.Position | src/client.rs:714-715 | Finds the first index holding the id, or returns none exactly when the id is absent. |
| Client.RemoveAt | src/client.rs:716 | Removing an index keeps the entries before it and shifts the entries after it down by one. |
| Client.OnTimeout | src/client.rs:708-723 | A timeout for a pending id removes one occurrence of it and sends one `ClientTimeout`. A timeout for an absent id changes nothing and sends nothing. |
| Client.TimeoutRemovesEntry | src/client.rs:708-723 | A timeout removes exactly the first entry with the id and keeps all the others in order. |
| Client.Update | src/client.rs:334-765 | The phase table. Every phase rejects the events it has no handler for. `Init` moves to `AwaitInstance` on `Start` and on nothing else. `AwaitInstance` moves to `Connect` with 10 retries on `ProvideInstance` from the provider. In `Connect`, an attempt from the lobe itself succeeds exactly while retries remain and spends one. The connection from the lobe itself opens with an empty queue and sends `Ready` to the client. In `Open`, requests, frames and timeouts go to `SendTransaction`, `Receive` and `OnTimeout`, and it stays open exactly on those. `ClientDisconnect` from any sender always succeeds, moves to `Disconnect` and sends nothing; no other event moves to `Disconnect`. `Open` moves back to `AwaitInstance` exactly on `ClientClosed` or `ClientError`. `Disconnect` accepts only closure or error, and both return to `AwaitInstance`. A closure sends the client `[ClientClosed]`, and an error sends it `[ClientError(e), ClientClosed]`, in that order. |
| Client.RetriesCountAttempts | src/client.rs:429-470 | While no connection arrives, the attempts spawned plus the retries left equal the retries at the start. |
| Client.ConnectRetryBound | src/client.rs:282 | At most 10 connection attempts are spawned. Once 10 have been spawned, the next attempt fails with "unable to connect to instance". |
| Client.OpenFifo | src/client.rs:632-706 | Over any run of requests and frames, the ids answered followed by the ids still pending equal the ids pending at the start followed by the ids requested. |
| Client.RequestsAnsweredInOrder | src/client.rs:632-706 | When a run from an empty queue drains it, responses are labelled with exactly the requested ids, in send order. |
| Client.ResponseBeforeTimeout | src/client.rs:677-723 | If the response wins the race, the client gets the response, and the later timeout is a no-op. |
| Client.TimeoutBeforeResponse | src/client.rs:677-723 | If the timeout wins the race, the client gets the timeout, and the late response is paired with the next pending transaction `u`. `u`'s `Expect` rejects it on kind only when the kinds differ. With the same kind and no errors, it accepts the late response as `u`'s answer. |
| Client.ExpectAcceptsPairedResponse | src/client.rs:50-76 | A sent, queued and answered request is accepted by `Expect` exactly when the response has the request's kind and no errors. |
| Melee.FollowOn | src/melee.rs:187-194 | A one-off suite leaves nothing to follow. An endless suite keeps itself with the same game. |
| Melee.EnterSetup | src/melee.rs:175-217 | Fails with "expected 2 clients", then with "expected 2 agents", unless there are exactly two instance providers and two controllers. Otherwise it sends `RequestPlayerSetup` with the suite's game to both agents and starts with empty slots. |
| Melee.OnPlayerSetup | src/melee.rs:237-264 | A setup from agent 0 or agent 1 fills only that agent's slot, and any other source is an error. The cell moves on to launch exactly when both slots are filled. |
| Melee.Classify | src/melee.rs:295-308 | Player plus player is player-vs-player. Player plus computer, in either order, is player-vs-computer. Two computers fail with "invalid player setups". |
| Melee.EnterLaunch | src/melee.rs:285-334 | Launching starts with empty pools and no instances requested, in the classified mode, and asks the launcher for both pools. |
| Melee.Launches | src/melee.rs:381-404 | Instances are launched exactly when the pool is below the need (2 or 1) and the requests are below the cap. The launches then bring the request count to the cap. |
| Melee.LaunchInstances | src/melee.rs:381-404 | The launch loop sends exactly the `Launches` count of `LaunchInstance` messages to the launcher and raises the request count by that amount. The phase machine, which is made of functions, uses that closed form (`Launches` and `LaunchRequests`, through `Replenish`); this method is the loop proved equal to it. |
| Melee.TryProvide | src/melee.rs:406-478 | Player-vs-player leaves launch only with at least 2 instances and a port set. The ports are the first port set, with its client ports replaced by the two instances' ports in the order the clients are provided. Player-vs-computer needs one instance and provides it only to the agent whose setup is a player. It moves to the player-vs-computer phase with the suite, the game, the player's setup, the computer's setup and that agent. With no player setup it fails. |
| Melee.Replenish | src/melee.rs:357-404 | A pool update first sends the launches the new pool calls for, then tries to provide instances. |
| Melee.OnInstancePool | src/melee.rs:357-368 | An instance pool from anyone but the launcher fails the sender check. Otherwise it replaces the pool and replenishes. |
| Melee.OnPortsPool | src/melee.rs:369-379 | A ports pool from anyone but the launcher fails the sender check. Otherwise it replaces the ports pool and replenishes. |
| Melee.Complete | src/melee.rs:722-728 | Completing reaches `Completed` and stops the network, sending no message. |
| Melee.NextGame | src/melee.rs:603-609 | With no suite left, the cell completes. Otherwise it sets up the kept suite again. |
| Melee.PvpReady | src/melee.rs:549-570 | `Ready` from an agent sets only that agent's flag, and any other source fails. `CreateGame` with both setups goes to agent 0 exactly when both flags are set. |
| Melee.PvpCreated | src/melee.rs:572-585 | Only agent 0 may report `GameCreated`. Both agents then get `GameReady` with their setup and the game's ports. |
| Melee.PvpEnded | src/melee.rs:587-609 | `GameEnded` from an agent sets only that agent's flag, and any other source fails. The next game starts exactly when both flags are set. |
| Melee.PvcReady | src/melee.rs:674-688 | Only the player agent may be ready. It is then asked to create the game against the computer. |
| Melee.PvcCreated | src/melee.rs:690-701 | Only the player agent may report creation. It then gets `GameReady` without ports. |
| Melee.PvcEnded | src/melee.rs:703-714 | Only the player agent may end the game, which moves on to the next game. |
| Melee.Update | src/melee.rs:145-742 | Every phase accepts only the messages it handles. Anything else is `unexpected message`, or `unexpected protocol message` for a non-message event. `Init` starts with setup on `Start`, and `Completed` handles nothing. Reaching `Completed` always stops the network. |
| Melee.UpdateKeepsInv | src/melee.rs:145-742 | Every successful update keeps the invariant: two agents and two clients, the suite kept or gone, the launch mode matching the setups, requests within the cap, and game phases holding the setups their mode needs. While launching, the mode never changes and the request count never decreases. |
| Melee.LaunchAcceptsPools | src/melee.rs:357-478 | A launching cell that keeps the invariant accepts every pool from the launcher, so the player-setup assertion can never fail. |
| Melee.LaunchRequestsCapped | src/melee.rs:381-404 | Over any run of pool updates, the requests made plus those sent never exceed 2 for player-vs-player or 1 for player-vs-computer. The cell's count equals the requests actually sent. |
| Melee.SetupsReachLaunch | src/melee.rs:237-334 | Two valid setups, arriving in either order, bring the cell to launch in the classified mode and ask for both pools. |
| Melee.PvpCreatesOnceBothReady | src/melee.rs:549-570 | Whichever agent is ready first, exactly one `CreateGame` is sent, to agent 0, after the second `Ready`. |
| Melee.GameEndKeepsSuite | src/melee.rs:603-609 | At a game's end, a one-off suite completes and stops the network. An endless suite sets up the same game again, with the same agents and clients. |
| Melee.CompletedIsFinal | src/melee.rs:730-742 | No run of one or more events from `Completed` succeeds. |
| Action.SentAppend | src/action.rs:134-169 | The actions and commands carried by a log of requests distribute over concatenation. |
| Action.EnqueuedAppend | src/action.rs:116-126 | The actions and commands a request stream enqueues distribute over concatenation. |
| Action.ProtoClient.Request | src/action.rs:144 | Each request is logged at the end of what was sent. |
| Action.ActionService.constructor | src/action.rs:82-95 | Both batches start empty. |
| Action.ActionService.BuildActionRequest | src/action.rs:135-142 | The action request carries every batched action, in batch order. |
| Action.ActionService.BuildDebugRequest | src/action.rs:154-161 | The debug request carries every batched command, in batch order. |
| Action.ActionService.SendActions | src/action.rs:134-150 | One action request with the whole batch is sent. The batch is emptied only if the request succeeds, and the debug batch is untouched. |
| Action.ActionService.SendDebugBatch | src/action.rs:153-169 | One debug request with the whole batch is sent. The batch is emptied only if the request succeeds, and the action batch is untouched. |
| Action.ActionService.OnStep | src/action.rs:109-115 | There are three outcomes. The action flush fails and nothing else is sent. The debug flush fails after the action batch was emptied. Or both requests go out, actions first, both batches empty, and the step is acknowledged, which fails with "unable to ack step" if nobody waits. No acknowledgement follows a failed flush. |
| Action.ActionService.OnSendAction | src/action.rs:116-121 | The action is appended to the action batch, the debug batch is unchanged, and the acknowledgement fails with "unable to ack send command" if nobody waits. |
| Action.ActionService.OnSendDebug | src/action.rs:122-126 | The command is appended to the debug batch, the action batch is unchanged, and the acknowledgement fails with "unable to ack send debug" if nobody waits. |
| Action.ActionService.Dispatch | src/action.rs:107-128 | A handled request conserves everything: what was sent plus what is batched grows by exactly what the request carried, and the request is acknowledged. |
| Action.ActionService.Serve | src/action.rs:98-131 | When every request succeeds, no action or command is lost, duplicated or reordered. What was sent followed by what is batched equals the starting batch followed by everything the bots sent. Every request is acknowledged. |
| Launcher.DefaultSettings | src/launcher.rs:30-37 | No install directory, no Wine, base port 9168. |
| Launcher.Separator | src/launcher.rs:167-171 | Only the separators `\` and `/` are supported. A backslash is doubled for use in the pattern. |
| Launcher.SelectExeSpec | src/launcher.rs:160-259 | `select_exe` as written. It fails on Windows with Wine, then on an unsupported separator. Otherwise its result is the left fold of the selection step over the entries in glob order. |
| Launcher.SelectExe | src/launcher.rs:160-259 | The selection loop returns the specification's result. |
| Launcher.MaxVersion | src/launcher.rs:190-256 | The highest version among the entries. On a non-empty list it is attained by some entry. |
| Launcher.SelectTracksMaxVersion | src/launcher.rs:190-256 | The loop's current version is always the highest version seen. |
| Launcher.NativeChoosesHighest | src/launcher.rs:190-256 | Without Wine, an executable is found exactly when there is an entry, and it is the path of an entry of the highest version. |
| Launcher.WineChoosesX32 | src/launcher.rs:190-256 | Under Wine, only a 32-bit entry is ever chosen. |
| Launcher.WineNotFound | src/launcher.rs:190-256 | Under Wine, "exe not found" happens exactly when every 32-bit entry has a version no higher than some entry before it. |
| Launcher.ArchIsSticky | src/launcher.rs:239-249 | Once the recorded architecture is 64-bit, it never returns to 32-bit. |
| Launcher.StaleArchExample | src/launcher.rs:239-249 | For the entries A(1, X32), B(1, X64), C(2, X32), D(2, X32), the source reports D with a 64-bit architecture, although D is 32-bit. |
| Launcher.FoldsAgree | src/launcher.rs:190-256 | The corrected loop records the same version as the loop as written, and finds an executable exactly when it does. |
| Launcher.ChosenIsEntry | src/launcher.rs:190-256 | The corrected choice is always one of the entries. |
| Launcher.SelectExeFixed | src/launcher.rs:160-259 | The corrected selection fails exactly when `select_exe` fails, with the same leading errors. When it succeeds, it reports an entry's path together with that entry's own architecture. |
| Launcher.FixedChoosesHighest | src/launcher.rs:190-256 | Without Wine, the corrected choice is an entry of the highest version, and it is 64-bit whenever that version has a 64-bit entry. Something is found exactly when there is an entry. |
| Launcher.FixedExample | src/launcher.rs:239-249 | On the same four entries, the corrected selection reports D as 32-bit. |
| Launcher.SelectPwd | src/launcher.rs:261-286 | The support directory is `dir + separator + "Support"`, plus `"64"` for a 64-bit executable. It is absent exactly when that path is not a directory. |
| Launcher.Launcher.constructor | src/launcher.rs:60-69 | A new launcher hands out ports from the base port, and none have been handed out yet. |
| Launcher.Launcher.Launch | src/launcher.rs:73-100 | A missing executable is refused before any port is taken. Otherwise the instance listens on 127.0.0.1 at the current port, with game port current+1 and base port current+2, and the counter moves on by 3. The three ports were never handed out before. |
| Launcher.Launcher.CreateGamePorts | src/launcher.rs:103-116 | The shared port is the current port, the server's game and base ports are the next two, and there are no client ports. The counter moves on by 3, and the ports are new. |
| Launcher.InstallDir | src/launcher.rs:51-58 | The configured directory when there is one, otherwise the result of auto-detection. |
| Launcher.Assemble | src/launcher.rs:59-69 | Given a selected executable, the launcher uses it, the support directory for its architecture, and the base port. A selection error is returned unchanged. |
| Launcher.FromSettings | src/launcher.rs:50-70 | `Launcher::from` as written. A missing install directory fails with the auto-detection error. Otherwise it builds a launcher exactly when `select_exe` succeeds, with the executable that `select_exe` reports, the support directory for the architecture it reports, and the counter at the base port. |
| Launcher.FromSettingsFixed | src/launcher.rs:50-70 | The same steps as `Launcher::from`, with the corrected selection. It succeeds in exactly the same cases as `Launcher::from`, and the support directory follows the chosen executable's own architecture. |
| AgentLobe.Update | src/lobes/agent.rs:138-170 | Every update sends at most one message. Its only failure is a failed sender check. |
| AgentLobe.UpdateFollowsTable | src/lobes/agent.rs:61-170 | An unhandled message is ignored. A handled message from the wrong peer fails. From the right peer it yields exactly the routing table's reply: `Ready` to the controller for `Connected`, the three relays unchanged, `GameCreated` to the controller for `CreateGame`, and nothing for `GameReady`. |
| AgentLobe.RelaysUnchanged | src/lobes/agent.rs:69-131 | `RequestPlayerSetup`, `PlayerSetup` and `ProvideInstance` are forwarded unchanged. `GameReady` is expected from the controller and answered with nothing. |
| AgentLobe.BotReceivesSetupRequests | src/lobes/agent.rs:69-79 | Over a successful run, the bot receives exactly the setup requests delivered to the lobe, unchanged and in order. |

## Left out

Transport and substrate:
- Transport is left out: the WebSocket connection and its frames, tokio timers, futures, channels, and protobuf encoding and decoding. Events stand for them. A received frame is either non-binary or binary with an optionally decodable response, and a decode failure is an error.
- The actor substrate is left out: `Soma`, port-arity constraints and effectors. `soma.update` is transparent, required inputs and outputs are handles passed in as peers, and a send is an effect in the output list.
- The one-shot completion senders in the client queue are left out. The queue holds transaction ids, and a completion becomes a `CompleteTransaction` effect.

Modelling choices:
- The in-place mutation of the `Open` queue is left out. The `VecDeque` is a `seq` that each update replaces, and the same holds for the melee cell's fields.
- `HashMap` iteration order in the melee cell is left out. The instance and port pools are sequences, and the two instances taken are the first two in the pool. Duplicate keys are not excluded.
- Formatted values inside error strings are left out, such as the counts in "expected 2 clients" and the kinds in the kind-mismatch error. Errors are datatype values.
- Panics are modelled as errors. A failed `assert_eq!` on a sender becomes an `AssertionFailed` error, and the panic on an unsupported path separator becomes an error result of `Separator`.
- The contents of actions and debug commands are left out, and so is the `into_proto` conversion failure. Only their identity and order matter here.

Launcher:
- Launcher.Launcher.Launch: requires that the current port plus 3 stays within the `u16` range. The source's overflow behaviour is not modelled.
- Launcher.Launcher.CreateGamePorts: requires that the current port plus 3 stays within the `u16` range, for the same reason.
- The starting of the game process is left out, and so is everything in src/instance.rs. `Launch` stops at configuring the instance.
- Filesystem checks are parameters: auto-detection of the install directory, the glob and regex over the versions directory, `is_dir` and `is_file`.

Not modelled:
- src/unit.rs, src/data, src/lobes/ctrlc_breaker.rs, the `Agent` trait of src/agent.rs and the example bot are not part of this model. They are declarations, float conversions, a signal handler and example wiring.
- Console output is not modelled.

Behaviour worth noting:
- The client lobe does not compare a response's kind with the request's kind when it receives a frame. That check happens only in `Transactor::expect`, and the model follows the code.
- The launch loop of the melee cell counts requests against a cap of 2 (player-vs-player) or 1 (player-vs-computer), including requests already sent, as the code does.
- `Launcher.FromSettings` builds the launcher exactly as `Launcher::from` does, with `select_exe` as written, including its stale architecture (see Findings). `Launcher.FromSettingsFixed` is the same construction with the corrected selection. On the Findings input, and on B(1, X64), A(1, X32), the two can pick a different executable or support directory.
- A timeout does not resynchronise the client lobe's queue with the game. If a transaction times out and its response arrives later, that response is paired with the next pending transaction. A requester of the same kind then accepts it as its own answer (`Client.TimeoutBeforeResponse`).

## Findings

| source | as written | input that shows it | evidently intended | confidence | as-written member | corrected member |
|---|---|---|---|---|---|---|
| src/launcher.rs:239-249 | At an equal version without Wine, `select_exe` always replaces the path with the new entry's. Once any 64-bit entry has been seen, it keeps the recorded architecture at 64-bit. A later 32-bit entry of the same version is then reported as 64-bit. | Entries in glob order A(1, X32), B(1, X64), C(2, X32), D(2, X32) give `("D", X64)`, although D is a 32-bit executable, so the support directory `Support64` would be picked for it. | The reported architecture is the chosen executable's own, and at an equal version a 64-bit entry is preferred. | not executed | Launcher.StaleArchExample | Launcher.FixedChoosesHighest |
