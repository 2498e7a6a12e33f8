# ChatSphere relay — a Dafny model

ChatSphere relays chat between "customer" and "agent" clients over
WebSockets. All of its logic sits in `server.py`: a module-level registry
(`customers`, a dict from session id to connection, and `agents`, a set of
connections), the per-connection `handler` coroutine with its three locals
(`role`, `session_id`, `picked_customer`), and `notify_agents`, which sends the
list of customer ids to every agent.

This project states that logic as a pure state machine. A `State` holds the
registry and the locals of every open handler; `Step(state, conn, event)`
returns the next state and the ordered outbox of `(recipient, message)`
deliveries. `Receive` first turns a decoded frame into an event exactly as the
handler's `if`/`elif` chain does, and `Run` folds a list of frames.

Files:

- `wrappers.dfy`: `Option` (Python's `None`) and Python truthiness of an optional string.
- `session_ids.dfy`: `"customer_" + str(id(websocket))` over an abstract handle, proved injective.
- `registry.dfy`: `customers` as an ordered list of (key, connection) pairs with dict semantics (`get`, assignment, `del`); the enumeration order of the `agents` set.
- `protocol.dfy`: inbound frames, events, outbound messages, and the branch selection `Decode`.
- `relay.dfy`: the state, the four handler branches, cleanup, `Step`, `Receive`, and `Run` as a fold over inbound frames.
- `invariants.dfy`: the invariant every reachable state keeps, and its preservation.
- `properties.dfy`: presence broadcasts always carry the current customer list.
- `routing.dfy`: where chat goes, stale picks, and what a change of role leaves behind.
- `scenarios.dfy`: whole conversations from the empty relay.

## How the code behaves, where a cleaner relay would differ

The model follows `server.py`, including where a tidier design would not:

- `role` is overwritten by every frame that carries `"role"` (server.py:20-21). There is no "first role wins" rule.
- A connection can be in `customers` and in `agents` at once: it declares `"agent"` and then `"customer"`, or the other way round.
- Cleanup looks only at the last role (server.py:64-68). A connection that registered as a customer and then declared `"agent"` leaves its session id in `customers` for good. `Routing.CustomerTurnedAgentLeavesStaleKey` proves this for any valid state, and `Scenarios.StaleCustomerReachable` shows the state is reachable.
- The reverse case, agent then customer, leaves the connection in `agents`. `Routing.AgentTurnedCustomerStaysAgent` proves it.
- A customer message is gated on `session_id` being set, not on the current role (server.py:46).
- An agent message is gated on `picked_customer` being truthy, not on the current role (server.py:54). An empty pick therefore blocks agent messages.
- A pick is accepted for any id, registered or not (server.py:36). Messages to an id that is not registered are dropped without a reply.
- A malformed frame ends the connection and runs the cleanup. So does a missing `text` key, or a missing `session_id` key in an agent's pick, because the exception leaves the `async for` and the `finally` block runs.

## Model

| member | source | states |
|---|---|---|
| SessionIds.Decimal | server.py:23 | The printed form of a connection identity: at least one character, only decimal digits, and at least two digits from ten upwards |
| SessionIds.DecimalInjective | server.py:23 | Two different identities never print the same |
| SessionIds.SessionIdOf | server.py:23 | A session id is `customer_` followed by something non-empty |
| SessionIds.SessionIdInjective | server.py:23-24 | Two connections get the same session id exactly when they are the same connection, so concurrent customers never share an id |
| Registry.Lookup | server.py:55 | `customers.get(k)` finds a connection exactly when `k` is one of the keys |
| Registry.Put | server.py:24 | Assigning `customers[k]` keeps an existing key in its position and appends a new key at the end; `k` then maps to the new connection and every other key keeps its connection |
| Registry.PutExisting | server.py:24 | Reassigning a key the value it already holds leaves the dict unchanged, position included |
| Registry.PutKeepsKeysUnique | server.py:24 | Assigning under a key never creates a duplicate key |
| Registry.Remove | server.py:64-65 | `del customers[k]` on a present key cuts out exactly the first entry under `k`, and every other entry keeps its relative order; on an absent key, which the guard at server.py:64 never lets through, nothing changes |
| Registry.RemoveKeepsOthers | server.py:64-65 | `del customers[k]` leaves the connection under every other key as it was |
| Registry.KeyIndex | server.py:64-65 | The position of a present key is the first entry holding it |
| Registry.RemoveKeepsOrder | server.py:64-65 | After deleting a present key, the key list is the old one with exactly one occurrence of that key cut out |
| Registry.RemoveDropsKey | server.py:64-65 | With unique keys, after the delete `k` is gone, every other key is still there, and the keys stay unique |
| Registry.Ascending | server.py:73 | An enumeration of the agents set visits every member exactly once and nothing else |
| Protocol.Decode | server.py:16-43 | A frame with `"role"` is a role declaration whatever else it carries; a pick counts only for an agent and only with a `session_id`; a message needs `text`; non-JSON or non-object input, or a missing key that the chosen branch reads, ends the loop; anything else is ignored |
| Protocol.DecodeEncode | server.py:20-43 | Every event is read back unchanged from its canonical frame, with picks sent by an agent |
| Protocol.PickFromNonAgentIgnored | server.py:35-41 | A pick from a connection that is not an agent matches no branch and is ignored, whatever other keys it carries or lacks |
| Protocol.AgentPickWithoutIdCloses | server.py:35-36 | An agent's pick without `session_id` raises and ends the connection, whatever other keys it carries |
| Protocol.MessageWithoutTextCloses | server.py:41-42 | A message without `text` raises and ends the connection, whoever sends it |
| Relay.Broadcast | server.py:47-51 | A fan-out delivers the message once to each member of the group and to nobody else |
| Relay.NotifyAgents | server.py:70-77 | The presence broadcast sends the customer keys, in insertion order, once to each agent and to nobody else |
| Relay.DeclareRole | server.py:20-32 | A role frame always sets `role`. For `"customer"`: the session id is registered without duplication, the connection first gets its session id, and then each agent gets the new list once. For `"agent"`: the connection joins `agents`, `customers` is unchanged, and every agent, the new one included, gets the list. Any other value only sets `role`. Other connections are untouched |
| Relay.PickCustomer | server.py:35-38 | For an agent, `picked_customer` becomes the id with no registration check, and only the agent gets one `Connected with <id>` reply. For anyone else nothing happens. The registry never changes |
| Relay.RelayMessage | server.py:41-57 | A customer message with a session id reaches each agent once, from that id. An agent message with a pick reaches at most one connection: the one registered under the pick, from `"agent"`, and only if that key is registered. Any other message is dropped. No message changes any state |
| Relay.Disconnect | server.py:62-68 | The connection's locals go. A customer whose id is registered loses exactly that key, other keys keep their order, and agents get the shrunk list. Otherwise an agent in `agents` is removed silently. Otherwise the registry is unchanged and nothing is sent |
| Relay.Step | server.py:16-68 | One event changes only its own connection's locals; only a role frame or the cleanup touches `customers` or `agents`; an ignored frame changes nothing and sends nothing; the cleanup drops the connection's locals |
| Relay.Receive | server.py:16-43 | The end of the stream or a non-object frame ends the handler and drops its locals; a frame without `role` whose `type` is neither a pick nor a message, or a pick from a non-agent, changes nothing and sends nothing; other connections' locals are untouched |
| Relay.ReceiveRole | server.py:20-21 | A frame with `role` is that role's declaration whatever the connection's current role |
| Relay.FoldLeavesOthers | server.py:10-16 | Handling any inputs leaves the locals of every connection they do not arrive on as they were |
| Relay.Run | server.py:10-68 | No frames change nothing; each handler's locals are its own, so a connection no frame arrives on keeps them |
| Relay.FoldAppend | server.py:15-68 | Handling two batches of frames one after the other gives the same final state as handling their concatenation, and the sends of the first batch come first |
| Relay.RunAppend | server.py:15-68 | The relay's run over two batches of frames is the run over their concatenation, with the outboxes in order |
| Relay.RunCons | server.py:15-68 | A run over a non-empty list handles its first frame, then the rest |
| Relay.RunOne | server.py:15-68 | A run over one frame is that frame's handling |
| Invariants.InitValid | server.py:7-8 | The empty registry satisfies the invariant |
| Invariants.DeclareRolePreservesValid | server.py:20-32 | Role frames keep keys unique, keep each key equal to its connection's session id, and keep every handler's locals consistent with the registry |
| Invariants.PickCustomerPreservesValid | server.py:35-37 | Picks keep the invariant |
| Invariants.DisconnectPreservesValid | server.py:62-68 | Cleanup keeps the invariant for every connection still open |
| Invariants.StepPreservesValid | server.py:16-68 | Every event keeps the invariant |
| Invariants.FoldPreservesValid | server.py:15-68 | Handling frames one after another, whatever they are and on whichever connections, keeps the invariant |
| Invariants.RunPreservesValid | server.py:15-68 | Any sequence of frames on any connections keeps the invariant |
| Invariants.StepKeepsKeysUnique | server.py:20-68 | No step ever duplicates a key in `customers`, whatever the rest of the state |
| Properties.RedeclaredCustomerNotDuplicated | server.py:22-28 | A connection that declares `"customer"` again leaves `customers` unchanged but is sent its session id again |
| Properties.DeclareRolePresence | server.py:22-32 | Each presence message of a role frame lists the keys after the step and goes to an agent, and every agent gets one |
| Properties.DisconnectPresence | server.py:64-66 | The presence message of a cleanup lists the keys after the removal, and every agent gets one |
| Properties.NoPresenceOutsideRolesAndClose | server.py:35-57 | Picks, chat and ignored frames never send a presence message |
| Properties.PresenceIsCurrent | server.py:70-77 | In a valid state, every presence message of a step lists exactly the registered keys after the step, with no duplicates, and goes to an agent; when one is sent, every agent gets it |
| Routing.CustomerMessageFansOut | server.py:46-51 | A customer's message reaches each agent once, from the customer's own session id, reaches no other connection, and changes nothing |
| Routing.AgentMessageReachesPicked | server.py:54-57 | An agent's message for a registered pick reaches exactly that customer's connection, from `"agent"` |
| Routing.StalePickDropsSilently | server.py:54-65 | After the picked customer disconnects, the agent's messages are dropped with no reply |
| Routing.AgentMessageIgnoresRole | server.py:20-57 | Declaring an unknown role does not change where an agent's messages go |
| Routing.CustomerTurnedAgentLeavesStaleKey | server.py:62-68 | A connection whose last role is `"agent"` but that holds a session id closes without removing that id, and sends nothing |
| Routing.AgentTurnedCustomerStaysAgent | server.py:62-68 | A connection whose last role is `"customer"` but that is still in `agents` is removed from `customers` and stays in `agents` |
| Scenarios.SessionIdOfZero | server.py:23 | Identity 0 gets `customer_0` |
| Scenarios.FirstCustomerJoins | server.py:22-28 | A customer joining an empty relay gets its session id and nothing else is sent |
| Scenarios.SecondCustomerJoins | server.py:22-28 | A second customer, with no agent around, is listed after the first and gets only its own id |
| Scenarios.TwoCustomersJoin | server.py:22-28 | Two customers joining an empty relay are each told their own id, in order, and listed in join order |
| Scenarios.FirstAgentJoins | server.py:29-32 | A lone agent joining is sent the current list |
| Scenarios.CustomerThenAgentJoin | server.py:20-32 | A customer then an agent: the customer gets its id and the agent gets a one-element list |
| Scenarios.AgentPicks | server.py:35-37 | The agent's pick is stored and acknowledged |
| Scenarios.CustomerSaysHi | server.py:46-49 | The customer's "hi" reaches the agent from the customer's id |
| Scenarios.AgentSaysHello | server.py:54-57 | The agent's "hello" reaches the picked customer from `"agent"` |
| Scenarios.PickThenChat | server.py:35-57 | With customer and agent joined, the pick, the customer's "hi" and the agent's "hello" produce exactly the reply, the fan-out and the targeted send, in order |
| Scenarios.PickAndChat | server.py:16-57 | The whole join, pick and chat conversation produces exactly the five expected deliveries, in order |
| Scenarios.AgentSeesCustomersInJoinOrder | server.py:22-32 | After two customers and then an agent join, the agent's list holds both ids in join order |
| Scenarios.CustomerDeclaresAgent | server.py:20-32 | A registered customer that declares `"agent"` joins the agents, keeps its key, and is sent the list |
| Scenarios.AgentWithStaleKeyCloses | server.py:62-68 | Closing that connection drops it from the agents and forgets its locals, but its key stays registered |
| Scenarios.StaleCustomerReachable | server.py:20-68 | Declaring customer, then agent, then closing leaves a registered id with no open handler |

## Left out

- WebSocket transport, `websockets.serve`, the `PORT` environment read and `asyncio.run` (server.py:80-89): these are I/O and process start-up. Frames come in as `Frame` values and sends go out as `Delivery` values.
- JSON encoding and decoding: inbound frames are already decoded, and outbound messages are datatypes. Text that is not JSON, or JSON that is not an object, is `Malformed` and ends the connection, as the raised exception does.
- Protocol.Decode: only string field values are modelled. A `role`, `session_id`, `text` or `sender` holding a number, `null`, a list or an object is not. For example, `"role": null` resets the role to `None`, and an unhashable pick raises at `customers.get`.
- `print` logging (server.py:26,31,38,60): it has no effect on behaviour.
- Interleavings at `await` points between a registry change and its broadcast (server.py:24-28, 65-66): each event is one atomic step.
- Send failures: every send is a delivery that succeeds. The code swallows exceptions in the fan-out and presence loops (server.py:48-51, 74-77), while the unguarded send at server.py:57 can kill the agent's handler. Neither is modelled.
- A send to a connection whose handler is closing: the presence list sent during a cleanup goes to every agent, and that can include the closing connection itself.
- Real `id(websocket)`: a connection is an abstract `nat` handle. A frame on a handle with no open handler starts with fresh locals, so a reused handle behaves like a new connection with the same identity.
- Relay.Broadcast: Python iterates `agents` in an unspecified order. The model sends in ascending handle order, and no contract depends on that order.
