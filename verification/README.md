# Hedgehog dataplane plugin: a verified model of its RPC session

The plugin sits between zebra and a dataplane. It takes work contexts from zebra, turns them into
requests, sends these over a Unix socket, matches the responses that come back, and returns each
context to zebra with a verdict. This project models that session as a state machine, implements it
again as Dafny classes that update their fields in place, and proves what holds after every run:
for any work zebra hands over, any outcome of every socket call and any message the dataplane sends.
A smaller part covers the plugin's arguments.

## How it is laid out

- `Messages`, `Process`, `Dispatch`: contexts, requests, responses; what the plugin decides about each
  context, and that this is what the context asks for.
- `Trace`: the history of a run, as a list of events, and what the properties of a run say about it.
- `MsgCache`, `RpcStats`, `NextHops`, `Options`: the three message lists, the counters, the choice of
  next-hops, and the arguments, each with its class or method.
- `Session`: the specification. Each function is what one function of the plugin does to the whole
  state. `Take` is one callback run by FRR's event loop, `Run` a list of them.
- `Plugin`: the class with the plugin's static variables as fields. Each method is proved to take the
  state to what the function of `Session` says, down to `Deliver`, which is `Take`.
- `Dataplane`: what a well-behaved dataplane may answer, as a judgement on the history.
- `Invariants`, `Sending`, `Receiving`, `Steps`: the invariant, and that everything keeps it.
- `Operations`, `Effects`, `Handling`, `Diligence`: what each operation does, in terms of the outcomes
  and the messages it meets.
- `Consequences`, `Theorems`: the results. `Theorems` is about whole runs.
- `Scenarios`: two concrete runs; the first shows that the assumptions on the dataplane can be met.
- `Bags`: sums of multisets.

## Conventions

- **Outcomes.** Every callback comes with the outcomes of the system calls it will make (`Env`): sends
  (accepted, EAGAIN, ENOBUFS or ENOMEM, EINTR, connection error, other error, encoding failure, short
  write), connects and receives. When they run out, a send or a receive would block and a connect is
  refused. The mutual recursion between sending and reconnecting ends because it consumes outcomes:
  nothing in the program bounds it.
- **Events.** FRR clears an event's reference before it runs the callback, and adding an event whose
  reference is set does nothing. A callback runs only if its event is armed.
- **BUG** has its release meaning: log, and return. So a message that still holds a context is not put
  back in the pool by `dp_msg_recycle`; the history counts it, and its context, as lost.
- **abort()** ends the run, with status `Aborted`. What held before holds then too, with the refused
  Connect in hand.
- **Addresses.** A message is a value with an address. `Theorems.MessagesInOnePlace` shows that no
  address is ever in two places, which is what makes values enough.
- **Sequence numbers** are unbounded.
- **The path of the dataplane's socket** may be refused for its length before connecting (`BadPath`).

## Findings

- Connects never reach the unsent queue: this answers the question at `src/hh_dp_comm.c:319`, and
  while the dataplane is not ready a drain changes nothing (`Theorems.ListContents`,
  `Operations.NotReadyNoChange`).
- The test of the connect timer in the error path of a send never fails
  (`Sending.LostLinkReconnects`), and a socket that is not connected always has that timer armed
  (`Theorems.AlwaysTriesAndListens`).
- A context is lost, never to be returned to zebra, exactly when a response comes that does not show a
  restart and is not for the request in flight for longest, and that request was made for a context
  (`Operations.LosesExactlyOnMismatch`; `Scenarios.BadRun` is such a run). With a dataplane that
  answers in order this cannot happen (`Theorems.NothingLostWithGoodDataplane`).
- A Connect response with a new sync token purges the in-flight queue even if no Connect is
  outstanding; the token is then not recorded (`Operations.RestartPurge`). A Connect met by the purge
  is matched by its operation only.
- The comment at `src/hh_dp_rpc_stats.h:17` has the inequality the wrong way round: it is the replies
  that are at most as many as the requests sent (`Theorems.StatisticsAgreeWithQueues`).
- A route whose recursive next-hops are all inactive is sent with no next-hop, even if others are
  active (`NextHops.SelectsNothing`).
- Words of the argument string after the 62nd are ignored (`Options.PluginArgs.Tokenize`).

## Model

| member | source | states |
|---|---|---|
| Theorems.SessionPhases | src/hh_dp_comm.c:483-503 | after any run: a Connect in flight is the last message in flight, and then the socket is connected, the dataplane not ready and no connect timer armed; ready implies connected and no Connect in flight; an armed timer implies neither; connected implies a socket |
| Theorems.SessionsStartClean | src/hh_dp_msg.c:361-402 | whenever the dataplane becomes ready, by a matched response or by a purge, every request transmitted before was popped before |
| Theorems.QueuesAreFifo | src/hh_dp_comm.c:317-347 | what was submitted is what was transmitted, Connects aside, followed by what is unsent; requests transmitted are those popped followed by those in flight: nothing lost, duplicated or reordered across failures, push-backs and nested reconnections |
| Theorems.SeqnumsContiguous | src/hh_dp_msg.c:24-35 | the sequence numbers of requests popped, in flight and unsent are 1, 2, 3, ... in this order, up to the next to be issued |
| Theorems.AnsweredAtMostOnce | src/hh_dp_msg.c:236-266 | of two requests popped in a run, Connects aside, the later has the greater sequence number: none is answered twice |
| Theorems.ContextsExactlyOnce | src/hh_dp_msg.c:301-322 | every context taken is, as often as it was taken, back with zebra, dropped, in flight or unsent, and in one of these only |
| Theorems.VerdictsAreDeserved | src/hh_dp_msg.c:312-322 | every verdict is a success or a failure as the code of the last response received is Ok or Ignored or not, and that response has the operation and sequence number of the request made for that very context; or a success right after its purge; or given on arrival: a failure once shutdown began, and else only to a context that does not concern the dataplane, a failure if its operation is not listed and a success if it is |
| Theorems.TransmissionsGated | src/hh_dp_comm.c:236-260 | whatever is transmitted, but for Connects, was preceded by an Ok to a Connect with no loss or closing of the link since |
| Theorems.ListContents | src/hh_dp_comm.c:384-415 | no Connect is ever unsent, only requests are in flight, work has a context, Connects, controls and pooled messages have none |
| Theorems.StatisticsAgreeWithQueues | src/hh_dp_rpc_stats.c:45-62 | per kind, sent is replied plus in flight plus dropped, replied is the sum of the result codes and the unknown ones, and each of these counters is the number of answers with its code; messages transmitted are all requests sent plus controls |
| Theorems.MessagesInOnePlace | src/hh_dp_msg_cache.c:57-103 | every allocated message is in exactly one list or leaked by a mismatch, and as many were allocated as were preallocated or needed at once, whichever is more |
| Theorems.NoLostWakeup | src/hh_dp_comm.c:277-288 | from a send that was refused for lack of room until the write event fires, the write event is armed; `OutcomesCounted` shows that every such send is noted |
| Theorems.OutcomesCounted | src/hh_dp_comm.c:267-313 | in every callback of every run, each outcome of its sends and receives goes to its own counter, and each EAGAIN, ENOBUFS or ENOMEM of a send is noted |
| Theorems.AlwaysTriesAndListens | src/hh_dp_comm.c:483-503 | after any run a socket that is not connected has its connect timer armed, and one that is has its read event armed |
| Theorems.RequestsSuitContexts | src/hh_dp_process.c:49-151 | every request ever submitted for a context, and so every one transmitted, has the operation and the object that the context asks for; a route request has the active next-hops, or the active recursive ones, in order |
| Theorems.ConnectsTellToken | src/hh_dp_msg.c:40-54 | every Connect ever transmitted tells the sync token that the dataplane last reported on becoming ready, or none; and this is the token kept |
| Theorems.ShutdownStopsNumbers | src/hh_dp_plugin.c:78-87 | once shutdown was announced no sequence number is issued any more, in any run |
| Theorems.WriteCallbackDrains | src/hh_dp_comm.c:350-368 | after any run, the write callback of a ready plugin sends as many unsent messages as the socket takes in a row, in order, of one not ready none; and it asks to be called again if and only if some are left |
| Theorems.WriteCallbackAsksAgain | src/hh_dp_comm.c:350-368 | the write callback ends with nothing unsent or with the event armed again |
| Theorems.ShutdownReleasesTheRest | src/hh_dp_comm.c:516-539 | finalization after any run frees every message in a list once, with exactly the contexts neither back with zebra nor dropped |
| Theorems.NothingLostWithGoodDataplane | src/hh_dp_msg.c:222-266 | with a dataplane that answers in order, acknowledges Connects with fresh tokens and loses only replies of former incarnations: no mismatch, no unexpected response, no context or message lost, and what is in flight is what the dataplane has yet to answer |
| Theorems.ReachedCore | src/hh_dp_comm.c:562-603 | the whole invariant holds at the end of any run from initialization |
| Steps.RunSound | src/hh_dp_comm.c:451-503 | every list of callbacks keeps the invariant, aborted runs included |
| Steps.TakeKeeps | src/hh_dp_comm.c:350-513 | so does every callback |
| Steps.StartSound | src/hh_dp_comm.c:562-603 | initialization establishes the invariant, whatever its connect and send yield |
| Steps.WorkKeeps | src/hh_dp_plugin.c:94-121 | taking work keeps the invariant |
| Steps.ReadAllKeeps | src/hh_dp_comm.c:451-475 | so does reading any messages; or the run is aborted, with everything in order but one Connect in hand |
| Steps.ProcessUpdateKeeps | src/hh_dp_process.c:289-306 | so does a context's processing: it leaves the hands of the plugin, returned or queued |
| Dispatch.PlanIsSound | src/hh_dp_process.c:152-287 | the dataplane is asked exactly for the contexts that concern it, with a request that suits them; any other context is returned as a failure if its operation is not listed and as a success if it is; the kernel is spared exactly the routes of known families in VRFs other than the default |
| Sending.DoSendKeeps | src/hh_dp_comm.c:253-314 | a failed send keeps the invariant through any nested reconnections, and adds at most a Connect to what is in flight |
| Sending.DpConnectKeeps | src/hh_dp_comm.c:483-503 | so does connecting |
| Sending.SendPendingKeeps | src/hh_dp_comm.c:317-347 | so does draining the unsent queue |
| Sending.LostLinkReconnects | src/hh_dp_comm.c:293-302 | a send that finds the link lost always reconnects at once: no timer is armed then |
| Receiving.HandleResponseKeeps | src/hh_dp_msg.c:361-402 | any response at all keeps the invariant, or aborts the run |
| Receiving.PurgeKeeps | src/hh_dp_msg.c:366-390 | the purge empties what is in flight, transmits nothing, leaves the unsent queue alone, and makes the dataplane ready just when a Connect was outstanding |
| Receiving.PeerMeansExpected | src/hh_dp_msg.c:222-235 | a response a well-behaved dataplane can give is for the request in flight for longest, unless it shows a restart |
| Receiving.RestartDelivered | src/hh_dp_msg.c:366-390 | when such a dataplane acknowledges a Connect, a Connect was outstanding and no other reply can follow |
| Operations.DrainsPrefix | src/hh_dp_comm.c:317-347 | a drain sends as many messages as the socket takes in a row, leaves the rest as they were, and puts the requests among those sent in flight in order, followed at most by a Connect |
| Operations.NotReadyNoChange | src/hh_dp_comm.c:317-347 | while the dataplane is not ready a drain changes nothing |
| Operations.RestartPurge | src/hh_dp_msg.c:361-390 | a response that shows a restart returns the contexts in flight as successes, once each and in queue order, sends nothing, leaves the unsent queue alone, and readies the dataplane with the reported token if a Connect was outstanding |
| Operations.PurgeVerdicts | src/hh_dp_msg.c:375-387 | the verdicts of a purge, in order |
| Operations.LosesExactlyOnMismatch | src/hh_dp_msg.c:236-266 | a response makes the plugin lose a context if and only if it shows no restart, is not for the request in flight for longest, and that request has a context |
| Operations.UpdateOnce | src/hh_dp_process.c:289-306 | route installs, updates and deletes of known families, IPv4 address installs and uninstalls and MAC installs and deletes are queued in one new request, an Add, Update or Del as the case may be, with the next sequence number, and not returned; any other context is returned at once and nothing queued, a failure if its operation is not listed and a success if it is; the kernel is spared routes outside the default VRF |
| Operations.WorkWhenFinalizing | src/hh_dp_plugin.c:94-121 | once shutdown began, the work loop returns the first `limit` contexts as failed, in order, and does nothing else |
| Operations.Teardown | src/hh_dp_msg_cache.c:156-163 | finalization frees every message in the lists once and every context still held once |
| Operations.DoSendBooks | src/hh_dp_comm.c:253-314 | a send transmits its message or nothing but Connects, and returns, queues and pops nothing |
| Effects.SendOutcomes | src/hh_dp_comm.c:253-314 | a send succeeds if and only if the socket takes the whole message; the dataplane stops being ready exactly on a connection error; the write event is asked for exactly on EAGAIN, ENOBUFS and ENOMEM |
| Effects.DrainStops | src/hh_dp_comm.c:317-347 | a drain ends with the write event armed if the socket had no room for the first message not sent, and with the dataplane ready unless the link was lost |
| Effects.ConnectRefused | src/hh_dp_comm.c:207-233 | every refused connect arms the timer and sends nothing; a socket remains unless no new one could be had; after a reopening neither connected nor ready |
| Effects.ConnectJoined | src/hh_dp_comm.c:495-502 | every successful connect listens and sends a Connect with the token known, which is in flight if the socket took it |
| Effects.StartRefused | src/hh_dp_comm.c:586-588 | a plugin whose first connect is refused starts with the timer armed |
| Effects.TimerRefused | src/hh_dp_comm.c:492-494 | and so whenever the timer fires in vain |
| Effects.WritableFlushes | src/hh_dp_comm.c:350-368 | the write callback drains the unsent queue, and is armed again if and only if something is left |
| Handling.AnswerReturned | src/hh_dp_msg.c:312-322 | the response to the request in flight for longest returns its context, and no other, as a success if and only if the code is Ok or Ignored, takes the request off the queue and sends nothing |
| Handling.MismatchPops | src/hh_dp_msg.c:236-266 | a response for another request takes that one off the queue and has no other effect |
| Handling.ConnectOpens | src/hh_dp_msg.c:277-293 | the Ok to the Connect in flight records the token and drains the unsent queue; the dataplane is ready then unless the drain lost the link |
| Handling.ConnectRefusedAborts | src/hh_dp_msg.c:295-298 | any other code ends the run |
| Handling.ControlAnswered | src/hh_dp_msg.c:403-410 | a request to refresh is passed to zebra once and answered with one control that asks for a refresh, sent at once if the socket takes it; any other control is only counted |
| Handling.KeepaliveGoes | src/hh_dp_comm.c:506-513 | a keepalive is one control that asks for no refresh, sent exactly when the dataplane is ready |
| Handling.RequestGoes | src/hh_dp_comm.c:384-415 | the request made for a context goes last in the queue, and the queue through the socket |
| Handling.WorkServes | src/hh_dp_plugin.c:94-121 | the work loop takes up to `limit` contexts in order, returns at once exactly those that do not concern the dataplane and asks for the others, in this order |
| Handling.ReadsAll | src/hh_dp_comm.c:451-475 | the receive loop handles every message there is, once and in order, unless one aborts the run |
| Handling.OthersIgnored | src/hh_dp_msg.c:428-435 | a message that is neither a response nor a control has no effect |
| Consequences.SeqnumsInOrder | src/hh_dp_msg.c:24-35 | the sequence numbers, from the invariant |
| Consequences.ContextsConserved | src/hh_dp_msg.c:301-322 | the contexts, from the invariant |
| Consequences.StatisticsAgree | src/hh_dp_rpc_stats.c:45-70 | the statistics, from the invariant |
| Consequences.OnePlaceEach | src/hh_dp_msg_cache.c:57-103 | the messages, from the invariant, those in hand included |
| Consequences.VerdictsDeserved | src/hh_dp_msg.c:312-322 | a history with matched responses and justified verdicts has only deserved verdicts, event by event |
| Consequences.GatedMeansUp | src/hh_dp_comm.c:236-260 | in a gated history every transmission lies in a session, event by event |
| Scenarios.GoodRun | src/hh_dp_comm.c:562-603 | a run with a well-behaved dataplane in which a route is sent and its context returned as a success |
| Scenarios.BadRun | src/hh_dp_msg.c:261-265 | a run in which a response with the wrong sequence number loses the context |
| MsgCache.DpMsgCache.Init | src/hh_dp_msg_cache.c:134-153 | the pool gets a thousand messages, with the addresses from 0 |
| MsgCache.PrepopulatedIds | src/hh_dp_msg_cache.c:146-150 | these are all different, and hold no context |
| MsgCache.DpMsgCache.New | src/hh_dp_msg_cache.c:58-66 | a zeroed message, the first of the pool or else a newly allocated one |
| MsgCache.NewStaysTight | src/hh_dp_msg_cache.c:58-66 | allocation happens only when more messages are out than ever before |
| MsgCache.DpMsgCache.Recycle | src/hh_dp_msg_cache.c:76-81 | back to the tail of the pool, unless it holds a context |
| MsgCache.DpMsgCache.CacheUnsent | src/hh_dp_msg_cache.c:87-91 | to the tail of the unsent queue, all else unchanged |
| MsgCache.DpMsgCache.UnsentPushBack | src/hh_dp_msg_cache.c:94-98 | to its head |
| MsgCache.DpMsgCache.PopUnsent | src/hh_dp_msg_cache.c:101-103 | from its head, or nothing |
| MsgCache.DpMsgCache.CacheInFlight | src/hh_dp_msg_cache.c:121-126 | a request, to the tail of the in-flight queue |
| MsgCache.DpMsgCache.PopInFlight | src/hh_dp_msg_cache.c:129-131 | from its head, or nothing |
| MsgCache.DpMsgCache.EmptyList | src/hh_dp_msg_cache.c:43-50 | every message of the list is released, in order, and the other lists are left alone |
| RpcStats.StatsTable.RequestSent | src/hh_dp_rpc_stats.c:45-50 | one more sent in the cell of the request, and in no other |
| RpcStats.StatsTable.RequestReplied | src/hh_dp_rpc_stats.c:52-62 | one more replied, and one more of the result code or of the unknown ones, in that cell only |
| RpcStats.StatsTable.Tx | src/hh_dp_rpc_stats.c:13-15 | one more transmitted |
| RpcStats.StatsTable.ControlTx | src/hh_dp_rpc_stats.c:65-67 | one more control sent |
| RpcStats.TxIsSum | src/hh_dp_rpc_stats.c:45-70 | messages transmitted in a history are those of every cell of the table plus the controls |
| RpcStats.RepliesSplit | src/hh_dp_rpc_stats.c:52-62 | a cell's replies are its result codes plus its unknown ones |
| RpcStats.CodesCounted | src/hh_dp_rpc_stats.c:52-62 | each counter of a result code is the number of answers with that code, and the unknown ones those out of range |
| Plugin.Plugin.constructor | src/hh_dp_comm.c:562-603 | the state after initialization: connect, then a first keepalive |
| Plugin.Plugin.Deliver | src/hh_dp_plugin.c:78-121 | one callback does to the plugin exactly what `Session.Take` says |
| Plugin.Plugin.DoSendRpcMsg | src/hh_dp_comm.c:253-314 | one send, with its error paths and the reconnection it may set off |
| Plugin.Plugin.TxError | src/hh_dp_comm.c:276-310 | the counters of each failure; the write event is asked for exactly on EAGAIN, ENOBUFS and ENOMEM |
| Plugin.Plugin.TxDisconnected | src/hh_dp_comm.c:293-299 | a connection error clears both flags, and keeps the socket |
| Plugin.Plugin.SendPendingRpcMsgs | src/hh_dp_comm.c:317-347 | the loop computes `Session.SendPending` |
| Plugin.Plugin.SendRpcMsg | src/hh_dp_comm.c:384-415 | a Connect overtakes and is recycled if not sent; anything else is queued and the queue drained, always with success |
| Plugin.Plugin.DpConnect | src/hh_dp_comm.c:483-503 | nothing without a socket; a refusal always arms the timer; a success clears it, sends a Connect and always listens |
| Plugin.Plugin.ConnectFailed | src/hh_dp_comm.c:195-233 | the timer is armed; the socket is closed and reopened, which may fail, unless the path was bad; then neither connected nor ready |
| Plugin.Plugin.SockClose | src/hh_dp_comm.c:128-139 | closing clears both flags |
| Plugin.Plugin.CanSendRpcRequest | src/hh_dp_comm.c:236-247 | Connects always, anything else when ready |
| Plugin.Plugin.WakeOnDpWriteAvail | src/hh_dp_comm.c:369-376 | the write event is armed |
| Plugin.Plugin.SockSendCb | src/hh_dp_comm.c:350-368 | the write callback drains the unsent queue, and asks to be called again if anything is left |
| Plugin.Plugin.SockRecv | src/hh_dp_comm.c:420-445 | one receive and its counters |
| Plugin.Plugin.DpRpcRecv | src/hh_dp_comm.c:451-475 | the loop reads until a receive fails or is empty, a message cannot be decoded, or the run is aborted |
| Plugin.Plugin.ConnectTimerCb | src/hh_dp_comm.c:483-503 | the connect timer |
| Plugin.Plugin.SendKeepalive | src/hh_dp_comm.c:506-513 | a control only if connected and ready |
| Plugin.Plugin.FiniDplaneRpc | src/hh_dp_comm.c:516-539 | closes the socket and empties the three lists |
| Plugin.Plugin.DpRequestNew | src/hh_dp_msg.c:24-35 | sequence number 0 for a Connect, the next one for anything else |
| Plugin.Plugin.SendRequestConnect | src/hh_dp_msg.c:40-54 | a Connect with the sync token last reported |
| Plugin.Plugin.SendRpcRequest | src/hh_dp_msg.c:57-107 | a new request is queued for the context |
| Plugin.Plugin.SendRpcRequestIproute | src/hh_dp_msg.c:160-211 | the same, with the selected next-hops |
| Plugin.Plugin.SendRpcControl | src/hh_dp_msg.c:214-219 | a control, with no sequence number |
| Plugin.Plugin.RecoverRequest | src/hh_dp_msg.c:236-266 | the head in flight if the response is for it; otherwise it is popped all the same, and recycled if it has no context |
| Plugin.Plugin.HandleRpcConnectResponse | src/hh_dp_msg.c:267-299 | an Ok records the token, readies the dataplane and drains the unsent queue unless purging; anything else aborts |
| Plugin.Plugin.DpMsgHandOff | src/hh_dp_msg.c:301-310 | the context goes back to zebra, and the message forgets it |
| Plugin.Plugin.DoHandleRpcResponse | src/hh_dp_msg.c:323-360 | counts the reply, and acts by the operation of the response: the context of work goes back as a success on Ok and Ignored, and as a failure on anything else |
| Plugin.Plugin.PurgeMsg | src/hh_dp_msg.c:376-387 | one round of the purge |
| Plugin.Plugin.PurgeInFlightQueue | src/hh_dp_msg.c:366-390 | the loop computes `Session.PurgeInFlight` |
| Plugin.Plugin.HandleRpcResponse | src/hh_dp_msg.c:361-402 | purge, mismatch or match |
| Plugin.Plugin.HandleRpcControl | src/hh_dp_msg.c:403-410 | a refresh is passed to zebra and answered |
| Plugin.Plugin.HandleRpcMsg | src/hh_dp_msg.c:414-440 | responses and controls are handled, anything else ignored |
| Plugin.Plugin.ProcessRoutes | src/hh_dp_process.c:49-90 | families other than IPv4 and L2VPN, unicast and EVPN are ignored; the kernel is skipped outside the default VRF; an Add is sent for an install, an Update for an update and a Del for a delete |
| Plugin.Plugin.ProcessIfaddr | src/hh_dp_process.c:91-111 | IPv4 addresses only |
| Plugin.Plugin.ProcessMacinfo | src/hh_dp_process.c:137-151 | MAC installs and deletes |
| Plugin.Plugin.HhProcess | src/hh_dp_process.c:152-287 | dispatch on the operation of the context |
| Plugin.Plugin.ZdProcessUpdate | src/hh_dp_process.c:289-306 | what was not queued is returned at once |
| Plugin.Plugin.ZdProcess | src/hh_dp_plugin.c:94-121 | the loop computes `Session.Work` |
| NextHops.SelectNextHops | src/hh_dp_msg.c:186-204 | the two passes, with their early exit, select what `Process.Selected` does |
| NextHops.SelectionIsFilter | src/hh_dp_msg.c:186-204 | a next-hop is selected if and only if it is active and, should any be recursive, active or not, recursive; order and number are kept |
| NextHops.SelectsNothing | src/hh_dp_msg.c:186-204 | exactly when a route is sent with no next-hop |
| Options.PluginArgs.constructor | src/hh_dp_utils.c:56-61 | the vector holds the program name only |
| Options.PluginArgs.Push | src/hh_dp_utils.c:42-53 | a token is added, unless 63 are there; nulls follow |
| Options.PluginArgs.Tokenize | src/hh_dp_utils.c:64-93 | for any string: the program name, then its first 62 words, then null |
| Options.PluginArgs.Free | src/hh_dp_utils.c:30-39 | every token is released, once and in order |
| Options.NextToken | src/hh_dp_utils.c:77-82 | the next word and where to go on, or nothing when no word is left |
| Options.WordsOfJoin | src/hh_dp_utils.c:64-93 | cutting words joined with spaces gives them back |
| Options.WordsOfAnyString | src/hh_dp_utils.c:64-93 | the words of any string have no spaces, are not empty, and are together the string less its spaces |
| Options.BuildShortOpts | src/hh_dp_utils.c:96-114 | three characters per option at most, then a terminator, and no more is written |
| Options.ShortOptsDecode | src/hh_dp_utils.c:96-114 | getopt reads back the options meant if and only if none is a colon that the one before would swallow; so it does when none is a colon |
| Options.AllOptionsRead | src/hh_dp_utils.c:96-114 | the terminator is the first one if and only if no option is NUL |

## Left out

- Socket calls, paths, unlink, chmod and bind: only their outcomes. Initialization is modelled from the point where the first socket was opened; if that fails the plugin aborts.
- The wire format (dplane-rpc, which is not part of this model): encoding and decoding are outcomes, objects are tagged values, and getopt is modelled only in how it reads short options.
- Field copies into objects (`nhop_encode`, `encode_route_type`, addresses): they would only add easy members.
- FRR internals: provider queues, the event loop beyond the conventions above, and file descriptors that go stale in an event after the socket is reopened.
- Reconnection liveness, beyond `Theorems.AlwaysTriesAndListens`: it does not hold. A Connect whose send fails for want of room is recycled with nothing scheduled, and a peer that dies before it answers the Connect is not contacted again.
- Vty commands, the printing of statistics, logging, the module's registration and the vtysh extension.
- `find_opt` and `plugin_getopts`: a lookup and calls into getopt.
- Failed allocations: `strdup` and FRR's allocator, which aborts.
- Plugin.Plugin.DpRequestNew: does not model the wrap-around of the 64-bit sequence number, which takes 2^64 requests.
- Session.DpConnect: unlimited reconnection is cut when the outcomes given to the callback run out, since the program itself sets no limit; every finite number of attempts is covered.
- MsgCache.DpMsgCache.EmptyList: says which messages are freed; the freeing of memory itself is not modelled.
- Options.PluginArgs.Tokenize: takes the variable in which strtok_r keeps its position, declared inside the loop, to keep its value from one round to the next, as compilers make it do.
- Options.BuildShortOpts: requires room for the options, as the program relies on at most 64 of them.
- Statistics are a map from kinds to cells rather than an array of cells, and the result codes of a cell a multiset; an absent cell stands for zeros.
