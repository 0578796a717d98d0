# A verified model of the proxy, the broker and the worker

Client tunnels of many users share a few websockets: a proxy accepts clients and decides a route for each
target, a broker binds every tunnel to a worker of that route and relays its frames, and a worker dials the
target. This project models the three programs in Dafny and proves what they keep.

- **The session protocol** (`frames`, `proxy`, `proxy_ends`, `broker`, `broker_proofs`, `broker_answers`, `worker`,
  `worker_ends`, `worker_gap`, `registry`, `registry_lists`, `tunnel`, `tunnel_ends`, `tunnel_gap`, `early_close`).
  Each program is a step system; a step is one handled frame or one step of one goroutine, and what a
  `select`, a socket or a full queue decides is part of the event. `Tunnel` joins any number of proxy
  connections, one broker and any number of worker links by FIFO links and states the end-to-end theorems.
  `broker_server`, `proxy_conn`, `worker_conn` and the class in `registry` hold the same tables as objects
  updated in place, with the loops of the source; each method is proved to take the step of its system and to
  keep the system's invariant.
- **Routing** (`trie`, `cidr`, `domains`, `dns_cache`, `route_rules`, `routing`). The tries are built node by
  node on the heap and proved against plain tables; loading and resolving are proved equal to a naive scan of
  the rule hashes, whatever the order in which a Go map is iterated.
- **Gates, caches and a codec** (`gates`, `auth`, `auth_race`, `dns_flight`, `packets`, `udp_sessions`,
  `socks_udp`). The gates and the
  session tables are step systems with one lock section per step, so the results hold in every interleaving;
  the credential cache is an object updated in place.

`dafny verify dfyconfig.toml` checks everything.

## Where the code does less than its purpose

In each case the model follows the code; the condition under which the property holds is proved.

- Client to target: `enqueueSessionWrite` chooses at random between a closed `done` and a free queue. After the
  link or the session has begun to close, and before the connection is released, a frame can be lost and the
  next one written, so the target's bytes need not be a prefix: a run of the whole system shows it
  (`TunnelGap`). A frame can be refused exactly in that window, and outside it the prefix property holds in every
  run.
- Close of a session that is being opened: the worker opens a session in a goroutine, and a close that it handles
  before that goroutine has stored the session is dropped. The worker then dials and keeps the connection until the
  target or the link ends it, though the broker has forgotten the session; a run of the whole system shows it
  (`EarlyClose`). A close takes effect if and only if the session has been stored when it is handled.
- Full queue of a proxy session: the session is dropped without a word, so the broker and the worker keep their part
  of it. Every other end of a handler is announced to the broker, or known to it.
- Live ends: a request still in the read buffer of a proxy connection whose `close` has run is stored with a
  closed proxy. A proxy of a session in the table is closed exactly when it was closed as the request was handled.
- Credentials: a call that begins after a reload can be answered about the replaced users, in two ways and no
  other (`AuthRace`). A call reads `users` before `generation`: if a whole reload lies between the two reads, and
  only then, the old answer is cached under the new generation and served until it expires. And the key of a
  flight holds no generation: a call that finds no usable entry joins a flight whose leader read the old users,
  which it has if and only if a whole reload lies since that read.
- Dial gate: a connection that dies between the end of its dial and its publication stays published for ever.
- Broker UDP sessions: the key `route|target` of two different pairs can coincide when a route name holds a bar.
- Wildcards: a host with an empty label matches nothing once the walk reaches that label, even if a shorter
  suffix matched; how far the walk gets also depends on nodes left by rejected patterns. For hosts without
  empty labels neither has any effect.

## Model

| member | source | states |
|---|---|---|
| `Tunnel.ClientGetsPrefixOfTarget` | proxy/cmd/proxy/broker.go:456-508 | In every run of the whole system the bytes written to a TCP client are a prefix of the bytes the session's own worker read from the target, through fragmentation, all queues, overflow closes and disconnects |
| `Tunnel.TargetGetsPrefixOfClient` | worker/worker.go:824-925 | In every run the bytes written to the target are a prefix of those the session's own proxy read from its client, unless the worker turned a data frame away through a closed `done` while the connection could still be written; TunnelGap says when that can happen |
| `Tunnel.TargetPrefixWhileOpen` | worker/worker.go:824-925 | In every run that prefix property holds as long as neither `done` of the link nor that of the session is closed |
| `TunnelGap.RefusedIffClosing` | worker/worker.go:838-861 | In every run the next data frame of a session that can still be written can be turned away if and only if `done` of the link or of the session is closed |
| `TunnelGap.GapFollows` | worker/worker.go:129-142 | Any run that ends so, with the connection still held, the writer idle and two frames pending, has a continuation after which the target holds bytes that are no prefix of those read from the client |
| `TunnelGap.GapIsReachable` | worker/worker.go:838-861 | A run of the whole system, through open, connect, confirmation, two reads from the client and the end of the target's side, ends with such a gap |
| `Tunnel.NoSilentLoss` | broker/broker.go:142-176 | No silent loss, for every session and every run of the whole system |
| `Tunnel.SessionsAreIsolated` | broker/broker.go:1130-1162 | In every run of the system frames of a session are queued only to its two ends, and each end gets a prefix of all data frames the other ever sent, byte for byte |
| `Tunnel.EndsAreLive` | broker/broker.go:490-528 | In every run of the system the worker of a session in the table is registered and not removed, and its proxy is closed if and only if it was closed when the session was stored |
| `Tunnel.BindingNeverChanges` | broker/broker.go:1238-1281 | A binding is the same in every continuation of a run of the system |
| `TunnelEnds.OpenedAsAsked` | broker/broker.go:1245-1297 | In every run of the system a stored session is bound to the proxy connection whose client asked for it and to a worker that was listed, when it was stored, in the group that the client's route names; what the worker holds of it has the target and the transport, TCP or UDP, that the client asked for |
| `TunnelEnds.EndsAgree` | worker/worker.go:479-503 | In every run a worker's session and the session of the proxy connection it is bound to have the same target and transport, which are those of the request that the connection sent |
| `TunnelEnds.RequestIsSent` | proxy/cmd/proxy/broker.go:320-363 | In every run the request of an accepted open was sent with the id, route, target and mode asked for, unless the connection was closed and the send refused |
| `TunnelEnds.ConnectIsTaken` | worker/worker.go:479-503 | In every run a connect frame that a worker received has its open under way or its session stored, for the target and over the transport that the frame names |
| `TunnelEnds.WorkerIsTold` | broker/broker.go:1164-1172 | No silent loss towards the worker, for every session and every run of the whole system |
| `TunnelEnds.CloseTakesEffectIff` | worker/worker.go:519-524 | After any run, a close that a worker with a free reader handles ends the session if and only if the session has been stored by then; if it is still listed its `done` is closed |
| `TunnelEnds.CloseEndsTarget` | worker/worker.go:1049-1078 | A session that the worker had stored when the close came is closed, or its dial failed, for the rest of the run |
| `TunnelEnds.ClosedMeansReleased` | worker/worker.go:129-142 | In every run, when the broker has received a close of a session from its worker, the connection that the worker had dialled is released and its socket closed |
| `TunnelEnds.CloseCanComplete` | worker/worker.go:129-142 | After any run the close of a session that has begun can be completed: the connection released, the socket closed, the session unlisted and the broker told |
| `TunnelEnds.StoppedMeansClosing` | worker/worker.go:863-949 | In every run a session whose reader or writer stopped, whose queue overflowed or whose confirmation could not be sent is closing, or the link is |
| `TunnelEnds.FailedDialIsReported` | worker/worker.go:635-664 | In every run a failed dial was reported to the broker with a close, if the send was taken |
| `TunnelEnds.DatagramsStayWhole` | worker/worker.go:994-1047 | In every run the data frames of a UDP session are the datagrams read from the target, one frame for one datagram, in order |
| `TunnelEnds.HandlerEndIsAnnounced` | proxy/cmd/proxy/broker.go:365-377 | In every run, once the handler of a session is over the proxy sent a close, or had received a close or an error, or its connection is closed, or a data frame met the session's full queue |
| `TunnelEnds.OverflowIsSilent` | proxy/cmd/proxy/broker.go:284-293 | In every run a session dropped because its queue is full is closed, and its proxy never sends a close of it |
| `TunnelEnds.ProxyObeys` | proxy/cmd/proxy/broker.go:278-301 | In every run a close or an error frame that a proxy received has closed and unlisted its session, and a confirmation has reached the session's slot unless the session was closed first |
| `EarlyClose.CloseIsOvertaken` | worker/worker.go:596-622 | From any run in which a worker handles next the close of a session whose open is still under way, the run can go on so that the session is open at the worker after the close |
| `EarlyClose.OvertakingIsReachable` | broker/broker.go:142-176 | A run of the whole system, in which the proxy connection closes just after the connect frame, ends so, with the session gone from the broker |
| `Tunnel.BrokerPart` | broker/broker.go:1060-1176 | The broker of the system runs as it does alone, and no request it handles reuses an id |
| `Tunnel.OnConnectedMeansDialled` | proxy/cmd/proxy/broker.go:410-464 | In every run `onConnected` was run only if the session's own worker dialled the target that was asked for and stored the connection |
| `Tunnel.NoDataBeforeStore` | worker/worker.go:607-705 | In every run a data frame that reached a worker found the session stored there with its connection |
| `Tunnel.RunKeeps` | broker/broker.go:746-794 | Every run keeps the invariants of all nodes, the links (received is a prefix of queued) and the ownership of ids |
| `WorkerLink.StepKeeps` | worker/worker.go:596-992 | Every step of every goroutine keeps, for each session: queued payloads are a prefix of the bytes read in pieces of at most 32768 bytes, written bytes plus the queue are a prefix of what was received unless a frame was refused, and `CmdConnected` only after the connection was stored |
| `WorkerLink.ReaderKeeps` | worker/worker.go:927-992 | A read or a fragment keeps: payloads queued plus what is pending are the bytes read |
| `WorkerLink.WriterKeeps` | worker/worker.go:863-925 | Taking a chunk, a partial write or a failed write loses no byte between the queue and the target |
| `WorkerGap.RefusedIffClosing` | worker/worker.go:838-861 | A data frame for a session that can still be written can be turned away if and only if `done` of the link or of the session is closed |
| `WorkerGap.GapFollows` | worker/worker.go:131-136 | From any such state of a link the first of two frames can be lost and the second written, so the target holds bytes that are no prefix of those received |
| `WorkerConn.Link.HandleMessage` | worker/worker.go:430-532 | The frame switch, in place, takes the protocol step for every message; the byte accounts of all sessions are kept unless data comes for a session never stored |
| `WorkerConn.Link.EnqueueSessionWrite` | worker/worker.go:824-861 | In place: the chunk is queued, turned away by a closed `done`, or the full queue closes the session, which is reported |
| `WorkerConn.Link.StoreSession` | worker/worker.go:596-622 | In place: the first open to store an id keeps it, and the byte accounts of all sessions are kept |
| `Packets.CutIntoFragments` | worker/worker.go:951-978 | The fragments of one read are non-empty, at most 32768 bytes, all full but the last, and concatenate to the bytes read; the loop terminates |
| `Packets.WriteChunk` | worker/worker.go:894-918 | What reaches the socket is a prefix of the chunk, the whole chunk when no write fails; a failed or empty write closes the session |
| `Packets.BuffersHaveOneOwner` | worker/worker.go:1095-1122 | Over every interleaving a pooled buffer has one owner (pool, sender, queue or writer), a queued frame is unchanged until written, and the websocket gets the frames in order |
| `SessionConn.DialledConnectionIsClosed` | worker/worker.go:104-142 | In every interleaving of `setConn` and `close`: once both are over `s.conn` is nil and the dialled connection was closed, by `close` if it had been stored and by the caller if it was refused |
| `SessionConn.StoredIffBeforeClose` | worker/worker.go:104-120 | `setConn` stores the connection if and only if `close` has not begun |
| `BrokerProofs.NoSilentLoss` | broker/broker.go:142-176 | As long as ids are not reused: every session ever stored is in the table, or its proxy asked to close it, or its proxy connection is closed, or a close or error frame for it was put on that proxy's queue |
| `BrokerAnswers.WorkerIsTold` | broker/broker.go:1149-1172 | As long as ids are not reused: every session ever stored is in the table, or a close frame for it was put on its worker's queue or is about to be by a goroutine of the proxy's close, or the worker is removed or sent the close itself, or an event of the run that opened, relayed or closed this session had its own send or write refused |
| `BrokerAnswers.SessionEndsIff` | broker/broker.go:761-784 | As long as ids are not reused: an event takes a session out of the table if and only if it is a close from one of its ends, data or a confirmation that cannot be relayed, the close of its proxy connection, or the removal or displacement of its worker |
| `BrokerAnswers.GoneForGood` | broker/broker.go:1236-1281 | As long as ids are not reused, a session that has left the table never comes back |
| `BrokerAnswers.StoredIffGrantable` | broker/broker.go:1196-1281 | As long as ids are not reused: a request stores its session if and only if its mode is empty, tcp or udp, its id has 36 bytes and its group has workers; the session then belongs to the requesting proxy and to a worker listed in that group, with the target and the mode asked for, in every continuation |
| `BrokerAnswers.ConnectIsAsAsked` | broker/broker.go:1283-1297 | As long as ids are not reused: a connect frame on the queue of a session's worker carries the target of the request that stored the session, and is a UDP connect if and only if that request has mode udp; there is one unless the send was refused |
| `BrokerAnswers.RefusalIsAnswered` | broker/broker.go:1245-1260 | As long as ids are not reused: a well-formed request that finds no worker is answered with an error frame, unless its proxy connection is closed and refuses the write |
| `BrokerAnswers.BadRequestChangesNothing` | broker/broker.go:1210-1243 | A request with an unknown mode, an id of the wrong length or the id of a session in the table changes no table and no queue, in any state |
| `BrokerAnswers.WorkerFrameIsRelayed` | broker/broker.go:772-784 | As long as ids are not reused: a confirmation or a close from the session's own worker is relayed byte for byte to its proxy, unless that connection is closed and refuses the write |
| `BrokerProofs.SessionsAreIsolated` | broker/broker.go:1130-1162 | As long as ids are not reused: frames of a session are queued only to the two ends of its binding, and each end gets a prefix of the data frames the other sent since the session was stored, byte for byte and in order, all of them while the session is in the table |
| `BrokerProofs.BindingNeverChanges` | broker/broker.go:1238-1281 | As long as ids are not reused, a (proxy, worker) binding is the same in every continuation of the run |
| `BrokerProofs.EndsAreLive` | broker/broker.go:490-528 | As long as ids are not reused: the worker of a session in the table is registered and not removed; its proxy is closed if and only if it was closed when the event that stored the session was handled |
| `BrokerProofs.StoredByAnEvent` | broker/broker.go:1274-1281 | Every session ever stored was stored by an event of the run, the one that isolation and live ends refer to |
| `BrokerProofs.ClosedProxyCanBeBound` | broker/broker.go:1196-1281 | A concrete run, without reuse of ids, that stores a session for a closed proxy connection |
| `BrokerProofs.StepKeeps` | broker/broker.go:733-794 | Every handled frame, open, registration, sync, removal, close and asynchronous close keeps the invariant of every session id |
| `Frames.ReencodingIsIdentity` | broker/broker.go:733-744 | Re-encoding a frame from its id, command and payload gives the same bytes |
| `Frames.PacketParses` | broker/broker.go:733-744 | The id, command and payload of an encoded packet are those it was built from |
| `BrokerServer.Server.HandleProxyFrame` | broker/broker.go:1130-1174 | The binary branch of the proxy loop, in place, takes the protocol step |
| `BrokerServer.Server.HandleProxyMessage` | broker/broker.go:1100-1174 | One turn of the proxy loop, in place; the invariant of the registry and of every session is kept as long as the id is new |
| `BrokerServer.Server.OpenProxySession` | broker/broker.go:1196-1236 | The checks of a request, in place: bad mode, bad id length and a taken id change no table |
| `BrokerServer.Server.StoreSession` | broker/broker.go:1238-1307 | Picking a worker, storing the session and sending the connect frame, with the error frame and the removal when either fails |
| `BrokerServer.Server.HandleWorkerMessage` | broker/broker.go:746-794 | The worker loop, in place, takes the protocol step and keeps the invariant; a refused write removes the session |
| `BrokerServer.Server.RemoveWorker` | broker/broker.go:490-528 | The removal loop, in any order of the table, drops exactly the worker's sessions, each with a close frame to its proxy, and keeps the invariant |
| `BrokerServer.Server.RegisterWorker` | broker/broker.go:665-680 | A new connection becomes the active one of its GUID; the one it displaces is removed with exactly its sessions; the broker's invariant is kept |
| `BrokerServer.Server.CloseProxy` | broker/broker.go:142-176 | The close loop, in any order of the table, drops exactly the proxy's sessions, starts a close for each worker, and keeps the invariant |
| `Registry.RegistryIsConsistent` | broker/broker.go:849-890 | After any run of register, move, remove and pick: group lists are non-empty and duplicate-free, members are the active workers of that group, and every active worker with a group name is listed |
| `Registry.RoundRobinIsFair` | broker/broker.go:796-814 | In any segment of a run in which the list of a group of n workers does not change, whatever picks of other groups, moves and registrations come between, k picks of the group give each worker floor(k/n) or ceil(k/n) |
| `RegistryLists.MoveLands` | broker/broker.go:996-1041 | After any run and a sync of an active worker: it has the new group name and is listed at the end of that group unless it was there or the name is empty, and every other group holds the same workers in the same order, less this one |
| `RegistryLists.RegisterLands` | broker/broker.go:665-680 | After any run and a registration: the new connection is the active one of its GUID and is listed at the end of the group it named; every list keeps its other workers in order, less the displaced connection, which is removed |
| `RegistryLists.RemoveLeaves` | broker/broker.go:495-507 | After any run and a removal: the connection is listed nowhere and active under no GUID, and every list keeps its other workers in order |
| `Registry.WorkerRegistry.RegisterWorker` | broker/broker.go:673-680 | In place, the registry step of a registration |
| `Registry.WorkerRegistry.MoveWorker` | broker/broker.go:996-1041 | In place, the worker leaves its old group and joins the new one |
| `Registry.WorkerRegistry.RemoveWorker` | broker/broker.go:495-507 | In place, the worker leaves the active table, if it is still the active one, and its group |
| `Registry.WorkerRegistry.GetWorker` | broker/broker.go:796-814 | In place, the pick at the group's counter, which advances |
| `Registry.WorkerRegistry.CutFromList` | broker/broker.go:867-890 | The scan removes the first occurrence and keeps the order of the rest |
| `ProxyLink.StepKeeps` | proxy/cmd/proxy/broker.go:247-508 | Every step of the read loop and of the session handlers keeps, for each session: what the client got is what was taken from the queue, in order, and queued data frames are a prefix of what was read from the client |
| `ProxyEnds.EventSettles` | proxy/cmd/proxy/broker.go:43-68 | Every step keeps, for each session: it is closed if and only if it is not listed, a close or an error frame closes it, a confirmation reaches its slot, and its end is announced unless its queue overflowed |
| `ProxyLink.RequestsStayDistinct` | proxy/cmd/proxy/broker.go:320-363 | No two requests on a connection ask for the same id |
| `ProxyConn.BrokerConnection.OpenSession` | proxy/cmd/proxy/broker.go:320-363 | In place: the session is stored before its request is sent, and taken out and failed when the send fails; the payload accounts of all sessions are kept for an id of which nothing was received |
| `ProxyConn.BrokerConnection.HandleMessage` | proxy/cmd/proxy/broker.go:247-307 | One turn of the read loop, in place: confirmation, data or overflow, close and error; the payload accounts of all sessions are kept |
| `ProxyConn.BrokerConnection.Close` | proxy/cmd/proxy/broker.go:120-145 | The close loop fails exactly the listed sessions, empties the table and keeps the payload accounts |
| `ProxyConn.BrokerConnection.CloseBrokerSession` | proxy/cmd/proxy/broker.go:365-377 | A live session is announced closed, unlisted and closed, a closed one left alone; the payload accounts are kept |
| `DialGate.OneDialAtATime` | proxy/cmd/proxy/broker.go:147-181 | In every interleaving at most one goroutine dials, `brokerDialing` holds if and only if one does and if and only if its wait channel is there and open, and a waiter's channel is closed or belongs to the dial in progress |
| `DialGate.StaleIffClosedEarly` | proxy/cmd/proxy/broker.go:147-181 | As long as the connection that an event published is the current one, its `close` is over if and only if it was over in the state before that event |
| `DialGate.StaleForever` | proxy/cmd/proxy/broker.go:120-145 | Once such a connection is published no later step replaces it |
| `DialGate.StaleIsReachable` | proxy/cmd/proxy/broker.go:183-223 | A concrete interleaving publishes a dead connection |
| `Cidr.CidrTrie.Insert` | proxy/cmd/proxy/routing.go:29-89 | In place: the table of the prefix's family gets the masked prefix, and an invalid prefix changes nothing |
| `Cidr.CidrTrie.Lookup` | proxy/cmd/proxy/routing.go:91-158 | The length and route of the longest match in the address's family, with IPv4-in-IPv6 addresses unwrapped, or not found |
| `Cidr.ScanIsLongestRule` | proxy/cmd/proxy/routing.go:91-158 | After any list of inserts: the longest rule that covers the address in its family, with the route inserted last for it; none exactly when no rule covers it |
| `Cidr.OrderDoesNotMatter` | proxy/cmd/proxy/routing.go:846-896 | For distinct masked prefixes the order of inserts does not matter |
| `Cidr.MappedHas96Bits` | proxy/cmd/proxy/routing.go:875-888 | A masked rule with an IPv4-in-IPv6 address always has at least 96 bits |
| `Cidr.RewrittenMatchesSame` | proxy/cmd/proxy/routing.go:871-893 | The rewritten rule matches exactly the IPv4 addresses whose IPv4-in-IPv6 form the rule covers |
| `Cidr.RawBitIsBit` | proxy/cmd/proxy/routing.go:75-75 | The shift and mask on the address bytes pick the i-th bit of the address |
| `Tries.Trie.Descend` | proxy/cmd/proxy/routing.go:74-85 | One turn of an insert loop: the child is found or made, and no rule changes |
| `Tries.Trie.SetRoute` | proxy/cmd/proxy/routing.go:87-88 | The rule of one path is set, and no other changes |
| `Tries.LongestIsBest` | proxy/cmd/proxy/routing.go:126-157 | The scan of a table finds a match if there is one, and no match is longer |
| `Domains.DomainTrie.InsertWildcard` | proxy/cmd/proxy/routing.go:179-222 | In place: the rule of an accepted pattern is set; a rejected pattern leaves the rules as they were |
| `Domains.DomainTrie.LookupWildcard` | proxy/cmd/proxy/routing.go:224-265 | The scan over proper label suffixes, for every host; nothing exactly when there is no match or the walk comes to an empty label, which it never does for a host without one |
| `Domains.WildcardIsLongestSuffix` | proxy/cmd/proxy/routing.go:224-265 | After any list of inserts: the route inserted last for a pattern with the most labels among those whose domain the host lies strictly under; none exactly when there is none |
| `Domains.UnderIffLabelSuffix` | proxy/cmd/proxy/routing.go:239-258 | A host is some name, a dot and the domain if and only if the domain's labels are a proper suffix of its labels |
| `Dns.DNSCache.Get` | proxy/cmd/proxy/routing.go:336-362 | What is found is the last unevicted store of a host of the same name, younger than its positive or negative TTL at the time the call read; what is not found is missing or too old at that time or by the latest cleanup; nothing is found for a host that is blank but for a dot |
| `Dns.DNSCache.Set` | proxy/cmd/proxy/routing.go:364-414 | The store becomes what the cache knows of every spelling of the host's name, however it is dated, and changes what it knows of no other host but an evicted one; the size stays within the maximum, and at most one entry is evicted, only for a new host when the cache was full and every entry live |
| `Dns.DNSCache.NormalizeHost` | proxy/cmd/proxy/routing.go:326-334 | The trimmed and lower-cased text of the host, less one final dot if it ends in one |
| `Dns.DNSCache.SharedIffSameName` | proxy/cmd/proxy/routing.go:326-334 | Two hosts share an entry if and only if their trimmed and lower-cased texts are equal, or one is the other, which ends in no dot, with a dot |
| `Dns.DNSCache.RemoveExpired` | proxy/cmd/proxy/routing.go:416-424 | Exactly the expired entries go, and no answer changes |
| `Dns.DNSCache.Lookup` | proxy/cmd/proxy/routing.go:465-582 | By one caller: the stored answer while it is young enough, else the resolver's, which is then stored |
| `Dns.DNSCache.Resolve` | proxy/cmd/proxy/routing.go:492-552 | The function run in the single flight, in whatever state other calls left the cache: a stored answer that is young enough, else the resolver's, which is then stored |
| `DnsFlight.AnswersAreForTheirHost` | proxy/cmd/proxy/routing.go:465-582 | In every interleaving of lookups every call that returned, from the cache, as leader or as waiter, returned something the resolver said about the host the call asked for |
| `DnsFlight.OneLookupPerHost` | proxy/cmd/proxy/routing.go:492-552 | In every interleaving at most one call at a time resolves a host, and the group holds exactly the hosts with one |
| `DnsFlight.WaitersAreServed` | proxy/cmd/proxy/routing.go:492-552 | A waiter's flight is for its own host, and is over with an answer about that host or still led |
| `Dns.DNSCache.constructor` | proxy/cmd/proxy/routing.go:296-324 | The defaults for the size and the two TTLs |
| `Dns.LastAnswerIsLast` | proxy/cmd/proxy/routing.go:336-362 | The answer named by the log is the store of the host that nothing about the host follows |
| `Dns.StoreKeepsOthers` | proxy/cmd/proxy/routing.go:397-413 | A store becomes its host's answer and changes that of no other host but the evicted one |
| `RouteRules.TableGrows` | proxy/cmd/proxy/routing.go:796-821 | Visiting one more field, in whatever order, keeps the table a table of the visited rules |
| `RouteRules.AnyLoadingOrder` | proxy/cmd/proxy/routing.go:790-910 | When keys stay distinct after normalisation, any two orders of iteration make the same tables |
| `RouteRules.RewrittenCoversSame` | proxy/cmd/proxy/routing.go:871-893 | The rule that is inserted covers an address if and only if the prefix as it was parsed covers it or, for an IPv4 address and a prefix of at least 96 bits, covers its IPv4-in-IPv6 form; it fixes as many bits of the address |
| `RouteRules.NaiveRouteIsUnique` | proxy/cmd/proxy/routing.go:651-740 | When keys stay distinct, the naive scan has one result |
| `Routing.LoadDomains` | proxy/cmd/proxy/routing.go:790-821 | In any order, the exact table and the trie hold exactly the usable rules of the hash |
| `Routing.LoadCidrs` | proxy/cmd/proxy/routing.go:842-896 | In any order, the two families hold exactly the usable CIDR rules, rewritten where they are IPv4-in-IPv6 |
| `Routing.LoadRoutes` | proxy/cmd/proxy/routing.go:742-927 | The cache holds the rules of the hashes, and the default is the trimmed one or the direct route |
| `Routing.ResolveCidrRoute` | proxy/cmd/proxy/routing.go:602-649 | The longest match over the resolved addresses, the earliest address among equal lengths; not found exactly when none matches |
| `Routing.ResolveRoute` | proxy/cmd/proxy/routing.go:651-740 | For any hashes loaded in any order: if the trimmed and lower-cased host, or its host part when it splits into host and port, is a name without empty labels, up to two final dots, the naive scan of that name (exact rule, longest wildcard, longest CIDR of the literal or of the resolved addresses, default); the direct route when nothing or a single dot is left |
| `AuthFlight.OneLeaderPerKey` | proxy/cmd/proxy/auth.go:110-184 | In every interleaving a key has at most one leader, the inflight map holds exactly the keys with one, and at most two derivations run at once |
| `AuthFlight.WaitersGetTheLeadersAnswer` | proxy/cmd/proxy/auth.go:110-149 | Every call that returned, leader or waiter, returned the answer its leader derived for the very key the call asked for |
| `AuthFlight.WaitersAreNotStranded` | proxy/cmd/proxy/auth.go:110-149 | A waiter's flight is for its own key, and is done or its leader is still running |
| `AuthCache.AuthStore.CheckCredentials` | proxy/cmd/proxy/auth.go:72-159 | For calls that do not overlap, the direct check against the current users, across hits, expiries, evictions and reloads |
| `AuthCache.AuthStore.StoreCache` | proxy/cmd/proxy/auth.go:186-202 | Below the bound the cache gains exactly the new entry; the counter equals the number of entries and is at most 4096 afterwards; a live entry goes only if the cache is then full |
| `AuthCache.AuthStore.CleanupCache` | proxy/cmd/proxy/auth.go:204-241 | No entry past its time remains, and a live entry goes only if the cache is full afterwards; the eviction loop terminates |
| `AuthCache.AuthStore.Publish` | proxy/cmd/proxy/auth.go:347-349 | New users take effect with a new generation, and no older entry counts any more |
| `AuthRace.OldAnswerIff` | proxy/cmd/proxy/auth.go:72-159 | With reloads and any number of calls in every interleaving: a call that starts now returns an answer about users that a finished reload has replaced if and only if the cached entry of the current generation is about such users or, when there is no entry it can use, the leader of the flight has read such users |
| `AuthRace.OldOnlyIfTaken` | proxy/cmd/proxy/auth.go:94-118 | The same for a call whose own steps are interleaved with anything: the answer is about users replaced before the call began if and only if it took an entry about such users or joined a flight about such users |
| `AuthRace.SettledIsReturned` | proxy/cmd/proxy/auth.go:110-149 | Once a call has hit, joined or taken the lead, the users its answer is about are settled in every continuation |
| `AuthRace.EntryIsOldIffCrossed` | proxy/cmd/proxy/auth.go:133-141 | An entry of the current generation is about replaced users if and only if the call that stored it read its users and its generation from different reloads |
| `AuthRace.CrossedIffReloadBetween` | proxy/cmd/proxy/auth.go:76-94 | A call reads users older than its generation if and only if a whole reload lies between its two reads |
| `AuthRace.LeaderIsOldIffReloadSince` | proxy/cmd/proxy/auth.go:110-129 | The leader of a flight has read replaced users if and only if a whole reload lies since that read |
| `AuthRace.OldAnswerIsCached` | proxy/cmd/proxy/auth.go:347-349 | A concrete interleaving after which, with no reload and no flight under way, the cache answers every new call about replaced users |
| `AuthRace.OldAnswerIsJoined` | proxy/cmd/proxy/auth.go:110-118 | A concrete interleaving after which a new call is answered about replaced users by a flight begun before the reload, though no call has read across a reload |
| `SocksUdp.AcceptedIffWellFormed` | proxy/cmd/proxy/socks5_udp.go:1242-1340 | A datagram is accepted if and only if it is unfragmented with zero reserved bytes, address type 1, 3 or 4 and enough bytes for its address and port; its fields are then the bytes at those places |
| `SocksUdp.DatagramBytes` | proxy/cmd/proxy/socks5_udp.go:1128-1208 | A built datagram is three zero bytes, the address type, the address, the port with its high byte first, and the payload |
| `SocksUdp.ParseOfBuild` | proxy/cmd/proxy/socks5_udp.go:1128-1208 | Parsing a response built for an address gives the unwrapped address, the port and the payload |
| `SocksUdp.ParseOfBuildFromTarget` | proxy/cmd/proxy/socks5_udp.go:1003-1126 | A response is built if and only if the port fits and the host is an address or has at most 255 bytes; parsing it gives the host, the port and the payload back |
| `SocksUdp.RebuildIffCanonical` | proxy/cmd/proxy/socks5_udp.go:1242-1340 | Rebuilding a parsed datagram gives the same bytes if and only if it holds no wrapped IPv4 address and no address spelled as a domain |
| `UdpSessions.TableHoldsTheLiveSessions` | proxy/cmd/proxy/socks5_udp.go:295-424 | In every interleaving an inserted session that is no longer in the table is closed, and a key has at most one live session |
| `UdpSessions.AllClosedAtEnd` | proxy/cmd/proxy/socks5_udp.go:197-215 | When the association has ended every session it ever opened is closed and no step opens another |
| `UdpSessions.SuccessorSurvives` | proxy/cmd/proxy/socks5_udp.go:859-870 | In every run a live session stays in the table until one of its own events or the end of the association comes: nothing a dying predecessor or another session does removes it |
| `UdpSessions.SentOnItsOwnKey` | proxy/cmd/proxy/socks5_udp.go:528-625 | In every interleaving a datagram is sent on a session that was opened for the very key looked up for it |
| `UdpSessions.OneClient` | proxy/cmd/proxy/socks5_udp.go:130-175 | All accepted datagrams come from the address that was bound first |
| `UdpSessions.KeysAreDistinct` | proxy/cmd/proxy/socks5_udp.go:193-195 | Different (route, target) pairs have different keys when route names hold no bar |
| `UdpSessions.KeysCollideIff` | proxy/cmd/proxy/socks5_udp.go:193-195 | Some targets under two routes share a key if and only if one route with its bar starts the other, and then every target of the longer route shares its key with one of the shorter |

## Left out

- The admin back end and front end: CRUD and user interface with no hard invariant of their own.
- Sockets, TLS, websocket framing, HTTP parsing, pings, deadlines and logging: success, failure and close of
  each are choices of an event. Websocket links deliver in order and lose messages only at their end.
- PostgreSQL and Redis: the tables they hold are arbitrary inputs.
- PBKDF2, SHA-256, trimming, case folding, `SplitHostPort` and the parsing and printing of IP addresses: function
  parameters. The digest of the credential cache is assumed injective; the text of an address is assumed to parse
  back to the same address, and JSON to preserve a request.
- Session ids: assumed never reused, as they are random UUIDs. Generation and round-robin counters are unbounded.
- Liveness, broker shutdown and the `online` flags: the selects have no stated fairness, so only safety is proved.
- Metrics, configuration, protocol detection, back-off, `target_policy.go`, `direct_target.go` and the port range
  search: short code with no state of its own.
- Concurrent execution of Go methods: interleavings are those of the step systems; the classes show what one
  handler does to its tables and are used by one caller at a time.
- The goroutines of `handleBroker`, `remoteReader`, `sessionWriter` and the UDP associations, the dial gate,
  `setConn`/`close` and the single flight: modelled on values as steps, because what matters is their interleaving;
  update in place and aliasing of their objects are not captured, except for the pooled buffers.
- AuthCache.AuthStore.CheckCredentials: only for calls that do not overlap each other or a reload; what overlapping
  calls and reloads can do is in `auth_race`, for one key.
- Routing.ResolveRoute: the naive scan is claimed for hosts without empty labels only, as the code treats the others
  differently; the DNS answer is a parameter of it, and the cache behind it is proved in `dns_cache`.
- Cidr.CidrTrie.Insert: the root of a family exists from the start, without a rule or children, where the code makes
  it at the first insert.
- Dns.DNSCache.Lookup: one caller at a time; the single flight that merges concurrent lookups is in `dns_flight`,
  without the times.
