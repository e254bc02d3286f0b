# A verified model of the WebRTC CDN node

A WebRTC CDN node takes live streams from publishers and hands them to viewers. Several nodes
share the work: they exchange RESOLVE, INFO, CONNECT and OFFER messages over a Redis service to
find out which of them hosts a stream, and relay the stream from host to host. This project models
that system in Dafny and proves what its protocol, its registries and its text format keep.

`dafny verify dfyconfig.toml` checks everything.

## How it is built

| file | what it holds |
|---|---|
| `Types.dfy` | identifiers, tracks, inter-node messages |
| `NodeSpec.dfy` | what every handler of one node does to its four registries, as functions |
| `StreamSpec.dfy` | the same, seen from one stream; every step touches one stream only |
| `NodeInvariants.dfy` | what every run of one node keeps: shape, track agreement, ids; streams are independent |
| `Presence.dfy` | who is registered after a step, and what it publishes |
| `Readiness.dfy`, `Offers.dfy` | when a source or relay is ready, in terms of tracks and kinds; what viewers and remote nodes are offered |
| `Detached.dfy` | objects that have left the registries, with queued tasks: nothing is offered after a close |
| `Location.dfy` | the stream-location protocol for one stream, and its invariants |
| `Network.dfy` | N nodes and a bag of messages in flight; it follows the protocol of `Location` for every stream |
| `NetworkTheorems.dfy` | results about every reachable state of the network |
| `NetworkLimits.dfy` | when a host survives the messages in flight, when the network settles, and when a lost sender comes back, exactly |
| `Requests.dfy` | client connections, their request tables, and the handlers that move tables and registries together |
| `RequestInvariants.dfy`, `RequestRuns.dfy` | what ties tables, registries and objects, handler by handler; tearing down a connection |
| `RequestTheorems.dfy` | results about every reachable state of a node and its clients |
| `Replies.dfy` | who is let in, what every client is told, and what it can conclude from that |
| `RequestTexts.dfy`, `RequestLimits.dfy` | which requests a client's text can make; what the request limit does, exactly |
| `FullNetwork.dfy` | N nodes with their clients' connections; their registries and messages follow `Network` |
| `Histories.dfy` | every node of such a network is in a state that it reaches by itself, so what is proved of nodes and clients holds there |
| `RelayLimits.dfy`, `Serving.dfy`, `FullLimits.dfy` | when a relay stays where it points, exactly; states in which viewers get nothing, reached by clients, media and messages |
| `HandlerSteps.dfy`, `Objects.dfy` | the program's own objects: classes that update their fields in place, refer to each other and loop over maps; every method is proved to do what its function in `NodeSpec` or `Requests` says |
| `Signaling.dfy`, `SignalingLaws.dfy`, `Spelling.dfy` | the text format: the two-flag parsing loop, the printing loop, the round-trip laws, and what becomes of letters and blanks |

The layers are connected by proofs. A method of `Objects` turns a state that shows as `w` into one
that shows as the function's result on `w`, with the same publications. Every transition of `Requests`
is a run of `NodeSpec` steps (`RequestTheorems.TransitionsAreNodeRuns`), and the invariant that
some methods of `Objects` ask of `w` is kept by all of them (`RequestTheorems.MoveKeepsAllOK`). Every step of a node,
looked at from one stream, is the step of `StreamSpec` (`StreamSpec.StepIsStreamwise`). Every step of
the network, looked at from one stream, is a move of `Location` (`Network.StepFollowsProtocol`). And every run
of a network of nodes with all their connections is, for the registries and the messages, a run of `Network`
(`FullNetwork.FullRunsAreRuns`), and a lawful one if no object that has left delivers tracks, so that what is
proved of `Network`, of `Requests` and of tracks holds of it at once. Every node in it, with its clients, is in a
state that the node reaches by itself (`Histories.NodesAreReached`).

### What a run is

- One transition is one critical section of a node with what it publishes, or one handler of a client
  connection with all its nested calls. Locks are taken to be re-entrant: the program nests them in an
  order that is not always the same (republishing a stream on the same socket goes from
  `h.statusMutex` through `registerSource` and `close` back to `sendSourceClose`), so this is an
  assumption, not a result.
- The RESOLVE reply is two steps: `resolveSource` finds the source, and `sendInfoMessage` publishes
  later. Between them a pending reply stands in the bag of messages.
- The set of nodes is fixed, with distinct ids. A broadcast puts one copy per node into the bag, the
  sender's own included (the handler ignores it). Messages are delivered in any order, and none is lost.
- An OFFER takes effect on the relay when it is delivered, although the program starts a task for it.
- Every run that can happen includes those in which sources and relays that have left their registries still
  deliver tracks: `source.run()` and a queued `relay.onOffer` do not check whether their object was closed, and
  could set such callbacks up too late. The results about where a stream is, about detached sinks and senders, and
  about clients, tables and registries hold for all these runs. Only results about which tracks a viewer
  or a sender holds are about lawful runs, in which this does not happen (`NodeInvariants.Lawful`).
- A relay that has left its registry may still report a lost peer, and takes the stream's present relay
  out: this is modelled. Only a relay that would hold the very track objects of a ready source is ruled
  out of lawful runs.
- Identity of Go pointers appears as `stamp` (sources, senders) and as the sink id. Track objects are
  opaque identities. What a client socket is sent is recorded in the object that sends it.
- `requestCount` is a uint32 and wraps, up and down, as in the program. The request limit is any number.
- `checkAuthentication` is a boolean parameter. Characters are ASCII.

### Limits of the program that are proved

The runs that lead to these states are made of what clients, media, peer connections and messages do
(`FullLimits.Reached`, `RequestLimits.AskedReachable`).

- Two publishers whose INFO messages cross evict each other: in any network with two nodes clients publish the
  stream at both, and two deliveries leave nobody hosting it (`FullLimits.TwoPublishersLoseTheStream`).
  Exactly: a host survives whatever is delivered if and only if no INFO for it, no pending reply for it and no
  RESOLVE of its own that is on the way to another host is in flight (`NetworkLimits.HostSurvivesExactly`), and the
  stream keeps a host if and only if one of its hosts is in that position (`NetworkLimits.StreamSurvivesExactly`).
- A reply that comes late turns a relay away from the host: in any network with three nodes a state is reached with
  nothing in flight in which one node hosts the stream and another node's viewers are left with a third that does not
  (`FullLimits.ViewersCanBeMisled`). Exactly: whatever is delivered, a relay stays where it points if and only if no
  other node has an INFO or a pending reply for it, and none that hosts has its RESOLVE coming
  (`RelayLimits.RelayStaysExactly`).
- A lost sender is not renewed until its remote node asks again. In any network with two nodes a state is reached in
  which a node's viewers are served through a peer connection, and its failure leaves them with nothing: nothing is in
  flight, and their relay names a host that has no sender for it (`FullLimits.ViewersCanStarve`). Only that node's
  CONNECT can bring the sender back (`NetworkLimits.OnlyAskingHelps`). When nothing is in flight a host's sender for a
  relay that names it is there if and only if it was not lost (`NetworkTheorems.Quiescence`), and runs without such a
  loss have no fault (`NetworkTheorems.NoLossNoFaults`).
- Parsing drops the empty lines of a body, which doc/signaling.md does not say. A printed message reads
  back with its body exactly when the body has no empty line (`SignalingLaws.PrintThenParse`); the body `a`, empty
  line, `b` does not come back (`SignalingLaws.EmptyBodyLineIsLost`).
- A header line such as `" :x"`, whose key is blank but not empty, gives a parameter with an empty key, which
  printing and parsing again loses (`SignalingLaws.BlankKeyIsLost`). The round trip of a text is exact if and only
  if its header has no such line (`SignalingLaws.ReparseExactly`).
- The request count is a uint32 tested with `>`. It is the size of its table in every run, and the limit refuses
  some request in some run, if and only if the limit is below 4294967295
  (`RequestLimits.CountsAreSizesExactly`, `RequestLimits.LimitBitesExactly`), and this is so already for requests
  that texts can make, which are those without a line break or a blank end (`RequestTexts.AskableExactly`); and then a table may grow to one more
  than the limit (`RequestTheorems.RequestCountsAreExact`).

## Model

| member | source | states |
|---|---|---|
| NetworkTheorems.TwoHostsMeetInfo | node_sources.go:15-43 | In every reachable state of the network, two different nodes that both hold a source for a stream have an INFO between them in flight |
| NetworkTheorems.NoViewerForgotten | node_sinks.go:16-41 | In every reachable state, a node with viewers and no source, while another node hosts the stream, has a relay, or a RESOLVE, a pending reply or an INFO that leads to one is in flight |
| NetworkTheorems.RelayMeetsSender | node_sender_relay.go:9-43 | In every reachable state, a relay that names a current host has a sender there, or the CONNECT or INFO that makes one is in flight, or that sender was lost and is missing since |
| NetworkTheorems.Quiescence | node_sender_relay.go:88-125 | When nothing about a stream's place is in flight it has at most one host, the host has no relay, every other node with viewers has a relay, and a relay naming the host is fed by it if and only if that sender was not lost |
| NetworkTheorems.SendersFeedThePresentSource | node_sender_relay.go:19-42 | In lawful runs a host's sender is open, was made under the present source, and holds its tracks if the source is ready and none if not |
| NetworkTheorems.UncontestedPublisherServesEveryViewer | node_sources.go:25-42 | After a publication nobody contests, and any further run that does not contest it, the publisher is the only host once messages have settled, and every other node with viewers has a relay from it, with a sender behind it if and only if that sender was not lost |
| NetworkTheorems.NoLossNoFaults | node_sender_relay.go:46-57 | A run in which no sender loses its peer records no fault, so the exceptions above do not arise |
| NetworkTheorems.DeliveriesEnd | redis_srv.go:96-136 | Whatever the order of delivery, deliveries alone are no more than the weight of the messages in flight: handlers cannot answer each other for ever |
| NetworkTheorems.DeliveryPossible | redis_srv.go:96-136 | Deliveries stop only when no message is left |
| NetworkTheorems.InfoEvicts | node_sender_relay.go:92-100 | An INFO from another node takes the receiver's source away, gives a source to nobody, and leaves the other messages in flight |
| NetworkTheorems.CrossingPublishersLoseBoth | node_sender_relay.go:92-100 | With INFO messages in flight both ways, two deliveries leave neither node hosting and no new host |
| NetworkTheorems.PublicationsCross | redis_srv.go:164-172 | Two publications in a row at different nodes bring that state about |
| NetworkLimits.HostSurvivesExactly | node_sender_relay.go:92-100 | In every reachable state, a host goes on hosting through every run of deliveries if and only if no INFO and no pending reply for it is in flight from another node, and no RESOLVE of its own is on the way to another host |
| NetworkLimits.StreamSurvivesExactly | node_sender_relay.go:92-100 | In every reachable state, every run of deliveries leaves the stream a host if and only if some host of it is in that position |
| FullLimits.TwoPublishersLoseTheStream | node_sources.go:25-42 | In any network with two nodes clients publish the stream at both, and two deliveries then leave it no host |
| RelayLimits.RelayStaysExactly | node_sender_relay.go:104-124 | In every reachable state, a relay goes on naming the same node through every run of deliveries if and only if no INFO and no pending reply for its node is in flight from another, and no RESOLVE of its node is on the way to another host |
| FullLimits.ViewersCanBeMisled | node_sender_relay.go:104-124 | In any network with three nodes a run of clients and messages ends with nothing in flight, a host, and another node with viewers whose relay names a node that does not host |
| NetworkLimits.EveryStateSettles | redis_srv.go:96-136 | From every reachable state some run of deliveries leaves no message in flight |
| NetworkLimits.UncontestedPublicationSettles | node_sources.go:25-42 | After an uncontested publication, and any run that does not contest it, some run of deliveries empties the network, and then every node with viewers is relayed from the publisher |
| NetworkLimits.SendersComeByConnect | node_sender_relay.go:9-43 | The one step that makes a missing sender is the delivery of its remote node's CONNECT to a host |
| FullLimits.ViewersCanStarve | node_sender_relay.go:46-57 | In any network with two nodes a run of clients, media and messages brings viewers behind a peer connection, and the failure of that connection ends with nothing in flight, a host, and a relay that names it without a sender |
| NetworkLimits.OnlyAskingHelps | node_sender_relay.go:9-43 | If a missing sender is there after a run, the run delivered a CONNECT from its remote node to the host |
| NetworkTheorems.StepKeepsNetInv | redis_srv.go:96-136 | Every step of every node, delivery and pending reply keeps the network's invariant for every stream at once |
| NetworkTheorems.RunKeepsNetInv | redis_srv.go:96-136 | So does every run, whatever its length and order |
| NetworkTheorems.RunKeepsNodes | redis_srv.go:96-136 | Every lawful run of the network keeps every node's own invariant |
| Network.StepFollowsProtocol | redis_srv.go:96-136 | Each step of the whole network, seen from any one stream, is a move of the location protocol |
| Location.MoveKeepsInv | node_sources.go:15-91 | Every move of the location protocol keeps the two-host, no-viewer-forgotten and handshake invariants together |
| Location.KeepsSeen | node_sources.go:70-91 | The no-viewer-forgotten invariant survives a closing source that publishes nothing, because of the two-host invariant |
| Location.KeepsHandshake | node_sender_relay.go:104-124 | A relay that names a host is served or about to be, also when the host publishes again and drops all its senders |
| Location.UncontestedStaysSole | node_sources.go:15-43 | While nobody else publishes and the publisher stays, it remains the only host and every relay points to it or will be told |
| Location.UnthreatenedStays | node_sender_relay.go:92-100 | A host for which no eviction is in flight or can be answered stays so through every delivery and reply |
| Location.NamedStays | node_sender_relay.go:104-124 | A relay that no other node can turn stays where it points through every delivery and reply |
| Location.KeepsLost | node_sender_relay.go:46-57 | A sender that was lost stays missing until CONNECT makes it anew |
| Location.QuietMeansLocated | node_sender_relay.go:155-173 | With nothing in flight the stream is located: one host at most, relays where viewers are, and a relay naming the host fed if and only if its sender was not lost |
| StreamSpec.StepIsStreamwise | node_sources.go:15-91 | Every handler changes the entries of the stream it names, as that stream's own step says, and of no other stream |
| FullNetwork.StepFollowsNetwork | redis_srv.go:96-136 | Every step of a network of nodes with their clients' connections is, for the registries and the messages, a run of the network of registries |
| FullNetwork.StepKeepsFullInv | connection_handler.go:166-298 | Every such step keeps the network's invariant together with the tables, objects and registries of every node |
| FullNetwork.FullRunsAreRuns | connection_handler.go:471-492 | So in every run of the whole, registries and messages are in a reachable state of the network, and every node keeps the invariants of its clients; and a lawful run reaches a lawful state, with the invariants of tracks |
| Histories.NodesAreReached | redis_srv.go:96-136 | In every run of the whole network every node with its clients is in a state that it reaches by itself |
| Histories.SourcesAreReadyExactly | wrtc_source.go:122-126 | In every state that a node and its clients reach, a registered source is ready if and only if it holds a track and lacks none that was announced |
| Histories.NodesHaveLawfulHistories | redis_srv.go:96-136 | In every lawful run of the network the registries of each node come about by a lawful run of that node |
| Histories.ViewersAreOfferedTheCurrentTracks | wrtc_sink.go:140-188 | In every lawful run of the whole network, beside a ready source or relay every viewer's client was last offered exactly its tracks, or a task that will offer them is queued |
| NodeInvariants.StepKeepsInv | node_sender_relay.go:9-173 | Every lawful step keeps the node's shape, the agreement of tracks, the openness of registered objects and the uniqueness of sink ids |
| NodeInvariants.StepKeepsOpenInv | node_sinks.go:6-68 | Every step that can happen, callbacks of objects that have left included, keeps sink ids unique, registered objects open and inner maps non-empty |
| NodeInvariants.KeepsShape | node_sinks.go:56-67 | No source beside a relay, no relay without a viewer, no relay or sender for the node itself |
| NodeInvariants.KeepsSinksAgree | node_sinks.go:26-36 | While a source or relay is ready every sink of the stream holds exactly its tracks, late sinks and second offers included |
| NodeInvariants.KeepsSendersAgree | node_sources.go:33-39 | While a source is registered every sender was made under it and holds its tracks when it is ready |
| NodeInvariants.ViewersHoldCurrentTracks | node_sources.go:47-58 | In every lawful run from the start a sink holds exactly the tracks of its stream's ready source or relay, its flags say which, and its id is in no other stream |
| NodeInvariants.SendersHoldTheirSourcesTracks | node_sources.go:60-65 | In every lawful run from the start a sender beside a source belongs to that source, is open, and holds its tracks if it is ready |
| Presence.RegisteredExactly | node_sources.go:15-91 | After every step exactly those sources, relays, viewers and served nodes of each stream are registered that the event brings, and nobody else comes or goes |
| Presence.PublishedExactly | redis_srv.go:139-200 | A new source is announced, viewers ask when nothing is ready or their relay is lost, an INFO is answered by CONNECT if there are viewers, a task offers the kinds of track a sender has, and nothing else is published |
| Readiness.SourcesAreReadyExactly | wrtc_source.go:122-126 | In every run a registered source is ready if and only if it holds a track, and video if it announced video, and audio if it announced audio |
| Readiness.SourceTakesTrack | wrtc_source.go:71-127 | A second track of a kind changes nothing; any other is added, and when no announced kind is missing the source is ready and every sink and sender of the stream holds its tracks with one more task queued |
| Readiness.RelayTakesTrack | wrtc_relay.go:67-105 | The same of a relay, the kinds its last OFFER named, and the sinks of the stream |
| Readiness.DepartedTakesTrack | wrtc_relay.go:67-105 | A source or relay that has left takes tracks in the same way, and gives them to the sinks and senders that are there by then |
| Readiness.RelaysExpectWhatIsOffered | wrtc_relay.go:40-45 | What a relay expects is what the last OFFER named, and nothing before the first: no other step changes it, and only an INFO makes a relay |
| Offers.SinkTaskOffersItsTracks | wrtc_sink.go:96-188 | The task of a sink offers exactly both its tracks, through a peer, and sends nothing if it has none |
| Offers.LostPeerIsRetried | wrtc_sink.go:244-253 | A failed peer is dropped and a task queued, unless the sink is closed |
| Offers.ViewersAreOfferedTheCurrentTracks | wrtc_sink.go:140-188 | In every lawful run, beside a ready source or relay a viewer has a peer and its client was last offered exactly that source's or relay's tracks, or a task is queued that will do so; without tracks the client was told nothing or to stand by |
| Offers.SendersOfferTheSourcesTracks | wrtc_source_sender.go:68-159 | In every lawful run a sender of a ready source has a peer and has sent an OFFER, or a task is queued, whose OFFER names exactly the kinds of track that the source has |
| Offers.SinksSendExactly | wrtc_sink.go:73-188 | In every step a sink that stays sends an offer of its tracks when its task runs, a STANDBY when a source or relay with its tracks closes, and nothing else |
| Offers.ConnectServes | node_sender_relay.go:9-43 | A CONNECT at a host makes a new sender of the present source, with its tracks and one task if it is ready; elsewhere it does nothing |
| Offers.SendersSendExactly | wrtc_source_sender.go:68-159 | In every step a sender that stays sends one OFFER when its task runs and it has a track, to its remote node and with the kinds of its tracks, and none otherwise |
| NodeInvariants.SourceCloseReachesEveryViewer | node_sources.go:85-90 | When a ready source closes, the equality guard lets every sink of the stream through: each loses its tracks and gets one STANDBY |
| NodeInvariants.RelayCloseReachesEveryViewer | node_sender_relay.go:155-173 | When a ready relay closes, every sink gets one STANDBY, there is at least one, and a RESOLVE follows |
| NodeInvariants.StreamsAreIndependent | node_sources.go:15-91 | A stream's entries and publications after any run are those of the run with the other streams' steps removed, whatever the others' entries were |
| Detached.NothingSentAfterSinkClose | wrtc_sink.go:96-102 | Once a sink has left, no run sends anything more for it or gives it a peer or a track, however many tasks are queued and reconnects fire, and whichever objects that have left call back |
| Detached.NoOfferAfterSenderClose | wrtc_source_sender.go:68-74 | Once a sender is closed and gone, no run makes it offer again or gives it a peer or a track, whichever objects that have left call back |
| Detached.ClosingSinkSilencesIt | wrtc_sink.go:256-274 | close() of a registered sink puts it among those that send nothing more |
| Detached.ReplacingSourceSilencesSenders | node_sources.go:33-39 | Publishing again closes every sender of the stream, and each keeps the offers it had made |
| Detached.EveryRunKeepsInv | wrtc_sink.go:244-274 | What the two results above need holds in every run that can happen, from a node's start |
| RequestTheorems.OpenSourcesAreLinked | wrtc_source.go:257-303 | In every reachable state a source object is open exactly while it is its stream's registered source, and exactly while it is its request's entry in its connection |
| RequestTheorems.OpenSinksAreLinked | wrtc_sink.go:256-274 | In every reachable state a sink object is open exactly while it is registered under its stream, and exactly while it is its request's entry in its connection |
| RequestTheorems.RegisteredSinksAreLinked | node_sinks.go:16-67 | In every reachable state a sink is registered exactly while it is its request's entry in its connection, and then it is open |
| RequestTheorems.ClosingDeletesItsOwnEntry | node_sources.go:70-91 | The unconditional deletes of a closing source remove its own registry entry and its own request, never those of its replacement |
| Replies.RefusedPublish | connection_handler.go:174-223 | A PUBLISH with an id that is empty or too long, without authorization, under an id in use, or above the limit changes and publishes nothing, and its client gets one error, whose code names the first of these that applies |
| Replies.RefusedPlay | connection_handler.go:245-286 | The same of a PLAY, which uses up a sink id when only the table or its count is in the way |
| Replies.AcceptedPublish | connection_handler.go:189-231 | Any other PUBLISH registers a new source that expects the kinds of its stream type, takes the stream's relay and senders out, and broadcasts INFO |
| Replies.AcceptedPlay | connection_handler.go:260-298 | Any other PLAY registers a new sink, with the tracks of a ready source or else relay and a task to offer them, or else without tracks, and then RESOLVE is broadcast |
| Replies.EveryTransitionAccounts | connection_handler.go:440-458 | In every transition every connection is told exactly what it is owed: its OK, OK and STANDBY or error, and CLOSE for the source that is evicted or lost; its table gains exactly the accepted request and loses exactly the closed one |
| Replies.ClientsKnowTheirRequests | connection_handler.go:440-458 | In every run the messages a client got show every request in its table as accepted and not closed, and exactly those if it closed none itself |
| RequestTheorems.RequestCountsAreExact | connection_handler.go:215-227 | In every reachable state the requests split by kind into sources and sinks; below the largest uint32 limit the count is the table's size and at most one above the limit |
| RequestLimits.HugeLimitNeverRefuses | connection_handler.go:220-223 | With a limit of 4294967295 or more no reachable state refuses a request for its limit |
| RequestLimits.LimitBitesExactly | connection_handler.go:283-286 | Some request in some run, made by texts, is refused for the limit if and only if the limit is below 4294967295 |
| RequestTexts.AskableExactly | connection_handler.go:239-240 | Some text asks for a stream under a request id if and only if neither has a line break or a blank end |
| RequestLimits.CountsAreSizesExactly | connection_handler.go:225 | A count that is not the size of its table is reached if and only if the limit is 4294967295 or more, and then by requests that texts make |
| RequestTheorems.RequestsAreObjects | connection_handler.go:212-231 | Requests of all connections and registered sources and sinks correspond one to one |
| RequestTheorems.CountsAreConserved | connection_handler.go:440-446 | The counts of all connections add up, modulo 2^32, to the number of registered sources plus registered sinks, and exactly so below the largest uint32 limit |
| RequestTheorems.MoveKeepsAllOK | connection_handler.go:337-360 | Every client message, lost publisher, INFO, ended connection and internal step keeps all of a node's invariants |
| RequestTheorems.RunKeepsAllOK | connection_handler.go:337-360 | So does every run |
| RequestTheorems.TransitionsAreNodeRuns | connection_handler.go:166-298 | Every such transition is, for the registries, a run of node steps that can happen, with the same publication |
| RequestTheorems.RequestsAreLawful | connection_handler.go:166-298 | Every transition that a client or an INFO causes is, for the registries, even a lawful run |
| RequestRuns.TeardownLeavesNothing | connection_handler.go:471-492 | In any visiting order the loop of onClose finds every request, ends with empty tables and count 0, leaves nothing of the connection in the node, and touches no other connection |
| RequestRuns.CloseAllEmpties | connection_handler.go:471-492 | The loop's early return is never taken, and the invariant holds after it |
| RequestInvariants.DropSourceOK | connection_handler.go:440-446 | The unconditional decrement takes an exact count to an exact count, without underflow |
| Objects.WebRTC_CDN_Node.constructor | node.go:54-95 | A new node is valid and shows as the initial state |
| Objects.WebRTC_CDN_Node.Accept | connection_handler.go:47-55 | A new connection joins with empty tables |
| Objects.WebRTC_CDN_Node.ResolveSource | node_sources.go:7-12 | The answer is whether the node hosts the stream |
| Objects.WebRTC_CDN_Node.RegisterSource | node_sources.go:15-43 | The old source is evicted and its client told, the new one registered, the relay and the senders closed and removed, and INFO broadcast |
| Objects.WebRTC_CDN_Node.OnSourceReady | node_sources.go:47-66 | The source is ready, and all its stream's sinks and senders have its tracks, also when the source has left the registry |
| Objects.WebRTC_CDN_Node.OnSourceClosed | node_sources.go:70-91 | The stream's entry and senders are gone, each sender closed, and sinks holding the source's tracks lose them |
| Objects.WebRTC_CDN_Node.GetSinkID | node_sinks.go:6-13 | The id is new: no sink object has it |
| Objects.WebRTC_CDN_Node.RegisterSink | node_sinks.go:16-41 | The sink is registered and has the tracks of a ready source, or else of a ready relay, or else RESOLVE is broadcast |
| Objects.WebRTC_CDN_Node.GiveReadyTracks | node_sinks.go:26-36 | A ready source goes before a ready relay |
| Objects.WebRTC_CDN_Node.RemoveSink | node_sinks.go:44-68 | The sink's entry is gone, with its last entry the stream's, and then the relay is closed and gone |
| Objects.WebRTC_CDN_Node.ReceiveConnectMessage | node_sender_relay.go:9-43 | A host gets a new sender for the asking node, with tracks if they are ready, and the previous sender is closed |
| Objects.WebRTC_CDN_Node.OnSenderClosed | node_sender_relay.go:46-57 | The entry for the sender's stream and node is gone, the inner map with its last entry |
| Objects.WebRTC_CDN_Node.ReceiveInfoMessage | node_sender_relay.go:88-125 | The own source is evicted, closed and its client told; with viewers the relay is replaced, the old one closed, and CONNECT sent |
| Objects.WebRTC_CDN_Node.ReceiveOfferMessage | node_sender_relay.go:129-136 | The relay of the stream, if any, takes the offer's flags |
| Objects.WebRTC_CDN_Node.OnRelayReady | node_sender_relay.go:140-152 | The relay is ready and all sinks of the stream have its tracks, also when the relay has left the registry |
| Objects.WebRTC_CDN_Node.OnRelayClosed | node_sender_relay.go:155-173 | The stream's relay entry is gone, sinks holding the closed relay's tracks lose them, and RESOLVE is broadcast if there are viewers |
| Objects.WebRTC_CDN_Node.ReceiveRedisMessage | redis_srv.go:96-136 | Own messages are ignored, a host of the stream owes a reply to a RESOLVE, and the rest reach their handlers |
| Objects.WebRTC_CDN_Node.SendInfoMessage | redis_srv.go:164-172 | The owed reply is one INFO to the asking node, and changes nothing |
| Objects.WebRTC_CDN_Node.RunSinkTask | wrtc_sink.go:96-102 | A queued task of any sink, registered or not, changes that sink only, and sends nothing once the sink is closed |
| Objects.WebRTC_CDN_Node.SinkPeerLost | wrtc_sink.go:244-253 | A sink whose peer failed queues a task only while it is open |
| Objects.WebRTC_CDN_Node.RunSenderTask | wrtc_source_sender.go:68-159 | A queued task of any sender, registered or not, publishes its OFFER, with its flags, exactly if it has a track, changes that sender only, and publishes nothing once the sender is closed |
| Objects.WRTC_Source.OnTrack | wrtc_source.go:71-127 | A second track of a kind is ignored; with its last expected track the source becomes ready, registered or not |
| Objects.WRTC_Source.OnClose | wrtc_source.go:257-271 | A closed source does nothing; an open one leaves its table and registry, and its client is told |
| Objects.WRTC_Source.Close | wrtc_source.go:274-303 | The two flags decide whether the client is told and whether the registry entry goes; a closed source stays as it is |
| Objects.WRTC_Relay.OnOffer | wrtc_relay.go:40-65 | The relay's expected tracks become those of the offer, and onClose is to follow exactly if no new peer can be had |
| Objects.WRTC_Relay.OnTrack | wrtc_relay.go:67-105 | A second track of a kind is ignored; with its last expected track the relay becomes ready, again after each offer, registered or not |
| Objects.WRTC_Relay.OnClose | wrtc_relay.go:226-240 | The peer is gone and the node reacts as to a closed relay |
| Objects.WRTC_Relay.Close | wrtc_relay.go:243-255 | The peer is gone, and nothing else changes |
| Objects.WRTC_Sink.OnTracksReady | wrtc_sink.go:48-71 | The sink has exactly the given tracks, its peer is dropped, and one task is queued |
| Objects.WRTC_Sink.OnTracksClosed | wrtc_sink.go:73-93 | Exactly a sink that holds both given tracks drops them and is told to stand by |
| Objects.WRTC_Sink.RunAfterTracksReady | wrtc_sink.go:96-188 | A task offers the tracks the flags name, and nothing without a flag |
| Objects.WRTC_Sink.Reconnect | wrtc_sink.go:244-253 | The peer is dropped, and a task is queued unless the sink is closed |
| Objects.WRTC_Sink.Close | wrtc_sink.go:256-274 | The sink holds nothing, is closed, and leaves the node, with its stream's relay if it was the last |
| Objects.WRTC_Source_Sender.OnTracksReady | wrtc_source_sender.go:42-65 | The sender has exactly the given tracks, its peer is dropped, and one task is queued |
| Objects.WRTC_Source_Sender.RunAfterTracksReady | wrtc_source_sender.go:68-159 | One OFFER with the sender's flags goes to its remote node, and none without a flag |
| Objects.WRTC_Source_Sender.OnClose | wrtc_source_sender.go:162-170 | The peer is gone, and so is the registry entry for its stream and node |
| Objects.WRTC_Source_Sender.Close | wrtc_source_sender.go:262-279 | The sender is closed and holds nothing |
| Objects.Connection_Handler.ReceivePublishMessage | connection_handler.go:166-235 | The five refusals in their order, or else the table entry, the OK, the eviction of the old source and the registration |
| Objects.Connection_Handler.ReceivePlayMessage | connection_handler.go:238-298 | The refusals in their order, the sink id taken before the last two, or else the table entry, OK and STANDBY, and the registration |
| Objects.Connection_Handler.CandidateTarget | connection_handler.go:319-334 | A known request always leads to an object: an open registered source, or a registered sink, of this connection |
| Objects.Connection_Handler.ReceiveCloseMessage | connection_handler.go:337-360 | The request's object is closed and leaves node and table, and is not counted any more; an unknown request changes nothing |
| Objects.Connection_Handler.SendSourceClose | connection_handler.go:440-458 | The request leaves the table, is not counted any more, and the client gets CLOSE |
| Objects.Connection_Handler.OnClose | connection_handler.go:471-492 | The loop closes every request in the order it happens to visit them, each once, and nothing is left in the tables |
| Objects.OpenSourcesAreHeld | wrtc_source.go:257-303 | Of the objects themselves: a source is open exactly while its stream's entry is that very object, and exactly while its connection's entry is |
| Objects.OpenSinksAreHeld | wrtc_sink.go:256-274 | Of the objects themselves: a sink is open exactly while its stream's entry is that very object, and exactly while its connection's entry is |
| HandlerSteps.PublishTables | connection_handler.go:223-231 | After an accepted PUBLISH the new request has the new source, the request of the stream's old source is gone, and no other source entry of any connection has changed |
| HandlerSteps.PublishInSteps | connection_handler.go:223-231 | Writing the table first and evicting afterwards gives the handler's result, in which the old source loses its own request only |
| HandlerSteps.CloseOneMore | connection_handler.go:475-491 | One more visit of the loop closes one more request in the state reached so far |
| Signaling.ParseSignalingMessage | signaling_parse.go:16-60 | The loop with two flags computes the declarative reading: the header is the lines up to the first empty one, the body the non-empty lines after it |
| Signaling.ParamsAreLastValues | signaling_parse.go:45-57 | A key is a parameter exactly if some header line sets it, and its value is that of the last such line |
| Signaling.Serialize | signaling_parse.go:63-78 | The text is the printing of the message in some order of its keys, each once |
| SignalingLaws.PrintThenParse | signaling_parse.go:63-78 | A printable message reads back, in any order of keys, with its method upper-cased and keys lower-cased, and with its body if and only if the body has no empty line |
| SignalingLaws.Reparse | signaling_parse.go:16-78 | For every text and order, parsing the printing of its message gives the message without its empty-key parameter |
| SignalingLaws.ReparseExactly | signaling_parse.go:52-55 | The round trip of a text is exact if and only if no line of its header has a key that is blank but not empty |
| SignalingLaws.EmptyKeyExactly | signaling_parse.go:52-55 | A text gives a parameter with an empty key if and only if its header has such a line |
| SignalingLaws.BlankKeyIsLost | signaling_parse.go:52-55 | The text `P`, ` :x` gives such a parameter, and does not come back |
| SignalingLaws.EmptyBodyLineIsLost | signaling_parse.go:34-49 | A body with an empty line comes back without it |
| SignalingLaws.ParsedIsPrintable | signaling_parse.go:24-57 | Whatever the text, the message read from it satisfies what printing needs |
| Spelling.MessagesAreSpelled | signaling_parse.go:24-57 | The method is the first line without blank ends and in large letters, letter by letter; every parameter is set by a header line `a:b`, with `a` in small letters, both without blank ends |
| Spelling.CaseOfMessages | signaling_parse.go:24-57 | No method has a small letter and no key a large one |
| Spelling.ParameterExactly | signaling_parse.go:50-55 | A line sets a parameter if and only if it has a colon that is not its first character, split at the first colon |
| Spelling.TrimExactly | signaling_parse.go:25 | Trimming takes spaces, line ends and tabs from both ends, all of them and nothing else |
| RequestTexts.HeaderLineIsRead | signaling_parse.go:50-57 | A header line `k: v`, among whatever others, is what is read under `k` in small letters, if no later line has that key |
| RequestTexts.AnySpellingAsks | connection_handler.go:167-168 | A text asks for the same stream under the same id however the letters of its keys are written |
| RequestTexts.DocumentedSpellingAsks | doc/signaling.md:45-65 | So does the documented spelling, Request-ID and Stream-ID |
| RequestTexts.DocumentedTypes | connection_handler.go:190-197 | AUDIO names audio, VIDEO video, and DUAL or no type both, in large or small letters |

## Left out

- WebRTC itself (pion peers, SDP and ICE contents, ANSWER and CANDIDATE payloads, RTP piping in track_pipe.go): foreign code; tracks are opaque identities, and creating tracks and offers, and peers of sources, sinks and senders, always succeeds.
- Objects.WebRTC_CDN_Node.ReceiveOfferMessage: applies the offer at once, although the program starts a task that may run after the relay has been replaced; such late tracks are covered by `NodeSpec.LateTracks` in the network results.
- Objects.WebRTC_CDN_Node.ReceiveRedisMessage: ANSWER and CANDIDATE are not dispatched, as their payloads are not modelled.
- A map from the objects that have left their registries in `Objects` to the values of `Detached`: that closed objects offer nothing is proved of the objects as well (`Objects.WebRTC_CDN_Node.Valid`, `RunSinkTask`, `RunSenderTask`), and not by way of `Detached`.
- Objects.WebRTC_CDN_Node.GetSinkID: does not model the wrap-around of the 64-bit sink counter.
- Objects.Connection_Handler.CandidateTarget: the forwarded candidate, and receiveAnswerMessage, which differs by a nil check that never matters.
- Lock ordering and deadlock: every handler is one atomic step.
- Redis and websocket input and output, JSON, TLS, HTTP serving, heartbeats and timers, logging, configuration from the environment.
- Message loss, reconnection to Redis, stand-alone mode, and nodes that join during a run.
- JWT checking in authentication.go, and the IP admission counters and request ids of http_server.go: simple counters.
- Case mapping and trimming of non-ASCII text.
