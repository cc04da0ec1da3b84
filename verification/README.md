# Maia Meet: a verified model

Maia Meet is a small-room video conference. A Node server keeps the rooms and
relays signaling; every pair of browsers in a room holds one RTCPeerConnection;
a C++ forwarding unit rewrites RTP for its subscribers; two Python installers put
the whole thing on a host. This project models these parts in Dafny and proves
what they are meant to guarantee. `dafny verify dfyconfig.toml` checks it.

## How the model is organised

Code that changes fields step by step is modelled by classes
(`SignalingServer.Server`, `RoomClient.RoomState` and `Page`, `Browser.Client`,
`WebRtc.WebRtcSession`, `Requests.SignalingClient`, `Devices.DeviceManager`,
`Publishing.TrackSender`, `Rtp.RtpPacket`, `Rewriter.RtpRewriter`,
`Forwarding.Router`, `Installer.Host`, `RateLimiter.Limiter`). Each method is
proved equal to a step function on values, and the properties are proved of those
steps over whole runs. What an operation does is stated a second time without the step
functions, on the fields of the state or in terms of the events so far.

The conference is built in layers.

* `RoomNet` joins the server to its clients by one FIFO wire per connection.
  Clients may send any frame at any time and sockets may fail at any time.
  `ServerEffects` says what handling one input can add to each wire, and
  `RoomStream` follows all that one client is ever sent. `RoomTheorems` and
  `RoomLimits` state what holds in every reachable state: the registry is a
  bijection, views converge, signals are bracketed, departures are final, chat is
  one log.
* `ServerAnswers` says from the outside what the server does with each message: which
  rule it breaks first and the error for it, or who is sent what. `Sockets` follows one
  connection over a run, with its rate limit; `Deliveries` says that all that is ever
  sent is stripped, within its limits and well formed.
* `PeerLane` is what one client keeps about one other participant: the promise
  chain, the operation suspended at an await, the connection with its signalling
  state (section 3.2 of RFC 8829), the early ICE candidates, and the departed or
  closed mark. `WebRtc.WebRtcSession` keeps all lanes of a client in its maps, and
  each of its methods is shown to be one step of one lane.
* `Mesh` adds an uplink per client and its lanes. `MeshTheorems` proves that every
  pair has at most one offer and one answer and that every description call is
  permitted, by counting descriptions taken, queued, on the wire and on the uplink
  against those sent. `Departures` proves that every connection to somebody who left is
  closed, and stays closed, once the notice has been read.
* `Connected` (on top of `Settling`) proves the end-to-end result. For any two
  members whose own sockets, promises and messages do not fail, while everybody
  else joins, leaves and fails at will: each takes exactly what the other sent, in
  order, and when nothing is left to do both are connected. `Draining` adds that it
  comes to that: every step that brings no new traffic uses up work, so a run without
  new traffic ends, and where no step is left the two are connected.
* `Browser.Client` puts the page and its session object together: one message from
  the server does to view and lanes what the mesh takes its clients to do.

Smaller parts: `RateLimiter`, the RTP core (`Rtp`, `Rewriter`, `Forwarding`),
local media (`Devices`, `Publishing`), pending requests (`Requests`) and the
installers' transaction (`Installer`).

## Assumptions

* A WebSocket delivers in order; once a socket is not OPEN it never is again.
* `randomUUID` never repeats. Only equality of ids matters to the code, so the
  k-th id issued is called k, and "joined later" is "greater id".
* A promise continuation that is ready runs before the next socket message; the
  join answer's continuation (room state, session, queued offers) is therefore
  one step with the message.
* A closed RTCPeerConnection fulfils no promise; a description call is refused
  exactly when RFC 8829 does not permit it in the current signalling state.
* In `Mesh`, `Departures`, `Connected` and `Draining` clients send signals only as
  `webrtc.js` does; what is proved of the server alone (`RoomTheorems`, `RoomLimits`,
  `ServerAnswers`, `Sockets`, `Deliveries`) needs no such assumption.
* The clock never runs backwards. A handler that refills the bucket reads it
  twice; a message's moment is the last reading its handler makes.
* The commands that restore a host succeed.
* In `Connected` and `Draining`, for the two members in question only: the rate limit admits their
  messages, their sockets stay open and they stay in the room, the promises on the
  connection between them are fulfilled, and the descriptions and candidates they
  send each other pass the server's validity tests.

## Where the code falls short of the intention

Three properties fail on some inputs; each comes with its exact condition, for all
inputs, and with a concrete failing run or input family.

* What is published is not always what it should be. `Publishing.AlwaysPublished`:
  over any run, there is at most one camera and one microphone and the right tracks
  are published in every state if and only if none of the steps in
  `Publishing.Breaks` occurs. These are joining while a screen share is already running
  (`Publishing.JoinPublishes`, run in `Publishing.ShareBeforeJoinIsLost`); a
  setCamera or setMicrophone granted after the join, except a camera during a share
  (`Publishing.DeviceChangePublishes`, run in `Publishing.ChangedCameraIsNotPublished`);
  publishing a new track that some sender rejects (run in
  `Publishing.RefusedShareIsHalfPublished`); ending a share when some senders reject
  the camera and others take it; and previewing a device of a kind that a surviving
  capture has already provided.
* An RTP packet with an extension of zero words and no payload is read back with
  a payload of four bytes: `Rtp.BuildParses` (if and only if).
* A capture in flight can outlive a stop. `Devices.PublishesUnlessCancelled`: a
  capture of any kind that finishes with a grant publishes its tracks if and only if
  it was setCamera or setMicrophone, or nothing has outdated it; the concrete run is
  `Devices.CameraOutlivesStop`.

The documentation differs from the code in two places, where the model follows the
code: the example room id `abc-def-ghi` of docs/SIGNALING_PROTOCOL.md contains
characters that `server.js` refuses, and the `track.*` messages listed there are
answered with error 400.

## Model

| member | source | states |
|---|---|---|
| RateLimiter.Limiter.Admit | signaling/src/server.js:64-65 | one message: the refill test and reading, the decrement (refused messages too), and the verdict |
| RateLimiter.UpperBoundFrom | signaling/src/server.js:64-65 | from any bucket, if fewer than k+1 intervals end by time t, at most the tokens left plus k full buckets are accepted up to t |
| RateLimiter.RateUpperBound | signaling/src/server.js:55-65 | for every message-time sequence, at most N*(1 + floor((t-t0)/I)) messages are accepted up to t |
| RateLimiter.BurstBound | signaling/src/server.js:55-65 | any half-open span of one interval accepts at most 2N |
| RateLimiter.ConformingSenderIsNeverRefused | signaling/src/server.js:55-65 | if no span of one interval holds more than N messages, none in the run is refused, wherever refills fall |
| SignalingServer.Server.SendTo | signaling/src/server.js:13-15 | the message is queued on that socket if it is open, otherwise nothing changes |
| SignalingServer.Server.BroadcastTo | signaling/src/server.js:16-18 | the loop sends to every member but the excepted one, in the room's order |
| SignalingServer.Server.Accept | signaling/src/server.js:53-57 | a new connection has no participant and a full bucket |
| SignalingServer.Server.HandleJoin | signaling/src/server.js:75-93 | the four refusals, else id, seat, snapshot to the newcomer, announcement to the others |
| SignalingServer.Server.OnMessageEvent | signaling/src/server.js:60-125 | rate limit, format, dispatch, relay and chat with every error answer |
| SignalingServer.Server.OnCloseEvent | signaling/src/server.js:126-132 | the member is removed, the rest told, an empty room dropped; whether the missing-room TypeError is thrown |
| RoomClient.RoomState.SetLocalInfo | client/js/room.js:10-13 | own id and room are recorded, the participants stay |
| RoomClient.RoomState.AddParticipant | client/js/room.js:15-18 | a known participant is overwritten in place, a new one appended |
| RoomClient.RoomState.RemoveParticipant | client/js/room.js:20-26 | the participant is gone, others stay in order |
| RoomClient.RoomState.Clear | client/js/room.js:51-56 | nothing is left of the room |
| RoomClient.Page.OnServerMessage | client/js/app.js:218-249 | what each server message does to the client's view |
| RoomClient.Page.LeaveRoom | client/js/app.js:303-311 | the view is back to the lobby's |
| Browser.Client.OnServerMessage | client/js/app.js:218-249 | view and lanes after any server message are those the mesh takes its clients to have; field by field: one queued offer for everybody else in a snapshot, the signal queued last for its sender, a shut lane without connection for a participant who left, every other lane as it was |
| Browser.Client.LeaveRoom | client/js/app.js:303-312 | the view is back to the lobby's, and every lane of the session that is let go is shut and without connection |
| RoomNet.BroadcastOnce | signaling/src/server.js:16-18 | exactly one message to every addressed open member; nothing else changes |
| RoomNet.JoinEffect | signaling/src/server.js:81-92 | after a join: the newcomer has the snapshot, every other joined member of that room one announcement, everybody else nothing; the registry holds |
| RoomNet.CloseEffect | signaling/src/server.js:126-132 | after a close: the room is found, every remaining member has one notice, everybody else nothing; the registry holds |
| RoomNet.StepKeeps | signaling/src/server.js:53-132 | every event of server, sockets and clients keeps registry and per-client agreement |
| RoomNet.RunKeeps | signaling/src/server.js:53-132 | so does every run |
| RoomTheorems.RegistryIsBijection | signaling/src/server.js:76-132 | no stored room is empty or overfull; joined connections and room entries correspond one to one |
| RoomTheorems.LookupsDefined | signaling/src/server.js:95-131 | the room lookups of relay, chat and close handlers never miss |
| RoomTheorems.ViewsConverge | signaling/src/server.js:84-91 | folding what is in flight over a client's view gives exactly the server's members in the server's order, itself included |
| RoomTheorems.SignalsAreBracketed | signaling/src/server.js:86-131 | in all a client is ever sent: when a signal is handled the session exists and its sender is listed, so it comes after the sender's announcement and before its departure, which nothing about the sender follows |
| RoomTheorems.DeparturesAreFinal | signaling/src/server.js:126-131 | in all a client is ever sent, nothing after the notice that q left is about q: no second announcement, signal, chat or notice, and no snapshot |
| RoomTheorems.SnapshotsRepeatNobody | signaling/src/server.js:86-90 | no snapshot a client is ever sent names a participant twice |
| RoomTheorems.ChatIsOneLog | signaling/src/server.js:114-120 | chat heard and in flight is the contiguous piece of the room's log from the join on, and all of it while the socket is open |
| RoomTheorems.ChatSameOrder | signaling/src/server.js:114-120 | what a later member hears is the tail of what an earlier one hears |
| RoomTheorems.LeaversForget | client/js/app.js:303-313 | in every reachable state a client has been shown just the chat it read, in order, and one that left knows of no room, no own id and no participant |
| RoomLimits.StoredInputIsClean | signaling/src/server.js:77-83 | in every reachable state room ids are 3 to 32 letters and digits, names and chat trimmed, not blank and within their limits |
| ServerAnswers.RefusalIsAllThatHappens | signaling/src/server.js:60-124 | a message that breaks a rule is answered with the error of the first rule it breaks, with the request's id once it is parsed, and besides the sender's bucket nothing changes for anybody |
| ServerAnswers.PlainAnswers | signaling/src/server.js:73-74 | an admitted ping or room.create is answered, joined or not, and nothing else happens |
| ServerAnswers.JoinSeatsNewcomer | signaling/src/server.js:75-93 | an admitted join that breaks no rule gets the next id, its stripped name and the last place in the room it names; it is sent the list of all members, each member the announcement, nobody else anything |
| ServerAnswers.SignalReachesFellow | signaling/src/server.js:94-113 | an admitted signal that breaks no rule goes to exactly the fellow member it names, under the sender's id, and nothing else happens |
| ServerAnswers.ChatIsHeard | signaling/src/server.js:114-120 | an admitted chat message that breaks no rule enters the room's log once, with the speaker's id and name, the time of handling, and what was said less the white space around it; every member with an open socket is sent exactly that, nobody else anything |
| ServerAnswers.SeatsAreMembers | signaling/src/server.js:81-82 | the size of a room is the number of joined connections that named it |
| Sockets.ConnectionStory | signaling/src/server.js:53-65 | over any run a socket is open from its connection event until it is lost or closed, and its bucket is that of a limiter that started full and saw exactly this connection's messages |
| Sockets.NothingAfterLoss | signaling/src/server.js:13-15 | a client whose socket is not open is never sent anything again |
| Sockets.ServiceIsBounded | signaling/src/server.js:55-65 | in any run of the whole server at most N*(1 + floor((t-t0)/I)) messages of a connection are served up to t, and at most 2N in any one interval |
| Sockets.ConformingClientIsServed | signaling/src/server.js:55-65 | in any run of the whole server a client that never sends more than N messages in one interval is never answered with 429 |
| Deliveries.EverythingSentIsSane | signaling/src/server.js:75-120 | over any run, every name and text ever sent to a client is stripped, not blank and within its limit, and every signal passes the validity test of its type |
| PeerLane.OperationsStartInOrder | client/js/webrtc.js:42-48 | along every run, whichever operations fail, started then waiting operations are the enqueued ones in order |
| PeerLane.OfferComesFirst | client/js/webrtc.js:50-61 | for a snapshot participant making the offer starts before anything that arrives |
| PeerLane.NeverRevived | client/js/webrtc.js:22-48 | after removePeer or close no in-flight or later operation creates a connection, calls into one or sends |
| PeerLane.CallsAreAwaited | client/js/webrtc.js:58-81 | every stretch of work makes exactly the description call that the operation then awaits |
| PeerLane.SendsWhatIsLocal | client/js/webrtc.js:29-82 | what is sent is the local description just set, an offer in the state have-local-offer and an answer in stable, or the candidate just found, and it is recorded once |
| PeerLane.AnswerWaitsForTracks | client/js/webrtc.js:73-81 | after the last candidate an answerer awaits one replaceTrack for each transceiver, neither more nor fewer, before it creates its answer |
| PeerLane.RefinesSequential | client/js/webrtc.js:42-48 | a run with arrivals at any awaits ends as if all had been queued first and worked off one by one |
| PeerLane.CandidatesConserved | client/js/webrtc.js:63-73 | settled, taken out, buffered and queued candidates are exactly those received, in order, failures included; none settled before the remote description |
| PeerLane.NoneLost | client/js/webrtc.js:63-73 | while no promise is rejected every settled candidate was applied |
| Departures.DepartedAreClosed | client/js/app.js:245-248 | in every reachable state of the conference: once a client in the call has read that q left, its lane for q is shut and has no connection, and whatever is or was queued there calls nothing, sends nothing and changes neither |
| Departures.LeaversCloseAll | client/js/app.js:303-306 | the same for every lane of a client that has left |
| WebRtc.WebRtcSession.GetPeer | client/js/webrtc.js:22-40 | an existing peer, a new one, or the exception for a departed one or a closed session |
| WebRtc.WebRtcSession.EnqueueOp | client/js/webrtc.js:42-48 | the lane's Enqueue step; other lanes untouched |
| WebRtc.WebRtcSession.Start | client/js/webrtc.js:50-60 | one offer queued for everybody given, nothing else |
| WebRtc.WebRtcSession.RunNext | client/js/webrtc.js:42-48 | the lane's Begin step: skipped if departed or closed, else run to the first await |
| WebRtc.WebRtcSession.Launch | client/js/webrtc.js:52-72 | the operation up to its first await |
| WebRtc.WebRtcSession.Continue | client/js/webrtc.js:58-83 | the lane's Resume step, and what it hands to the socket |
| WebRtc.WebRtcSession.FinishLocal | client/js/webrtc.js:58-82 | after setLocalDescription: new state, and offer or answer sent unless the send throws |
| WebRtc.WebRtcSession.HandleOn | client/js/webrtc.js:68-79 | after setRemoteDescription or addIceCandidate: flush, then attach or end |
| WebRtc.WebRtcSession.EndWithError | client/js/webrtc.js:45 | the operation ends and its unapplied candidates are dropped |
| WebRtc.WebRtcSession.OnIceCandidate | client/js/webrtc.js:29-31 | a found candidate is sent |
| WebRtc.WebRtcSession.RemovePeer | client/js/webrtc.js:97-102 | that lane is shut and has no connection, others untouched |
| WebRtc.WebRtcSession.Close | client/js/webrtc.js:104-110 | every lane is shut and has no connection |
| Negotiation.LaneKeeps | client/js/webrtc.js:50-84 | the exchange invariant of a lane is kept by every step, if descriptions only start being handled when due |
| Negotiation.CallsFit | client/js/webrtc.js:58-81 | each description call of such a lane is permitted in its signalling state |
| MeshSafety.WorkIsDue | client/js/webrtc.js:50-84 | in the mesh a description only starts being handled when the other side's part is due |
| MeshSafety.StepKeeps | client/js/webrtc.js:50-110 | every step of server, wires and clients keeps: taken, queued and in transit never exceed sent, per pair, direction and kind |
| MeshSafety.RunKeeps | client/js/webrtc.js:50-110 | so does every run |
| MeshTheorems.OneExchangePerPair | client/js/webrtc.js:50-84 | of any two participants only the later joiner offers, at most once, and only the earlier answers, at most once, to that offer; no description exists anywhere beyond those |
| MeshTheorems.DescriptionsPermitted | client/js/webrtc.js:58-81 | every setLocalDescription and setRemoteDescription called in any run is permitted; offers are only set in the stable state |
| MeshTheorems.RefinesRoomNet | client/js/app.js:202-255 | a conference run is a run of the room network, so its theorems apply |
| Settling.SoundKeeps | client/js/webrtc.js:42-84 | on a lane where nothing fails: every offer asked for and every answer owed is sent or still to come, counters are the record, the connection reflects the exchange |
| Settling.CandidatesFoundAreSent | client/js/webrtc.js:29-31 | the candidates a lane sends are those found, all of them, once each and in order |
| Settling.QuietLane | client/js/webrtc.js:42-84 | with nothing left to do it has sent its offer and an answer per offer, is stable with a remote description, and applied all its candidates in order |
| Connected.RelayArrives | signaling/src/server.js:96-112 | an admitted well-formed signal to a fellow member with an open socket is appended to that member's wire under the sender's id; every other wire and all other state but the sender's bucket are unchanged |
| Connected.StepPair | client/js/webrtc.js:42-84 | between two members for whom nothing fails: given, on the wire and on the uplink is always exactly what was sent, whatever everybody else does |
| Connected.PairConnects | client/js/webrtc.js:50-84 | once the later has read its snapshot and no signal or operation between the two is under way, whatever other traffic they have: both are stable with remote descriptions, after one offer from the later and one answer from the earlier, each having taken all the other sent in order, every ICE candidate applied |
| Draining.StepDrains | client/js/webrtc.js:42-84 | every message read or delivered and every stretch of an operation, in any reachable state, strictly decreases the work under way, however operations end |
| Draining.RunDrains | client/js/webrtc.js:42-84 | a run without new traffic is no longer than the work it starts with |
| Draining.RestIsQuiet | client/js/webrtc.js:42-84 | where no step that goes well for two members is possible, nothing is under way between them and the snapshot has been read |
| Draining.EventuallyConnected | client/js/webrtc.js:50-84 | two members for whom all goes well become connected: a run without new traffic ends within the work there is, and once no step is left each has taken all the other sent and both are stable, after one offer and one answer |
| Rtp.RtpPacket.SetSequenceNumber | sfu/src/rtp_packet.cpp:43-45 | bytes 2 and 3 are overwritten in place, big-endian; all others stay |
| Rtp.RtpPacket.SetTimestamp | sfu/src/rtp_packet.cpp:47-49 | bytes 4 to 7 likewise |
| Rtp.RtpPacket.SetSsrc | sfu/src/rtp_packet.cpp:51-53 | bytes 8 to 11 likewise |
| Rtp.RtpPacket.Payload | sfu/src/rtp_packet.cpp:28-41 | offset and size of the payload |
| Rtp.SettersAreExact | sfu/src/rtp_packet.cpp:18-53 | each setter is undone by its getter and leaves every other field, the payload and all other bytes alone |
| Rtp.HeaderParses | sfu/src/rtp_packet.cpp:6-26 | every header field of a packet laid out by sections 5.1 and 5.3.1 of RFC 3550 is read back; RTP and RTCP are told apart by payload type |
| Rtp.BuildParses | sfu/src/rtp_packet.cpp:28-41 | for all CSRCs, extensions and payloads the payload is recovered if and only if the packet is not an empty extension followed by nothing |
| Rewriter.RtpRewriter.Rewrite | sfu/src/rtp_rewriter.cpp:9-24 | the fields after one packet, modulo 2^16 and 2^32, and the packet stamped in place |
| Rewriter.RtpRewriter.Reset | sfu/src/rtp_rewriter.cpp:5-7 | the next packet picks the stream up anew |
| Rewriter.Stamp | sfu/src/rtp_rewriter.cpp:22-23 | only bytes 2 to 7 change, and they hold the two numbers |
| Rewriter.OffsetsAdvance | sfu/src/rtp_rewriter.cpp:9-24 | for every run with resets: each output is the previous output plus the input's advance, or plus 1 and 90000 where the stream is picked up |
| Rewriter.DifferencesKept | sfu/src/rtp_rewriter.cpp:9-24 | between resets all pairwise differences are kept modulo the field widths |
| Rewriter.ContinuousOutput | sfu/src/rtp_rewriter.cpp:5-24 | gapless segments across any number of resets give one wrapped sequence 1, 2, 3, ... |
| Forwarding.Router.AddPublisher | sfu/src/router.cpp:6-9 | the publisher is recorded, no subscription changes; the table stays what its history of calls makes of it |
| Forwarding.Router.RemovePublisher | sfu/src/router.cpp:11-15 | the SSRC's subscriptions are gone, others untouched; likewise |
| Forwarding.Router.AddSubscription | sfu/src/router.cpp:17-23 | a fresh rewriter is appended for that SSRC, others untouched; likewise |
| Forwarding.Router.RemoveSubscription | sfu/src/router.cpp:25-33 | that subscriber's entries are gone from every SSRC, the rest in order; likewise |
| Forwarding.Router.Erase | sfu/src/router.cpp:28-31 | the erase-remove loop on one vector keeps the other entries in order |
| Forwarding.Router.ForwardOne | sfu/src/router.cpp:41-45 | a copy is rewritten and sent; the source buffer is unchanged |
| Forwarding.Router.ServeAll | sfu/src/router.cpp:40-46 | one send per entry in subscription order, each from its own rewriter |
| Forwarding.Router.RoutePacket | sfu/src/router.cpp:35-47 | what is sent is, for each subscription standing in the router's history, in order, the packet as a fresh rewriter stamps it after just the packets since; only that SSRC's entries advance; the source buffer is unchanged |
| Forwarding.RouterRefinesReplay | sfu/src/router.cpp:11-47 | after any history each standing subscription is sent what a fresh rewriter replayed over just the packets since it subscribed would send, one per entry in order, only bytes 2 to 7 differing |
| Forwarding.SubscriberSeesGapless | sfu/src/router.cpp:35-47 | after any history, a subscription whose publisher had no gap since is sent the next of 1, 2, 3, ... wrapped |
| Requests.SignalingClient.Send | client/js/signaling.js:55-70 | entry and timer armed, or settled at once when the send throws |
| Requests.SignalingClient.HandleMessage | client/js/signaling.js:72-81 | a known request is settled by answer or error, others untouched |
| Requests.SignalingClient.OnTimer | client/js/signaling.js:58-61 | the request is rejected and forgotten |
| Requests.SignalingClient.OnClose | client/js/signaling.js:21-30 | every pending request is rejected, in order, and its timer cleared |
| Requests.SettledExactlyOnce | client/js/signaling.js:21-81 | in every run the pending table and the timers are exactly the unsettled requests, each is settled at most once, and exactly once after the close handler |
| Requests.SettledForReason | client/js/signaling.js:21-81 | in every run a request is resolved if and only if an answer that is no error arrives while it is unsettled, rejected by the server if and only if an error does, timed out if and only if its timer fires then, not sent if and only if the socket is not open at the call, and rejected by the end of the connection if and only if it is unsettled at the close event |
| Devices.DeviceManager.BeginLocalStream | client/js/devices.js:27-30 | a new version, both devices asked |
| Devices.DeviceManager.BeginAcquire | client/js/devices.js:43-45 | the current version, one device asked |
| Devices.DeviceManager.FinishCapture | client/js/devices.js:31-53 | tracks of an outdated capture are stopped, others published |
| Devices.DeviceManager.FinishReplace | client/js/devices.js:59-87 | the new track replaces the first of its kind, which is stopped |
| Devices.DeviceManager.Cancel | client/js/devices.js:41 | captures in flight are outdated |
| Devices.DeviceManager.StopPreview | client/js/devices.js:96-101 | the same, and every published track is stopped |
| Devices.CaptureBegins | client/js/devices.js:27-60 | which devices each call asks for and under which version, and that nothing else changes |
| Devices.DeviceAnswers | client/js/devices.js:29-59 | a granted device is on under a new track that only the asking capture holds; a refusal changes nothing else |
| Devices.ReplacementTakesOver | client/js/devices.js:59-84 | setCamera and setMicrophone take the first published track of the kind out and stop exactly that one |
| Devices.StopStopsAll | client/js/devices.js:96-101 | the local stream is empty, exactly the tracks that were in it are stopped, captures in flight are as they were but outdated |
| Devices.StoppedForGood | client/js/devices.js:96-101 | over every run after a stop, no track published before it is live or published again |
| Devices.NoTrackLeaksFromStart | client/js/devices.js:27-101 | in every interleaving each live track is published or held by an unfinished capture |
| Devices.PublishesUnlessCancelled | client/js/devices.js:27-87 | a granted capture of any kind publishes all its tracks on finishing if and only if it is setCamera or setMicrophone, or nothing outdated it before it finished; otherwise it publishes none and stops all |
| Devices.CameraOutlivesStop | client/js/devices.js:55-101 | the concrete run in which a camera granted after stopLocalPreview is in use and published |
| Publishing.TrackSender.SwapTrack | client/js/webrtc.js:86-95 | every sender of that kind that takes the track has it; the session stream changes only if none rejects, else the call rejects |
| Publishing.TrackSender.OfferTo | client/js/webrtc.js:53-57 | one sender of each kind, with the session stream's track of that kind |
| Publishing.TrackSender.AnswerTo | client/js/webrtc.js:75-80 | each transceiver's sender in turn gets the stream's track of its kind, up to the first that rejects, which ends the answer |
| Publishing.AttachedSoFar | client/js/webrtc.js:75-80 | for any list of transceivers: up to the first that rejects, each sender carries the stream's track of its kind, the others what they had |
| Publishing.AnswerAttaches | client/js/webrtc.js:74-80 | an answer no sender objects to gives that peer microphone and video of the session's stream; otherwise what was attached before the first rejection; everybody else as before |
| Publishing.OfferAttaches | client/js/webrtc.js:53-57 | an offer gives that peer microphone and video of the session's stream, everybody else as before |
| Publishing.ExchangedArePublishedTo | client/js/webrtc.js:50-84 | over any run every peer that was offered to, or answered without a rejection, and did not leave since, has its senders, so that the published-track invariant speaks of it |
| Publishing.ExchangedGetTheTracks | client/js/webrtc.js:50-95 | while no failing step occurs each of them has the microphone, and the screen while sharing, else the camera |
| Publishing.DeviceToggled | client/js/app.js:175-200 | a granted missing device is in the local stream, and handed to every peer that takes it, a camera only if no screen is shared; otherwise nothing changes |
| Publishing.ShareStarts | client/js/app.js:266-276 | a granted screen is handed to every peer that takes it, and its end handler is there unless some sender rejects |
| Publishing.ShareEnds | client/js/app.js:257-276 | ending the share hands the camera, if any, back to every peer that takes it |
| Publishing.ComingAndGoing | client/js/app.js:227-312 | a session starts with the local tracks and no peer; a peer first seen through candidates has no senders yet and one that left is forgotten, all others staying; leaving ends session, share and local stream |
| Publishing.DeviceSwapped | client/js/devices.js:55-87 | the new track is the first of its kind, the other kind, the share and the session as before |
| Publishing.ReplaceFacts | client/js/webrtc.js:86-95 | unless a sender rejects: one track per kind stays, stream and negotiated senders agree on the new one, other kinds are untouched |
| Publishing.JoinPublishes | client/js/app.js:227-229 | joining establishes the published-track invariant if and only if no share is running |
| Publishing.DeviceChangePublishes | client/js/devices.js:55-87 | a granted setCamera or setMicrophone leaves the right tracks published if and only if there is no session, or it is a camera and the screen is shared |
| Publishing.StepPublishes | client/js/app.js:175-276 | from a state in which there is one track per kind and the right ones are published, a step leads to such a state, for early and late peers alike, if and only if it is none of the named failing steps |
| Publishing.AlwaysPublished | client/js/app.js:175-276 | in any run, one track per kind, and video the screen while sharing, else the camera, in the stream and in every negotiated sender, in every state, if and only if no failing step occurs |
| Publishing.ShareBeforeJoinIsLost | client/js/app.js:266-276 | the concrete run in which the camera is published although the screen is shared |
| Publishing.RefusedShareIsHalfPublished | client/js/webrtc.js:88-94 | the concrete run in which one rejecting sender leaves the stream behind, so that later peers get the camera during a share |
| Publishing.ChangedCameraIsNotPublished | client/js/app.js:202-229 | the concrete run in which the camera is changed while joining and peers keep the stopped one |
| Installer.Host.MakeBackup | deploy/install-apps.py:143-148 | existing managed files are copied under their backup names, in the loop's order |
| Installer.Host.ApplyPlan | deploy/install-apps.py:157-191 | the steps up to and including the first that fails, possibly half-way |
| Installer.Host.RestoreFiles | deploy/install-apps.py:198-202 | copies put back, files that did not exist removed |
| Installer.Host.Install | deploy/install-apps.py:143-211 | whichever step fails and however, files, link and service flags are exactly what they were; on success nothing but managed files changed |
| Installer.BackupFacts | deploy/install-vps.py:164-168 | every existing managed file has a faithful copy although names may repeat for the same path |
| Installer.ApplyFacts | deploy/install-apps.py:157-191 | however far a plan gets, unmanaged files and the backups are untouched and the service is never disabled |
| Installer.RestoreAll | deploy/install-vps.py:191-196 | if only managed files were touched, restoring gives exactly the former files |
| Installer.FailureEndsPlan | deploy/install-apps.py:157-192 | the first step that fails is the last one taken |
| Installer.StepTakesEffect | deploy/install-apps.py:166-190 | after a plan that succeeds each file has the content last written and the mode last set, the link its last target, the service runs and is enabled if the plan says so |
| Installer.AppsInstalled | deploy/install-apps.py:157-191 | a successful run leaves the four files with their contents, the environment with mode 600, the link on the new release, the service active and enabled |
| Installer.VpsInstalled | deploy/install-vps.py:170-187 | a successful run leaves site and hook with their contents, the hook with mode 755, an existing link as it was or a new one on the site, and the service as it was |
| Installer.AppsPlanFits | deploy/install-apps.py:143-184 | this script's paths, backup numbers and steps meet what Install asks |
| Installer.VpsPlanFits | deploy/install-vps.py:164-187 | so do this script's, since its two file names differ, and it keeps an existing link and the service |

## Left out

- Draining.EventuallyConnected: does not say that the browser settles its promises or that the network delivers; it speaks of runs that go on while a step is possible.
- RoomClient.Page.LeaveRoom: covers the room state of `leaveRoom`; closing the lanes is Browser.Client.LeaveRoom, stopping the devices is Devices.DeviceManager.StopPreview, and clearing the chat display is not modelled, since `heard` is the record of what was shown.
- Devices.NoTrackLeaksFromStart: assumes that one getUserMedia grant holds exactly one track of the kind asked for.
- Publishing.StepPublishes: toggles and negotiations run to completion, because replaceTrack updates the session stream only after its awaits; two toggles or a negotiation interleaved within one are not covered, nor are the mute flags of the tracks. Whether a track has ended is not compared, only which track it is.
- Installer.Host.Install: leaves out file owners and times, parent directories, the release tree, issued certificates and nginx's own state, and a failure while copying the backups, which happens before anything managed is touched.
- Forwarding.RouterRefinesReplay: packets of 12 to 1500 bytes, because `route` copies into a buffer of 1500 bytes without a check; the mutex and concurrent callers are not modelled.
- Rtp.BuildParses: padding bytes count as payload, as in the code.
- RoomLimits.StoredInputIsClean: lengths count the model's characters, not UTF-16 units.
- WebRtc.WebRtcSession.RemovePeer: the `queues` entry itself is not modelled apart from the chain it refers to, which runs on and skips its operations.
- What `onError` shows is not modelled.
- One page session per WebSocket; rejoining is a new connection.
- HTTP static files, upgrade and origin checks, the ping/pong heartbeat (a terminated socket is a lost one), maximum message size.
- JSON syntax, SDP and candidate contents: opaque values with the server's validity tests as predicates.
- Media itself: ontrack, connection state changes, ICE, DTLS, SRTP, UDP, and the C++ transport and conference classes.
- User interface, recording, audio level, configuration parsing, logging, and the unused server modules (rooms.js, participants.js, sfu-client.js).
