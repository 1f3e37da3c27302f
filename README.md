# PhotoGether connection core and sticker sync, in Dafny

PhotoGether is an iOS app where participants meet in a room, connect peer to peer over
WebRTC, take a photo together and decorate it with stickers that every participant sees
move. This project models four pieces of sequential logic from that app and proves
properties of them:

- **Sticker ownership and geometry** (`sticker_view.dfy`, module `Sticker`). A sticker view
  holds a sticker (frame and optional owner). Dragging moves it and claims it for the local
  user. Resizing makes it a square with a side clamped to [48, 128]. A snapshot from another
  participant is ignored while a local drag is in progress. Otherwise its owner is adopted,
  and its frame too unless that owner is the local user. The delete and resize buttons and
  the drag gesture are enabled from the owner.
- **Room protocol** (`room_service.dfy`, module `RoomService`). Create and join requests
  are wrapped in an envelope and sent over the websocket. A failure to encode the envelope is
  reported as `failedToEncoding` and nothing is sent. Incoming messages are decoded in two
  stages, envelope then typed payload, and each goes to exactly one of three response
  streams, or is dropped when either stage fails.
- **Per-peer negotiation glue** (`connection_client.dfy`, module `Connection`). A remote
  session description is accepted only while none is present: the first one wins. An answer
  is produced and sent only while there is no local description. Remote ICE candidates go
  straight to the engine. Local candidates go to signaling, tagged with the client's peer and
  room IDs. Received data is forwarded unchanged.
- **ICE candidate wire conversion** (`ice_candidate.dfy`, module `IceCandidates`). The
  engine's candidate and the wire struct convert into each other by copying fields, so both
  round trips hold.

`common.dfy` holds `Option`, `Result` and `Bytes`.

The stateful parts follow the same layout. A class has the source's fields, and its methods
mirror the source's statements. Each method's `ensures` ties the new state to a pure
function of the old state: `View()` for `StickerView`, `State()` for
`ConnectionClientImpl`, and the three stream fields for `RoomServiceImpl`. The properties
are then proved about those functions, for one step and for whole sequences of steps
(`Route`, `Run`, `DragChanges`, `ResizeChanges`).

Some of the app's collaborators are not shown, so the model takes them as inputs:

- **JSON.** The encoder and decoder are the arrow-typed fields of `RoomService.Codec`: one
  partial function per type and direction.
- **Media engine.** `Connection.WebRTCEngine` has the two descriptions plus logs of the
  remote candidates handed to it and of the data it was asked to send. What the engine
  produces (offer, answer) and whether applying a remote description fails are parameters
  of each step. Whether producing an offer or answer also sets the local description cannot
  be seen from the glue. It is the explicit flag `appliesProducedLocally`, and the
  one-answer property `AtMostOneAnswer` is proved under it.
- **Signaling service.** `Connection.SignalingChannel` is the log of what it was asked to
  send.
- **Gestures.** UIKit's gesture callbacks become method parameters: the recognizer's new
  state, and the translation since the last step. The handlers reset the translation to zero
  on every call, so each step's translation is measured from the previous step.

The system's design describes three things the code does not do, and this model follows the
code in each:

- The design buffers remote candidates until a remote description exists. The code hands
  every candidate to the engine at once.
- The design guards an incoming offer against an already-present local description. The
  code guards only on the remote description.
- The design defers remote snapshots while a sticker is being dragged or resized. The code's
  `update(with:)` checks only the drag recognizer (StickerView.swift line 252), so `Update`
  checks only `dragState`, and a snapshot arriving during a local resize is applied
  (`ResizeDoesNotDeferSnapshots`).

HandleDragPanGesture and DragPan require the drag recognizer to be enabled, because UIKit
does not deliver the actions of a disabled recognizer. StickerView.Valid() keeps the view's
frame equal to the sticker's frame, and keeps the recognizer's `isEnabled` equal to the
ownership rule (see Findings). The view's methods do not require Valid(): each keeps it when
it held before, so an object built by the as-written constructor `StickerView.AsWritten`
runs the same methods, and `AsWrittenViewStealsOwnership` replays the finding on it.
`UIDrawn` says the owner UI is drawn for the sticker's actual owner; every step keeps it
except `PrepareShare`, which `FinishShare` undoes.

## Model

| member | source | states |
|---|---|---|
| IceCandidates.ToRTC | PhotoGether/DataLayer/PhotoGetherData/PhotoGetherData/Interface/Message/IceCandidate.swift:19-21 | rebuilds the engine candidate from the three SDP fields; no ensures of its own, its properties are WireRoundTrip and ToRTCDependsOnlyOnSdpFields |
| IceCandidates.FromRTC | PhotoGether/DataLayer/PhotoGetherData/PhotoGetherData/Interface/Message/IceCandidate.swift:11-17 | converting the wire struct back gives exactly the engine candidate it was made from; its userID and roomID are the arguments |
| IceCandidates.FromRTCCopiesSdpFields | PhotoGether/DataLayer/PhotoGetherData/PhotoGetherData/Interface/Message/IceCandidate.swift:11-14 | sdp, sdpMLineIndex and sdpMid are copied unchanged, an absent sdpMid staying absent |
| IceCandidates.ToRTCDependsOnlyOnSdpFields | PhotoGether/DataLayer/PhotoGetherData/PhotoGetherData/Interface/Message/IceCandidate.swift:19-21 | two wire structs give the same engine candidate iff they agree on the three SDP fields; user and room IDs play no part |
| IceCandidates.WireRoundTrip | PhotoGether/DataLayer/PhotoGetherData/PhotoGetherData/Interface/Message/IceCandidate.swift:11-21 | a wire struct converted to the engine candidate and back with its own IDs is unchanged |
| IceCandidates.FromRTCInjective | PhotoGether/DataLayer/PhotoGetherData/PhotoGetherData/Interface/Message/IceCandidate.swift:11-17 | different engine candidates never produce the same wire struct for the same IDs |
| RoomService.CreateRoomRequest | PhotoGether/DataLayer/PhotoGetherData/PhotoGetherData/ServiceImpl/RoomServiceImpl.swift:31 | the createRoom envelope with no payload; no ensures of its own, its property is CreateRoomWireContents |
| RoomService.JoinRoomRequest | PhotoGether/DataLayer/PhotoGetherData/PhotoGetherData/ServiceImpl/RoomServiceImpl.swift:44-45 | the join envelope has type joinRoom and carries the encoded {roomID}, or no payload exactly when that inner encoding fails |
| RoomService.Outgoing | PhotoGether/DataLayer/PhotoGetherData/PhotoGetherData/ServiceImpl/RoomServiceImpl.swift:34-37 | a request yields failedToEncoding exactly when its envelope fails to encode, otherwise the encoded bytes |
| RoomService.CreateRoomWireContents | PhotoGether/DataLayer/PhotoGetherData/PhotoGetherData/ServiceImpl/RoomServiceImpl.swift:31-39 | when createRoom sends, a relay whose decoder inverts the encoder reads a createRoom envelope with no payload |
| RoomService.JoinRoomWireContents | PhotoGether/DataLayer/PhotoGetherData/PhotoGetherData/ServiceImpl/RoomServiceImpl.swift:43-53 | when joinRoom sends, such a relay reads a joinRoom envelope whose payload decodes to the requested room ID, or is absent exactly when only the inner encoding failed |
| RoomService.DecodeMessage | PhotoGether/DataLayer/PhotoGetherData/PhotoGetherData/ServiceImpl/RoomServiceImpl.swift:103-111 | nothing for a missing payload or a failed decode, otherwise the decoded payload |
| RoomService.Dispatch | PhotoGether/DataLayer/PhotoGetherData/PhotoGetherData/ServiceImpl/RoomServiceImpl.swift:61-98 | a message whose envelope fails to decode is dropped; otherwise it is dropped exactly when its payload fails to decode as its type requires, and is routed only to the stream of its own messageType; a kept createRoom, joinRoom or notifyNewUser message publishes exactly the entity of its decoded payload |
| RoomService.CreateRoomResponseResolves | PhotoGether/DataLayer/PhotoGetherData/PhotoGetherData/ServiceImpl/RoomServiceImpl.swift:64-74 | a createRoom response carrying {roomID, hostID} publishes RoomOwnerEntity(roomID, hostID) |
| RoomService.Publish | PhotoGether/DataLayer/PhotoGetherData/PhotoGetherData/ServiceImpl/RoomServiceImpl.swift:63-98 | an emission appends its entity to its own stream only; a dropped message changes nothing |
| RoomService.RouteAppend | PhotoGether/DataLayer/PhotoGetherData/PhotoGetherData/ServiceImpl/RoomServiceImpl.swift:57-100 | handling messages is compositional: the streams for xs + ys are those for xs followed by those for ys |
| RoomService.DroppedMessageIsInvisible | PhotoGether/DataLayer/PhotoGetherData/PhotoGetherData/ServiceImpl/RoomServiceImpl.swift:61-96 | a message that fails either decoding stage leaves the streams exactly as if it had never arrived, so later messages are unaffected |
| RoomService.StreamsOnlyGrow | PhotoGether/DataLayer/PhotoGetherData/PhotoGetherData/ServiceImpl/RoomServiceImpl.swift:17-19 | each of the three streams is append-only across further messages |
| RoomService.EachMessageAtMostOnce | PhotoGether/DataLayer/PhotoGetherData/PhotoGetherData/ServiceImpl/RoomServiceImpl.swift:63-99 | entities published plus messages dropped equals messages received: every message publishes one entity or none |
| RoomService.RoomServiceImpl.constructor | PhotoGether/DataLayer/PhotoGetherData/PhotoGetherData/ServiceImpl/RoomServiceImpl.swift:26-29 | a new service has sent nothing and its three streams are empty |
| RoomService.RoomServiceImpl.CreateRoom | PhotoGether/DataLayer/PhotoGetherData/PhotoGetherData/ServiceImpl/RoomServiceImpl.swift:31-41 | on an envelope encoding failure: failedToEncoding and nothing sent; otherwise exactly the encoded envelope is sent and the create stream is handed back |
| RoomService.RoomServiceImpl.JoinRoom | PhotoGether/DataLayer/PhotoGetherData/PhotoGetherData/ServiceImpl/RoomServiceImpl.swift:43-54 | only an outer encoding failure is reported, and then nothing is sent; otherwise exactly one envelope is sent, even with an absent payload, and the join stream is handed back |
| RoomService.RoomServiceImpl.Receive | PhotoGether/DataLayer/PhotoGetherData/PhotoGetherData/ServiceImpl/RoomServiceImpl.swift:56-101 | one message adds what Dispatch says to the streams, and the streams always equal routing of all messages received |
| Connection.SignalingChannel.SendSdp | PhotoGether/DataLayer/PhotoGetherData/PhotoGetherData/ConnectionClientImpl.swift:35 | the description is logged with the given peer and room IDs |
| Connection.SignalingChannel.SendCandidate | PhotoGether/DataLayer/PhotoGetherData/PhotoGetherData/ConnectionClientImpl.swift:106 | the candidate is logged with the given peer and room IDs |
| Connection.WebRTCEngine.constructor | PhotoGether/DataLayer/PhotoGetherData/PhotoGetherData/Interface/Service/WebRTCService.swift:10 | the engine starts with no descriptions and empty logs |
| Connection.WebRTCEngine.Produce | PhotoGether/DataLayer/PhotoGetherData/PhotoGetherData/Interface/Service/WebRTCService.swift:19-20 | producing an offer or answer sets the local description to it when appliesProducedLocally holds, and leaves it unchanged otherwise |
| Connection.WebRTCEngine.SetRemoteSdp | PhotoGether/DataLayer/PhotoGetherData/PhotoGetherData/Interface/Service/WebRTCService.swift:21 | the remote description becomes the SDP unless applying fails, and the failure is reported |
| Connection.WebRTCEngine.SetRemoteCandidate | PhotoGether/DataLayer/PhotoGetherData/PhotoGetherData/Interface/Service/WebRTCService.swift:23 | the candidate is appended to the engine's remote candidates |
| Connection.WebRTCEngine.SendData | PhotoGether/DataLayer/PhotoGetherData/PhotoGetherData/Interface/Service/WebRTCService.swift:31 | the bytes are appended to the engine's sent data |
| Connection.OnSendOffer | PhotoGether/DataLayer/PhotoGetherData/PhotoGetherData/ConnectionClientImpl.swift:33-37 | the produced offer is signaled with the client's current peer and room IDs; nothing else but the local description changes |
| Connection.OnSendData | PhotoGether/DataLayer/PhotoGetherData/PhotoGetherData/ConnectionClientImpl.swift:39-41 | the bytes reach the engine unchanged and nothing else changes |
| Connection.OnRemoteSdp | PhotoGether/DataLayer/PhotoGetherData/PhotoGetherData/ConnectionClientImpl.swift:73-89 | with a remote description present nothing changes; otherwise the SDP is applied unless applying fails, and an answer is sent, tagged with the IDs, exactly when there was no local description, whether or not applying failed |
| Connection.OnRemoteCandidate | PhotoGether/DataLayer/PhotoGetherData/PhotoGetherData/ConnectionClientImpl.swift:91-96 | the candidate is handed to the engine at once, nothing else changes |
| Connection.OnLocalCandidate | PhotoGether/DataLayer/PhotoGetherData/PhotoGetherData/ConnectionClientImpl.swift:102-107 | the local candidate is signaled with the current peer and room IDs, nothing else changes |
| Connection.OnDataReceived | PhotoGether/DataLayer/PhotoGetherData/PhotoGetherData/ConnectionClientImpl.swift:117-122 | the data is appended unchanged to the received-data stream, nothing else changes |
| Connection.RemoteCandidatesInArrivalOrder | PhotoGether/DataLayer/PhotoGetherData/PhotoGetherData/ConnectionClientImpl.swift:91-96 | over any run of events the engine receives exactly the remote candidates, each once, in arrival order |
| Connection.DataForwardedUnchanged | PhotoGether/DataLayer/PhotoGetherData/PhotoGetherData/ConnectionClientImpl.swift:117-122 | over any run, received data is forwarded in order and unchanged, and so is data handed to sendData; connection-state changes add nothing |
| Connection.IDsFollowAssignments | PhotoGether/DataLayer/PhotoGetherData/PhotoGetherData/ConnectionClientImpl.swift:15-16 | the IDs after any run are those of the last assignment by a caller, or the initial ones; no entry point changes them |
| Connection.SignalsTaggedWithFixedIDs | PhotoGether/DataLayer/PhotoGetherData/PhotoGetherData/ConnectionClientImpl.swift:33-107 | over a run with no reassignment every signal added carries the client's current peer and room IDs |
| Connection.SignalsTaggedWithIDs | PhotoGether/DataLayer/PhotoGetherData/PhotoGetherData/ConnectionClientImpl.swift:33-107 | over any run, including callers reassigning the IDs, the signaling log only grows, and every offer, answer and local candidate added is appended by some event k and carries the peer and room IDs of the state the first k events leave, the state in which event k runs |
| Connection.FirstRemoteSdpWins | PhotoGether/DataLayer/PhotoGetherData/PhotoGetherData/ConnectionClientImpl.swift:77 | once a remote description is present, no run of events replaces it |
| Connection.LocalDescriptionStays | PhotoGether/DataLayer/PhotoGetherData/PhotoGetherData/ConnectionClientImpl.swift:83 | once a local description is present, it stays present |
| Connection.InitiatorNeverAnswers | PhotoGether/DataLayer/PhotoGetherData/PhotoGetherData/ConnectionClientImpl.swift:83-87 | a client that already has a local description (its offer) sends no answer, whatever arrives |
| Connection.AtMostOneAnswer | PhotoGether/DataLayer/PhotoGetherData/PhotoGetherData/ConnectionClientImpl.swift:77-87 | when producing applies locally, a client sends at most one answer over any run, and none if it already had a local description |
| Connection.ConnectionClientImpl.constructor | PhotoGether/DataLayer/PhotoGetherData/PhotoGetherData/ConnectionClientImpl.swift:18-31 | the client starts with empty peer and room IDs and has received no data |
| Connection.ConnectionClientImpl.AssignIDs | PhotoGether/DataLayer/PhotoGetherData/PhotoGetherData/ConnectionClientImpl.swift:15-16 | a caller storing peerID and roomID changes those two and nothing else |
| Connection.ConnectionClientImpl.SendOffer | PhotoGether/DataLayer/PhotoGetherData/PhotoGetherData/ConnectionClientImpl.swift:33-37 | the new state is OnSendOffer of the old |
| Connection.ConnectionClientImpl.SendData | PhotoGether/DataLayer/PhotoGetherData/PhotoGetherData/ConnectionClientImpl.swift:39-41 | the new state is OnSendData of the old |
| Connection.ConnectionClientImpl.DidReceiveRemoteSdp | PhotoGether/DataLayer/PhotoGetherData/PhotoGetherData/ConnectionClientImpl.swift:73-89 | the new state is OnRemoteSdp of the old |
| Connection.ConnectionClientImpl.DidReceiveCandidate | PhotoGether/DataLayer/PhotoGetherData/PhotoGetherData/ConnectionClientImpl.swift:91-96 | the new state is OnRemoteCandidate of the old |
| Connection.ConnectionClientImpl.DidGenerateLocalCandidate | PhotoGether/DataLayer/PhotoGetherData/PhotoGetherData/ConnectionClientImpl.swift:102-107 | the new state is OnLocalCandidate of the old |
| Connection.ConnectionClientImpl.DidChangeConnectionState | PhotoGether/DataLayer/PhotoGetherData/PhotoGetherData/ConnectionClientImpl.swift:109-114 | alters nothing |
| Connection.ConnectionClientImpl.DidReceiveData | PhotoGether/DataLayer/PhotoGetherData/PhotoGetherData/ConnectionClientImpl.swift:117-122 | the new state is OnDataReceived of the old |
| Sticker.ButtonFor | PhotoGether/PresentationLayer/EditPhotoRoomFeature/EditPhotoRoomFeature/Source/View/StickerView.swift:217-227 | the delete and resize buttons are visible iff the owner is the local user, and interactive iff the owner is the local user |
| Sticker.BadgeFor | PhotoGether/PresentationLayer/EditPhotoRoomFeature/EditPhotoRoomFeature/Source/View/StickerView.swift:196-205 | an owned sticker shows its owner's nickname and border; an unowned one hides both and has no nickname |
| Sticker.ButtonsImplyDrag | PhotoGether/PresentationLayer/EditPhotoRoomFeature/EditPhotoRoomFeature/Source/View/StickerView.swift:217-235 | whoever may use the buttons may drag; drag without buttons happens only for an unowned sticker and a present local user |
| Sticker.Moved | PhotoGether/PresentationLayer/EditPhotoRoomFeature/EditPhotoRoomFeature/Source/View/StickerView.swift:123-131 | a drag step moves the origin by exactly the translation and leaves the size unchanged |
| Sticker.Resized | PhotoGether/PresentationLayer/EditPhotoRoomFeature/EditPhotoRoomFeature/Source/View/StickerView.swift:148-156 | a resize step gives a square at the same origin with 48 <= side <= 128, equal to width plus the smaller translation component when that lies within bounds, else the bound it crosses |
| Sticker.SetFrame | PhotoGether/PresentationLayer/EditPhotoRoomFeature/EditPhotoRoomFeature/Source/View/StickerView.swift:179-184 | a no-op when the frame is already the given one; otherwise the sticker's frame, then the view's, become it; owner and UI untouched |
| Sticker.SetOwner | PhotoGether/PresentationLayer/EditPhotoRoomFeature/EditPhotoRoomFeature/Source/View/StickerView.swift:186-194 | a no-op when the owner is already the given one; otherwise the owner changes, the owner UI is redrawn for it and drag is re-enabled by the ownership rule |
| Sticker.DragPan | PhotoGether/PresentationLayer/EditPhotoRoomFeature/EditPhotoRoomFeature/Source/View/StickerView.swift:122-145 | Began and Changed move the origin by exactly the translation with the size kept; Began also makes the local user the owner, storing the frame before the owner, and redraws the owner UI for the local user (buttons shown) when the owner changes; Ended only notifies; other states change nothing; the consistency invariant and UIDrawn are kept |
| Sticker.ResizePan | PhotoGether/PresentationLayer/EditPhotoRoomFeature/EditPhotoRoomFeature/Source/View/StickerView.swift:147-169 | after a Began or Changed step the sticker is a square, 48 <= side <= 128, at the unchanged origin; owner never changes; Ended only notifies |
| Sticker.Update | PhotoGether/PresentationLayer/EditPhotoRoomFeature/EditPhotoRoomFeature/Source/View/StickerView.swift:251-262 | during Began or Changed of a local drag nothing changes; otherwise the owner becomes the remote owner, the owner UI is redrawn for it when it differs, and the frame becomes the remote frame exactly when the remote owner is not the local user; the consistency invariant and UIDrawn are kept |
| Sticker.PrepareShare | PhotoGether/PresentationLayer/EditPhotoRoomFeature/EditPhotoRoomFeature/Source/View/StickerView.swift:264-270 | never changes the sticker; a no-op without owner; otherwise draws the owner UI as for no owner |
| Sticker.FinishShare | PhotoGether/PresentationLayer/EditPhotoRoomFeature/EditPhotoRoomFeature/Source/View/StickerView.swift:272-278 | never changes the sticker; a no-op without owner; otherwise draws the owner UI for the actual owner |
| Sticker.Init | PhotoGether/PresentationLayer/EditPhotoRoomFeature/EditPhotoRoomFeature/Source/View/StickerView.swift:32-44 | corrected initial view: consistent (drag enabled by the ownership rule), owner UI drawn for the owner, no notifications |
| Sticker.InitAsWritten | PhotoGether/PresentationLayer/EditPhotoRoomFeature/EditPhotoRoomFeature/Source/View/StickerView.swift:82-105 | initial view as written: like Init but with drag always enabled |
| Sticker.SetFrameIdempotent | PhotoGether/PresentationLayer/EditPhotoRoomFeature/EditPhotoRoomFeature/Source/View/StickerView.swift:179-184 | storing the same frame twice equals storing it once |
| Sticker.SetOwnerIdempotent | PhotoGether/PresentationLayer/EditPhotoRoomFeature/EditPhotoRoomFeature/Source/View/StickerView.swift:186-194 | storing the same owner twice equals storing it once |
| Sticker.UpdateIdempotent | PhotoGether/PresentationLayer/EditPhotoRoomFeature/EditPhotoRoomFeature/Source/View/StickerView.swift:251-262 | adopting the same remote snapshot twice equals adopting it once |
| Sticker.ShareRoundTrip | PhotoGether/PresentationLayer/EditPhotoRoomFeature/EditPhotoRoomFeature/Source/View/StickerView.swift:264-278 | prepareSharePhoto followed by finishSharePhoto restores a view whose owner UI matched its owner |
| Sticker.DragNeverStealsOwnership | PhotoGether/PresentationLayer/EditPhotoRoomFeature/EditPhotoRoomFeature/Source/View/StickerView.swift:134-137 | on a consistent view, a drag changes the owner only on Began and only of an unowned sticker |
| Sticker.InitDisablesForeignDrag | PhotoGether/PresentationLayer/EditPhotoRoomFeature/EditPhotoRoomFeature/Source/View/StickerView.swift:229-235 | with the correction, a sticker owned by someone else starts with drag disabled |
| Sticker.AsWrittenDragStealsOwnership | PhotoGether/PresentationLayer/EditPhotoRoomFeature/EditPhotoRoomFeature/Source/View/StickerView.swift:82-105 | as written, a view of a sticker owned by someone else starts with drag enabled and inconsistent, and a drag Began takes the sticker for the local user |
| Sticker.DragChanges | PhotoGether/PresentationLayer/EditPhotoRoomFeature/EditPhotoRoomFeature/Source/View/StickerView.swift:138-140 | helper definition: a run of drag Changed steps, whose one ensures (the recognizer stays enabled) is what its own recursion needs; DragChangesAccumulate holds the real proof |
| Sticker.DragChangesAccumulate | PhotoGether/PresentationLayer/EditPhotoRoomFeature/EditPhotoRoomFeature/Source/View/StickerView.swift:122-140 | a run of Changed steps moves the origin by the sum of the translations, keeps size, owner and id, and makes one didDrag call per step |
| Sticker.DragGesture | PhotoGether/PresentationLayer/EditPhotoRoomFeature/EditPhotoRoomFeature/Source/View/StickerView.swift:122-145 | a whole Began, Changed..., Ended gesture leaves the local user as owner, the origin moved by the total translation and the size unchanged |
| Sticker.ResizeChangesStaySquare | PhotoGether/PresentationLayer/EditPhotoRoomFeature/EditPhotoRoomFeature/Source/View/StickerView.swift:147-164 | any run of resize steps (or none, from a valid square) leaves a square with 48 <= side <= 128 at the same origin with the same owner |
| Sticker.StickerView.constructor | PhotoGether/PresentationLayer/EditPhotoRoomFeature/EditPhotoRoomFeature/Source/View/StickerView.swift:32-44 | the view starts as Init and valid |
| Sticker.StickerView.AsWritten | PhotoGether/PresentationLayer/EditPhotoRoomFeature/EditPhotoRoomFeature/Source/View/StickerView.swift:32-44 | the view starts as InitAsWritten; the methods then run on it, as AsWrittenViewStealsOwnership shows |
| Sticker.StickerView.UpdatePanGestureState | PhotoGether/PresentationLayer/EditPhotoRoomFeature/EditPhotoRoomFeature/Source/View/StickerView.swift:229-235 | drag is enabled iff the owner is the local user or there is none |
| Sticker.StickerView.UpdateFrame | PhotoGether/PresentationLayer/EditPhotoRoomFeature/EditPhotoRoomFeature/Source/View/StickerView.swift:179-184 | the new view is SetFrame of the old, validity kept whenever it held before |
| Sticker.StickerView.UpdateOwner | PhotoGether/PresentationLayer/EditPhotoRoomFeature/EditPhotoRoomFeature/Source/View/StickerView.swift:186-194 | the new view is SetOwner of the old, validity kept whenever it held before |
| Sticker.StickerView.HandleDragPanGesture | PhotoGether/PresentationLayer/EditPhotoRoomFeature/EditPhotoRoomFeature/Source/View/StickerView.swift:122-145 | the new view is DragPan of the old, validity kept whenever it held before |
| Sticker.StickerView.HandleResizePanGesture | PhotoGether/PresentationLayer/EditPhotoRoomFeature/EditPhotoRoomFeature/Source/View/StickerView.swift:147-169 | the new view is ResizePan of the old, validity kept whenever it held before |
| Sticker.StickerView.UpdateWith | PhotoGether/PresentationLayer/EditPhotoRoomFeature/EditPhotoRoomFeature/Source/View/StickerView.swift:251-262 | the new view is Update of the old, validity kept whenever it held before |
| Sticker.StickerView.PrepareSharePhoto | PhotoGether/PresentationLayer/EditPhotoRoomFeature/EditPhotoRoomFeature/Source/View/StickerView.swift:264-270 | the new view is PrepareShare of the old |
| Sticker.StickerView.FinishSharePhoto | PhotoGether/PresentationLayer/EditPhotoRoomFeature/EditPhotoRoomFeature/Source/View/StickerView.swift:272-278 | the new view is FinishShare of the old |
| Sticker.AsWrittenViewStealsOwnership | PhotoGether/PresentationLayer/EditPhotoRoomFeature/EditPhotoRoomFeature/Source/View/StickerView.swift:82-105 | on an object built as written for a sticker owned by someone else, the first drag Began makes the local user the owner |
| Sticker.ResizeDoesNotDeferSnapshots | PhotoGether/PresentationLayer/EditPhotoRoomFeature/EditPhotoRoomFeature/Source/View/StickerView.swift:251-262 | a remote snapshot owned by another participant replaces the frame even while a local resize is under way |
| Sticker.StickerView.HandleTap | PhotoGether/PresentationLayer/EditPhotoRoomFeature/EditPhotoRoomFeature/Source/View/StickerView.swift:243-245 | exactly one didTap call with the sticker's ID is appended to the delegate calls; nothing else changes |
| Sticker.StickerView.DeleteButtonTapped | PhotoGether/PresentationLayer/EditPhotoRoomFeature/EditPhotoRoomFeature/Source/View/StickerView.swift:247-249 | exactly one didTapDelete call with the sticker's ID is appended to the delegate calls; nothing else changes |

## Left out

- Colours in `updateOwnerUI` (border and label colours, the hex conversion, and the early return when an unowned sticker meets a present local user): styling only. The nickname text and the hidden flags are modelled.
- Layout, constraints, images and `setImage` (an asynchronous `Task` loading a URL): UI plumbing.
- The delegate is weak and may be absent. The notification log records the calls a present delegate would receive.
- `StickerEntity` and `UserInfo` are declared elsewhere and are not part of this model. `updateFrame`/`updateOwner` on the entity are taken as plain field stores. `UserInfo` equality is taken as structural equality over an ID and a nickname.
- RTCIceCandidate: modelled as its three SDP fields, compared by value. The real object also carries `serverUrl`, which `rtcIceCandidate` does not pass on, and has reference identity; "the candidate it was made from" in FromRTC and WireRoundTrip means equal SDP fields.
- CGFloat rounding: geometry uses exact `real` arithmetic.
- `toEntity()` is declared elsewhere. It is taken to copy the payload's fields.
- JSON encoding and decoding, and the `Codable` conformance of the wire structs: abstract partial functions.
- Combine machinery: returning a `Fail` publisher is modelled as a `Failure` result. A returned subject is modelled as the stream it names. Subscription and delivery order to subscribers, and the absence of replay, are not modelled.
- Logging (`PTGLogger`, `debugPrint`) and the `[weak self]` guard: no effect on the modelled state.
- Relay disconnects, and responses that never arrive after a decode failure (a pending request is never resolved): the code has no handling for them.
- `connect()`, `bindRemoteVideo`, `bindLocalVideo` and the video views: foreign calls whose implementation is not shown.
- `signalClientDidConnect` / `signalClientDidDisconnect`: their bodies are empty.
- Concurrency: in the source, the completion callbacks of `set(remoteSdp:)` and `answer` run later. Here they run within the step that requested them, so no other event interleaves between applying a remote description and answering.
- Engine failures other than applying a remote description are not modelled: an offer or answer that is never produced, or a rejected candidate. The engine is taken to always produce the description passed in. A failed apply leaves the remote description absent.
- PhotoRoomViewModel (countdown timer), StickerBottomSheetViewController, WaitingRoomViewController, SceneDelegate, ConnectionRepository and GetLocalVideoUseCaseImpl: UI, wiring and interface declarations are not part of this model.

## Findings

| source | as written | input that shows it | evidently intended | confidence | as-written member | corrected member |
|---|---|---|---|---|---|---|
| PhotoGether/PresentationLayer/EditPhotoRoomFeature/EditPhotoRoomFeature/Source/View/StickerView.swift:82-105 | the initializer draws the owner UI and buttons but never calls updatePanGestureState, so the drag recognizer starts enabled whoever owns the sticker | a view created for a sticker owned by participant B, with local user A: drag is enabled, and a drag that begins makes A the owner (AsWrittenDragStealsOwnership) | the recognizer starts enabled exactly when the owner is the local user or nobody, as updatePanGestureState makes it after every owner change (InitDisablesForeignDrag, DragNeverStealsOwnership) | medium; not executed | Sticker.InitAsWritten | Sticker.Init |
