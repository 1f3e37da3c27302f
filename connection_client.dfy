/** Per-peer negotiation glue (PhotoGetherData/ConnectionClientImpl.swift): the delegate entry
    points that connect the signaling channel to the media engine. The engine is modelled by its
    capability surface (PhotoGetherData/Interface/Service/WebRTCService.swift) as state plus
    logs; each completion callback runs as part of the step that requested it. */
module Connection {
  import opened Common
  import opened IceCandidates

  /** `RTCSdpType`. */
  datatype SdpType = Offer | PrAnswer | Answer | Rollback

  /** `RTCSessionDescription`. */
  datatype SessionDescription = SessionDescription(kind: SdpType, sdp: string)

  /** `RTCIceConnectionState`. */
  datatype IceConnectionState = New | Checking | Connected | Completed | Failed | Disconnected | Closed

  /** What the signaling service is asked to send, with the peer and room IDs it is tagged with. */
  datatype Signal =
    | SdpSignal(sdp: SessionDescription, peerID: string, roomID: string)
    | CandidateSignal(candidate: RTCIceCandidate, peerID: string, roomID: string)

  /** The signaling service, as the log of what it was asked to send. */
  class SignalingChannel {
    var sent: seq<Signal>

    constructor ()
      ensures sent == []
    {
      sent := [];
    }

    /** `send(sdp:peerID:roomID:)`. */
    method SendSdp(sdp: SessionDescription, peerID: string, roomID: string)
      modifies this
      ensures sent == old(sent) + [SdpSignal(sdp, peerID, roomID)]
    {
      sent := sent + [SdpSignal(sdp, peerID, roomID)];
    }

    /** `send(candidate:peerID:roomID:)`. */
    method SendCandidate(candidate: RTCIceCandidate, peerID: string, roomID: string)
      modifies this
      ensures sent == old(sent) + [CandidateSignal(candidate, peerID, roomID)]
    {
      sent := sent + [CandidateSignal(candidate, peerID, roomID)];
    }
  }

  /** The media engine: its peer connection's two descriptions, the remote candidates handed to
      it and the bytes it was asked to send. Whether producing an offer or an answer also applies
      it as the local description happens inside the engine and is not visible from the glue;
      `appliesProducedLocally` makes that an explicit assumption of the model. */
  class WebRTCEngine {
    const appliesProducedLocally: bool
    var localDescription: Option<SessionDescription>
    var remoteDescription: Option<SessionDescription>
    var remoteCandidates: seq<RTCIceCandidate>
    var sentData: seq<Bytes>

    constructor (appliesProducedLocally: bool)
      ensures this.appliesProducedLocally == appliesProducedLocally
      ensures localDescription == None && remoteDescription == None
      ensures remoteCandidates == [] && sentData == []
    {
      this.appliesProducedLocally := appliesProducedLocally;
      localDescription, remoteDescription := None, None;
      remoteCandidates, sentData := [], [];
    }

    /** `offer(completion:)` or `answer(completion:)` that produced `sdp`. */
    method Produce(sdp: SessionDescription)
      modifies this`localDescription
      ensures localDescription == if appliesProducedLocally then Some(sdp) else old(localDescription)
    {
      if appliesProducedLocally {
        localDescription := Some(sdp);
      }
    }

    /** `set(remoteSdp:completion:)`; `fails` is the engine's verdict, and the error it reports. */
    method SetRemoteSdp(sdp: SessionDescription, fails: bool) returns (error: bool)
      modifies this`remoteDescription
      ensures error == fails
      ensures remoteDescription == if fails then old(remoteDescription) else Some(sdp)
    {
      if !fails {
        remoteDescription := Some(sdp);
      }
      error := fails;
    }

    /** `set(remoteCandidate:completion:)`. */
    method SetRemoteCandidate(candidate: RTCIceCandidate)
      modifies this`remoteCandidates
      ensures remoteCandidates == old(remoteCandidates) + [candidate]
    {
      remoteCandidates := remoteCandidates + [candidate];
    }

    /** `sendData(_:)`. */
    method SendData(data: Bytes)
      modifies this`sentData
      ensures sentData == old(sentData) + [data]
    {
      sentData := sentData + [data];
    }
  }

  // ---------------------------------------------------------------------------------------
  // The negotiation state as a value, and what each entry point does to it

  /** Everything the glue reads or changes: its own IDs and received-data stream, the engine's
      state and logs, and the signaling log. */
  datatype Client = Client(
    peerID: string,
    roomID: string,
    local: Option<SessionDescription>,
    remote: Option<SessionDescription>,
    signals: seq<Signal>,
    remoteCandidates: seq<RTCIceCandidate>,
    engineData: seq<Bytes>,
    received: seq<Bytes>)

  /** The local description after the engine produced `sdp`. */
  function AfterProduce(local: Option<SessionDescription>, applies: bool, sdp: SessionDescription): Option<SessionDescription>
  {
    if applies then Some(sdp) else local
  }

  /** `sendOffer()`, with the engine producing `offer`: it goes out tagged with the current IDs. */
  function OnSendOffer(s: Client, applies: bool, offer: SessionDescription): (t: Client)
    ensures t.signals == s.signals + [SdpSignal(offer, s.peerID, s.roomID)]
    ensures t.local == AfterProduce(s.local, applies, offer) && t.remote == s.remote
    ensures t == s.(local := t.local, signals := t.signals)
  {
    s.(local := AfterProduce(s.local, applies, offer),
       signals := s.signals + [SdpSignal(offer, s.peerID, s.roomID)])
  }

  /** `sendData(data:)`: the bytes go to the engine unchanged. */
  function OnSendData(s: Client, data: Bytes): (t: Client)
    ensures t.engineData == s.engineData + [data]
    ensures t == s.(engineData := t.engineData)
  {
    s.(engineData := s.engineData + [data])
  }

  /** True when a remote description arriving in state `s` makes the client answer. */
  predicate Answers(s: Client)
  {
    s.remote.None? && s.local.None?
  }

  /** `signalClient(_:didReceiveRemoteSdp:)`, with the engine's verdict on applying `sdp` and
      the answer it would produce. A description arriving when one is already present changes
      nothing (the first one wins). Otherwise it is applied, and an answer is produced and sent
      exactly when there is no local description, whether or not applying succeeded. */
  function OnRemoteSdp(s: Client, applies: bool, sdp: SessionDescription, applyFails: bool,
                       answer: SessionDescription): (t: Client)
    ensures s.remote.Some? ==> t == s
    ensures s.remote.None? ==> t.remote == (if applyFails then None else Some(sdp))
    ensures Answers(s) ==> t.signals == s.signals + [SdpSignal(answer, s.peerID, s.roomID)]
                           && t.local == AfterProduce(None, applies, answer)
    ensures !Answers(s) ==> t.signals == s.signals && t.local == s.local
    ensures t.peerID == s.peerID && t.roomID == s.roomID
    ensures t.remoteCandidates == s.remoteCandidates && t.engineData == s.engineData && t.received == s.received
  {
    if s.remote.Some? then s
    else
      var applied := s.(remote := if applyFails then s.remote else Some(sdp));
      if applied.local.Some? then applied
      else applied.(local := AfterProduce(applied.local, applies, answer),
                    signals := applied.signals + [SdpSignal(answer, s.peerID, s.roomID)])
  }

  /** `signalClient(_:didReceiveCandidate:)`: handed straight to the engine, nothing buffered. */
  function OnRemoteCandidate(s: Client, candidate: RTCIceCandidate): (t: Client)
    ensures t.remoteCandidates == s.remoteCandidates + [candidate]
    ensures t == s.(remoteCandidates := t.remoteCandidates)
  {
    s.(remoteCandidates := s.remoteCandidates + [candidate])
  }

  /** `webRTCClient(_:didGenerateLocalCandidate:)`: forwarded to signaling with the current IDs. */
  function OnLocalCandidate(s: Client, candidate: RTCIceCandidate): (t: Client)
    ensures t.signals == s.signals + [CandidateSignal(candidate, s.peerID, s.roomID)]
    ensures t == s.(signals := t.signals)
  {
    s.(signals := s.signals + [CandidateSignal(candidate, s.peerID, s.roomID)])
  }

  /** `webRTCClient(_:didReceiveData:)`: forwarded unchanged to `receivedDataPublisher`. */
  function OnDataReceived(s: Client, data: Bytes): (t: Client)
    ensures t.received == s.received + [data]
    ensures t == s.(received := t.received)
  {
    s.(received := s.received + [data])
  }

  /** One thing that can happen to the client, with the engine's choices as parameters. */
  datatype Event =
    | SendOffer(offer: SessionDescription)
    | SendData(data: Bytes)
    | RemoteSdp(sdp: SessionDescription, applyFails: bool, answer: SessionDescription)
    | RemoteCandidate(candidate: RTCIceCandidate)
    | LocalCandidate(localCandidate: RTCIceCandidate)
    | ConnectionStateChanged(state: IceConnectionState)
    | DataReceived(received: Bytes)
    | SetIDs(peer: string, room: string)

  function Step(s: Client, applies: bool, e: Event): Client
  {
    match e
    case SendOffer(offer) => OnSendOffer(s, applies, offer)
    case SendData(data) => OnSendData(s, data)
    case RemoteSdp(sdp, fails, answer) => OnRemoteSdp(s, applies, sdp, fails, answer)
    case RemoteCandidate(c) => OnRemoteCandidate(s, c)
    case LocalCandidate(c) => OnLocalCandidate(s, c)
    case ConnectionStateChanged(_) => s
    case DataReceived(data) => OnDataReceived(s, data)
    case SetIDs(peer, room) => s.(peerID := peer, roomID := room)
  }

  /** The client after `events`, in order. */
  function Run(s: Client, applies: bool, events: seq<Event>): Client
    decreases |events|
  {
    if events == [] then s else Run(Step(s, applies, events[0]), applies, events[1..])
  }

  /** The remote candidates among `events`, in arrival order. */
  function RemoteCandidatesIn(events: seq<Event>): seq<RTCIceCandidate>
  {
    if events == [] then []
    else (if events[0].RemoteCandidate? then [events[0].candidate] else []) + RemoteCandidatesIn(events[1..])
  }

  /** The bytes received from the engine among `events`, in order. */
  function DataReceivedIn(events: seq<Event>): seq<Bytes>
  {
    if events == [] then []
    else (if events[0].DataReceived? then [events[0].received] else []) + DataReceivedIn(events[1..])
  }

  /** The bytes handed to `sendData` among `events`, in order. */
  function DataSentIn(events: seq<Event>): seq<Bytes>
  {
    if events == [] then []
    else (if events[0].SendData? then [events[0].data] else []) + DataSentIn(events[1..])
  }

  /** Every remote candidate reaches the engine exactly once, in arrival order, and nothing else
      does: there is no buffering, whatever the state of the descriptions. */
  lemma {:induction false} RemoteCandidatesInArrivalOrder(s: Client, applies: bool, events: seq<Event>)
    ensures Run(s, applies, events).remoteCandidates == s.remoteCandidates + RemoteCandidatesIn(events)
    decreases |events|
  {
    if events != [] {
      RemoteCandidatesInArrivalOrder(Step(s, applies, events[0]), applies, events[1..]);
    }
  }

  /** Data passes through unchanged and in order, in both directions; connection-state changes
      add nothing. */
  lemma {:induction false} DataForwardedUnchanged(s: Client, applies: bool, events: seq<Event>)
    ensures Run(s, applies, events).received == s.received + DataReceivedIn(events)
    ensures Run(s, applies, events).engineData == s.engineData + DataSentIn(events)
    decreases |events|
  {
    if events != [] {
      DataForwardedUnchanged(Step(s, applies, events[0]), applies, events[1..]);
    }
  }

  /** The peer and room IDs after `events`, from `peer` and `room`: the last assignment wins. */
  function CurrentIDs(peer: string, room: string, events: seq<Event>): (string, string)
    decreases |events|
  {
    if events == [] then (peer, room)
    else if events[0].SetIDs? then CurrentIDs(events[0].peer, events[0].room, events[1..])
    else CurrentIDs(peer, room, events[1..])
  }

  /** Only assignments by callers change the IDs; no entry point touches them. */
  lemma {:induction false} IDsFollowAssignments(s: Client, applies: bool, events: seq<Event>)
    ensures (Run(s, applies, events).peerID, Run(s, applies, events).roomID) == CurrentIDs(s.peerID, s.roomID, events)
    decreases |events|
  {
    if events != [] {
      IDsFollowAssignments(Step(s, applies, events[0]), applies, events[1..]);
    }
  }

  /** True when event `k` of `events`, run from `s`, appends signal `i` of the final log, and
      that signal carries the IDs the client holds just before event `k`. */
  ghost predicate AppendedAt(s: Client, applies: bool, events: seq<Event>, k: nat, i: nat)
    requires k < |events|
  {
    var before := Run(s, applies, events[..k]);
    var after := Run(s, applies, events[..k + 1]);
    var final := Run(s, applies, events);
    && |before.signals| <= i < |after.signals|
    && i < |final.signals| && final.signals[i] == after.signals[i]
    && TaggedBy(final.signals[i], before)
  }

  /** True when some event of `events` appends signal `i` of the final log, as AppendedAt says. */
  ghost predicate AppendedBySomeStep(s: Client, applies: bool, events: seq<Event>, i: nat)
  {
    exists k :: 0 <= k < |events| && AppendedAt(s, applies, events, k, i)
  }

  /** True when `signal` carries the IDs `c` holds. */
  predicate TaggedBy(signal: Signal, c: Client)
  {
    signal.peerID == c.peerID && signal.roomID == c.roomID
  }

  /** Nothing is ever taken back from the signaling log, and everything added to it (offers,
      answers and local candidates) carries the peer and room IDs the client holds at the step
      that adds it: signal `i` is appended by event `k`, and carries the IDs of the state the
      first `k` events leave. */
  lemma {:induction false} SignalsTaggedWithIDs(s: Client, applies: bool, events: seq<Event>)
    ensures s.signals <= Run(s, applies, events).signals
    ensures forall i :: |s.signals| <= i < |Run(s, applies, events).signals| ==>
              AppendedBySomeStep(s, applies, events, i)
    decreases |events|
  {
    if events != [] {
      var next := Step(s, applies, events[0]);
      var r := Run(s, applies, events);
      SignalsTaggedWithIDs(next, applies, events[1..]);
      assert r == Run(next, applies, events[1..]);
      forall i | |s.signals| <= i < |r.signals|
        ensures AppendedBySomeStep(s, applies, events, i)
      {
        if i < |next.signals| {
          assert events[..0] == [];
          assert events[..1] == [events[0]];
          assert AppendedAt(s, applies, events, 0, i);
        } else {
          assert AppendedBySomeStep(next, applies, events[1..], i);
          var k :| 0 <= k < |events[1..]| && AppendedAt(next, applies, events[1..], k, i);
          assert events[..k + 1][1..] == events[1..][..k];
          assert events[..k + 2][1..] == events[1..][..k + 1];
          assert AppendedAt(s, applies, events, k + 1, i);
        }
      }
    }
  }

  /** Between assignments, then, every signal added carries the client's current IDs. */
  lemma {:induction false} SignalsTaggedWithFixedIDs(s: Client, applies: bool, events: seq<Event>)
    requires forall i :: 0 <= i < |events| ==> !events[i].SetIDs?
    ensures forall i :: |s.signals| <= i < |Run(s, applies, events).signals| ==>
              TaggedBy(Run(s, applies, events).signals[i], s)
    decreases |events|
  {
    if events != [] {
      var next := Step(s, applies, events[0]);
      SignalsTaggedWithIDs(next, applies, events[1..]);
      SignalsTaggedWithFixedIDs(next, applies, events[1..]);
    }
  }

  /** Once a remote description is present it is never replaced: the first one wins. */
  lemma {:induction false} FirstRemoteSdpWins(s: Client, applies: bool, events: seq<Event>)
    requires s.remote.Some?
    ensures Run(s, applies, events).remote == s.remote
    decreases |events|
  {
    if events != [] {
      FirstRemoteSdpWins(Step(s, applies, events[0]), applies, events[1..]);
    }
  }

  /** Once a local description is present it stays present. */
  lemma {:induction false} LocalDescriptionStays(s: Client, applies: bool, events: seq<Event>)
    requires s.local.Some?
    ensures Run(s, applies, events).local.Some?
    decreases |events|
  {
    if events != [] {
      LocalDescriptionStays(Step(s, applies, events[0]), applies, events[1..]);
    }
  }

  /** How many of `events` make the client send an answer. */
  function AnswersIn(s: Client, applies: bool, events: seq<Event>): nat
    decreases |events|
  {
    if events == [] then 0
    else (if events[0].RemoteSdp? && Answers(s) then 1 else 0) + AnswersIn(Step(s, applies, events[0]), applies, events[1..])
  }

  /** A client that already has a local description (the initiator, once its offer is applied)
      never sends an answer. */
  lemma {:induction false} InitiatorNeverAnswers(s: Client, applies: bool, events: seq<Event>)
    requires s.local.Some?
    ensures AnswersIn(s, applies, events) == 0
    decreases |events|
  {
    if events != [] {
      InitiatorNeverAnswers(Step(s, applies, events[0]), applies, events[1..]);
    }
  }

  /** When producing a description also applies it locally, a client answers at most once, even
      if applying a remote description fails and further ones arrive. */
  lemma {:induction false} AtMostOneAnswer(s: Client, applies: bool, events: seq<Event>)
    requires applies
    ensures AnswersIn(s, applies, events) <= if s.local.None? then 1 else 0
    decreases |events|
  {
    if events != [] {
      var next := Step(s, applies, events[0]);
      if s.local.Some? {
        InitiatorNeverAnswers(s, applies, events);
      } else if next.local.Some? {
        InitiatorNeverAnswers(next, applies, events[1..]);
      } else {
        AtMostOneAnswer(next, applies, events[1..]);
      }
    }
  }

  // ---------------------------------------------------------------------------------------
  // The client object

  /** `ConnectionClientImpl`: its signaling and engine collaborators, its mutable `peerID` and
      `roomID`, and the data received so far on `receivedDataPublisher`. */
  class ConnectionClientImpl {
    const signaling: SignalingChannel
    const engine: WebRTCEngine
    var peerID: string
    var roomID: string
    var receivedData: seq<Bytes>

    /** The client as a value. */
    function State(): Client
      reads this, engine, signaling
    {
      Client(peerID, roomID, engine.localDescription, engine.remoteDescription, signaling.sent,
             engine.remoteCandidates, engine.sentData, receivedData)
    }

    /** `init(signalingClient:webRTCClient:)`; both IDs start empty. */
    constructor (signaling: SignalingChannel, engine: WebRTCEngine)
      ensures this.signaling == signaling && this.engine == engine
      ensures peerID == "" && roomID == "" && receivedData == []
    {
      this.signaling := signaling;
      this.engine := engine;
      peerID, roomID := "", "";
      receivedData := [];
    }

    /** `sendOffer()`; the engine produces `offer` and hands it to the completion. */
    method SendOffer(offer: SessionDescription)
      modifies engine, signaling
      ensures State() == OnSendOffer(old(State()), engine.appliesProducedLocally, offer)
    {
      engine.Produce(offer);
      signaling.SendSdp(offer, peerID, roomID);
    }

    /** `sendData(data:)`. */
    method SendData(data: Bytes)
      modifies engine
      ensures State() == OnSendData(old(State()), data)
    {
      engine.SendData(data);
    }

    /** `signalClient(_:didReceiveRemoteSdp:)`; `applyFails` is the engine's verdict on the
        remote description and `answer` the answer it produces. */
    method DidReceiveRemoteSdp(sdp: SessionDescription, applyFails: bool, answer: SessionDescription)
      modifies engine, signaling
      ensures State() == OnRemoteSdp(old(State()), engine.appliesProducedLocally, sdp, applyFails, answer)
    {
      if engine.remoteDescription.Some? {
        return;
      }
      var error := engine.SetRemoteSdp(sdp, applyFails);
      // an error is only printed; the answer step runs regardless
      if engine.localDescription.Some? {
        return;
      }
      engine.Produce(answer);
      signaling.SendSdp(answer, peerID, roomID);
    }

    /** `signalClient(_:didReceiveCandidate:)`. */
    method DidReceiveCandidate(candidate: RTCIceCandidate)
      modifies engine
      ensures State() == OnRemoteCandidate(old(State()), candidate)
    {
      engine.SetRemoteCandidate(candidate);
    }

    /** `webRTCClient(_:didGenerateLocalCandidate:)`. */
    method DidGenerateLocalCandidate(candidate: RTCIceCandidate)
      modifies signaling
      ensures State() == OnLocalCandidate(old(State()), candidate)
    {
      signaling.SendCandidate(candidate, peerID, roomID);
    }

    /** A caller assigning the public `peerID` and `roomID` properties. */
    method AssignIDs(peer: string, room: string)
      modifies this`peerID, this`roomID
      ensures State() == Step(old(State()), engine.appliesProducedLocally, SetIDs(peer, room))
    {
      peerID, roomID := peer, room;
    }

    /** `webRTCClient(_:didChangeConnectionState:)`: alters nothing. */
    method DidChangeConnectionState(state: IceConnectionState)
      ensures State() == old(State())
    {
    }

    /** `webRTCClient(_:didReceiveData:)`. */
    method DidReceiveData(data: Bytes)
      modifies this`receivedData
      ensures State() == OnDataReceived(old(State()), data)
    {
      receivedData := receivedData + [data];
    }
  }
}
