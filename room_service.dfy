/** The room protocol client (PhotoGetherData/ServiceImpl/RoomServiceImpl.swift): builds the
    create and join requests sent over the websocket, and routes each incoming websocket
    message, decoded in two stages, to one of three response streams. */
module RoomService {
  import opened Common

  /** The envelope's discriminator; the switch over it in the source is exhaustive. */
  datatype MessageType = CreateRoom | JoinRoom | NotifyNewUser

  /** Outgoing envelope (`RoomRequestDTO`): a type and an optional encoded payload. */
  datatype RoomRequestDTO = RoomRequestDTO(messageType: MessageType, message: Option<Bytes>)

  /** Incoming envelope (`RoomResponseDTO`). */
  datatype RoomResponseDTO = RoomResponseDTO(messageType: MessageType, message: Option<Bytes>)

  /** Payloads. */
  datatype JoinRoomRequestMessage = JoinRoomRequestMessage(roomID: string)
  datatype CreateRoomResponseMessage = CreateRoomResponseMessage(roomID: string, hostID: string)
  datatype JoinRoomResponseMessage = JoinRoomResponseMessage(userID: string, userList: seq<string>)
  datatype NotifyNewUserMessage = NotifyNewUserMessage(newUserID: string)

  /** Entities published on the three streams. */
  datatype RoomOwnerEntity = RoomOwnerEntity(roomID: string, hostID: string)
  datatype JoinRoomEntity = JoinRoomEntity(userID: string, userList: seq<string>)
  datatype NotifyNewUserEntity = NotifyNewUserEntity(newUserID: string)

  /** The `toEntity()` conversions; their bodies are not part of this model and are taken to
      copy the payload's fields. */
  function CreateRoomEntity(m: CreateRoomResponseMessage): RoomOwnerEntity { RoomOwnerEntity(m.roomID, m.hostID) }
  function JoinEntity(m: JoinRoomResponseMessage): JoinRoomEntity { JoinRoomEntity(m.userID, m.userList) }
  function NotifyEntity(m: NotifyNewUserMessage): NotifyNewUserEntity { NotifyNewUserEntity(m.newUserID) }

  /** The JSON encoder and decoder, left abstract: each direction, per type, is a partial
      function that either yields a value or fails. */
  datatype Codec = Codec(
    encodeRequest: RoomRequestDTO -> Option<Bytes>,
    encodeJoinRoom: JoinRoomRequestMessage -> Option<Bytes>,
    decodeResponse: Bytes -> Option<RoomResponseDTO>,
    decodeCreateRoom: Bytes -> Option<CreateRoomResponseMessage>,
    decodeJoinRoom: Bytes -> Option<JoinRoomResponseMessage>,
    decodeNotifyNewUser: Bytes -> Option<NotifyNewUserMessage>)

  /** `RoomServiceError`. */
  datatype RoomServiceError = FailedToEncoding

  /** The publisher a request call hands back: one of the shared response streams. */
  datatype Stream = CreateRoomResponses | JoinRoomResponses | NotifyRoomResponses

  // ---------------------------------------------------------------------------------------
  // Outgoing side

  /** The create-room envelope: type `.createRoom` and no payload. */
  function CreateRoomRequest(): RoomRequestDTO
  {
    RoomRequestDTO(CreateRoom, None)
  }

  /** The join-room envelope: type `.joinRoom` around the encoded `{roomID}` payload, or around
      no payload when that inner encoding fails. */
  function JoinRoomRequest(codec: Codec, roomID: string): (req: RoomRequestDTO)
    ensures req.messageType == JoinRoom
    ensures req.message.None? <==> codec.encodeJoinRoom(JoinRoomRequestMessage(roomID)).None?
    ensures req.message.Some? ==> codec.encodeJoinRoom(JoinRoomRequestMessage(roomID)) == req.message
  {
    RoomRequestDTO(messageType := JoinRoom, message := codec.encodeJoinRoom(JoinRoomRequestMessage(roomID)))
  }

  /** The bytes a request call puts on the websocket: the encoded envelope, or
      `failedToEncoding` exactly when the envelope does not encode. */
  function Outgoing(codec: Codec, req: RoomRequestDTO): (r: Result<Bytes, RoomServiceError>)
    ensures r.Failure? <==> codec.encodeRequest(req).None?
    ensures r.Failure? ==> r.error == FailedToEncoding
    ensures r.Success? ==> codec.encodeRequest(req) == Some(r.value)
  {
    match codec.encodeRequest(req)
    case None => Failure(FailedToEncoding)
    case Some(data) => Success(data)
  }

  /** The receiving side's decoder inverts the encoder on everything the encoder accepts. */
  ghost predicate Inverts<T(!new)>(encode: T -> Option<Bytes>, decode: Bytes -> Option<T>)
  {
    forall x :: encode(x).Some? ==> decode(encode(x).value) == Some(x)
  }

  /** What the relay reads off a join request: whenever the call sends something, a relay whose
      decoders invert the client's encoders recovers a `.joinRoom` envelope, and its payload is
      the room ID asked for, or absent when only the inner encoding failed. */
  lemma JoinRoomWireContents(codec: Codec, roomID: string,
                             decodeRequest: Bytes -> Option<RoomRequestDTO>,
                             decodeJoin: Bytes -> Option<JoinRoomRequestMessage>)
    requires Inverts(codec.encodeRequest, decodeRequest)
    requires Inverts(codec.encodeJoinRoom, decodeJoin)
    requires Outgoing(codec, JoinRoomRequest(codec, roomID)).Success?
    ensures var req := decodeRequest(Outgoing(codec, JoinRoomRequest(codec, roomID)).value);
            && req.Some? && req.value.messageType == JoinRoom
            && (req.value.message.None? <==> codec.encodeJoinRoom(JoinRoomRequestMessage(roomID)).None?)
            && (req.value.message.Some? ==> decodeJoin(req.value.message.value) == Some(JoinRoomRequestMessage(roomID)))
  {
  }

  /** Likewise for create: the relay recovers a `.createRoom` envelope with no payload. */
  lemma CreateRoomWireContents(codec: Codec, decodeRequest: Bytes -> Option<RoomRequestDTO>)
    requires Inverts(codec.encodeRequest, decodeRequest)
    requires Outgoing(codec, CreateRoomRequest()).Success?
    ensures decodeRequest(Outgoing(codec, CreateRoomRequest()).value) == Some(RoomRequestDTO(CreateRoom, None))
  {
  }

  // ---------------------------------------------------------------------------------------
  // Incoming side

  /** `decodeMessage`: no payload, or a payload that does not decode, gives nothing; otherwise
      the decoded payload. */
  function DecodeMessage<T>(message: Option<Bytes>, decode: Bytes -> Option<T>): (r: Option<T>)
    ensures r.Some? <==> message.Some? && decode(message.value).Some?
    ensures r.Some? ==> decode(message.value) == r
  {
    match message
    case None => None
    case Some(m) => decode(m)
  }

  /** What one incoming message does: nothing, or one entity for exactly one stream. */
  datatype Emission =
    | Dropped
    | CreatedRoom(owner: RoomOwnerEntity)
    | JoinedRoom(join: JoinRoomEntity)
    | NewUser(notify: NotifyNewUserEntity)

  /** The stream an emission goes to. */
  function StreamOf(e: Emission): Stream
    requires !e.Dropped?
  {
    match e
    case CreatedRoom(_) => CreateRoomResponses
    case JoinedRoom(_) => JoinRoomResponses
    case NewUser(_) => NotifyRoomResponses
  }

  /** The stream the responses of each envelope type belong to. */
  function StreamFor(t: MessageType): Stream
  {
    match t
    case CreateRoom => CreateRoomResponses
    case JoinRoom => JoinRoomResponses
    case NotifyNewUser => NotifyRoomResponses
  }

  /** True when the envelope's payload decodes as the type its `messageType` calls for. */
  predicate PayloadDecodes(codec: Codec, response: RoomResponseDTO)
  {
    match response.messageType
    case CreateRoom => DecodeMessage(response.message, codec.decodeCreateRoom).Some?
    case JoinRoom => DecodeMessage(response.message, codec.decodeJoinRoom).Some?
    case NotifyNewUser => DecodeMessage(response.message, codec.decodeNotifyNewUser).Some?
  }

  /** The body of the websocket sink: decode the envelope, then the payload its type calls for.
      A message is dropped exactly when one of the two stages fails; otherwise it goes to the
      stream of its own envelope type and to no other. */
  function Dispatch(codec: Codec, data: Bytes): (e: Emission)
    ensures codec.decodeResponse(data).None? ==> e.Dropped?
    ensures codec.decodeResponse(data).Some? ==>
              (e.Dropped? <==> !PayloadDecodes(codec, codec.decodeResponse(data).value))
    ensures !e.Dropped? ==> StreamOf(e) == StreamFor(codec.decodeResponse(data).value.messageType)
    ensures var response := codec.decodeResponse(data);
            var m := if response.Some? then DecodeMessage(response.value.message, codec.decodeCreateRoom) else None;
            response.Some? && response.value.messageType == CreateRoom && m.Some? ==> e == CreatedRoom(CreateRoomEntity(m.value))
    ensures var response := codec.decodeResponse(data);
            var m := if response.Some? then DecodeMessage(response.value.message, codec.decodeJoinRoom) else None;
            response.Some? && response.value.messageType == JoinRoom && m.Some? ==> e == JoinedRoom(JoinEntity(m.value))
    ensures var response := codec.decodeResponse(data);
            var m := if response.Some? then DecodeMessage(response.value.message, codec.decodeNotifyNewUser) else None;
            response.Some? && response.value.messageType == NotifyNewUser && m.Some? ==> e == NewUser(NotifyEntity(m.value))
  {
    match codec.decodeResponse(data)
    case None => Dropped
    case Some(response) =>
      match response.messageType
      case CreateRoom =>
        // this branch unwraps the payload and decodes it inline, not through decodeMessage
        (match response.message
         case None => Dropped
         case Some(message) =>
           match codec.decodeCreateRoom(message)
           case None => Dropped
           case Some(m) => CreatedRoom(CreateRoomEntity(m)))
      case JoinRoom =>
        (match DecodeMessage(response.message, codec.decodeJoinRoom)
         case None => Dropped
         case Some(m) => JoinedRoom(JoinEntity(m)))
      case NotifyNewUser =>
        (match DecodeMessage(response.message, codec.decodeNotifyNewUser)
         case None => Dropped
         case Some(m) => NewUser(NotifyEntity(m)))
  }

  /** A create-room response whose envelope and payload decode yields the room identity the
      server sent (for the response `{roomID: "R1", hostID: "U1"}`, the entity ("R1", "U1")). */
  lemma CreateRoomResponseResolves(codec: Codec, data: Bytes, payload: Bytes, roomID: string, hostID: string)
    requires codec.decodeResponse(data) == Some(RoomResponseDTO(CreateRoom, Some(payload)))
    requires codec.decodeCreateRoom(payload) == Some(CreateRoomResponseMessage(roomID, hostID))
    ensures Dispatch(codec, data) == CreatedRoom(RoomOwnerEntity(roomID, hostID))
  {
  }

  /** The three streams, as the sequences of entities published on each so far. */
  datatype Streams = Streams(
    createRoom: seq<RoomOwnerEntity>,
    joinRoom: seq<JoinRoomEntity>,
    notifyRoom: seq<NotifyNewUserEntity>)

  function NoStreams(): Streams { Streams([], [], []) }

  /** Publishing an emission appends its entity to its own stream. */
  function Publish(s: Streams, e: Emission): (t: Streams)
    ensures e.Dropped? ==> t == s
    ensures e.CreatedRoom? ==> t == s.(createRoom := s.createRoom + [e.owner])
    ensures e.JoinedRoom? ==> t == s.(joinRoom := s.joinRoom + [e.join])
    ensures e.NewUser? ==> t == s.(notifyRoom := s.notifyRoom + [e.notify])
  {
    match e
    case Dropped => s
    case CreatedRoom(o) => s.(createRoom := s.createRoom + [o])
    case JoinedRoom(j) => s.(joinRoom := s.joinRoom + [j])
    case NewUser(n) => s.(notifyRoom := s.notifyRoom + [n])
  }

  /** The streams after the sink has handled each message of `inbox`, in order. */
  function Route(codec: Codec, inbox: seq<Bytes>): Streams
  {
    if inbox == [] then NoStreams()
    else Publish(Route(codec, inbox[..|inbox| - 1]), Dispatch(codec, inbox[|inbox| - 1]))
  }

  /** Stream-wise concatenation. */
  function Concat(s: Streams, t: Streams): Streams
  {
    Streams(s.createRoom + t.createRoom, s.joinRoom + t.joinRoom, s.notifyRoom + t.notifyRoom)
  }

  /** Each message is handled independently of the ones before it: the streams for `xs + ys`
      are those for `xs` followed by those for `ys`. */
  lemma {:induction false} RouteAppend(codec: Codec, xs: seq<Bytes>, ys: seq<Bytes>)
    ensures Route(codec, xs + ys) == Concat(Route(codec, xs), Route(codec, ys))
    decreases |ys|
  {
    if ys == [] {
      assert xs + ys == xs;
    } else {
      var last := ys[|ys| - 1];
      var init := ys[..|ys| - 1];
      assert (xs + ys)[..|xs + ys| - 1] == xs + init;
      assert (xs + ys)[|xs + ys| - 1] == last;
      RouteAppend(codec, xs, init);
      var a, b := Route(codec, xs), Route(codec, init);
      match Dispatch(codec, last)
      case Dropped =>
      case CreatedRoom(o) =>
        assert a.createRoom + (b.createRoom + [o]) == (a.createRoom + b.createRoom) + [o];
      case JoinedRoom(j) =>
        assert a.joinRoom + (b.joinRoom + [j]) == (a.joinRoom + b.joinRoom) + [j];
      case NewUser(n) =>
        assert a.notifyRoom + (b.notifyRoom + [n]) == (a.notifyRoom + b.notifyRoom) + [n];
    }
  }

  /** A message that fails to decode, at either stage, leaves no trace: the streams are what
      they would have been had it never arrived, before and after it. */
  lemma DroppedMessageIsInvisible(codec: Codec, xs: seq<Bytes>, bad: Bytes, ys: seq<Bytes>)
    requires Dispatch(codec, bad).Dropped?
    ensures Route(codec, xs + [bad] + ys) == Route(codec, xs + ys)
  {
    RouteAppend(codec, xs + [bad], ys);
    RouteAppend(codec, xs, ys);
    assert (xs + [bad])[..|xs + [bad]| - 1] == xs;
  }

  /** The streams are append-only: handling more messages only extends each of them. */
  lemma StreamsOnlyGrow(codec: Codec, xs: seq<Bytes>, ys: seq<Bytes>)
    ensures Route(codec, xs).createRoom <= Route(codec, xs + ys).createRoom
    ensures Route(codec, xs).joinRoom <= Route(codec, xs + ys).joinRoom
    ensures Route(codec, xs).notifyRoom <= Route(codec, xs + ys).notifyRoom
  {
    RouteAppend(codec, xs, ys);
  }

  /** Number of entities published across the three streams. */
  function Published(s: Streams): nat
  {
    |s.createRoom| + |s.joinRoom| + |s.notifyRoom|
  }

  /** Number of messages of `inbox` that the sink drops. */
  function DropCount(codec: Codec, inbox: seq<Bytes>): nat
  {
    if inbox == [] then 0
    else DropCount(codec, inbox[..|inbox| - 1]) + (if Dispatch(codec, inbox[|inbox| - 1]).Dropped? then 1 else 0)
  }

  /** Every message either publishes exactly one entity or is dropped: never two entities, and
      never one on two streams. */
  lemma {:induction false} EachMessageAtMostOnce(codec: Codec, inbox: seq<Bytes>)
    ensures Published(Route(codec, inbox)) + DropCount(codec, inbox) == |inbox|
    decreases |inbox|
  {
    if inbox != [] {
      EachMessageAtMostOnce(codec, inbox[..|inbox| - 1]);
    }
  }

  // ---------------------------------------------------------------------------------------
  // The service object

  /** `RoomServiceImpl`: the websocket's sent-message log and the three subjects, as
      append-only sequences; `received` is the history of websocket messages the sink saw. */
  class RoomServiceImpl {
    const codec: Codec
    var sent: seq<Bytes>
    var createRoomResponses: seq<RoomOwnerEntity>
    var joinRoomResponses: seq<JoinRoomEntity>
    var notifyRoomResponses: seq<NotifyNewUserEntity>
    ghost var received: seq<Bytes>

    /** The three subjects hold exactly what routing the received messages publishes. */
    ghost predicate Valid()
      reads this
    {
      Streams(createRoomResponses, joinRoomResponses, notifyRoomResponses) == Route(codec, received)
    }

    /** `init(webSocketClient:)`; the sink is subscribed from the start. */
    constructor (codec: Codec)
      ensures Valid() && this.codec == codec
      ensures sent == [] && received == []
    {
      this.codec := codec;
      sent := [];
      createRoomResponses, joinRoomResponses, notifyRoomResponses := [], [], [];
      received := [];
    }

    /** `createRoom()`: sends the encoded create envelope and hands back the create stream, or
        reports `failedToEncoding` and sends nothing. */
    method CreateRoom() returns (r: Result<Stream, RoomServiceError>)
      requires Valid()
      modifies this`sent
      ensures Valid()
      ensures r.Failure? <==> Outgoing(codec, CreateRoomRequest()).Failure?
      ensures r.Failure? ==> r.error == FailedToEncoding && sent == old(sent)
      ensures r.Success? ==> r.value == CreateRoomResponses
                             && sent == old(sent) + [Outgoing(codec, CreateRoomRequest()).value]
    {
      var createRoomRequest := RoomRequestDTO(MessageType.CreateRoom, None);
      var data := codec.encodeRequest(createRoomRequest);
      if data.None? {
        return Failure(FailedToEncoding);
      }
      sent := sent + [data.value];
      return Success(CreateRoomResponses);
    }

    /** `joinRoom(to:)`: only a failure to encode the outer envelope is reported; a failed
        inner encoding still sends an envelope without payload. */
    method JoinRoom(roomID: string) returns (r: Result<Stream, RoomServiceError>)
      requires Valid()
      modifies this`sent
      ensures Valid()
      ensures r.Failure? <==> Outgoing(codec, JoinRoomRequest(codec, roomID)).Failure?
      ensures r.Failure? ==> r.error == FailedToEncoding && sent == old(sent)
      ensures r.Success? ==> r.value == JoinRoomResponses
                             && sent == old(sent) + [Outgoing(codec, JoinRoomRequest(codec, roomID)).value]
    {
      var joinRoomMessage := codec.encodeJoinRoom(JoinRoomRequestMessage(roomID));
      var joinRoomRequest := RoomRequestDTO(MessageType.JoinRoom, joinRoomMessage);
      var data := codec.encodeRequest(joinRoomRequest);
      if data.None? {
        return Failure(FailedToEncoding);
      }
      sent := sent + [data.value];
      return Success(JoinRoomResponses);
    }

    /** The websocket sink, for one received message. */
    method Receive(data: Bytes)
      requires Valid()
      modifies this`createRoomResponses, this`joinRoomResponses, this`notifyRoomResponses, this`received
      ensures Valid() && received == old(received) + [data]
      ensures Streams(createRoomResponses, joinRoomResponses, notifyRoomResponses)
              == Publish(old(Streams(createRoomResponses, joinRoomResponses, notifyRoomResponses)), Dispatch(codec, data))
    {
      received := received + [data];
      assert received[..|received| - 1] == old(received);
      var response := codec.decodeResponse(data);
      if response.None? {
        return;
      }
      match response.value.messageType
      case CreateRoom =>
        if response.value.message.None? {
          return;
        }
        var message := codec.decodeCreateRoom(response.value.message.value);
        if message.None? {
          return;
        }
        createRoomResponses := createRoomResponses + [CreateRoomEntity(message.value)];
      case JoinRoom =>
        var message := DecodeMessage(response.value.message, codec.decodeJoinRoom);
        if message.None? {
          return;
        }
        joinRoomResponses := joinRoomResponses + [JoinEntity(message.value)];
      case NotifyNewUser =>
        var message := DecodeMessage(response.value.message, codec.decodeNotifyNewUser);
        if message.None? {
          return;
        }
        notifyRoomResponses := notifyRoomResponses + [NotifyEntity(message.value)];
    }
  }
}
