/** The response builder handed to route handlers (class Response): a
    status, a message and a payload set fluently, and six ways of sending
    the same envelope on the route's event name. */
module Responses {
  import opened Values
  import opened Routes

  /** An id of a connected socket. */
  type SocketId = string

  /** The outbound envelope `{message, status, payload}`. */
  datatype Envelope = Envelope(message: string, status: int, payload: Value)

  /** The transport call a send goes through, with the socket it starts from. */
  datatype Channel =
    | SocketEmit(socket: SocketId)                   // socket.emit
    | SocketBroadcast(socket: SocketId)              // socket.broadcast.emit
    | SocketTo(socket: SocketId, room: string)       // socket.to(room).emit
    | ServerIn(room: string)                         // server.in(room).emit
    | ServerOf(namespace: string)                    // server.of(namespace).emit

  /** One emitted message: the channel, the event name and the envelope. */
  datatype Emission = Emission(channel: Channel, event: string, envelope: Envelope)

  /** The transport, seen as the list of messages emitted through it. */
  class Outbox {
    var sent: seq<Emission>

    constructor ()
      ensures sent == []
    {
      sent := [];
    }
  }

  const OK := 200
  /** Internal Server Error (section 15.6.1 of RFC 9110). */
  const INTERNAL_SERVER_ERROR := 500
  /** `error` escalates a status below this to INTERNAL_SERVER_ERROR. */
  const ERROR_THRESHOLD := 499

  /** The status `error` leaves: statuses below the threshold become
      Internal Server Error, any other status is kept. */
  function Escalated(status: int): (r: int)
    ensures r >= ERROR_THRESHOLD
    ensures status >= ERROR_THRESHOLD ==> r == status
    ensures r == status || r == INTERNAL_SERVER_ERROR
  {
    if status < ERROR_THRESHOLD then INTERNAL_SERVER_ERROR else status
  }

  /** Escalating twice is escalating once, so `error` applied twice leaves the state it leaves once. */
  lemma EscalatedIdempotent(status: int)
    ensures Escalated(Escalated(status)) == Escalated(status)
  {
  }

  class Response {
    var statusCode: int
    var data: Value
    var payloadMessage: string
    const socket: SocketId
    const route: InternalRoute
    /** The socket and the server the response sends through. */
    const outbox: Outbox

    constructor (socket: SocketId, route: InternalRoute, outbox: Outbox)
      ensures statusCode == OK && payloadMessage == "" && data == Undefined
      ensures this.socket == socket && this.route == route && this.outbox == outbox
    {
      this.socket := socket;
      this.outbox := outbox;
      payloadMessage := "";
      statusCode := OK;
      this.route := route;
      data := Undefined;
    }

    // -- Fluent properties

    method Status(code: int) returns (self: Response)
      modifies this
      ensures self == this
      ensures statusCode == code && data == old(data) && payloadMessage == old(payloadMessage)
    {
      statusCode := code;
      return this;
    }

    function GetStatus(): int
      reads this
    {
      statusCode
    }

    method WithData(obj: Value) returns (self: Response)
      modifies this
      ensures self == this
      ensures data == obj && statusCode == old(statusCode) && payloadMessage == old(payloadMessage)
    {
      data := obj;
      return this;
    }

    function GetData(): Value
      reads this
    {
      data
    }

    method Message(comment: string) returns (self: Response)
      modifies this
      ensures self == this
      ensures payloadMessage == comment && statusCode == old(statusCode) && data == old(data)
    {
      payloadMessage := comment;
      return this;
    }

    function GetMessage(): string
      reads this
    {
      payloadMessage
    }

    /** error(message): sets the message, and escalates a status below 499 to 500. */
    method Error(message: string) returns (self: Response)
      modifies this
      ensures self == this
      ensures statusCode == Escalated(old(statusCode))
      ensures payloadMessage == message && data == old(data)
    {
      if GetStatus() < ERROR_THRESHOLD {
        var _ := Status(INTERNAL_SERVER_ERROR);
      }
      var _ := Message(message);
      return this;
    }

    // -- Sender functions: each emits the current envelope on the route's
    // -- event name and leaves the response as it was.

    method Relay()
      modifies outbox
      ensures outbox.sent == old(outbox.sent) + [Emission(SocketEmit(socket), GetEventRoute(), FormatPayload())]
    {
      outbox.sent := outbox.sent + [Emission(SocketEmit(socket), GetEventRoute(), FormatPayload())];
    }

    method ToAllExceptSender()
      modifies outbox
      ensures outbox.sent == old(outbox.sent) + [Emission(SocketBroadcast(socket), GetEventRoute(), FormatPayload())]
    {
      outbox.sent := outbox.sent + [Emission(SocketBroadcast(socket), GetEventRoute(), FormatPayload())];
    }

    method ToAllInRoomExceptSender(roomName: string)
      modifies outbox
      ensures outbox.sent == old(outbox.sent) + [Emission(SocketTo(socket, roomName), GetEventRoute(), FormatPayload())]
    {
      outbox.sent := outbox.sent + [Emission(SocketTo(socket, roomName), GetEventRoute(), FormatPayload())];
    }

    method ToAllInRoom(roomName: string)
      modifies outbox
      ensures outbox.sent == old(outbox.sent) + [Emission(ServerIn(roomName), GetEventRoute(), FormatPayload())]
    {
      outbox.sent := outbox.sent + [Emission(ServerIn(roomName), GetEventRoute(), FormatPayload())];
    }

    method ToAllInNamespace(namespaceName: string := "/")
      modifies outbox
      ensures outbox.sent == old(outbox.sent) + [Emission(ServerOf(namespaceName), GetEventRoute(), FormatPayload())]
    {
      outbox.sent := outbox.sent + [Emission(ServerOf(namespaceName), GetEventRoute(), FormatPayload())];
    }

    /** Goes through socket.to(socketID), as ToAllInRoomExceptSender does with a room name. */
    method ToIndividualSocket(socketID: string)
      modifies outbox
      ensures outbox.sent == old(outbox.sent) + [Emission(SocketTo(socket, socketID), GetEventRoute(), FormatPayload())]
    {
      outbox.sent := outbox.sent + [Emission(SocketTo(socket, socketID), GetEventRoute(), FormatPayload())];
    }

    // -- Helpers

    /** The event name every send uses: the route's own path. */
    function GetEventRoute(): string
    {
      route.config.path
    }

    /** The envelope of the current state. */
    function FormatPayload(): (e: Envelope)
      reads this
      ensures e.message == payloadMessage && e.status == statusCode && e.payload == data
    {
      Envelope(GetMessage(), GetStatus(), GetData())
    }
  }

  /** What handler code can rely on: a fresh response sends 200 with an
      empty message and no payload; `error` twice sends what `error` once
      sends; two sends in a row carry the same envelope on the same event,
      and the default namespace is "/". */
  method ResponseClient(socket: SocketId, route: InternalRoute, outbox: Outbox, message: string)
    modifies outbox
    ensures |outbox.sent| == |old(outbox.sent)| + 3
    ensures outbox.sent[..|old(outbox.sent)|] == old(outbox.sent)
    ensures outbox.sent[|old(outbox.sent)|] == Emission(SocketEmit(socket), route.config.path, Envelope("", OK, Undefined))
    ensures outbox.sent[|old(outbox.sent)| + 1] == Emission(ServerOf("/"), route.config.path, Envelope(message, INTERNAL_SERVER_ERROR, Undefined))
    ensures outbox.sent[|old(outbox.sent)| + 2].envelope == outbox.sent[|old(outbox.sent)| + 1].envelope
    ensures outbox.sent[|old(outbox.sent)| + 2].event == outbox.sent[|old(outbox.sent)| + 1].event
  {
    var start := outbox.sent;
    var r := new Response(socket, route, outbox);
    r.Relay();
    assert outbox.sent[|start|].envelope == Envelope("", OK, Undefined);
    var once := r.Error(message);
    var onceStatus := r.statusCode;
    var twice := r.Error(message);
    EscalatedIdempotent(200);
    assert r.statusCode == onceStatus == INTERNAL_SERVER_ERROR;
    r.ToAllInNamespace();
    r.ToAllExceptSender();
    var sent := outbox.sent;
    assert sent[|start| + 1] == Emission(ServerOf("/"), route.config.path, Envelope(message, 500, Undefined));
    assert sent[|start| + 2].envelope == sent[|start| + 1].envelope;
    assert sent[|start| + 2].event == sent[|start| + 1].event;
  }
}
