/** The Socket.IO handlers of a lesson: rooms keyed by session id, the events a socket sends,
    and the events the server delivers back. */
module SocketRelay {
  import opened Wrappers
  import opened ChatSessionModel
  import opened Database

  /** A socket's `socket.id`. */
  type SocketId = string

  /** What a socket keeps in `socket.data` once it has joined a lesson. */
  datatype SocketData = SocketData(sessionId: Id, userId: Option<string>)

  /** The events the server emits. */
  datatype Event =
    | Error(message: string)
    | UserJoined(userId: Option<string>, message: string)
    | SessionState(session: Session)
    | NewMessage(msg: Message)
    | StepChanged(newStep: int)
    | SpeakerChanged(speakerId: Option<Id>)
    | UserLeft(leftUserId: string, message: string)

  /** One emission: an event delivered to a set of sockets. */
  datatype Delivery = Delivery(to: set<SocketId>, event: Event)

  /** The payload of `send-message`. */
  datatype MessageData = MessageData(senderId: string, senderName: string, senderType: string, content: string)

  /** How `findById` / `findByIdAndUpdate` treat a session id. */
  datatype Lookup = CastError | Absent | Found(session: Session)

  function Locate(sessions: map<Id, Session>, id: Id): (r: Lookup)
    ensures r.CastError? <==> !IsObjectId(id)
    ensures r.Found? <==> IsObjectId(id) && id in sessions
    ensures r.Found? ==> r.session == sessions[id]
  {
    if !IsObjectId(id) then CastError else if id in sessions then Found(sessions[id]) else Absent
  }

  /** How a template literal renders an optional user id. */
  function UserText(userId: Option<string>): string
  {
    if userId.Some? then userId.value else "undefined"
  }

  /** A user id as JavaScript's truthiness sees it: present and not the empty string. */
  predicate Truthy(userId: Option<string>) {
    userId.Some? && userId.value != ""
  }

  /** The message `send-message` builds and broadcasts, as sent (no schema applied). */
  function Outgoing(d: MessageData, msgId: string, now: Stamp): Message
  {
    Message(msgId, d.senderId, d.senderName, d.senderType, d.content, now, [])
  }

  class Relay {
    const db: Db
    var connected: set<SocketId>
    var rooms: map<Id, set<SocketId>>
    var data: map<SocketId, SocketData>
    var outbox: seq<Delivery>

    /** Every room member is connected, and every socket that joined a lesson is connected and
        in that lesson's room. */
    ghost predicate Valid()
      reads this
    {
      && (forall r :: r in rooms ==> rooms[r] <= connected)
      && (forall t :: t in data ==> t in connected && data[t].sessionId in rooms && t in rooms[data[t].sessionId])
    }

    /** The sockets in a room; a room nobody joined is empty. */
    function Members(room: Id): (m: set<SocketId>)
      reads this
      ensures Valid() ==> m <= connected
    {
      if room in rooms then rooms[room] else {}
    }

    /** The deliveries from position `from` of the outbox on reach connected sockets only. */
    predicate DeliveredToConnected(from: nat)
      reads this
    {
      forall i :: from <= i < |outbox| ==> outbox[i].to <= connected
    }

    constructor (db: Db)
      ensures Valid() && this.db == db
      ensures connected == {} && rooms == map[] && data == map[] && outbox == []
    {
      this.db := db;
      connected, rooms, data, outbox := {}, map[], map[], [];
    }

    /** A new connection. */
    method Connect(s: SocketId)
      requires Valid() && s !in connected
      modifies this
      ensures Valid()
      ensures connected == old(connected) + {s}
      ensures rooms == old(rooms) && data == old(data) && outbox == old(outbox)
    {
      connected := connected + {s};
    }

    /** Appends an answer for the sending socket alone. */
    method Reply(s: SocketId, e: Event)
      modifies `outbox
      ensures outbox == old(outbox) + [Delivery({s}, e)]
    {
      outbox := outbox + [Delivery({s}, e)];
    }

    /** `join-lesson`: on an existing session the socket joins the session's room and records
        the session and user; the others in the room hear `user-joined`, the socket itself gets
        `session-state`. A missing session or an id that cannot be cast answers the socket
        alone with an error and changes nothing else. */
    method JoinLesson(s: SocketId, sessionId: Id, userId: Option<string>)
      requires Valid() && s in connected
      modifies this
      ensures Valid() && DeliveredToConnected(old(|outbox|))
      ensures connected == old(connected) && db.sessions == old(db.sessions)
      ensures !old(Locate(db.sessions, sessionId)).Found? ==>
        && rooms == old(rooms) && data == old(data)
        && outbox == old(outbox) + [Delivery({s}, Error(
             if Locate(db.sessions, sessionId).CastError? then "Error joining lesson" else "Session not found"))]
      ensures old(Locate(db.sessions, sessionId)).Found? ==>
        && rooms == old(rooms)[sessionId := old(Members(sessionId)) + {s}]
        && data == old(data)[s := SocketData(sessionId, userId)]
        && outbox == old(outbox) + [
             Delivery(old(Members(sessionId)) - {s},
                      UserJoined(userId, "User " + UserText(userId) + " joined the lesson")),
             Delivery({s}, SessionState(db.sessions[sessionId]))]
    {
      var found := Locate(db.sessions, sessionId);
      if found.CastError? {
        Reply(s, Error("Error joining lesson"));
        return;
      }
      if found.Absent? {
        Reply(s, Error("Session not found"));
        return;
      }
      var others := Members(sessionId) - {s};
      rooms := rooms[sessionId := Members(sessionId) + {s}];
      data := data[s := SocketData(sessionId, userId)];
      outbox := outbox + [
        Delivery(others, UserJoined(userId, "User " + UserText(userId) + " joined the lesson")),
        Delivery({s}, SessionState(found.session))];
    }

    /** `send-message`: the message, with a fresh id and the current time and no reactions, is
        appended to the session's log as `messageSchema` casts it (no validator runs) and is
        broadcast, as sent, to the whole room; the sender hears it only if it is a member. */
    method SendMessage(s: SocketId, sessionId: Id, d: MessageData, msgId: string, now: Stamp)
      requires Valid() && s in connected
      modifies this, db`sessions
      ensures Valid() && DeliveredToConnected(old(|outbox|))
      ensures connected == old(connected) && rooms == old(rooms) && data == old(data)
      ensures !old(Locate(db.sessions, sessionId)).Found? ==>
        && db.sessions == old(db.sessions)
        && outbox == old(outbox) + [Delivery({s}, Error(
             if Locate(db.sessions, sessionId).CastError? then "Error sending message" else "Session not found"))]
      ensures old(Locate(db.sessions, sessionId)).Found? ==>
        var before := old(db.sessions[sessionId]);
        && db.sessions == old(db.sessions)[sessionId :=
             before.(messages := before.messages + [CastMessage(Outgoing(d, msgId, now))])]
        && outbox == old(outbox) + [Delivery(Members(sessionId), NewMessage(Outgoing(d, msgId, now)))]
    {
      var found := Locate(db.sessions, sessionId);
      if found.CastError? {
        Reply(s, Error("Error sending message"));
        return;
      }
      if found.Absent? {
        Reply(s, Error("Session not found"));
        return;
      }
      var message := Outgoing(d, msgId, now);
      var session := found.session;
      db.sessions := db.sessions[sessionId := session.(messages := session.messages + [CastMessage(message)])];
      outbox := outbox + [Delivery(Members(sessionId), NewMessage(message))];
    }

    /** `change-step`: the step is stored as given, with no bound checked, and the whole room
        hears `step-changed`. */
    method ChangeStep(s: SocketId, sessionId: Id, newStep: int)
      requires Valid() && s in connected
      modifies this, db`sessions
      ensures Valid() && DeliveredToConnected(old(|outbox|))
      ensures connected == old(connected) && rooms == old(rooms) && data == old(data)
      ensures !old(Locate(db.sessions, sessionId)).Found? ==>
        && db.sessions == old(db.sessions)
        && outbox == old(outbox) + [Delivery({s}, Error(
             if Locate(db.sessions, sessionId).CastError? then "Error changing step" else "Session not found"))]
      ensures old(Locate(db.sessions, sessionId)).Found? ==>
        && db.sessions == old(db.sessions)[sessionId := old(db.sessions[sessionId]).(currentStep := newStep)]
        && outbox == old(outbox) + [Delivery(Members(sessionId), StepChanged(newStep))]
    {
      var found := Locate(db.sessions, sessionId);
      if found.CastError? {
        Reply(s, Error("Error changing step"));
        return;
      }
      if found.Absent? {
        Reply(s, Error("Session not found"));
        return;
      }
      db.sessions := db.sessions[sessionId := found.session.(currentStep := newStep)];
      outbox := outbox + [Delivery(Members(sessionId), StepChanged(newStep))];
    }

    /** `change-speaker`: the speaker (or none, for `null`) is stored and the whole room hears
        `speaker-changed`. */
    method ChangeSpeaker(s: SocketId, sessionId: Id, speakerId: Option<Id>)
      requires Valid() && s in connected
      modifies this, db`sessions
      ensures Valid() && DeliveredToConnected(old(|outbox|))
      ensures connected == old(connected) && rooms == old(rooms) && data == old(data)
      ensures !old(Locate(db.sessions, sessionId)).Found? ==>
        && db.sessions == old(db.sessions)
        && outbox == old(outbox) + [Delivery({s}, Error(
             if Locate(db.sessions, sessionId).CastError? then "Error changing speaker" else "Session not found"))]
      ensures old(Locate(db.sessions, sessionId)).Found? ==>
        && db.sessions == old(db.sessions)[sessionId := old(db.sessions[sessionId]).(currentSpeaker := speakerId)]
        && outbox == old(outbox) + [Delivery(Members(sessionId), SpeakerChanged(speakerId))]
    {
      var found := Locate(db.sessions, sessionId);
      if found.CastError? {
        Reply(s, Error("Error changing speaker"));
        return;
      }
      if found.Absent? {
        Reply(s, Error("Session not found"));
        return;
      }
      db.sessions := db.sessions[sessionId := found.session.(currentSpeaker := speakerId)];
      outbox := outbox + [Delivery(Members(sessionId), SpeakerChanged(speakerId))];
    }

    /** `disconnect`: the socket has already left every room when the handler runs; if it had
        joined a lesson with a truthy user id, the rest of that room hears `user-left`. */
    method Disconnect(s: SocketId)
      requires Valid() && s in connected
      modifies this
      ensures Valid() && DeliveredToConnected(old(|outbox|))
      ensures connected == old(connected) - {s}
      ensures rooms.Keys == old(rooms).Keys && forall r :: r in rooms ==> rooms[r] == old(rooms)[r] - {s}
      ensures data == old(data) - {s}
      ensures db.sessions == old(db.sessions)
      ensures s in old(data) && Truthy(old(data)[s].userId) ==>
        var left := old(data)[s];
        outbox == old(outbox) + [Delivery(old(Members(left.sessionId)) - {s},
                                          UserLeft(left.userId.value, "User " + left.userId.value + " left the lesson"))]
      ensures !(s in old(data) && Truthy(old(data)[s].userId)) ==> outbox == old(outbox)
    {
      var bound := if s in data then Some(data[s]) else None;
      connected := connected - {s};
      rooms := map r | r in rooms :: rooms[r] - {s};
      data := data - {s};
      if bound.Some? && Truthy(bound.value.userId) {
        var left := bound.value;
        outbox := outbox + [Delivery(Members(left.sessionId),
                                     UserLeft(left.userId.value, "User " + left.userId.value + " left the lesson"))];
      }
    }
  }
}
