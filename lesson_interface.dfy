/** The lesson screen (`LessonInterface`): the client-side driver of a running lesson. It keeps
    the session the server last returned, posts messages and updates through the session routes,
    and echoes each change on the socket. */
module LessonInterface {
  import opened Wrappers
  import opened Text
  import opened Request
  import opened ChatSessionModel
  import opened Database
  import opened SessionRoutes
  import opened LessonView
  import SocketRelay

  const TeacherId: string := "ai-teacher"
  const TeacherName: string := "המנחה"
  const TeacherType: string := "ai"
  const ChildType: string := "child"

  const Farewell: string :=
    "איזה שיעור נפלא היה לנו! תודה לכולכם על השתתפות פעילה ורעיונות מדהימים. אתם יזמים אמיתיים! 🎉"

  const ChildResponses: seq<string> := [
    "איזה רעיון מעניין!",
    "אני חושב שזה נכון!",
    "יש לי רעיון אחר...",
    "בואו ננסה את זה!",
    "אני מסכים!"]

  const AIResponses: seq<string> := [
    "איזה רעיון מעניין! מי עוד חושב כך?",
    "אהבתי את הרעיון הזה! בואו נשמע עוד דעות",
    "חשיבה מצוינת! איך אתם חושבים שנוכל ליישם את זה?",
    "תשובה נהדרת! מי יכול להוסיף משהו לרעיון הזה?",
    "מעולה! אני רואה שאתם חושבים כמו יזמים אמיתיים!"]

  const GreetingOpen: string := "שלום ילדים יקרים! ברוכים הבאים לשיעור \""
  const GreetingClose: string := "\". אני מאוד נרגש לבלות איתכם ולחקור יחד נושאים מרתקים! 🌟"

  /** The opening greeting, quoting the lesson's title. */
  function Greeting(title: string): string {
    GreetingOpen + title + GreetingClose
  }

  /** The body `addMessage` posts: the four fields it is given, no reactions. */
  function Body(senderId: string, senderName: string, content: string, senderType: string): MessageBody {
    MessageBody(Some(senderId), Some(senderName), Some(senderType), Some(content), None)
  }

  function TeacherBody(content: string): MessageBody {
    Body(TeacherId, TeacherName, content, TeacherType)
  }

  /** The log entry the server stores for an accepted body. */
  function Line(b: MessageBody, msgId: string, now: Stamp): Message
    requires b.senderId.Some? && b.senderType.Some?
  {
    CastMessage(BuildMessage(b, msgId, now))
  }

  /** What a post adds to the log of a stored session: its entry, or nothing when validation
      refuses the body. */
  function Entry(id: Id, b: MessageBody, msgId: string, now: Stamp): seq<Message>
    requires b.senderId.Some? && b.senderType.Some?
  {
    if MessageErrors(id, b) == [] then [Line(b, msgId, now)] else []
  }

  /** The user id the lesson screen joins its room with. */
  const TeacherUser: string := "teacher-user"

  /** The payload of the socket echo of a post, `{ sessionId, ...messageData }`. */
  function EchoData(b: MessageBody): SocketRelay.MessageData {
    SocketRelay.MessageData(FieldText(b.senderId), FieldText(b.senderName), FieldText(b.senderType), FieldText(b.content))
  }

  /** What the server draws for one `addMessage`: the id and time the REST route gives the
      message, and the id and time the `send-message` handler gives its echo. */
  datatype Stamps = Stamps(msgId: string, at: Stamp, echoId: string, echoAt: Stamp)

  /** The entry the `send-message` handler pushes for the echo of a post. */
  function EchoLine(b: MessageBody, st: Stamps): Message {
    CastMessage(SocketRelay.Outgoing(EchoData(b), st.echoId, st.echoAt))
  }

  // ---------------------------------------------------------------- buttons

  predicate ChildButtonDisabled(s: Session, l: LessonView) {
    !s.isActive || l.participants.None? || |l.participants.value| == 0
  }

  predicate AIButtonDisabled(s: Session, isAISpeaking: bool) {
    !s.isActive || isAISpeaking
  }

  predicate NextButtonDisabled(s: Session, l: LessonView) {
    !s.isActive || l.steps.None? || s.currentStep >= |l.steps.value| - 1
  }

  /** The two next-step buttons are enabled exactly when the session is active and another step
      follows; so the end-of-lesson branch of `moveToNextStep` is never taken from them. */
  lemma NextEnabledIffAnotherStep(s: Session, l: LessonView)
    ensures !NextButtonDisabled(s, l) <==> s.isActive && l.steps.Some? && s.currentStep + 1 < |l.steps.value|
  {
  }

  // ---------------------------------------------------------------- choosing a child

  /** `participants.filter(child => currentSpeaker !== child._id)`. */
  function Candidates(participants: seq<ChildView>, speaker: Option<Id>): (r: seq<ChildView>)
    ensures |r| <= |participants|
    ensures forall i :: 0 <= i < |r| ==> r[i] in participants && Some(r[i].id) != speaker
    ensures forall i :: 0 <= i < |participants| && Some(participants[i].id) != speaker ==> participants[i] in r
  {
    if participants == [] then []
    else
      var rest := Candidates(participants[1..], speaker);
      assert forall i :: 1 <= i < |participants| ==> participants[i] == participants[1..][i - 1];
      if Some(participants[0].id) != speaker then [participants[0]] + rest else rest
  }

  /** `selectRandomChild`'s choice, `roll` standing for the random index: nothing without
      participants or without a candidate, otherwise a participant who is not speaking. */
  function Pick(participants: Option<seq<ChildView>>, speaker: Option<Id>, roll: nat): (r: Option<ChildView>)
    ensures r.None? <==> participants.None? || Candidates(participants.value, speaker) == []
    ensures r.Some? ==> r.value in participants.value && Some(r.value.id) != speaker
  {
    if participants.None? || |participants.value| == 0 then None
    else
      var c := Candidates(participants.value, speaker);
      if c == [] then None else Some(c[roll % |c|])
  }

  lemma ModOfSmaller(i: nat, n: nat)
    requires i < n
    ensures i % n == i
  {
  }

  /** Every candidate is the outcome of some roll: the random choice can land on any of them. */
  lemma EveryCandidateCanBePicked(participants: seq<ChildView>, speaker: Option<Id>, i: nat)
    requires i < |Candidates(participants, speaker)|
    ensures Pick(Some(participants), speaker, i) == Some(Candidates(participants, speaker)[i])
  {
    var c := Candidates(participants, speaker);
    assert |participants| != 0;
    ModOfSmaller(i, |c|);
  }

  /** With one participant who is already speaking the child button is enabled (when the session
      is active) but no child is chosen, so the click does nothing. */
  lemma SoleSpeakerIsNotPicked(s: Session, l: LessonView, c: ChildView, roll: nat)
    requires l.participants == Some([c]) && s.currentSpeaker == Some(c.id)
    ensures s.isActive ==> !ChildButtonDisabled(s, l)
    ensures Pick(l.participants, s.currentSpeaker, roll) == None
  {
    assert Candidates([c], Some(c.id)) == [];
  }

  // ---------------------------------------------------------------- what the server accepts

  /** A body with a known sender, a sender type of the enumeration, and a name and content that
      end in a visible character, within the length limit, passes the message validators. */
  lemma {:induction false} VisibleLineAccepted(id: Id, senderId: string, name: string, content: string, senderType: string)
    requires IsMongoId(id) && senderType in SenderTypes
    requires name != [] && !IsSpace(name[|name| - 1])
    requires content != [] && !IsSpace(content[|content| - 1]) && |content| <= MaxContentLength
    ensures MessageErrors(id, Body(senderId, name, content, senderType)) == []
  {
    TrimSpec(name);
    TrimSpec(content);
  }

  /** The farewell passes the message validators. */
  lemma FarewellAccepted(id: Id)
    requires IsMongoId(id)
    ensures MessageErrors(id, TeacherBody(Farewell)) == []
  {
    VisibleLineAccepted(id, TeacherId, TeacherName, Farewell, TeacherType);
  }

  /** Every scripted AI reply passes the message validators. */
  lemma AIResponseAccepted(id: Id, pick: nat)
    requires IsMongoId(id)
    ensures MessageErrors(id, TeacherBody(AIResponses[pick % |AIResponses|])) == []
  {
    var r := AIResponses[pick % |AIResponses|];
    forall j | 0 <= j < |AIResponses| ensures !IsSpace(AIResponses[j][|AIResponses[j]| - 1]) {
      assert j == 0 || j == 1 || j == 2 || j == 3 || j == 4;
    }
    VisibleLineAccepted(id, TeacherId, TeacherName, r, TeacherType);
  }

  /** The greeting passes the validators for every title the lesson schema admits. */
  lemma {:induction false} GreetingAccepted(id: Id, title: string)
    requires IsMongoId(id) && |title| <= 100
    ensures MessageErrors(id, TeacherBody(Greeting(title))) == []
  {
    assert !IsSpace(TeacherName[|TeacherName| - 1]);
    var g := Greeting(title);
    assert g[|g| - 1] == GreetingClose[|GreetingClose| - 1];
    assert !IsSpace(g[|g| - 1]);
    VisibleLineAccepted(id, TeacherId, TeacherName, g, TeacherType);
  }

  /** Every scripted reply is content the message route admits once trimmed. */
  lemma ChildResponsesFit()
    ensures forall j :: 0 <= j < |ChildResponses| ==> 1 <= |Trim(ChildResponses[j])| <= MaxContentLength
  {
    forall j | 0 <= j < |ChildResponses| ensures 1 <= |Trim(ChildResponses[j])| <= MaxContentLength {
      assert j == 0 || j == 1 || j == 2 || j == 3 || j == 4;
      TrimSpec(ChildResponses[j]);
    }
  }

  /** A simulated reply is accepted exactly when the child's name is not blank. */
  lemma {:induction false} ChildReplyAcceptedIff(id: Id, c: ChildView, pick: nat)
    requires IsMongoId(id)
    ensures var b := Body(c.id, c.name, ChildResponses[pick % |ChildResponses|], ChildType);
      MessageErrors(id, b) == [] <==> Trim(c.name) != []
  {
    ChildResponsesFit();
  }

  /** A step whose prompt, once trimmed, is longer than a message may be is never posted: the
      step still advances, but the prompt is refused and only an error toast appears. */
  lemma LongPromptRefused(id: Id, prompt: string)
    requires |Trim(prompt)| > MaxContentLength
    ensures MessageErrors(id, TeacherBody(prompt)) != []
  {
    TrimSpec(prompt);
  }

  /** The length bound applies after trimming: a prompt of 1000 letters and a trailing space,
      1001 characters in all, is posted. */
  lemma PaddedLongPromptAccepted(id: Id)
    requires IsMongoId(id)
    ensures MessageErrors(id, TeacherBody(seq(MaxContentLength, _ => 'x') + " ")) == []
  {
    var core := seq(MaxContentLength, _ => 'x');
    var padded := core + " ";
    TrimSpec(core);
    assert TrimStart(core) == core && TrimStart(padded) == padded;
    assert padded[..|padded| - 1] == core;
    assert Trim(padded) == core;
    TrimSpec(TeacherName);
  }


  // ---------------------------------------------------------------- the stored and the shown session

  /** The session after a post: the accepted entry appended, or the session as it was. */
  function Posted(s: Session, id: Id, b: MessageBody, msgId: string, now: Stamp): Session
    requires b.senderId.Some? && b.senderType.Some?
  {
    s.(messages := s.messages + Entry(id, b, msgId, now))
  }

  /** The stored session after `addMessage`: the route's entry and then the entry the socket
      handler pushes for the echo, or the session as it was when the route refuses the body
      (then nothing is echoed). */
  function Logged(s: Session, id: Id, b: MessageBody, st: Stamps): Session
    requires b.senderId.Some? && b.senderType.Some?
  {
    if MessageErrors(id, b) == [] then s.(messages := s.messages + [Line(b, st.msgId, st.at), EchoLine(b, st)])
    else s
  }

  /** The screen's copy after `addMessage`: the route's reply, which does not hold the echo,
      or the copy as it was when the route refuses the body. */
  function Shown(local: Session, s: Session, id: Id, b: MessageBody, st: Stamps): Session
    requires b.senderId.Some? && b.senderType.Some?
  {
    if MessageErrors(id, b) == [] then Posted(s, id, b, st.msgId, st.at) else local
  }

  /** What the room hears from the echo of a post: `new-message` carrying the echo as sent. */
  function Heard(room: set<SocketRelay.SocketId>, id: Id, b: MessageBody, st: Stamps): seq<SocketRelay.Delivery> {
    if MessageErrors(id, b) == [] then
      [SocketRelay.Delivery(room, SocketRelay.NewMessage(SocketRelay.Outgoing(EchoData(b), st.echoId, st.echoAt)))]
    else []
  }

  /** The screen's copy lags the stored session only by log entries the socket handler pushed
      after the route replied; every other field agrees. */
  predicate Lags(local: Session, stored: Session) {
    local.messages <= stored.messages && stored == local.(messages := stored.messages)
  }

  /** A copy that is the stored session lags it trivially. */
  lemma SameLags(s: Session)
    ensures Lags(s, s)
  {
  }

  /** A post keeps the copy lagging the store, and an accepted one leaves exactly its echo's
      entry between the two. */
  lemma {:induction false} PostKeepsLag(local: Session, s: Session, id: Id, b: MessageBody, st: Stamps)
    requires b.senderId.Some? && b.senderType.Some? && Lags(local, s)
    ensures Lags(Shown(local, s, id, b, st), Logged(s, id, b, st))
    ensures MessageErrors(id, b) == [] ==>
      Logged(s, id, b, st).messages == Shown(local, s, id, b, st).messages + [EchoLine(b, st)]
  {
    if MessageErrors(id, b) == [] {
      var shown := Shown(local, s, id, b, st);
      var logged := Logged(s, id, b, st);
      assert shown.messages == s.messages + [Line(b, st.msgId, st.at)];
      assert logged.messages == shown.messages + [EchoLine(b, st)];
      assert logged == shown.(messages := logged.messages);
    }
  }

  /** `addMessage` as its two halves: the route's reply, then the echo's entry on top of it;
      a refused body leaves the copy, the store and the room as they were. */
  lemma PostThenEcho(local: Session, s: Session, id: Id, b: MessageBody, st: Stamps)
    requires b.senderId.Some? && b.senderType.Some?
    ensures MessageErrors(id, b) == [] ==>
      && Shown(local, s, id, b, st) == Posted(s, id, b, st.msgId, st.at)
      && var p := Posted(s, id, b, st.msgId, st.at);
         Logged(s, id, b, st) == p.(messages := p.messages + [EchoLine(b, st)])
    ensures MessageErrors(id, b) != [] ==>
      Shown(local, s, id, b, st) == local && Logged(s, id, b, st) == s
  {
    if MessageErrors(id, b) == [] {
      var p := Posted(s, id, b, st.msgId, st.at);
      assert p.messages + [EchoLine(b, st)] == s.messages + [Line(b, st.msgId, st.at), EchoLine(b, st)];
    }
  }

  /** The socket server's `send-message` handler pushes the echo of a post into the session as
      well, so a message the lesson screen adds is logged twice: once by the REST route and
      once, untrimmed and without reactions, by the socket handler. */
  lemma {:induction false} EchoLoggedTwice(s: Session, id: Id, b: MessageBody, st: Stamps)
    requires b.senderId.Some? && b.senderType.Some? && MessageErrors(id, b) == []
    ensures var log := Logged(s, id, b, st).messages;
      && |log| == |s.messages| + 2 && log[..|s.messages|] == s.messages
      && log[|log| - 2].senderId == log[|log| - 1].senderId == b.senderId.value
      && log[|log| - 2].senderType == log[|log| - 1].senderType == b.senderType.value
      && log[|log| - 2].senderName == log[|log| - 1].senderName
      && log[|log| - 2].content == Trim(log[|log| - 1].content)
  {
    var log := Logged(s, id, b, st).messages;
    assert log == s.messages + [Line(b, st.msgId, st.at), EchoLine(b, st)];
    assert log[..|s.messages|] == s.messages;
    TrimIdempotent(FieldText(b.senderName));
  }

  /** Starting a lesson with an empty log and an admissible title and prompt stores the
      greeting, its echo, the prompt and its echo, in that order; the screen's copy, the prompt's
      reply, holds all but the last. */
  lemma {:induction false} StartedLogs(local: Session, s: Session, id: Id, title: string, prompt: string, g: Stamps, p: Stamps)
    requires IsMongoId(id) && |title| <= 100 && s.messages == []
    requires MessageErrors(id, TeacherBody(prompt)) == []
    ensures var greeting := TeacherBody(Greeting(title));
      var greeted := Logged(s, id, greeting, g);
      var ps := TeacherBody(prompt);
      && Logged(greeted, id, ps, p).messages
         == [Line(greeting, g.msgId, g.at), EchoLine(greeting, g), Line(ps, p.msgId, p.at), EchoLine(ps, p)]
      && Shown(Shown(local, s, id, greeting, g), greeted, id, ps, p).messages
         == [Line(greeting, g.msgId, g.at), EchoLine(greeting, g), Line(ps, p.msgId, p.at)]
  {
    var greeting := TeacherBody(Greeting(title));
    var ps := TeacherBody(prompt);
    GreetingAccepted(id, title);
    var greeted := Logged(s, id, greeting, g);
    assert greeted.messages == [Line(greeting, g.msgId, g.at), EchoLine(greeting, g)];
    assert Logged(greeted, id, ps, p).messages == greeted.messages + [Line(ps, p.msgId, p.at), EchoLine(ps, p)];
    assert Shown(Shown(local, s, id, greeting, g), greeted, id, ps, p).messages
           == greeted.messages + [Line(ps, p.msgId, p.at)];
  }

  /** The session after an update: patched when the route validates the body, as it was otherwise. */
  function Updated(s: Session, id: Id, patch: SessionPatch, now: Stamp, nullSpeakerPasses: bool): Session {
    if UpdateErrors(id, patch, nullSpeakerPasses) == [] then Patched(s, patch, now) else s
  }

  predicate HasSteps(l: LessonView) {
    l.steps.Some? && l.steps.value != []
  }

  /** The reply a simulated child posts. */
  function ChildBody(c: ChildView, pick: nat): MessageBody {
    Body(c.id, c.name, ChildResponses[pick % |ChildResponses|], ChildType)
  }

  /** `updateSession({ currentStep: next })` on a stored session moves it to exactly that step. */
  lemma StepUpdate(s: Session, id: Id, next: int, now: Stamp, nullSpeakerPasses: bool)
    requires IsMongoId(id) && next >= 0
    ensures Updated(s, id, SessionPatch(Some(Int(next)), None, None), now, nullSpeakerPasses)
            == s.(currentStep := next)
  {
  }

  /** `updateSession({ currentSpeaker: id })` makes that child the speaker. */
  lemma SpeakerUpdate(s: Session, id: Id, child: Id, now: Stamp, nullSpeakerPasses: bool)
    requires IsMongoId(id)
    ensures Updated(s, id, SessionPatch(None, Some(Str(child)), None), now, nullSpeakerPasses)
            == s.(currentSpeaker := Some(child))
  {
  }

  /** `updateSession({ currentSpeaker: null })` clears the speaker exactly when the route's
      validator lets `null` through. */
  lemma NullSpeakerUpdate(s: Session, id: Id, now: Stamp, nullSpeakerPasses: bool)
    requires IsMongoId(id)
    ensures Updated(s, id, SessionPatch(None, Some(Null), None), now, nullSpeakerPasses)
            == if nullSpeakerPasses then s.(currentSpeaker := None) else s
  {
  }

  /** `updateSession({ isActive: false })` ends the session and stamps its end. */
  lemma EndUpdate(s: Session, id: Id, now: Stamp, nullSpeakerPasses: bool)
    requires IsMongoId(id)
    ensures Updated(s, id, SessionPatch(None, None, Some(Bool(false))), now, nullSpeakerPasses)
            == s.(isActive := false, endTime := Some(now))
  {
  }

  /** A second store under the same key overwrites the first. */
  lemma StoreTwice(m: map<Id, Session>, k: Id, a: Session, b: Session)
    ensures m[k := a][k := b] == m[k := b]
  {
  }

  // ---------------------------------------------------------------- the driver

  /** One mounted lesson screen: the lesson it shows, the id of its session, its socket on the
      relay, the copy of the session the server last returned (`useSession`) and the
      AI-speaking flag. What it emits on the socket is handled by the relay, which shares the
      store with the routes. The handlers other than the start effect and `moveToNextStep`
      are wired to buttons that are rendered only once the session is loaded. */
  class LessonDriver {
    const db: Db
    const relay: SocketRelay.Relay
    const socket: SocketRelay.SocketId
    const sessionId: Id
    const lesson: LessonView
    /** Whether the PUT route's `isString` lets an explicit `null` speaker through. */
    const nullSpeakerPasses: bool
    var session: Option<Session>
    var isAISpeaking: bool

    /** The relay works on the routes' store and the screen's socket is connected to it; the
        local copy lags the stored session only by the echoes pushed since the last reply. */
    ghost predicate Valid()
      reads this, db, relay
    {
      && db.Valid() && relay.db == db && relay.Valid() && socket in relay.connected
      && (session.Some? ==> sessionId in db.sessions && Lags(session.value, db.sessions[sessionId]))
    }

    /** The sockets that hear what the server broadcasts to the session's room. */
    ghost function Room(): set<SocketRelay.SocketId>
      reads relay
    {
      relay.Members(sessionId)
    }

    /** The relay's registry of connections, rooms and socket data is as it was. */
    twostate predicate RegistryKept()
      reads relay
    {
      relay.connected == old(relay.connected) && relay.rooms == old(relay.rooms) && relay.data == old(relay.data)
    }

    constructor (relay: SocketRelay.Relay, socket: SocketRelay.SocketId, sessionId: Id, lesson: LessonView,
                 nullSpeakerPasses: bool)
      requires relay.db.Valid() && relay.Valid() && socket in relay.connected
      ensures Valid()
      ensures this.db == relay.db && this.relay == relay && this.socket == socket
      ensures this.sessionId == sessionId && this.lesson == lesson
      ensures this.nullSpeakerPasses == nullSpeakerPasses
      ensures session == None && !isAISpeaking
    {
      this.db := relay.db;
      this.relay := relay;
      this.socket := socket;
      this.sessionId := sessionId;
      this.lesson := lesson;
      this.nullSpeakerPasses := nullSpeakerPasses;
      session := None;
      isAISpeaking := false;
    }

    /** The socket effect on mount, `joinLesson(sessionId, 'teacher-user')`: an existing session's
        room gains the screen's socket, which is told the session's state while the others hear
        that the teacher joined; otherwise the socket alone gets an error. */
    method Join()
      requires Valid()
      modifies relay
      ensures Valid() && relay.connected == old(relay.connected) && db.sessions == old(db.sessions)
      ensures sessionId in db.sessions ==>
        && Room() == old(Room()) + {socket}
        && relay.data == old(relay.data)[socket := SocketRelay.SocketData(sessionId, Some(TeacherUser))]
        && relay.outbox == old(relay.outbox) + [
             SocketRelay.Delivery(old(Room()) - {socket},
                                  SocketRelay.UserJoined(Some(TeacherUser), "User teacher-user joined the lesson")),
             SocketRelay.Delivery({socket}, SocketRelay.SessionState(db.sessions[sessionId]))]
      ensures sessionId !in db.sessions ==>
        && relay.rooms == old(relay.rooms) && relay.data == old(relay.data)
        && relay.outbox == old(relay.outbox) + [SocketRelay.Delivery({socket}, SocketRelay.Error(
             if IsObjectId(sessionId) then "Session not found" else "Error joining lesson"))]
    {
      assert "User " + SocketRelay.UserText(Some(TeacherUser)) + " joined the lesson" == "User teacher-user joined the lesson";
      relay.JoinLesson(socket, sessionId, Some(TeacherUser));
    }

    /** `useSession`'s fetch: the stored session when GET /:id finds it; otherwise the copy
        stays as it was. */
    method Load()
      requires Valid()
      modifies `session
      ensures Valid()
      ensures session == if IsObjectId(sessionId) && sessionId in db.sessions then Some(db.sessions[sessionId])
                         else old(session)
    {
      var r := GetSession(db, sessionId);
      if r.Ok? {
        session := Some(r.value);
      }
    }

    /** `addMessage`: POST /:id/messages; once the route accepted it, its reply becomes the
        local copy and the message is echoed on the socket, whose handler pushes it into the
        stored log too and broadcasts it to the room. A refused post changes nothing. */
    method AddMessage(senderId: string, senderName: string, content: string, senderType: string, st: Stamps)
      requires Valid() && session.Some?
      modifies db`sessions, `session, relay
      ensures Valid() && session.Some? && RegistryKept()
      ensures var b := Body(senderId, senderName, content, senderType);
        var s := old(db.sessions[sessionId]);
        && session.value == Shown(old(session).value, s, sessionId, b, st)
        && db.sessions == old(db.sessions)[sessionId := Logged(s, sessionId, b, st)]
        && relay.outbox == old(relay.outbox) + Heard(Room(), sessionId, b, st)
    {
      var b := Body(senderId, senderName, content, senderType);
      ghost var s := db.sessions[sessionId];
      PostThenEcho(old(session).value, s, sessionId, b, st);
      var accepted := Post(b, st);
      if accepted {
        EchoMessage(b, st);
        StoreTwice(old(db.sessions), sessionId, Posted(s, sessionId, b, st.msgId, st.at), Logged(s, sessionId, b, st));
      } else {
        assert old(db.sessions)[sessionId := s] == old(db.sessions);
      }
    }

    /** The REST half of `addMessage`: POST /:id/messages, whose reply becomes the local copy
        once the route accepted the body; a refused body changes nothing. */
    method Post(b: MessageBody, st: Stamps) returns (accepted: bool)
      requires Valid() && session.Some? && b.senderId.Some? && b.senderType.Some?
      modifies db`sessions, `session
      ensures Valid() && session.Some?
      ensures accepted == (MessageErrors(sessionId, b) == [])
      ensures accepted ==>
        && session.value == Posted(old(db.sessions[sessionId]), sessionId, b, st.msgId, st.at)
        && db.sessions == old(db.sessions)[sessionId := session.value]
      ensures !accepted ==> session == old(session) && db.sessions == old(db.sessions)
    {
      assert IsObjectId(sessionId);
      var r := PostMessage(db, sessionId, b, st.msgId, st.at);
      accepted := r.Ok?;
      if accepted {
        session := Some(r.value);
        SameLags(r.value);
      }
    }

    /** The socket half of `addMessage`: `send-message` with the message's fields, whose
        handler pushes the echo into the stored log and broadcasts it to the room. */
    method EchoMessage(b: MessageBody, st: Stamps)
      requires Valid() && session.Some?
      modifies db`sessions, relay
      ensures Valid() && session.Some? && RegistryKept()
      ensures var s := old(db.sessions[sessionId]);
        && db.sessions == old(db.sessions)[sessionId := s.(messages := s.messages + [EchoLine(b, st)])]
        && relay.outbox == old(relay.outbox) + [SocketRelay.Delivery(Room(), SocketRelay.NewMessage(
                                                  SocketRelay.Outgoing(EchoData(b), st.echoId, st.echoAt)))]
    {
      ghost var s := db.sessions[sessionId];
      assert IsObjectId(sessionId);
      relay.SendMessage(socket, sessionId, EchoData(b), st.echoId, st.echoAt);
      assert session.value.messages <= s.messages + [EchoLine(b, st)];
    }

    /** `updateSession`: PUT /:id; once the route accepted it, its reply, which holds every
        echo pushed so far, becomes the local copy. */
    method UpdateSession(patch: SessionPatch, now: Stamp)
      requires Valid() && session.Some?
      modifies db`sessions, `session
      ensures Valid() && session.Some?
      ensures var s := old(db.sessions[sessionId]);
        && db.sessions == old(db.sessions)[sessionId := Updated(s, sessionId, patch, now, nullSpeakerPasses)]
        && session.value == if UpdateErrors(sessionId, patch, nullSpeakerPasses) == [] then db.sessions[sessionId]
                            else old(session).value
    {
      var r := PutSession(db, sessionId, patch, now, nullSpeakerPasses);
      if r.Ok? {
        session := Some(r.value);
        SameLags(r.value);
      }
    }

    /** The start-lesson effect: on a loaded copy with an empty log it adds the greeting and
        then, when the lesson has steps, the first step's prompt; otherwise it does nothing. The
        greeting's echo lands before the prompt is posted, so the prompt's reply shows it. */
    method StartLesson(g: Stamps, p: Stamps)
      requires Valid()
      modifies db`sessions, `session, relay
      ensures Valid() && RegistryKept()
      ensures old(session).None? || old(session).value.messages != [] ==>
        session == old(session) && db.sessions == old(db.sessions) && relay.outbox == old(relay.outbox)
      ensures old(session).Some? && old(session).value.messages == [] ==>
        var greeting := TeacherBody(Greeting(lesson.title));
        var s := old(db.sessions[sessionId]);
        var greeted := Logged(s, sessionId, greeting, g);
        var shown := Shown(old(session).value, s, sessionId, greeting, g);
        && session.Some?
        && (HasSteps(lesson) ==>
              var prompt := TeacherBody(lesson.steps.value[0].aiPrompt);
              && session.value == Shown(shown, greeted, sessionId, prompt, p)
              && db.sessions == old(db.sessions)[sessionId := Logged(greeted, sessionId, prompt, p)]
              && relay.outbox == old(relay.outbox) + Heard(Room(), sessionId, greeting, g)
                                 + Heard(Room(), sessionId, prompt, p))
        && (!HasSteps(lesson) ==>
              && session.value == shown
              && db.sessions == old(db.sessions)[sessionId := greeted]
              && relay.outbox == old(relay.outbox) + Heard(Room(), sessionId, greeting, g))
    {
      if session.None? || session.value.messages != [] {
        return;
      }
      AddMessage(TeacherId, TeacherName, Greeting(lesson.title), TeacherType, g);
      if HasSteps(lesson) {
        ghost var greeted := db.sessions[sessionId];
        AddMessage(TeacherId, TeacherName, lesson.steps.value[0].aiPrompt, TeacherType, p);
        StoreTwice(old(db.sessions), sessionId, greeted, db.sessions[sessionId]);
      }
    }

    /** `moveToNextStep`. Without a session or steps it does nothing. When another step
        follows, it moves to exactly that step, echoes the change and adds the step's prompt;
        a step number the route refuses (the socket stored a step of -2 or less) changes
        nothing. At the last step it keeps the step, adds the farewell (which the
        server always accepts, `FarewellAccepted`) and ends the session, whose reply then
        holds the farewell's echo too. */
    method MoveToNextStep(now: Stamp, st: Stamps)
      requires Valid()
      modifies db`sessions, `session, relay
      ensures Valid() && RegistryKept()
      ensures old(session).None? || lesson.steps.None? ==>
        session == old(session) && db.sessions == old(db.sessions) && relay.outbox == old(relay.outbox)
      ensures old(session).Some? && lesson.steps.Some? ==>
        var s := old(db.sessions[sessionId]);
        var next := old(session).value.currentStep + 1;
        && session.Some?
        && (0 <= next < |lesson.steps.value| ==>
              var prompt := TeacherBody(lesson.steps.value[next].aiPrompt);
              var stepped := s.(currentStep := next);
              && session.value == Shown(stepped, stepped, sessionId, prompt, st)
              && db.sessions == old(db.sessions)[sessionId := Logged(stepped, sessionId, prompt, st)]
              && relay.outbox == old(relay.outbox) + [SocketRelay.Delivery(Room(), SocketRelay.StepChanged(next))]
                                 + Heard(Room(), sessionId, prompt, st))
        && (next < 0 ==>
              session == old(session) && db.sessions == old(db.sessions) && relay.outbox == old(relay.outbox))
        && (next >= |lesson.steps.value| ==>
              var ended := Logged(s, sessionId, TeacherBody(Farewell), st).(isActive := false, endTime := Some(now));
              && session.value == ended
              && db.sessions == old(db.sessions)[sessionId := ended]
              && relay.outbox == old(relay.outbox) + Heard(Room(), sessionId, TeacherBody(Farewell), st))
    {
      if session.None? || lesson.steps.None? {
        return;
      }
      var next := session.value.currentStep + 1;
      if next < |lesson.steps.value| {
        AdvanceTo(next, now, st);
      } else {
        EndWithFarewell(now, st);
      }
    }

    /** The first branch of `moveToNextStep`: `updateSession({ currentStep: next })`, and once
        it succeeded the socket echo of the step, whose handler stores the same step, and the
        step's prompt. */
    method AdvanceTo(next: int, now: Stamp, st: Stamps)
      requires Valid() && session.Some? && lesson.steps.Some? && next < |lesson.steps.value|
      modifies db`sessions, `session, relay
      ensures Valid() && session.Some? && RegistryKept()
      ensures next >= 0 ==>
        var prompt := TeacherBody(lesson.steps.value[next].aiPrompt);
        var stepped := old(db.sessions[sessionId]).(currentStep := next);
        && session.value == Shown(stepped, stepped, sessionId, prompt, st)
        && db.sessions == old(db.sessions)[sessionId := Logged(stepped, sessionId, prompt, st)]
        && relay.outbox == old(relay.outbox) + [SocketRelay.Delivery(Room(), SocketRelay.StepChanged(next))]
                           + Heard(Room(), sessionId, prompt, st)
      ensures next < 0 ==>
        session == old(session) && db.sessions == old(db.sessions) && relay.outbox == old(relay.outbox)
    {
      StepTo(next, now);
      if next >= 0 {
        ghost var stepped := db.sessions[sessionId];
        AddMessage(TeacherId, TeacherName, lesson.steps.value[next].aiPrompt, TeacherType, st);
        StoreTwice(old(db.sessions), sessionId, stepped, db.sessions[sessionId]);
      }
    }

    /** `updateSession({ currentStep: next })` and, once it succeeded, the socket echo of the
        step, whose handler stores the same step; a negative step is refused and changes nothing. */
    method StepTo(next: int, now: Stamp)
      requires Valid() && session.Some?
      modifies db`sessions, `session, relay
      ensures Valid() && session.Some? && RegistryKept()
      ensures next >= 0 ==>
        var stepped := old(db.sessions[sessionId]).(currentStep := next);
        && session.value == stepped
        && db.sessions == old(db.sessions)[sessionId := stepped]
        && relay.outbox == old(relay.outbox) + [SocketRelay.Delivery(Room(), SocketRelay.StepChanged(next))]
      ensures next < 0 ==>
        session == old(session) && db.sessions == old(db.sessions) && relay.outbox == old(relay.outbox)
    {
      ObjectIdIsMongoId(sessionId);
      ghost var s := db.sessions[sessionId];
      UpdateSession(SessionPatch(Some(Int(next)), None, None), now);
      if next >= 0 {
        StepUpdate(s, sessionId, next, now, nullSpeakerPasses);
        ghost var stepped := db.sessions[sessionId];
        relay.ChangeStep(socket, sessionId, next);
        assert stepped.(currentStep := next) == stepped;
        StoreTwice(old(db.sessions), sessionId, stepped, stepped);
      } else {
        assert !StepPasses(Some(Int(next)));
      }
    }

    /** The last branch of `moveToNextStep`: the farewell, then `updateSession({ isActive: false })`. */
    method EndWithFarewell(now: Stamp, st: Stamps)
      requires Valid() && session.Some?
      modifies db`sessions, `session, relay
      ensures Valid() && session.Some? && RegistryKept()
      ensures var ended := Logged(old(db.sessions[sessionId]), sessionId, TeacherBody(Farewell), st).(
                             isActive := false, endTime := Some(now));
        && session.value == ended
        && db.sessions == old(db.sessions)[sessionId := ended]
        && relay.outbox == old(relay.outbox) + Heard(Room(), sessionId, TeacherBody(Farewell), st)
    {
      ObjectIdIsMongoId(sessionId);
      AddMessage(TeacherId, TeacherName, Farewell, TeacherType, st);
      ghost var logged := db.sessions[sessionId];
      UpdateSession(SessionPatch(None, None, Some(Bool(false))), now);
      EndUpdate(logged, sessionId, now, nullSpeakerPasses);
      StoreTwice(old(db.sessions), sessionId, logged, db.sessions[sessionId]);
    }

    /** `selectRandomChild`: the chosen child is `Pick`'s (never the current speaker); it
        becomes the speaker, and the change is echoed on the socket, whose handler stores the
        same speaker. No choice changes nothing. */
    method SelectRandomChild(roll: nat, now: Stamp) returns (child: Option<ChildView>)
      requires Valid() && session.Some?
      modifies db`sessions, `session, relay
      ensures Valid() && session.Some? && RegistryKept()
      ensures child == Pick(lesson.participants, old(session).value.currentSpeaker, roll)
      ensures child.None? ==>
        session == old(session) && db.sessions == old(db.sessions) && relay.outbox == old(relay.outbox)
      ensures child.Some? ==>
        var chosen := old(db.sessions[sessionId]).(currentSpeaker := Some(child.value.id));
        && session.value == chosen
        && db.sessions == old(db.sessions)[sessionId := chosen]
        && relay.outbox == old(relay.outbox) + [SocketRelay.Delivery(Room(), SocketRelay.SpeakerChanged(Some(child.value.id)))]
    {
      if lesson.participants.None? || |lesson.participants.value| == 0 {
        return None;
      }
      child := Pick(lesson.participants, session.value.currentSpeaker, roll);
      if child.Some? {
        ObjectIdIsMongoId(sessionId);
        SpeakerUpdate(db.sessions[sessionId], sessionId, child.value.id, now, nullSpeakerPasses);
        UpdateSession(SessionPatch(None, Some(Str(child.value.id)), None), now);
        ghost var chosen := db.sessions[sessionId];
        relay.ChangeSpeaker(socket, sessionId, Some(child.value.id));
        assert chosen.(currentSpeaker := Some(child.value.id)) == chosen;
        StoreTwice(old(db.sessions), sessionId, chosen, chosen);
      }
    }

    /** `simulateChildResponse`: a chosen child posts one of the scripted replies, and the
        speaker is then cleared, which takes effect only when the route lets `null` through;
        then the reply to that update holds the reply's echo too. */
    method SimulateChildResponse(roll: nat, pick: nat, now: Stamp, st: Stamps)
      requires Valid() && session.Some?
      modifies db`sessions, `session, relay
      ensures Valid() && session.Some? && RegistryKept()
      ensures var c := Pick(lesson.participants, old(session).value.currentSpeaker, roll);
        && (c.None? ==>
              session == old(session) && db.sessions == old(db.sessions) && relay.outbox == old(relay.outbox))
        && (c.Some? ==>
              var chosen := old(db.sessions[sessionId]).(currentSpeaker := Some(c.value.id));
              var replied := Logged(chosen, sessionId, ChildBody(c.value, pick), st);
              var cleared := if nullSpeakerPasses then replied.(currentSpeaker := None) else replied;
              && db.sessions == old(db.sessions)[sessionId := cleared]
              && session.value == (if nullSpeakerPasses then cleared
                                   else Shown(chosen, chosen, sessionId, ChildBody(c.value, pick), st))
              && relay.outbox == old(relay.outbox)
                                 + [SocketRelay.Delivery(Room(), SocketRelay.SpeakerChanged(Some(c.value.id)))]
                                 + Heard(Room(), sessionId, ChildBody(c.value, pick), st))
    {
      var child := SelectRandomChild(roll, now);
      if child.Some? {
        ghost var chosen := db.sessions[sessionId];
        ReplyAs(child.value, pick, now, st);
        StoreTwice(old(db.sessions), sessionId, chosen, db.sessions[sessionId]);
      }
    }

    /** The delayed part of `simulateChildResponse`: the chosen child's reply, then
        `updateSession({ currentSpeaker: null })`. */
    method ReplyAs(c: ChildView, pick: nat, now: Stamp, st: Stamps)
      requires Valid() && session.Some?
      modifies db`sessions, `session, relay
      ensures Valid() && session.Some? && RegistryKept()
      ensures var s := old(db.sessions[sessionId]);
        var replied := Logged(s, sessionId, ChildBody(c, pick), st);
        var cleared := if nullSpeakerPasses then replied.(currentSpeaker := None) else replied;
        && db.sessions == old(db.sessions)[sessionId := cleared]
        && session.value == (if nullSpeakerPasses then cleared
                             else Shown(old(session).value, s, sessionId, ChildBody(c, pick), st))
        && relay.outbox == old(relay.outbox) + Heard(Room(), sessionId, ChildBody(c, pick), st)
    {
      AddMessage(c.id, c.name, ChildResponses[pick % |ChildResponses|], ChildType, st);
      ghost var replied := db.sessions[sessionId];
      ObjectIdIsMongoId(sessionId);
      NullSpeakerUpdate(replied, sessionId, now, nullSpeakerPasses);
      UpdateSession(SessionPatch(None, Some(Null), None), now);
      StoreTwice(old(db.sessions), sessionId, replied, db.sessions[sessionId]);
    }

    /** The start of `generateAIResponse`: the flag that disables the AI button is raised. */
    method BeginAIResponse()
      requires Valid()
      modifies `isAISpeaking
      ensures Valid() && isAISpeaking
      ensures session.Some? ==> AIButtonDisabled(session.value, isAISpeaking)
    {
      isAISpeaking := true;
    }

    /** The end of `generateAIResponse`: one of the scripted replies is added (which the server
        always accepts, `AIResponseAccepted`) and the flag is lowered. */
    method FinishAIResponse(pick: nat, st: Stamps)
      requires Valid() && session.Some?
      modifies db`sessions, `session, relay, `isAISpeaking
      ensures Valid() && session.Some? && RegistryKept() && !isAISpeaking
      ensures AIButtonDisabled(session.value, isAISpeaking) <==> !session.value.isActive
      ensures var b := TeacherBody(AIResponses[pick % |AIResponses|]);
        var s := old(db.sessions[sessionId]);
        && session.value == Shown(old(session).value, s, sessionId, b, st)
        && db.sessions == old(db.sessions)[sessionId := Logged(s, sessionId, b, st)]
        && relay.outbox == old(relay.outbox) + Heard(Room(), sessionId, b, st)
    {
      AddMessage(TeacherId, TeacherName, AIResponses[pick % |AIResponses|], TeacherType, st);
      isAISpeaking := false;
    }
  }
}
