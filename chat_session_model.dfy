/** The ChatSession collection's schema: a session of a lesson with its message log. */
module ChatSessionModel {
  import opened Wrappers
  import opened Text

  type Id = string
  /** An abstract clock reading standing for a JavaScript `Date`. */
  type Stamp = nat

  const MaxContentLength: nat := 1000
  const SenderTypes: set<string> := {"child", "ai"}

  /** One entry of a session's message log (`IMessage`). */
  datatype Message = Message(
    id: string,
    senderId: string,
    senderName: string,
    senderType: string,
    content: string,
    timestamp: Stamp,
    reactions: seq<string>)

  /** A lesson session (`IChatSession`); `currentStep` is a Number, which a socket write may make negative. */
  datatype Session = Session(
    lessonId: Id,
    messages: seq<Message>,
    currentStep: int,
    currentSpeaker: Option<Id>,
    isActive: bool,
    startTime: Stamp,
    endTime: Option<Stamp>,
    participants: seq<Id>)

  /** `messageSchema`'s validators: required strings are non-empty, the sender type is one of the
      enumeration, the content has at most 1000 characters. */
  predicate MessageSchemaValid(m: Message) {
    && m.id != ""
    && m.senderId != ""
    && m.senderName != ""
    && m.senderType in SenderTypes
    && m.content != ""
    && |m.content| <= MaxContentLength
  }

  /** `chatSessionSchema`'s validators: the lesson id is required, the step is not negative,
      every message satisfies `messageSchema`. */
  predicate SessionSchemaValid(s: Session) {
    && s.lessonId != ""
    && s.currentStep >= 0
    && forall i :: 0 <= i < |s.messages| ==> MessageSchemaValid(s.messages[i])
  }

  /** Casting a message into `messageSchema`: the `trim: true` setter applies to `senderName`. */
  function CastMessage(m: Message): (r: Message)
    ensures r.senderName == Trim(m.senderName)
    ensures r.(senderName := m.senderName) == m
  {
    m.(senderName := Trim(m.senderName))
  }

  /** A session document built from the schema's defaults: an empty log, step 0, no speaker,
      active, started now, no end time. */
  function NewSession(lessonId: Id, participants: seq<Id>, now: Stamp): (s: Session)
    ensures s.lessonId == lessonId && s.participants == participants && s.startTime == now
    ensures s.messages == [] && s.currentStep == 0 && s.currentSpeaker == None
    ensures s.isActive && s.endTime == None
  {
    Session(lessonId, [], 0, None, true, now, None, participants)
  }

  /** A freshly created session satisfies the schema whenever its lesson id is given. */
  lemma NewSessionSchemaValid(lessonId: Id, participants: seq<Id>, now: Stamp)
    requires lessonId != ""
    ensures SessionSchemaValid(NewSession(lessonId, participants, now))
  {
  }

  /** Appending a message that satisfies the schema keeps the session valid, and the log
      only grows at its end. */
  lemma AppendKeepsSchema(s: Session, m: Message)
    requires SessionSchemaValid(s) && MessageSchemaValid(m)
    ensures SessionSchemaValid(s.(messages := s.messages + [m]))
  {
  }

  /** Casting leaves a message that was valid valid, and a valid message with trimmed sender
      name unchanged. */
  lemma CastMessageKeepsValid(m: Message)
    requires MessageSchemaValid(m) && m.senderName == Trim(m.senderName)
    ensures CastMessage(m) == m
  {
  }
}
