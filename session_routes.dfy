/** The `/api/sessions` routes: create, fetch, update and delete a session, and append a message
    to its log. */
module SessionRoutes {
  import opened Wrappers
  import opened Text
  import opened Request
  import opened ChatSessionModel
  import opened Database

  const InvalidSessionId := "Invalid session ID"
  const SomeParticipantsMissing := "Some participants do not exist"

  /** `param('id').isMongoId()`. */
  function IdErrors(id: string): (errors: seq<string>)
    ensures errors == [] <==> IsMongoId(id)
  {
    Check(IsMongoId(id), InvalidSessionId)
  }

  // ---------------------------------------------------------------- POST /

  /** The validation chain of POST /: a lesson id that is a Mongo id, and participants that are
      an array when given. */
  function CreateErrors(lessonId: Option<Value>, participants: Option<Value>): (errors: seq<string>)
    ensures errors == [] <==> IsMongoIdValue(lessonId) && (participants.None? || participants.value.Arr?)
  {
    Check(IsMongoIdValue(lessonId), "Valid lesson ID is required")
      + Check(participants.None? || participants.value.Arr?, "Participants must be an array")
  }

  /** The participant list the handler works with: `participants = []` when the field is absent. */
  function RequestedParticipants(participants: Option<Value>): seq<Value>
    requires participants.None? || participants.value.Arr?
  {
    if participants.Some? then participants.value.items else []
  }

  /** POST /: stores a new session under `freshId` (the id MongoDB assigns) with an empty log,
      step 0, no speaker and `isActive` true. The lesson must exist (404 otherwise) and the
      participants must all exist, without repetition (400 otherwise). */
  method PostSession(db: Db, lessonId: Option<Value>, participants: Option<Value>, freshId: Id, now: Stamp)
    returns (r: Reply<Session>)
    requires db.Valid() && IsObjectId(freshId) && freshId !in db.sessions
    modifies db`sessions
    ensures db.Valid()
    ensures CreateErrors(lessonId, participants) != [] ==> r == BadRequest(CreateErrors(lessonId, participants))
    ensures CreateErrors(lessonId, participants) == [] ==>
      var lid := lessonId.value.s;
      var check := CheckParticipants(db.children, RequestedParticipants(participants));
      && (!IsObjectId(lid) ==> r == ServerError)
      && (IsObjectId(lid) && lid !in db.lessons ==> r == NotFound)
      && (IsObjectId(lid) && lid in db.lessons ==>
            && (check.CastFailed? ==> r == ServerError)
            && (check.Missing? ==> r == BadRequest([SomeParticipantsMissing]))
            && (check.Checked? ==> r == Created(NewSession(lid, check.ids, now))))
    ensures r.Created? ==> db.sessions == old(db.sessions)[freshId := r.value]
    ensures !r.Created? ==> db.sessions == old(db.sessions)
  {
    var gate := HandleValidationErrors<Session>(CreateErrors(lessonId, participants));
    if gate.Some? {
      return gate.value;
    }
    var lid := lessonId.value.s;
    if !IsObjectId(lid) {
      return ServerError;  // Lesson.findById throws a CastError
    }
    if lid !in db.lessons {
      return NotFound;
    }
    var check := CheckParticipants(db.children, RequestedParticipants(participants));
    if check.CastFailed? {
      return ServerError;
    }
    if check.Missing? {
      return BadRequest([SomeParticipantsMissing]);
    }
    var session := NewSession(lid, check.ids, now);
    db.sessions := db.sessions[freshId := session];
    r := Created(session);
  }

  /** A session is created only when its participants name distinct existing children. */
  lemma CreatedParticipantsExist(db: Db, lessonId: Option<Value>, participants: Option<Value>, now: Stamp)
    requires CreateErrors(lessonId, participants) == []
    requires CheckParticipants(db.children, RequestedParticipants(participants)).Checked?
    ensures var ids := CheckParticipants(db.children, RequestedParticipants(participants)).ids;
      Distinct(ids) && forall i :: 0 <= i < |ids| ==> ids[i] in db.children
  {
  }

  // ---------------------------------------------------------------- GET /:id

  /** GET /:id: the stored session, 404 when there is none. */
  method GetSession(db: Db, id: string) returns (r: Reply<Session>)
    ensures !IsMongoId(id) ==> r == BadRequest([InvalidSessionId])
    ensures IsMongoId(id) && !IsObjectId(id) ==> r == ServerError
    ensures IsObjectId(id) ==> r == (if id in db.sessions then Ok(db.sessions[id]) else NotFound)
  {
    var gate := HandleValidationErrors<Session>(IdErrors(id));
    if gate.Some? {
      return gate.value;
    }
    if !IsObjectId(id) {
      return ServerError;
    }
    if id !in db.sessions {
      return NotFound;
    }
    r := Ok(db.sessions[id]);
  }

  // ---------------------------------------------------------------- PUT /:id

  /** The fields of a PUT body the route validates; absent fields are `None`. */
  datatype SessionPatch = SessionPatch(
    currentStep: Option<Value>,
    currentSpeaker: Option<Value>,
    isActive: Option<Value>)

  /** `optional().isInt({ min: 0 })` on `currentStep`. */
  predicate StepPasses(v: Option<Value>) { v.None? || (v.value.Int? && v.value.i >= 0) }

  /** `optional().isString()` on `currentSpeaker`. Whether the validator lets an explicit `null`
      through is the library's business, so it is the parameter `nullSpeakerPasses`. */
  predicate SpeakerPasses(v: Option<Value>, nullSpeakerPasses: bool) {
    v.None? || v.value.Str? || (v.value.Null? && nullSpeakerPasses)
  }

  /** `optional().isBoolean()` on `isActive`. */
  predicate ActivePasses(v: Option<Value>) { v.None? || v.value.Bool? }

  /** The validation chain of PUT /:id. */
  function UpdateErrors(id: string, body: SessionPatch, nullSpeakerPasses: bool): (errors: seq<string>)
    ensures errors == [] <==>
      IsMongoId(id) && StepPasses(body.currentStep) && SpeakerPasses(body.currentSpeaker, nullSpeakerPasses)
      && ActivePasses(body.isActive)
  {
    IdErrors(id)
      + Check(StepPasses(body.currentStep), "Current step must be a non-negative integer")
      + Check(SpeakerPasses(body.currentSpeaker, nullSpeakerPasses), "Current speaker must be a string")
      + Check(ActivePasses(body.isActive), "isActive must be a boolean")
  }

  /** A body every field of which has the type its rule demands (`null` clearing the speaker). */
  predicate PatchWellTyped(body: SessionPatch) {
    && StepPasses(body.currentStep)
    && SpeakerPasses(body.currentSpeaker, true)
    && ActivePasses(body.isActive)
  }

  /** The session after `findByIdAndUpdate` with the body, to which the handler has added
      `endTime` when the body carries `isActive: false`. */
  function Patched(s: Session, body: SessionPatch, now: Stamp): (r: Session)
    requires PatchWellTyped(body)
    ensures r.lessonId == s.lessonId && r.messages == s.messages
    ensures r.participants == s.participants && r.startTime == s.startTime
    ensures body.currentStep.None? ==> r.currentStep == s.currentStep
    ensures body.currentStep.Some? ==> r.currentStep == body.currentStep.value.i >= 0
    ensures body.currentSpeaker.None? ==> r.currentSpeaker == s.currentSpeaker
    ensures body.currentSpeaker == Some(Null) ==> r.currentSpeaker == None
    ensures body.currentSpeaker.Some? && body.currentSpeaker.value.Str? ==>
              r.currentSpeaker == Some(body.currentSpeaker.value.s)
    ensures body.isActive.None? ==> r.isActive == s.isActive
    ensures body.isActive.Some? ==> r.isActive == body.isActive.value.b
    ensures body.isActive == Some(Bool(false)) ==> !r.isActive && r.endTime == Some(now)
    ensures body.isActive != Some(Bool(false)) ==> r.endTime == s.endTime
  {
    var step := if body.currentStep.Some? then body.currentStep.value.i else s.currentStep;
    var speaker :=
      match body.currentSpeaker
      case None => s.currentSpeaker
      case Some(Str(x)) => Some(x)
      case Some(_) => None;
    var active := if body.isActive.Some? then body.isActive.value.b else s.isActive;
    var end := if body.isActive == Some(Bool(false)) then Some(now) else s.endTime;
    s.(currentStep := step, currentSpeaker := speaker, isActive := active, endTime := end)
  }

  /** PUT /:id: applies the validated fields to the stored session, stamping `endTime` when the
      body sets `isActive` to false; any validation failure, and a missing id, leave the store
      as it was. */
  method PutSession(db: Db, id: string, body: SessionPatch, now: Stamp, nullSpeakerPasses: bool)
    returns (r: Reply<Session>)
    requires db.Valid()
    modifies db`sessions
    ensures db.Valid()
    ensures UpdateErrors(id, body, nullSpeakerPasses) != [] ==>
              r == BadRequest(UpdateErrors(id, body, nullSpeakerPasses)) && db.sessions == old(db.sessions)
    ensures UpdateErrors(id, body, nullSpeakerPasses) == [] ==>
      && (!IsObjectId(id) ==> r == ServerError && db.sessions == old(db.sessions))
      && (IsObjectId(id) && id !in old(db.sessions) ==> r == NotFound && db.sessions == old(db.sessions))
      && (IsObjectId(id) && id in old(db.sessions) ==>
            && r == Ok(Patched(old(db.sessions)[id], body, now))
            && db.sessions == old(db.sessions)[id := r.value])
  {
    var errors := UpdateErrors(id, body, nullSpeakerPasses);
    var gate := HandleValidationErrors<Session>(errors);
    if gate.Some? {
      return gate.value;
    }
    if !IsObjectId(id) {
      return ServerError;
    }
    if id !in db.sessions {
      return NotFound;
    }
    var updated := Patched(db.sessions[id], body, now);
    db.StoreSession(id, updated);
    r := Ok(updated);
  }

  /** Ending a session twice stamps it twice: the second update overwrites `endTime`, so the
      stamp records the last ending, not the first. */
  lemma EndTimeRestamped(s: Session, t1: Stamp, t2: Stamp)
    requires t1 != t2
    ensures var end := SessionPatch(None, None, Some(Bool(false)));
      var once := Patched(s, end, t1);
      Patched(once, end, t2).endTime == Some(t2) != once.endTime
  {
  }

  /** A validated update keeps a schema-valid session schema-valid. */
  lemma PatchedKeepsSchema(s: Session, body: SessionPatch, now: Stamp)
    requires SessionSchemaValid(s) && PatchWellTyped(body)
    ensures SessionSchemaValid(Patched(s, body, now))
  {
  }

  // ---------------------------------------------------------------- POST /:id/messages

  /** The fields of a message body; absent fields are `None`. */
  datatype MessageBody = MessageBody(
    senderId: Option<string>,
    senderName: Option<string>,
    senderType: Option<string>,
    content: Option<string>,
    reactions: Option<seq<string>>)

  /** What POST /:id/messages demands of the id and of the body as the `trim()` sanitizers leave it. */
  predicate MessageBodyOk(id: string, b: MessageBody) {
    && IsMongoId(id)
    && b.senderId.Some?
    && Trim(FieldText(b.senderName)) != ""
    && b.senderType.Some? && b.senderType.value in SenderTypes
    && 1 <= |Trim(FieldText(b.content))| <= MaxContentLength
  }

  /** The validation chain of POST /:id/messages. */
  function MessageErrors(id: string, b: MessageBody): (errors: seq<string>)
    ensures errors == [] <==> MessageBodyOk(id, b)
  {
    IdErrors(id)
      + Check(b.senderId.Some?, "Sender ID is required")
      + Check(TrimmedLength(FieldText(b.senderName)) >= 1, "Sender name is required")
      + Check(b.senderType.Some? && b.senderType.value in SenderTypes, "Sender type must be child or ai")
      + Check(1 <= TrimmedLength(FieldText(b.content)) <= MaxContentLength,
              "Content is required and must be less than 1000 characters")
  }

  /** The message the handler builds: the sanitized (trimmed) name and content, a fresh id, the
      server's clock, and the body's reactions or none. */
  function BuildMessage(b: MessageBody, msgId: string, now: Stamp): (m: Message)
    requires b.senderId.Some? && b.senderType.Some?
    ensures m.id == msgId && m.timestamp == now
    ensures m.senderName == Trim(FieldText(b.senderName)) && m.content == Trim(FieldText(b.content))
    ensures m.reactions == (if b.reactions.Some? then b.reactions.value else [])
  {
    Message(msgId, b.senderId.value, Trim(FieldText(b.senderName)), b.senderType.value,
            Trim(FieldText(b.content)), now, if b.reactions.Some? then b.reactions.value else [])
  }

  /** POST /:id/messages: appends exactly the built message at the end of the log; validation
      failures and a missing id leave the store as it was. */
  method PostMessage(db: Db, id: string, b: MessageBody, msgId: string, now: Stamp)
    returns (r: Reply<Session>)
    requires db.Valid()
    modifies db`sessions
    ensures db.Valid()
    ensures MessageErrors(id, b) != [] ==> r == BadRequest(MessageErrors(id, b)) && db.sessions == old(db.sessions)
    ensures MessageErrors(id, b) == [] ==>
      && (!IsObjectId(id) ==> r == ServerError && db.sessions == old(db.sessions))
      && (IsObjectId(id) && id !in old(db.sessions) ==> r == NotFound && db.sessions == old(db.sessions))
      && (IsObjectId(id) && id in old(db.sessions) ==>
            var s := old(db.sessions)[id];
            && r == Ok(s.(messages := s.messages + [CastMessage(BuildMessage(b, msgId, now))]))
            && db.sessions == old(db.sessions)[id := r.value])
  {
    var gate := HandleValidationErrors<Session>(MessageErrors(id, b));
    if gate.Some? {
      return gate.value;
    }
    var message := BuildMessage(b, msgId, now);
    if !IsObjectId(id) {
      return ServerError;
    }
    if id !in db.sessions {
      return NotFound;
    }
    var s := db.sessions[id];
    var updated := s.(messages := s.messages + [CastMessage(message)]);
    db.StoreSession(id, updated);
    r := Ok(updated);
  }

  /** A message that passes validation meets the message schema except for `senderId`:
      `isString` admits the empty string, which the schema's `required` would refuse, and a
      `$push` runs no schema validators. */
  lemma ValidatedMessageSchema(id: string, b: MessageBody, msgId: string, now: Stamp)
    requires MessageErrors(id, b) == [] && msgId != ""
    ensures var m := CastMessage(BuildMessage(b, msgId, now));
      MessageSchemaValid(m) <==> b.senderId.value != ""
  {
    var m := BuildMessage(b, msgId, now);
    TrimIdempotent(FieldText(b.senderName));
    assert CastMessage(m) == m;
  }

  /** A body with an empty sender id. */
  const EmptySenderBody := MessageBody(Some(""), Some("Dana"), Some("child"), Some("hi"), None)

  /** The empty sender id passes validation... */
  lemma EmptySenderIdPasses()
    ensures MessageErrors(SampleId, EmptySenderBody) == []
  {
    var b := EmptySenderBody;
    SampleIdIsObjectId();
    assert IsMongoId(SampleId);
    assert b.senderId.Some?;
    assert Trim("Dana") == "Dana" by { assert !IsSpace('D') && !IsSpace('a'); }
    assert Trim("hi") == "hi" by { assert !IsSpace('h') && !IsSpace('i'); }
    assert b.senderType.Some? && b.senderType.value in SenderTypes;
    assert Trim(FieldText(b.senderName)) != "";
    assert 1 <= |Trim(FieldText(b.content))| <= MaxContentLength;
  }

  /** ... so the route stores a message that the schema's `required` would reject. */
  lemma EmptySenderIdStored()
    ensures var m := CastMessage(BuildMessage(EmptySenderBody, "msg-1", 0));
      MessageErrors(SampleId, EmptySenderBody) == [] && !MessageSchemaValid(m)
  {
    EmptySenderIdPasses();
    var m := BuildMessage(EmptySenderBody, "msg-1", 0);
    assert CastMessage(m).senderId == "";
  }

  // ---------------------------------------------------------------- DELETE /:id

  /** DELETE /:id: removes the session; 404 when there is none. */
  method DeleteSession(db: Db, id: string) returns (r: Reply<string>)
    requires db.Valid()
    modifies db`sessions
    ensures db.Valid()
    ensures !IsMongoId(id) ==> r == BadRequest([InvalidSessionId]) && db.sessions == old(db.sessions)
    ensures IsMongoId(id) && !IsObjectId(id) ==> r == ServerError && db.sessions == old(db.sessions)
    ensures IsObjectId(id) && id !in old(db.sessions) ==> r == NotFound && db.sessions == old(db.sessions)
    ensures IsObjectId(id) && id in old(db.sessions) ==>
      r == Ok("Session deleted successfully") && db.sessions == old(db.sessions) - {id}
    ensures id !in db.sessions || db.sessions == old(db.sessions)
  {
    var gate := HandleValidationErrors<string>(IdErrors(id));
    if gate.Some? {
      return gate.value;
    }
    if !IsObjectId(id) {
      return ServerError;
    }
    if id !in db.sessions {
      return NotFound;
    }
    db.sessions := db.sessions - {id};
    r := Ok("Session deleted successfully");
  }
}
