/** The `/api/lessons` routes: the active-lesson listing, create, update and soft delete. */
module LessonRoutes {
  import opened Wrappers
  import opened Text
  import opened Request
  import opened Sorting
  import opened LessonModel
  import opened Database

  const InvalidLessonId := "Invalid lesson ID"
  const SomeParticipantsMissing := "Some participants do not exist"

  // ---------------------------------------------------------------- GET /

  /** The order of `.sort({ createdAt: -1 })`: newer lessons first. */
  predicate NewerFirst(a: (Id, Lesson), b: (Id, Lesson)) {
    a.1.createdAt >= b.1.createdAt
  }

  lemma NewerFirstIsPreorder()
    ensures TotalPreorder(NewerFirst)
  {
  }

  /** The documents `find({ isActive: true })` matches. */
  function ActiveEntries(lessons: map<Id, Lesson>): set<(Id, Lesson)> {
    set k | k in lessons && lessons[k].isActive :: (k, lessons[k])
  }

  /** GET /: every active lesson exactly once, newest first. Ties between equal creation times
      are in an order the database chooses. */
  ghost function ListLessons(lessons: map<Id, Lesson>): (r: seq<(Id, Lesson)>)
    ensures multiset(r) == multiset(ActiveEntries(lessons))
    ensures SortedBy(r, NewerFirst)
    ensures forall i :: 0 <= i < |r| ==> r[i].0 in lessons && lessons[r[i].0] == r[i].1 && r[i].1.isActive
  {
    NewerFirstIsPreorder();
    var r := SortBy(Enumerate(ActiveEntries(lessons)), NewerFirst);
    assert forall i :: 0 <= i < |r| ==> r[i] in multiset(ActiveEntries(lessons)) by {
      forall i | 0 <= i < |r| ensures r[i] in multiset(ActiveEntries(lessons)) {
        assert r[i] in multiset(r);
      }
    }
    r
  }

  /** A lesson is listed exactly when it is stored and active. */
  lemma ListedIffActive(lessons: map<Id, Lesson>, id: Id)
    ensures (exists i :: 0 <= i < |ListLessons(lessons)| && ListLessons(lessons)[i].0 == id)
            <==> id in lessons && lessons[id].isActive
  {
    var r := ListLessons(lessons);
    if id in lessons && lessons[id].isActive {
      var e := (id, lessons[id]);
      assert e in ActiveEntries(lessons);
      assert e in multiset(r);
      var i :| 0 <= i < |r| && r[i] == e;
    }
  }

  // ---------------------------------------------------------------- POST /

  /** A `steps` field as the body gives it: an array of step objects, a single step object, or a
      value of another kind (a string, a number). */
  datatype StepsValue = StepArray(items: seq<Step>) | StepObject(item: Step) | StepScalar

  /** The fields of a lesson body; absent fields are `None`. Only PUT reads `isActive`, which
      its chain does not check. */
  datatype LessonBody = LessonBody(
    title: Option<string>,
    subject: Option<string>,
    targetAge: Option<Value>,
    description: Option<string>,
    steps: Option<StepsValue>,
    participants: Option<Value>,
    isActive: Option<Value>)

  predicate TitleOk(t: string) { 1 <= |Trim(t)| <= MaxTitleLength }
  predicate SubjectOk(t: string) { |Trim(t)| >= 1 }
  predicate AgeOk(v: Value) { IsIntIn(v, MinTargetAge, MaxTargetAge) }
  predicate DescriptionOk(t: string) { 1 <= |Trim(t)| <= MaxDescriptionLength }
  predicate ParticipantsOk(v: Option<Value>) { v.None? || v.value.Arr? }
  predicate StepsOk(v: Option<StepsValue>) { v.Some? && v.value.StepArray? && |v.value.items| >= 1 }

  /** What the validation chain of POST / accepts. */
  predicate CreateBodyOk(b: LessonBody) {
    && TitleOk(FieldText(b.title)) && SubjectOk(FieldText(b.subject))
    && b.targetAge.Some? && AgeOk(b.targetAge.value)
    && DescriptionOk(FieldText(b.description))
    && StepsOk(b.steps)
    && ParticipantsOk(b.participants)
  }

  /** The validation chain of POST /. */
  function CreateErrors(b: LessonBody): (errors: seq<string>)
    ensures errors == [] <==> CreateBodyOk(b)
  {
    var e1 := Check(TitleOk(FieldText(b.title)), "Title is required and must be less than 100 characters");
    var e2 := Check(SubjectOk(FieldText(b.subject)), "Subject is required");
    var e3 := Check(b.targetAge.Some? && AgeOk(b.targetAge.value), "Target age must be between 5 and 18");
    var e4 := Check(DescriptionOk(FieldText(b.description)), "Description is required and must be less than 500 characters");
    var e5 := Check(StepsOk(b.steps), "At least one step is required");
    var e6 := Check(ParticipantsOk(b.participants), "Participants must be an array");
    Concat6Empty(e1, e2, e3, e4, e5, e6);
    e1 + e2 + e3 + e4 + e5 + e6
  }

  function Requested(v: Option<Value>): seq<Value>
    requires ParticipantsOk(v)
  {
    if v.Some? then v.value.items else []
  }

  /** The lesson document POST / builds from a validated body (sanitized strings). */
  function BuiltLesson(b: LessonBody, ids: seq<Id>, now: Stamp): Lesson
    requires CreateErrors(b) == []
  {
    NewLesson(Trim(FieldText(b.title)), Trim(FieldText(b.subject)), b.targetAge.value.i,
              Trim(FieldText(b.description)), b.steps.value.items, ids, now)
  }

  /** Once the body has passed validation, saving the lesson can fail only on its steps. */
  lemma BuiltLessonValidIffSteps(b: LessonBody, ids: seq<Id>, now: Stamp)
    requires CreateErrors(b) == []
    ensures LessonSchemaValid(BuiltLesson(b, ids, now)) <==> StepsSchemaValid(CastSteps(b.steps.value.items))
  {
    TrimIdempotent(FieldText(b.title));
    TrimIdempotent(FieldText(b.subject));
  }

  /** What POST / answers: 400 with the validation errors, then 500 when a participant id cannot
      be cast, 400 when participants are missing or repeated, 500 when the schema rejects the
      steps, and otherwise 201 with the lesson built from the sanitized body. */
  function CreateReply<V>(children: map<Id, V>, b: LessonBody, now: Stamp): Reply<Lesson> {
    if CreateErrors(b) != [] then BadRequest(CreateErrors(b))
    else
      var check := CheckParticipants(children, Requested(b.participants));
      if check.CastFailed? then ServerError
      else if check.Missing? then BadRequest([SomeParticipantsMissing])
      else if LessonSchemaValid(BuiltLesson(b, check.ids, now)) then Created(BuiltLesson(b, check.ids, now))
      else ServerError
  }

  /** POST / answers 201 exactly when the body is valid, every participant exists (once) and the
      steps satisfy the schema. */
  lemma CreatedIff<V>(children: map<Id, V>, b: LessonBody, now: Stamp)
    ensures CreateReply(children, b, now).Created? <==>
      && CreateErrors(b) == []
      && CheckParticipants(children, Requested(b.participants)).Checked?
      && StepsSchemaValid(CastSteps(b.steps.value.items))
  {
    if CreateErrors(b) == [] {
      var check := CheckParticipants(children, Requested(b.participants));
      if check.Checked? {
        BuiltLessonValidIffSteps(b, check.ids, now);
      }
    }
  }

  /** The lesson POST / creates is active, stamped `now`, carries the sanitized fields and the
      cast participant ids, and satisfies the schema. */
  lemma CreatedLesson<V>(children: map<Id, V>, b: LessonBody, now: Stamp)
    requires CreateReply(children, b, now).Created?
    ensures var l := CreateReply(children, b, now).value;
      && l.isActive && l.createdAt == now
      && l.title == Trim(b.title.value) && l.subject == Trim(b.subject.value)
      && l.description == Trim(b.description.value) && l.targetAge == b.targetAge.value.i
      && l.steps == CastSteps(b.steps.value.items)
      && l.participants == CastIds(Requested(b.participants)).value
      && LessonSchemaValid(l)
  {
    var check := CheckParticipants(children, Requested(b.participants));
    assert CreateErrors(b) == [] && check.Checked?;
    var l := BuiltLesson(b, check.ids, now);
    assert CreateReply(children, b, now) == Created(l);
    TrimIdempotent(b.title.value);
    TrimIdempotent(b.subject.value);
  }

  /** The error answers of POST /: the validation errors come first, and a missing or repeated
      participant answers 400 with its own message. */
  lemma CreateRejections<V>(children: map<Id, V>, b: LessonBody, now: Stamp)
    ensures CreateErrors(b) != [] ==> CreateReply(children, b, now) == BadRequest(CreateErrors(b))
    ensures CreateErrors(b) == [] && CheckParticipants(children, Requested(b.participants)).Missing? ==>
      CreateReply(children, b, now) == BadRequest([SomeParticipantsMissing])
    ensures CreateErrors(b) == [] && CheckParticipants(children, Requested(b.participants)).CastFailed? ==>
      CreateReply(children, b, now) == ServerError
  {
  }

  /** POST /: answers `CreateReply` and, when the lesson is created, stores it under `freshId`. */
  method PostLesson(db: Db, b: LessonBody, freshId: Id, now: Stamp) returns (r: Reply<Lesson>)
    requires db.Valid() && IsObjectId(freshId) && freshId !in db.lessons
    modifies db`lessons
    ensures db.Valid()
    ensures r == CreateReply(db.children, b, now)
    ensures r.Created? ==> db.lessons == old(db.lessons)[freshId := r.value]
    ensures !r.Created? ==> db.lessons == old(db.lessons)
  {
    r := CreateReply(db.children, b, now);
    if r.Created? {
      db.StoreLesson(freshId, r.value);
    }
  }

  // ---------------------------------------------------------------- PUT /:id

  /** What the validation chain of PUT /:id accepts in the body: every field optional, the same
      bounds as on create. */
  predicate UpdateBodyOk(b: LessonBody) {
    && (b.title.Some? ==> TitleOk(b.title.value))
    && (b.subject.Some? ==> SubjectOk(b.subject.value))
    && (b.targetAge.Some? ==> AgeOk(b.targetAge.value))
    && (b.description.Some? ==> DescriptionOk(b.description.value))
    && ParticipantsOk(b.participants)
  }

  /** The validation chain of PUT /:id. */
  function UpdateErrors(id: string, b: LessonBody): (errors: seq<string>)
    ensures errors == [] <==> IsMongoId(id) && UpdateBodyOk(b)
  {
    var e1 := Check(IsMongoId(id), InvalidLessonId);
    var e2 := Check(b.title.None? || TitleOk(b.title.value), "Title must be less than 100 characters");
    var e3 := Check(b.subject.None? || SubjectOk(b.subject.value), "Subject cannot be empty");
    var e4 := Check(b.targetAge.None? || AgeOk(b.targetAge.value), "Target age must be between 5 and 18");
    var e5 := Check(b.description.None? || DescriptionOk(b.description.value), "Description must be less than 500 characters");
    var e6 := Check(ParticipantsOk(b.participants), "Participants must be an array");
    Concat6Empty(e1, e2, e3, e4, e5, e6);
    e1 + e2 + e3 + e4 + e5 + e6
  }

  /** Whether Mongoose can cast the unchecked `isActive` of a PUT body to the schema's Boolean. */
  predicate ActiveCasts(b: LessonBody) {
    b.isActive.None? || b.isActive.value.Bool?
  }

  /** Mongoose's cast of the unchecked `steps` of a PUT body to the document array: an array is
      taken step by step and a single object is wrapped into a one-step list; a string or a
      number cannot be cast. */
  function UpdateSteps(v: StepsValue): Option<seq<Step>> {
    match v
    case StepArray(items) => Some(items)
    case StepObject(item) => Some([item])
    case StepScalar => None
  }

  predicate StepsCast(b: LessonBody) {
    b.steps.None? || UpdateSteps(b.steps.value).Some?
  }

  /** The lesson after `findByIdAndUpdate` with `updateData`: the given fields (sanitized, steps
      cast) replace the stored ones, participants only when `newParticipants` is given; the
      creation stamp is never changed. */
  function Updated(l: Lesson, b: LessonBody, newParticipants: Option<seq<Id>>): (r: Lesson)
    requires b.targetAge.Some? ==> b.targetAge.value.Int?
    requires ActiveCasts(b) && StepsCast(b)
    ensures r.isActive == (if b.isActive.Some? then b.isActive.value.b else l.isActive)
    ensures r.createdAt == l.createdAt
    ensures r.title == (if b.title.Some? then Trim(b.title.value) else l.title)
    ensures r.subject == (if b.subject.Some? then Trim(b.subject.value) else l.subject)
    ensures r.targetAge == (if b.targetAge.Some? then b.targetAge.value.i else l.targetAge)
    ensures r.description == (if b.description.Some? then Trim(b.description.value) else l.description)
    ensures r.steps == (if b.steps.Some? then CastSteps(UpdateSteps(b.steps.value).value) else l.steps)
    ensures r.participants == (if newParticipants.Some? then newParticipants.value else l.participants)
  {
    Lesson(
      if b.title.Some? then Trim(b.title.value) else l.title,
      if b.subject.Some? then Trim(b.subject.value) else l.subject,
      if b.targetAge.Some? then b.targetAge.value.i else l.targetAge,
      if b.description.Some? then Trim(b.description.value) else l.description,
      if b.steps.Some? then CastSteps(UpdateSteps(b.steps.value).value) else l.steps,
      if newParticipants.Some? then newParticipants.value else l.participants,
      if b.isActive.Some? then b.isActive.value.b else l.isActive,
      l.createdAt)
  }

  /** An update that passes validation and whose steps (if any) satisfy the schema keeps a
      schema-valid lesson schema-valid. */
  lemma UpdatedKeepsSchema(l: Lesson, id: string, b: LessonBody, ps: Option<seq<Id>>)
    requires LessonSchemaValid(l) && UpdateErrors(id, b) == [] && ActiveCasts(b) && StepsCast(b)
    requires b.steps.Some? ==> StepsSchemaValid(CastSteps(UpdateSteps(b.steps.value).value))
    ensures LessonSchemaValid(Updated(l, b, ps))
  {
    assert b.title.Some? ==> TitleOk(b.title.value);
    assert b.subject.Some? ==> SubjectOk(b.subject.value);
    assert b.targetAge.Some? ==> AgeOk(b.targetAge.value);
    assert b.description.Some? ==> DescriptionOk(b.description.value);
    var r := Updated(l, b, ps);
    assert StepsSchemaValid(r.steps);
    assert r.title != "" && |r.title| <= MaxTitleLength;
    assert r.subject != "";
    assert MinTargetAge <= r.targetAge <= MaxTargetAge;
    assert r.description != "" && |r.description| <= MaxDescriptionLength;
  }

  /** A single step object given as `steps` replaces the stored steps by a one-step list. */
  lemma ObjectStepWrapped(l: Lesson, b: LessonBody, ps: Option<seq<Id>>, s: Step)
    requires b.targetAge.Some? ==> b.targetAge.value.Int?
    requires ActiveCasts(b) && b.steps == Some(StepObject(s))
    ensures Updated(l, b, ps).steps == [CastStep(s)]
  {
  }

  /** PUT /:id. A non-empty participant list is checked and replaces the stored one; an empty
      list is ignored. An `isActive` or `steps` Mongoose cannot cast, and steps the update
      validators refuse, give 500. */
  method PutLesson(db: Db, id: string, b: LessonBody) returns (r: Reply<Lesson>)
    requires db.Valid()
    modifies db`lessons
    ensures db.Valid()
    ensures UpdateErrors(id, b) != [] ==> r == BadRequest(UpdateErrors(id, b)) && db.lessons == old(db.lessons)
    ensures UpdateErrors(id, b) == [] ==>
      var items := Requested(b.participants);
      var check := CheckParticipants(db.children, items);
      var updateOk := ActiveCasts(b) && StepsCast(b)
                      && (b.steps.None? || StepsSchemaValid(CastSteps(UpdateSteps(b.steps.value).value)));
      && (check.CastFailed? ==> r == ServerError)
      && (check.Missing? ==> r == BadRequest([SomeParticipantsMissing]))
      && (check.Checked? && (!updateOk || !IsObjectId(id)) ==> r == ServerError)
      && (check.Checked? && updateOk && IsObjectId(id) && id !in old(db.lessons) ==> r == NotFound)
      && (check.Checked? && updateOk && IsObjectId(id) && id in old(db.lessons) ==>
            && r == Ok(Updated(old(db.lessons)[id], b, if items == [] then None else Some(check.ids)))
            && db.lessons == old(db.lessons)[id := r.value])
    ensures !r.Ok? ==> db.lessons == old(db.lessons)
  {
    var gate := HandleValidationErrors<Lesson>(UpdateErrors(id, b));
    if gate.Some? {
      return gate.value;
    }
    var items := Requested(b.participants);
    var newParticipants: Option<seq<Id>> := None;
    var check := CheckParticipants(db.children, items);
    if items != [] {
      if check.CastFailed? {
        return ServerError;
      }
      if check.Missing? {
        return BadRequest([SomeParticipantsMissing]);
      }
      newParticipants := Some(check.ids);
    }
    if !ActiveCasts(b) || !StepsCast(b) {
      return ServerError;  // the update cannot be cast
    }
    if b.steps.Some? && !StepsSchemaValid(CastSteps(UpdateSteps(b.steps.value).value)) {
      return ServerError;  // runValidators rejects the update
    }
    if !IsObjectId(id) {
      return ServerError;
    }
    if id !in db.lessons {
      return NotFound;
    }
    var updated := Updated(db.lessons[id], b, newParticipants);
    db.lessons := db.lessons[id := updated];
    r := Ok(updated);
  }

  // ---------------------------------------------------------------- DELETE /:id

  /** DELETE /:id: a soft delete. The lesson stays stored, only its `isActive` flag is cleared. */
  method DeleteLesson(db: Db, id: string) returns (r: Reply<string>)
    requires db.Valid()
    modifies db`lessons
    ensures db.Valid()
    ensures !IsMongoId(id) ==> r == BadRequest([InvalidLessonId]) && db.lessons == old(db.lessons)
    ensures IsMongoId(id) && !IsObjectId(id) ==> r == ServerError && db.lessons == old(db.lessons)
    ensures IsObjectId(id) && id !in old(db.lessons) ==> r == NotFound && db.lessons == old(db.lessons)
    ensures IsObjectId(id) && id in old(db.lessons) ==>
      && r == Ok("Lesson deleted successfully")
      && db.lessons == old(db.lessons)[id := old(db.lessons)[id].(isActive := false)]
    ensures db.lessons.Keys == old(db.lessons.Keys)
  {
    var gate := HandleValidationErrors<string>(Check(IsMongoId(id), InvalidLessonId));
    if gate.Some? {
      return gate.value;
    }
    if !IsObjectId(id) {
      return ServerError;
    }
    if id !in db.lessons {
      return NotFound;
    }
    db.lessons := db.lessons[id := db.lessons[id].(isActive := false)];
    r := Ok("Lesson deleted successfully");
  }

  /** After a soft delete the lesson is still stored but no longer listed. */
  lemma DeletedNotListed(lessons: map<Id, Lesson>, id: Id)
    requires id in lessons
    ensures var after := lessons[id := lessons[id].(isActive := false)];
      id in after && !exists i :: 0 <= i < |ListLessons(after)| && ListLessons(after)[i].0 == id
  {
    ListedIffActive(lessons[id := lessons[id].(isActive := false)], id);
  }
}
