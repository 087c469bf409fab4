/** The page (`Index`): a three-view state machine over the lesson picker, the welcome screen
    of the chosen lesson, and the lesson screen of a started session. */
module IndexPage {
  import opened Wrappers
  import opened Request
  import opened ChatSessionModel
  import opened Database
  import opened SessionRoutes
  import opened LessonView

  datatype View = Selector | Welcome | Lesson

  /** What the page shows. */
  datatype Screen =
    | Loading
    | LessonScreen(lesson: LessonView, sessionId: Id)
    | WelcomeScreen(lesson: LessonView)
    | SelectorScreen

  /** The render selection: the spinner while lessons load, the lesson screen only with a
      lesson and a session id, the welcome screen only with a lesson, the picker otherwise. */
  function Render(loading: bool, view: View, lesson: Option<LessonView>, sessionId: Option<Id>): (r: Screen)
    ensures r.Loading? <==> loading
    ensures r.LessonScreen? <==> !loading && view == Lesson && lesson.Some? && sessionId.Some?
    ensures r.LessonScreen? ==> r.lesson == lesson.value && r.sessionId == sessionId.value
    ensures r.WelcomeScreen? <==> !loading && view == Welcome && lesson.Some?
    ensures r.WelcomeScreen? ==> r.lesson == lesson.value
  {
    if loading then Loading
    else if view == Lesson && lesson.Some? && sessionId.Some? then LessonScreen(lesson.value, sessionId.value)
    else if view == Welcome && lesson.Some? then WelcomeScreen(lesson.value)
    else SelectorScreen
  }

  /** The views carry what they need: a lesson screen has a lesson and a session id, a welcome
      screen has a lesson. */
  predicate Coherent(view: View, lesson: Option<LessonView>, sessionId: Option<Id>) {
    && (view == Lesson ==> lesson.Some? && sessionId.Some?)
    && (view == Welcome ==> lesson.Some?)
  }

  /** In a coherent state the page shows the screen of its view: the picker fallback never
      stands in for another view. */
  lemma CoherentRendersView(view: View, lesson: Option<LessonView>, sessionId: Option<Id>)
    requires Coherent(view, lesson, sessionId)
    ensures view == Lesson ==> Render(false, view, lesson, sessionId) == LessonScreen(lesson.value, sessionId.value)
    ensures view == Welcome ==> Render(false, view, lesson, sessionId) == WelcomeScreen(lesson.value)
    ensures view == Selector ==> Render(false, view, lesson, sessionId) == SelectorScreen
  {
  }

  /** `selectedLesson.participants || []`: the populated children, which cast by their `_id`. */
  function ParticipantValues(l: LessonView): seq<Value>
  {
    if l.participants.None? then []
    else seq(|l.participants.value|, i requires 0 <= i < |l.participants.value| => Obj(Some(l.participants.value[i].id)))
  }

  /** The ids of a lesson's populated participants. */
  function ParticipantIds(l: LessonView): seq<Id>
  {
    if l.participants.None? then []
    else seq(|l.participants.value|, i requires 0 <= i < |l.participants.value| => l.participants.value[i].id)
  }

  /** When POST /api/sessions accepts the page's request for lesson `l`. */
  predicate StartAccepted(lessons: map<Id, LessonModel.Lesson>, children: map<Id, ChildModel.Child>, l: LessonView) {
    IsObjectId(l.id) && l.id in lessons && CheckParticipants(children, ParticipantValues(l)).Checked?
  }

  /** A lesson whose participants are distinct stored children is accepted with exactly those
      participants, so the session starts with the lesson's own roster. */
  lemma {:induction false} RosterCarriedOver(children: map<Id, ChildModel.Child>, l: LessonView)
    requires forall k :: k in children ==> IsObjectId(k)
    requires forall i :: 0 <= i < |ParticipantIds(l)| ==> ParticipantIds(l)[i] in children
    requires Distinct(ParticipantIds(l))
    ensures CheckParticipants(children, ParticipantValues(l)) == Checked(ParticipantIds(l))
  {
    var vs := ParticipantValues(l);
    var ids := ParticipantIds(l);
    forall i | 0 <= i < |vs|
      ensures CastObjectId(vs[i]) == Some(ids[i])
    {
      assert ids[i] in children;
    }
    assert CastIds(vs).value == ids;
  }

  /** The page's state; `sessionLesson` is a ghost record of the lesson the current session id
      was created for. */
  class Page {
    const db: Db
    var view: View
    var selectedLesson: Option<LessonView>
    var sessionId: Option<Id>
    ghost var sessionLesson: Option<string>

    /** The views are coherent, and the lesson screen's session was started for its lesson. */
    ghost predicate Valid()
      reads this, db
    {
      && db.Valid()
      && Coherent(view, selectedLesson, sessionId)
      && (view == Lesson ==> sessionLesson == Some(selectedLesson.value.id))
    }

    /** What the page renders now. */
    function Shown(loading: bool): Screen
      reads this
    {
      Render(loading, view, selectedLesson, sessionId)
    }

    constructor (db: Db)
      requires db.Valid()
      ensures Valid() && this.db == db
      ensures view == Selector && selectedLesson == None && sessionId == None
    {
      this.db := db;
      view := Selector;
      selectedLesson := None;
      sessionId := None;
      sessionLesson := None;
    }

    /** `handleLessonSelect`: the chosen lesson, on the welcome screen. */
    method SelectLesson(l: LessonView)
      requires Valid()
      modifies `view, `selectedLesson
      ensures Valid()
      ensures view == Welcome && selectedLesson == Some(l) && sessionId == old(sessionId)
    {
      selectedLesson := Some(l);
      view := Welcome;
    }

    /** `handleStartLesson`: POST /api/sessions with the lesson's id and its participants (or
        none); the lesson screen opens with the new session's id only when the server created
        it, and otherwise nothing changes (the error toast aside). */
    method StartLesson(freshId: Id, now: Stamp) returns (started: bool)
      requires Valid() && IsObjectId(freshId) && freshId !in db.sessions
      modifies db`sessions, `view, `sessionId, `sessionLesson
      ensures Valid()
      ensures started <==> selectedLesson.Some? && StartAccepted(db.lessons, db.children, selectedLesson.value)
      ensures started ==>
        && view == Lesson && sessionId == Some(freshId)
        && db.sessions == old(db.sessions)[freshId := NewSession(selectedLesson.value.id,
             CheckParticipants(db.children, ParticipantValues(selectedLesson.value)).ids, now)]
      ensures !started ==> view == old(view) && sessionId == old(sessionId) && db.sessions == old(db.sessions)
    {
      if selectedLesson.None? {
        return false;
      }
      var l := selectedLesson.value;
      ObjectIdIsMongoId(freshId);
      if IsObjectId(l.id) {
        ObjectIdIsMongoId(l.id);
      }
      var r := PostSession(db, Some(Str(l.id)), Some(Arr(ParticipantValues(l))), freshId, now);
      started := r.Created?;
      if started {
        sessionId := Some(freshId);
        view := Lesson;
        sessionLesson := Some(l.id);
      }
    }

    /** `handleEndLesson`: back to the picker, forgetting lesson and session. */
    method EndLesson()
      requires Valid()
      modifies `view, `selectedLesson, `sessionId, `sessionLesson
      ensures Valid()
      ensures view == Selector && selectedLesson == None && sessionId == None
    {
      view := Selector;
      selectedLesson := None;
      sessionId := None;
      sessionLesson := None;
    }

    /** `handleBackToSelector`: back to the picker, forgetting the lesson but keeping the
        session id (which only a later successful start replaces). */
    method BackToSelector()
      requires Valid()
      modifies `view, `selectedLesson
      ensures Valid()
      ensures view == Selector && selectedLesson == None && sessionId == old(sessionId)
    {
      view := Selector;
      selectedLesson := None;
    }
  }
}
