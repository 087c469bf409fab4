/** The Lesson collection's schema: a titled lesson with an ordered script of steps. */
module LessonModel {
  import opened Wrappers
  import opened Text

  type Id = string
  type Stamp = nat

  const MaxTitleLength: nat := 100
  const MaxDescriptionLength: nat := 500
  const MinTargetAge: int := 5
  const MaxTargetAge: int := 18
  const MinStepDuration: int := 1
  const MaxStepDuration: int := 120

  /** One step of a lesson's script (`ILessonStep`); `duration` is in minutes. */
  datatype Step = Step(
    id: string,
    title: string,
    description: string,
    aiPrompt: string,
    expectedResponses: seq<string>,
    duration: Option<int>)

  /** A lesson (`ILesson`); `createdAt` is the timestamp Mongoose stamps at creation. */
  datatype Lesson = Lesson(
    title: string,
    subject: string,
    targetAge: int,
    description: string,
    steps: seq<Step>,
    participants: seq<Id>,
    isActive: bool,
    createdAt: Stamp)

  /** `lessonStepSchema`'s validators: four required strings and a duration within 1..120 when given. */
  predicate StepSchemaValid(s: Step) {
    && s.id != ""
    && s.title != ""
    && s.description != ""
    && s.aiPrompt != ""
    && (s.duration.Some? ==> MinStepDuration <= s.duration.value <= MaxStepDuration)
  }

  predicate StepsSchemaValid(steps: seq<Step>) {
    forall i :: 0 <= i < |steps| ==> StepSchemaValid(steps[i])
  }

  /** `lessonSchema`'s validators on the top-level fields and every step. */
  predicate LessonSchemaValid(l: Lesson) {
    && l.title != "" && |l.title| <= MaxTitleLength
    && l.subject != ""
    && MinTargetAge <= l.targetAge <= MaxTargetAge
    && l.description != "" && |l.description| <= MaxDescriptionLength
    && StepsSchemaValid(l.steps)
  }

  /** Casting a step: the `trim: true` setter applies to its title. */
  function CastStep(s: Step): (r: Step)
    ensures r.title == Trim(s.title) && r.(title := s.title) == s
  {
    s.(title := Trim(s.title))
  }

  function CastSteps(steps: seq<Step>): (r: seq<Step>)
    ensures |r| == |steps|
    ensures forall i :: 0 <= i < |steps| ==> r[i] == CastStep(steps[i])
  {
    if steps == [] then [] else [CastStep(steps[0])] + CastSteps(steps[1..])
  }

  /** A lesson document built with the schema's defaults: `isActive` is true. The string fields
      pass through the schema's `trim: true` setters. */
  function NewLesson(title: string, subject: string, targetAge: int, description: string,
                     steps: seq<Step>, participants: seq<Id>, now: Stamp): (l: Lesson)
    ensures l.isActive && l.createdAt == now && l.participants == participants
    ensures l.title == Trim(title) && l.subject == Trim(subject) && l.description == description
    ensures l.targetAge == targetAge && l.steps == CastSteps(steps)
  {
    Lesson(Trim(title), Trim(subject), targetAge, description, CastSteps(steps), participants, true, now)
  }
}
