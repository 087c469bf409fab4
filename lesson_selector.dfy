/** The lesson picker (`LessonSelector`): an empty state, or one card per lesson showing its
    participant count, its total duration and a preview of its first steps. */
module LessonSelector {
  import opened Wrappers
  import opened LessonView

  const DefaultStepMinutes: int := 5
  const DefaultLessonMinutes: int := 30
  const PreviewLength: nat := 3

  /** `step.duration || 5`: a missing or zero duration counts as five minutes. */
  function StepMinutes(s: StepView): int {
    if s.duration.None? || s.duration.value == 0 then DefaultStepMinutes else s.duration.value
  }

  /** The `reduce` over the steps, from the left, starting at 0. */
  function SumMinutes(steps: seq<StepView>): int {
    if steps == [] then 0 else SumMinutes(steps[..|steps| - 1]) + StepMinutes(steps[|steps| - 1])
  }

  /** `steps?.reduce(...) || 30`: missing steps, and a sum of 0, show thirty minutes. */
  function TotalMinutes(steps: Option<seq<StepView>>): int {
    if steps.None? || SumMinutes(steps.value) == 0 then DefaultLessonMinutes else SumMinutes(steps.value)
  }

  /** The duration the lesson schema admits on a step: absent, or 1 to 120 minutes. */
  predicate DurationAdmitted(s: StepView) {
    s.duration.None? || 1 <= s.duration.value <= 120
  }

  /** Each admitted step contributes between 1 and 120 minutes to the sum. */
  lemma {:induction false} SumMinutesBounds(steps: seq<StepView>)
    requires forall i :: 0 <= i < |steps| ==> DurationAdmitted(steps[i])
    ensures |steps| <= SumMinutes(steps) <= 120 * |steps|
  {
    if steps != [] {
      var init := steps[..|steps| - 1];
      assert forall i :: 0 <= i < |init| ==> init[i] == steps[i];
      SumMinutesBounds(init);
    }
  }

  /** For steps the schema admits, the card shows the real sum (it is never 0), and the
      thirty-minute fallback appears exactly for a lesson without steps. */
  lemma TotalMinutesOfAdmittedSteps(steps: seq<StepView>)
    requires forall i :: 0 <= i < |steps| ==> DurationAdmitted(steps[i])
    ensures steps != [] ==> TotalMinutes(Some(steps)) == SumMinutes(steps)
    ensures steps != [] ==> |steps| <= TotalMinutes(Some(steps)) <= 120 * |steps|
    ensures steps == [] ==> TotalMinutes(Some(steps)) == DefaultLessonMinutes
  {
    SumMinutesBounds(steps);
  }

  /** A lesson whose steps carry no durations is shown at five minutes a step. */
  lemma {:induction false} DefaultDurations(steps: seq<StepView>)
    requires forall i :: 0 <= i < |steps| ==> steps[i].duration.None?
    ensures SumMinutes(steps) == DefaultStepMinutes * |steps|
  {
    if steps != [] {
      var init := steps[..|steps| - 1];
      assert forall i :: 0 <= i < |init| ==> init[i] == steps[i];
      DefaultDurations(init);
    }
  }

  /** One line of the step preview: its number and the step's title. */
  datatype PreviewLine = PreviewLine(number: nat, title: string)

  /** The `map((step, index) => ...)` over a slice, numbering from `first`. */
  function Numbered(steps: seq<StepView>, first: nat): (r: seq<PreviewLine>)
    ensures |r| == |steps|
    ensures forall i :: 0 <= i < |steps| ==> r[i] == PreviewLine(first + i, steps[i].title)
  {
    if steps == [] then [] else [PreviewLine(first, steps[0].title)] + Numbered(steps[1..], first + 1)
  }

  /** `steps.slice(0, 3)` numbered from 1. */
  function Preview(steps: seq<StepView>): (r: seq<PreviewLine>)
    ensures |r| == if |steps| < PreviewLength then |steps| else PreviewLength
    ensures forall i :: 0 <= i < |r| ==> r[i] == PreviewLine(i + 1, steps[i].title)
  {
    Numbered(steps[..if |steps| < PreviewLength then |steps| else PreviewLength], 1)
  }

  /** The "and n more steps" note: present exactly when there are more than three steps. */
  function MoreNote(steps: seq<StepView>): (r: Option<nat>)
    ensures r.Some? <==> |steps| > PreviewLength
    ensures r.Some? ==> r.value > 0
  {
    if |steps| > PreviewLength then Some(|steps| - PreviewLength) else None
  }

  /** The preview and the note together account for every step exactly once. */
  lemma PreviewAndNoteCoverSteps(steps: seq<StepView>)
    ensures |Preview(steps)| + (if MoreNote(steps).Some? then MoreNote(steps).value else 0) == |steps|
  {
  }

  /** `participants?.length || 0`. */
  function ParticipantCount(l: LessonView): (n: nat)
    ensures l.participants.Some? ==> n == |l.participants.value|
    ensures l.participants.None? ==> n == 0
  {
    if l.participants.Some? then |l.participants.value| else 0
  }

  /** What one lesson card shows; the step preview only when the lesson has steps. */
  datatype Card = Card(
    title: string,
    participants: nat,
    minutes: int,
    preview: Option<seq<PreviewLine>>,
    more: Option<nat>)

  function LessonCard(l: LessonView): (c: Card)
    ensures c.title == l.title && c.participants == ParticipantCount(l)
    ensures c.minutes == TotalMinutes(l.steps)
    ensures c.preview.Some? <==> l.steps.Some? && l.steps.value != []
    ensures c.preview.Some? ==> c.preview.value == Preview(l.steps.value)
    ensures c.more.Some? <==> l.steps.Some? && |l.steps.value| > PreviewLength
  {
    var shown := l.steps.Some? && l.steps.value != [];
    Card(l.title, ParticipantCount(l), TotalMinutes(l.steps),
         if shown then Some(Preview(l.steps.value)) else None,
         if shown then MoreNote(l.steps.value) else None)
  }

  /** The whole picker. */
  datatype Screen = EmptyState | Grid(cards: seq<Card>)

  function Render(lessons: Option<seq<LessonView>>): (r: Screen)
    ensures r.EmptyState? <==> lessons.None? || lessons.value == []
    ensures r.Grid? ==> |r.cards| == |lessons.value|
    ensures r.Grid? ==> forall i :: 0 <= i < |r.cards| ==> r.cards[i] == LessonCard(lessons.value[i])
  {
    if lessons.None? || lessons.value == [] then EmptyState
    else Grid(seq(|lessons.value|, i requires 0 <= i < |lessons.value| => LessonCard(lessons.value[i])))
  }
}
