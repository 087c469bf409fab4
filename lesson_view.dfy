/** The lesson as the React client receives it from GET /api/lessons: the steps and the
    populated participants may be missing, which the components guard against. */
module LessonView {
  import opened Wrappers

  /** A populated participant: its `_id` and the name the chat shows. */
  datatype ChildView = ChildView(id: string, name: string)

  /** A step as the client reads it; `duration` is in minutes. */
  datatype StepView = StepView(title: string, description: string, aiPrompt: string, duration: Option<int>)

  /** A lesson as the client reads it. */
  datatype LessonView = LessonView(
    id: string,
    title: string,
    subject: string,
    targetAge: int,
    description: string,
    steps: Option<seq<StepView>>,
    participants: Option<seq<ChildView>>)
}
