/** The records exchanged between the frontend and the backend. */
module Mail {
  import opened Base

  /** One extracted task with its deadline. */
  datatype ActionItem = ActionItem(task: string, deadline: string)

  /**
   * An email as the frontend receives it. The AI-derived fields may be missing
   * while the backend has not analysed the message.
   */
  datatype Email = Email(
    id: int,
    sender: string,
    subject: string,
    body: string,
    timestamp: string,
    isRead: bool,
    category: Option<string>,
    summary: Option<string>,
    actionItems: Option<seq<ActionItem>>)

  /** A generated reply, as the draft endpoint returns it. */
  datatype Draft = Draft(subject: string, body: string)

  /** A stored prompt template. */
  datatype Prompt = Prompt(id: int, promptType: string, templateText: string)
}
