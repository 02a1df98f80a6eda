/** What the chat toolkit tells a tool call's render function about the call. */
module Actions {

  /** The status of a frontend action call: arguments still streaming, handler running, or done. */
  datatype ActionStatus = InProgress | Executing | Complete

  /** The statuses for which a card is shown whatever the call's own state. */
  predicate ShownByStatus(status: ActionStatus) {
    status == Executing || status == Complete
  }
}
