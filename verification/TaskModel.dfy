/** The durable task record and the states a task moves through. */
module TaskModel {
  datatype TaskState = Pending | Running | Succeeded | Retrying | Failed | Blocked | Cancelled

  /** The states in which an idempotency key still names live work. */
  predicate Live(s: TaskState) {
    s.Pending? || s.Running?
  }
}
