/** The task record shared by the API handlers and the task-list page. */
module TaskModel {

  import opened Wrappers

  /**
   * A task as the API returns it. `createdAt` and `updatedAt` are instants
   * (the JSON carries them as ISO-8601 strings); `dueDate` stays an opaque
   * string because nothing in the core interprets it.
   */
  datatype Task = Task(
    id: int,
    title: string,
    description: Option<string>,
    dueDate: Option<string>,
    completed: bool,
    createdAt: int,
    updatedAt: int)
}
