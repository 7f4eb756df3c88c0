/**
 * The to-do record shape and the REST resource of the data-access layer
 * (src/api/query.ts). Fetching itself is I/O and is not modelled.
 */
module Query {
  import opened Wrappers

  /** Base URL of the remote to-do resource. */
  const ApiUrl: string := "https://calm-plum-jaguar-tutu.cyclic.app/todos"

  /**
   * One to-do item as the table and the chart read it. The date fields
   * are optional: the record the server sends may lack a field the
   * interface names (the interface says `updateAt`, the server's
   * payload carries `updatedAt`), and reading it then yields undefined.
   */
  datatype Todo = Todo(
    id: string,
    todoName: string,
    isComplete: bool,
    createdAt: Option<string>,
    updateAt: Option<string>)
}
