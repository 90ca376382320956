/**
 * The database service interface the HTTP verticles talk to over the event
 * bus: the operations they can request and the shape of the replies.
 */
module WikiService {
  import opened Wrappers

  /** One asynchronous reply: a value, or a failure carrying the cause's message. */
  datatype Reply<+T> = Succeeded(value: T) | Failed(message: string)

  /** A row of `fetchAllPagesData`: the `ID`, `NAME` and `CONTENT` columns. */
  datatype Row = Row(id: int, name: string, content: string)

  /** The reply of `fetchPage` / `fetchPageById`: `found` with the page's columns, or not found. */
  datatype Lookup = Found(id: int, name: string, content: string) | NotFound

  /**
   * A request sent to the service. Arguments that the HTTP layer takes from
   * request parameters are nullable (`None`), as in the Java interface.
   */
  datatype StoreOp =
    | FetchAllPages
    | FetchPage(name: string)
    | FetchPageById(id: int)
    | CreatePage(title: Option<string>, markdown: Option<string>)
    | SavePage(pageId: int, newContent: Option<string>)
    | DeletePage(deleteId: int)
    | FetchAllPagesData

  /** The operations that change the page table. */
  predicate IsMutation(op: StoreOp) {
    op.CreatePage? || op.SavePage? || op.DeletePage?
  }
}
