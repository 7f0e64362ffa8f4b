/** What the admin tables share: the `{ success, data }` reply shape of the
    admin endpoints and the `err.message || fallback` message of their catch
    blocks. */
module AdminCommon {
  import opened Wrappers

  /** `ApiResponse<T>` as the tables read it. */
  datatype Reply<T> = Reply(success: bool, data: T)

  /** `err.message || fallback`. The safe request helpers always throw a
      non-empty message, so the fallback only shows for an empty one. */
  function CaughtMessage(err: string, fallback: string): (r: string)
    ensures err != "" ==> r == err
    ensures err == "" ==> r == fallback
  {
    OrElse(Some(err), fallback)
  }
}
