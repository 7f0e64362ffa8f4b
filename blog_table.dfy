/** The admin blogs table: its rows, the post being edited, and the list
    updates after each request made with an editor payload. */
module BlogTable {
  import opened Wrappers
  import opened ListUpdates
  import opened AdminCommon
  import opened Editor

  /** A blog row; only the fields the table's logic reads are kept. */
  datatype Blog = Blog(id: string, title: string, excerpt: string, content: string,
                       category: Option<string>, status: Option<string>)

  function BlogId(b: Blog): string {
    b.id
  }

  /** The row as the editor's `initial` prop. */
  function AsInitial(b: Blog): (r: Initial)
    ensures r.title == Some(b.title) && r.content == Some(b.content) && r.status == b.status
  {
    Initial(Some(b.title), Some(b.excerpt), Some(b.content), b.category, b.status)
  }

  /** The request a handler sends to `/api/admin/blogs`. */
  datatype Call = Post(payload: Payload) | Put(id: string, payload: Payload) | Delete(id: string)

  class BlogTableState {
    var blogs: seq<Blog>
    var loading: bool
    var editing: Option<Blog>
    var error: Option<string>

    constructor ()
      ensures blogs == [] && loading && editing == None && error == None
    {
      blogs := [];
      loading := true;
      editing := None;
      error := None;
    }

    /** The load effect; a successful load leaves `error` as it was. */
    method Load(signedIn: bool, result: Result<Reply<Option<seq<Blog>>>, string>)
      modifies this`blogs, this`error, this`loading
      ensures !signedIn ==> blogs == old(blogs) && error == old(error) && loading == old(loading)
      ensures signedIn ==> !loading
      ensures signedIn && result.Success? && result.value.success ==>
        blogs == result.value.data.GetOr([]) && error == old(error)
      ensures signedIn && result.Success? && !result.value.success ==>
        blogs == old(blogs) && error == Some("Failed to load blogs")
      ensures signedIn && result.Failure? ==>
        blogs == old(blogs) && error == Some(CaughtMessage(result.error, "Failed to load blogs"))
    {
      if !signedIn {
        return;
      }
      match result {
        case Success(reply) =>
          if reply.success {
            blogs := reply.data.GetOr([]);
          } else {
            error := Some("Failed to load blogs");
          }
        case Failure(message) =>
          error := Some(CaughtMessage(message, "Failed to load blogs"));
      }
      loading := false;
    }

    /** `create(payload)`: prepend the returned post. */
    method Create(signedIn: bool, payload: Payload, result: Result<Reply<Blog>, string>) returns (sent: Option<Call>)
      modifies this`blogs, this`error
      ensures sent == (if signedIn then Some(Post(payload)) else None)
      ensures sent.None? || !(result.Success? && result.value.success) ==> blogs == old(blogs)
      ensures sent.Some? && result.Success? && result.value.success ==>
        blogs == [result.value.data] + old(blogs) && error == None
      ensures sent.Some? && result.Success? && !result.value.success ==> error == Some("Failed to create blog")
      ensures sent.Some? && result.Failure? ==> error == Some(CaughtMessage(result.error, "Failed to create blog"))
      ensures sent.None? ==> error == old(error)
    {
      if !signedIn {
        return None;
      }
      sent := Some(Post(payload));
      match result {
        case Success(reply) =>
          if reply.success {
            blogs := [reply.data] + blogs;
            error := None;
          } else {
            error := Some("Failed to create blog");
          }
        case Failure(message) =>
          error := Some(CaughtMessage(message, "Failed to create blog"));
      }
    }

    /** `update(id, payload)`: replace the row with the returned `_id` and
        close the edit panel. */
    method Update(signedIn: bool, id: string, payload: Payload, result: Result<Reply<Blog>, string>) returns (sent: Option<Call>)
      modifies this`blogs, this`error, this`editing
      ensures sent == (if signedIn then Some(Put(id, payload)) else None)
      ensures sent.None? || !(result.Success? && result.value.success) ==>
        blogs == old(blogs) && editing == old(editing)
      ensures sent.Some? && result.Success? && result.value.success ==>
        blogs == ReplaceById(old(blogs), BlogId, result.value.data) && editing == None && error == None
      ensures UniqueIds(old(blogs), BlogId) ==> UniqueIds(blogs, BlogId)
      ensures sent.Some? && result.Success? && !result.value.success ==> error == Some("Failed to update blog")
      ensures sent.Some? && result.Failure? ==> error == Some(CaughtMessage(result.error, "Failed to update blog"))
      ensures sent.None? ==> error == old(error)
    {
      if !signedIn {
        return None;
      }
      sent := Some(Put(id, payload));
      match result {
        case Success(reply) =>
          if reply.success {
            ReplaceKeepsIds(blogs, BlogId, reply.data);
            blogs := ReplaceById(blogs, BlogId, reply.data);
            editing := None;
            error := None;
          } else {
            error := Some("Failed to update blog");
          }
        case Failure(message) =>
          error := Some(CaughtMessage(message, "Failed to update blog"));
      }
    }

    /** `remove`: after the user confirms, filter out the deleted `_id`. */
    method Remove(signedIn: bool, confirmed: bool, id: string, result: Result<Reply<()>, string>) returns (sent: Option<Call>)
      modifies this`blogs, this`error
      ensures sent == (if signedIn && confirmed then Some(Delete(id)) else None)
      ensures sent.None? || !(result.Success? && result.value.success) ==> blogs == old(blogs)
      ensures sent.Some? && result.Success? && result.value.success ==>
        blogs == RemoveById(old(blogs), BlogId, id) && error == None && id !in Ids(blogs, BlogId)
      ensures UniqueIds(old(blogs), BlogId) ==> UniqueIds(blogs, BlogId)
      ensures sent.Some? && result.Success? && !result.value.success ==> error == Some("Failed to delete blog")
      ensures sent.Some? && result.Failure? ==> error == Some(CaughtMessage(result.error, "Failed to delete blog"))
      ensures sent.None? ==> error == old(error)
    {
      if !signedIn || !confirmed {
        return None;
      }
      sent := Some(Delete(id));
      match result {
        case Success(reply) =>
          if reply.success {
            RemoveSpec(blogs, BlogId, id);
            if UniqueIds(blogs, BlogId) {
              FilterKeepsUnique(blogs, BlogId, IdIsNot(BlogId, id));
            }
            blogs := RemoveById(blogs, BlogId, id);
            error := None;
          } else {
            error := Some("Failed to delete blog");
          }
        case Failure(message) =>
          error := Some(CaughtMessage(message, "Failed to delete blog"));
      }
    }

    /** The Edit button and the close button of the edit panel. */
    method SetEditing(b: Option<Blog>)
      modifies this`editing
      ensures editing == b
    {
      editing := b;
    }
  }
}
