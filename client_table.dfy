/** The admin clients table: its rows, the create/edit form, and the list
    updates after each request. */
module ClientTable {
  import opened Wrappers
  import opened ListUpdates
  import opened AdminCommon

  /** A client row; `phone` and `industry` are optional. */
  datatype Client = Client(id: string, name: string, email: string, company: string,
                           phone: Option<string>, industry: Option<string>)

  datatype ClientForm = ClientForm(name: string, email: string, company: string,
                                   phone: Option<string>, industry: Option<string>)

  const BlankForm := ClientForm("", "", "", None, None)

  function ClientId(c: Client): string {
    c.id
  }

  /** The request a handler sends to `/api/admin/clients`. */
  datatype Call = Post(form: ClientForm) | Put(id: string, form: ClientForm) | Delete(id: string)

  class ClientTableState {
    var clients: seq<Client>
    var loading: bool
    var form: ClientForm
    var editing: Option<Client>
    var error: Option<string>

    constructor ()
      ensures clients == [] && loading && form == BlankForm && editing == None && error == None
    {
      clients := [];
      loading := true;
      form := BlankForm;
      editing := None;
      error := None;
    }

    /** The load effect. A successful load leaves `error` as it was, and a
        thrown request shows the fixed message, not the thrown one. */
    method Load(signedIn: bool, result: Result<Reply<Option<seq<Client>>>, string>)
      modifies this`clients, this`error, this`loading
      ensures !signedIn ==> clients == old(clients) && error == old(error) && loading == old(loading)
      ensures signedIn ==> !loading
      ensures signedIn && result.Success? && result.value.success ==>
        clients == result.value.data.GetOr([]) && error == old(error)
      ensures signedIn && !(result.Success? && result.value.success) ==>
        clients == old(clients) && error == Some("Failed to load clients")
    {
      if !signedIn {
        return;
      }
      match result {
        case Success(reply) =>
          if reply.success {
            clients := reply.data.GetOr([]);
          } else {
            error := Some("Failed to load clients");
          }
        case Failure(_) =>
          error := Some("Failed to load clients");
      }
      loading := false;
    }

    /** `create`: prepend the returned client and clear the form. */
    method Create(signedIn: bool, result: Result<Reply<Client>, string>) returns (sent: Option<Call>)
      modifies this`clients, this`form, this`error
      ensures sent == (if signedIn then Some(Post(old(form))) else None)
      ensures sent.None? || !(result.Success? && result.value.success) ==>
        clients == old(clients) && form == old(form)
      ensures sent.Some? && result.Success? && result.value.success ==>
        clients == [result.value.data] + old(clients) && form == BlankForm && error == None
      ensures sent.Some? && result.Success? && !result.value.success ==> error == Some("Failed to create client")
      ensures sent.Some? && result.Failure? ==> error == Some(CaughtMessage(result.error, "Failed to create client"))
      ensures sent.None? ==> error == old(error)
    {
      if !signedIn {
        return None;
      }
      sent := Some(Post(form));
      match result {
        case Success(reply) =>
          if reply.success {
            clients := [reply.data] + clients;
            form := BlankForm;
            error := None;
          } else {
            error := Some("Failed to create client");
          }
        case Failure(message) =>
          error := Some(CaughtMessage(message, "Failed to create client"));
      }
    }

    /** `startEdit`: copy the row into the form; a missing phone or industry
        becomes the empty string. */
    method StartEdit(c: Client)
      modifies this`editing, this`form
      ensures editing == Some(c)
      ensures form == ClientForm(c.name, c.email, c.company, Some(OrElse(c.phone, "")), Some(OrElse(c.industry, "")))
    {
      editing := Some(c);
      form := ClientForm(c.name, c.email, c.company, Some(OrElse(c.phone, "")), Some(OrElse(c.industry, "")));
    }

    /** `save`: replace the row with the returned `_id`, stop editing and
        clear the form. */
    method Save(signedIn: bool, result: Result<Reply<Client>, string>) returns (sent: Option<Call>)
      modifies this`clients, this`form, this`error, this`editing
      ensures sent == (if signedIn && old(editing).Some? then Some(Put(old(editing).value.id, old(form))) else None)
      ensures sent.None? || !(result.Success? && result.value.success) ==>
        clients == old(clients) && form == old(form) && editing == old(editing)
      ensures sent.Some? && result.Success? && result.value.success ==>
        clients == ReplaceById(old(clients), ClientId, result.value.data)
        && editing == None && form == BlankForm && error == None
      ensures UniqueIds(old(clients), ClientId) ==> UniqueIds(clients, ClientId)
      ensures sent.Some? && result.Success? && !result.value.success ==> error == Some("Failed to update client")
      ensures sent.Some? && result.Failure? ==> error == Some(CaughtMessage(result.error, "Failed to update client"))
      ensures sent.None? ==> error == old(error)
    {
      if !signedIn || editing.None? {
        return None;
      }
      sent := Some(Put(editing.value.id, form));
      match result {
        case Success(reply) =>
          if reply.success {
            ReplaceKeepsIds(clients, ClientId, reply.data);
            clients := ReplaceById(clients, ClientId, reply.data);
            editing := None;
            form := BlankForm;
            error := None;
          } else {
            error := Some("Failed to update client");
          }
        case Failure(message) =>
          error := Some(CaughtMessage(message, "Failed to update client"));
      }
    }

    /** `remove`: after the user confirms, filter out the deleted `_id`. */
    method Remove(signedIn: bool, confirmed: bool, id: string, result: Result<Reply<()>, string>) returns (sent: Option<Call>)
      modifies this`clients, this`error
      ensures sent == (if signedIn && confirmed then Some(Delete(id)) else None)
      ensures sent.None? || !(result.Success? && result.value.success) ==> clients == old(clients)
      ensures sent.Some? && result.Success? && result.value.success ==>
        clients == RemoveById(old(clients), ClientId, id) && error == None && id !in Ids(clients, ClientId)
      ensures UniqueIds(old(clients), ClientId) ==> UniqueIds(clients, ClientId)
      ensures sent.Some? && result.Success? && !result.value.success ==> error == Some("Failed to delete client")
      ensures sent.Some? && result.Failure? ==> error == Some(CaughtMessage(result.error, "Failed to delete client"))
      ensures sent.None? ==> error == old(error)
    {
      if !signedIn || !confirmed {
        return None;
      }
      sent := Some(Delete(id));
      match result {
        case Success(reply) =>
          if reply.success {
            RemoveSpec(clients, ClientId, id);
            if UniqueIds(clients, ClientId) {
              FilterKeepsUnique(clients, ClientId, IdIsNot(ClientId, id));
            }
            clients := RemoveById(clients, ClientId, id);
            error := None;
          } else {
            error := Some("Failed to delete client");
          }
        case Failure(message) =>
          error := Some(CaughtMessage(message, "Failed to delete client"));
      }
    }

    /** `cancelEdit`. */
    method CancelEdit()
      modifies this`editing, this`form
      ensures editing == None && form == BlankForm
    {
      editing := None;
      form := BlankForm;
    }
  }
}
