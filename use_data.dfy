/** The data hook of hooks/use-data.tsx: the cached rows (`data`), the
    `loading` flag and the last fetch `error`, and the operations that
    change them. Each call to the hosted store is a `Remote` parameter that
    says how the call settled; the ghost `Sent` log records every request
    the hook issues, so that "without contacting the store" can be stated. */
module UseData {
  import opened Schema
  import opened DataCache

  const FetchFallback := "An error occurred"
  const UnauthenticatedMessage := "User not authenticated"
  const CreateFallback := "Failed to create data"
  const UpdateFallback := "Failed to update data"
  const DeleteFallback := "Failed to delete data"
  const ProjectFetchFallback := "Failed to fetch data"

  /** A request to the `data` table. Every select is ordered by `created_at`
      descending; the optional parts are the equality filters applied. */
  datatype Request =
    | SelectOwned(userId: string, projectId: Option<string>, kind: Option<DataType>)
    | Insert(fields: NewData, userId: string)
    | Update(id: string, changes: DataUpdate)
    | Delete(id: string)
    | SelectByProject(project: string, kind: Option<DataType>)

  /** The `{ data, error }` value the mutating operations return. */
  datatype Reply<+T> = Reply(data: Option<T>, error: Option<string>)

  /** `err instanceof Error ? err.message : fallback`. */
  function ErrorMessage(thrown: Option<string>, fallback: string): (msg: string)
    ensures thrown.Some? ==> msg == thrown.value
    ensures thrown.None? ==> msg == fallback
  {
    thrown.GetOr(fallback)
  }

  /** `if (projectId)`: an absent or empty project id applies no filter. */
  function ProjectFilter(projectId: Option<string>): (f: Option<string>)
    ensures f.Some? <==> projectId.Some? && projectId.value != ""
    ensures f.Some? ==> f == projectId
  {
    if projectId.Some? && projectId.value != "" then projectId else None
  }

  class DataHook {
    /** The signed-in user's id, or None when no one is signed in. */
    const user: Option<string>
    /** The hook's optional project and type scope. */
    const projectId: Option<string>
    const scopeType: Option<DataType>

    var data: seq<DataItem>
    var loading: bool
    var error: Option<string>
    ghost var Sent: seq<Request>

    /** `useState([])`, `useState(true)`, `useState(null)`. */
    constructor (user: Option<string>, projectId: Option<string>, scopeType: Option<DataType>)
      ensures this.user == user && this.projectId == projectId && this.scopeType == scopeType
      ensures data == [] && loading && error == None && Sent == []
    {
      this.user := user;
      this.projectId := projectId;
      this.scopeType := scopeType;
      data := [];
      loading := true;
      error := None;
      Sent := [];
    }

    /** `fetchData`. Signed out: the cache is emptied, loading ends, the
        error is left as it was and no request is sent. Signed in: one
        select over the owner's rows (narrowed by the scope); on success the
        cache becomes the result (empty for a null result) and the error is
        cleared; on failure the cache is kept and the error is the thrown
        message or the fallback. Loading ends false in every case. */
    method FetchData(response: Remote<Option<seq<DataItem>>>)
      modifies this
      ensures !loading
      ensures user.None? ==> data == [] && error == old(error) && Sent == old(Sent)
      ensures user.Some? ==>
        Sent == old(Sent) + [SelectOwned(user.value, ProjectFilter(projectId), scopeType)]
      ensures user.Some? && response.Ok? ==> data == response.value.GetOr([]) && error == None
      ensures user.Some? && response.Err? ==>
        data == old(data) && error == Some(ErrorMessage(response.thrown, FetchFallback))
    {
      if user.None? {
        data := [];
        loading := false;
        return;
      }
      loading := true;
      error := None;
      Sent := Sent + [SelectOwned(user.value, ProjectFilter(projectId), scopeType)];
      match response {
        case Ok(rows) =>
          data := rows.GetOr([]);
        case Err(thrown) =>
          error := Some(ErrorMessage(thrown, FetchFallback));
      }
      loading := false;
    }

    /** `refreshData`: a fetch with the hook's current scope. */
    method RefreshData(response: Remote<Option<seq<DataItem>>>)
      modifies this
      ensures !loading
      ensures user.None? ==> data == [] && error == old(error) && Sent == old(Sent)
      ensures user.Some? ==>
        Sent == old(Sent) + [SelectOwned(user.value, ProjectFilter(projectId), scopeType)]
      ensures user.Some? && response.Ok? ==> data == response.value.GetOr([]) && error == None
      ensures user.Some? && response.Err? ==>
        data == old(data) && error == Some(ErrorMessage(response.thrown, FetchFallback))
    {
      FetchData(response);
    }

    /** `createData`. Signed out: rejected locally, nothing sent, nothing
        changed. Signed in: the fields are inserted with the user's id; the
        returned row goes in front of the cache, or on failure the cache is
        untouched and the reply carries the message. `loading` and `error`
        are never touched. */
    method CreateData(fields: NewData, response: Remote<DataItem>) returns (reply: Reply<DataItem>)
      modifies this`data, this`Sent
      ensures user.None? ==>
        reply == Reply(None, Some(UnauthenticatedMessage)) && data == old(data) && Sent == old(Sent)
      ensures user.Some? ==> Sent == old(Sent) + [Insert(fields, user.value)]
      ensures user.Some? && response.Ok? ==>
        reply == Reply(Some(response.value), None) && data == Prepend(response.value, old(data))
      ensures user.Some? && response.Err? ==>
        reply == Reply(None, Some(ErrorMessage(response.thrown, CreateFallback))) && data == old(data)
    {
      if user.None? {
        return Reply(None, Some(UnauthenticatedMessage));
      }
      Sent := Sent + [Insert(fields, user.value)];
      match response {
        case Ok(created) =>
          data := Prepend(created, data);
          reply := Reply(Some(created), None);
        case Err(thrown) =>
          reply := Reply(None, Some(ErrorMessage(thrown, CreateFallback)));
      }
    }

    /** `updateData`: no sign-in check. On success every cached row with
        that id becomes the returned row; on failure the cache is untouched. */
    method UpdateData(id: string, changes: DataUpdate, response: Remote<DataItem>) returns (reply: Reply<DataItem>)
      modifies this`data, this`Sent
      ensures Sent == old(Sent) + [Update(id, changes)]
      ensures response.Ok? ==>
        reply == Reply(Some(response.value), None) && data == ReplaceById(old(data), id, response.value)
      ensures response.Err? ==>
        reply == Reply(None, Some(ErrorMessage(response.thrown, UpdateFallback))) && data == old(data)
    {
      Sent := Sent + [Update(id, changes)];
      match response {
        case Ok(updated) =>
          data := ReplaceById(data, id, updated);
          reply := Reply(Some(updated), None);
        case Err(thrown) =>
          reply := Reply(None, Some(ErrorMessage(thrown, UpdateFallback)));
      }
    }

    /** `deleteData`: no sign-in check. On success every cached row with
        that id is dropped; on failure the cache is untouched. Returns the
        reply's `error`. */
    method DeleteData(id: string, response: Remote<()>) returns (err: Option<string>)
      modifies this`data, this`Sent
      ensures Sent == old(Sent) + [Delete(id)]
      ensures response.Ok? ==> err == None && data == RemoveById(old(data), id)
      ensures response.Err? ==>
        err == Some(ErrorMessage(response.thrown, DeleteFallback)) && data == old(data)
    {
      Sent := Sent + [Delete(id)];
      match response {
        case Ok(_) =>
          data := RemoveById(data, id);
          err := None;
        case Err(thrown) =>
          err := Some(ErrorMessage(thrown, DeleteFallback));
      }
    }

    /** `getDataByProject`: an ad hoc select by project (and optional type),
        not by owner. The result, null included, is handed back as it is;
        the cache, `loading` and `error` are never touched. */
    method GetDataByProject(pid: string, kind: Option<DataType>, response: Remote<Option<seq<DataItem>>>)
      returns (reply: Reply<seq<DataItem>>)
      modifies this`Sent
      ensures Sent == old(Sent) + [SelectByProject(pid, kind)]
      ensures response.Ok? ==> reply == Reply(response.value, None)
      ensures response.Err? ==> reply == Reply(None, Some(ErrorMessage(response.thrown, ProjectFetchFallback)))
    {
      Sent := Sent + [SelectByProject(pid, kind)];
      match response {
        case Ok(rows) =>
          reply := Reply(rows, None);
        case Err(thrown) =>
          reply := Reply(None, Some(ErrorMessage(thrown, ProjectFetchFallback)));
      }
    }
  }

  /** A client of the hook: a create followed by a delete of the created
      row, both succeeding, leaves the cache as it was when the store
      handed out a fresh id; a failed update in between changes nothing. */
  method CreateUpdateDelete(hook: DataHook, fields: NewData, created: DataItem, changes: DataUpdate, thrown: Option<string>)
    requires hook.user.Some?
    requires !HasId(hook.data, created.id)
    modifies hook
    ensures hook.data == old(hook.data)
    ensures hook.loading == old(hook.loading) && hook.error == old(hook.error)
  {
    var r1 := hook.CreateData(fields, Ok(created));
    var r2 := hook.UpdateData(created.id, changes, Err(thrown));
    assert r2.error.Some?;
    var e := hook.DeleteData(created.id, Ok(()));
    DeleteUndoesCreate(created, old(hook.data));
  }
}
