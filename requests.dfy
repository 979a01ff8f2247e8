/**
 * The request state machine of hooks/useAuthenticatedRequest.ts and the list kept by its
 * `useCrudOperations`. A request's outcome (the awaited response, or the error it rejects with)
 * is an input; `logout()` is counted.
 */
module Requests {
  import opened Wrappers
  import opened Sequences

  /** What a failed request rejects with: the response status and body message, if there was a
      response, and the error's own message. */
  datatype Failure = Failure(status: Option<int>, bodyMessage: Option<string>, message: Option<string>)

  datatype Response<T> = Ok(data: T) | Err(failure: Failure)

  /** How the awaited call ends for its caller: it returns a value or `null`, or it rethrows. */
  datatype Outcome<T> = Returned(value: Option<T>) | Rethrown(failure: Failure)

  const Unauthorized: int := 401
  const DefaultError: string := "Error en la petición"

  predicate Truthy(s: Option<string>) {
    s.Some? && s.value != ""
  }

  /** `error.response?.data?.message || error.message || 'Error en la petición'`. */
  function ErrorMessage(f: Failure): (m: string)
    ensures m != ""
    ensures Truthy(f.bodyMessage) ==> m == f.bodyMessage.value
    ensures !Truthy(f.bodyMessage) && Truthy(f.message) ==> m == f.message.value
    ensures !Truthy(f.bodyMessage) && !Truthy(f.message) ==> m == DefaultError
  {
    if Truthy(f.bodyMessage) then f.bodyMessage.value
    else if Truthy(f.message) then f.message.value
    else DefaultError
  }

  /** The `{ data, loading, error }` state of `useAuthenticatedRequest`. */
  class RequestState<T> {
    var data: Option<T>
    var loading: bool
    var error: Option<string>
    var logouts: nat

    constructor ()
      ensures data == None && !loading && error == None && logouts == 0
    {
      data, loading, error := None, false, None;
      logouts := 0;
    }

    /** `execute`: loading with the error cleared, then, by outcome: the data stored and
        returned; on a 401 a logout and `null`, with the state left loading; on any other
        failure the message recorded, the data kept, and the error rethrown. */
    method Execute(response: Response<T>) returns (out: Outcome<T>)
      modifies this
      ensures response.Ok? ==>
        (data == Some(response.data) && !loading && error == None && logouts == old(logouts)
         && out == Returned(Some(response.data)))
      ensures response.Err? && response.failure.status == Some(Unauthorized) ==>
        (data == old(data) && loading && error == None && logouts == old(logouts) + 1
         && out == Returned(None))
      ensures response.Err? && response.failure.status != Some(Unauthorized) ==>
        (data == old(data) && !loading && error == Some(ErrorMessage(response.failure))
         && logouts == old(logouts) && out == Rethrown(response.failure))
    {
      loading, error := true, None;
      match response
      case Ok(d) =>
        data, loading, error := Some(d), false, None;
        out := Returned(Some(d));
      case Err(f) =>
        if f.status == Some(Unauthorized) {
          logouts := logouts + 1;
          out := Returned(None);
        } else {
          loading, error := false, Some(ErrorMessage(f));
          out := Rethrown(f);
        }
    }

    /** `reset`. */
    method Reset()
      modifies this`data, this`loading, this`error
      ensures data == None && !loading && error == None
    {
      data, loading, error := None, false, None;
    }
  }

  // -----------------------------------------------------------------------------------------------
  // The CRUD list

  /** An item of the list: `T extends { id: number }`. */
  datatype Record<T> = Record(id: int, body: T)

  predicate HasId<T>(items: seq<Record<T>>, id: int) {
    exists i :: 0 <= i < |items| && items[i].id == id
  }

  function ReplaceWith<T>(id: int, x: Record<T>): Record<T> -> Record<T> {
    (item: Record<T>) => if item.id == id then x else item
  }

  function OtherId<T>(id: int): Record<T> -> bool {
    (item: Record<T>) => item.id != id
  }

  /** `update`'s updater `prev.map(item => item.id === id ? updatedItem : item)`. */
  function ReplaceId<T>(items: seq<Record<T>>, id: int, x: Record<T>): seq<Record<T>> {
    Map(items, ReplaceWith(id, x))
  }

  /** `remove`'s updater `prev.filter(item => item.id !== id)`. */
  function RemoveId<T>(items: seq<Record<T>>, id: int): seq<Record<T>> {
    Filter(items, OtherId(id))
  }

  /** `update` replaces every item with that id by the returned item and leaves the others in
      place; it changes nothing when no item has the id. */
  lemma ReplaceIdSpec<T>(items: seq<Record<T>>, id: int, x: Record<T>)
    ensures var r := ReplaceId(items, id, x);
      && |r| == |items|
      && (forall i :: 0 <= i < |items| && items[i].id == id ==> r[i] == x)
      && (forall i :: 0 <= i < |items| && items[i].id != id ==> r[i] == items[i])
      && (!HasId(items, id) ==> r == items)
  {
  }

  /** `remove` deletes exactly the items with that id, keeping the others in order. */
  lemma {:induction false} RemoveIdSpec<T>(items: seq<Record<T>>, id: int)
    ensures var r := RemoveId(items, id);
      && (forall x :: x in r <==> x in items && x.id != id)
      && !HasId(r, id)
      && SubsequenceOf(r, items)
      && (!HasId(items, id) ==> r == items)
  {
    var r := RemoveId(items, id);
    FilterSpec(items, OtherId(id));
    forall i | 0 <= i < |r| ensures r[i].id != id {
      MemberOfRemoveId(items, id, r[i]);
    }
  }

  lemma MemberOfRemoveId<T>(items: seq<Record<T>>, id: int, y: Record<T>)
    requires y in RemoveId(items, id)
    ensures y in items && y.id != id
  {
    FilterSpec(items, OtherId(id));
  }

  /** `useCrudOperations`: the item list beside the request state it fetches through. */
  class Crud<T> {
    const request: RequestState<seq<Record<T>>>
    var items: seq<Record<T>>

    constructor ()
      ensures fresh(request) && items == []
      ensures request.data == None && !request.loading && request.error == None
    {
      request := new RequestState();
      items := [];
    }

    /** `fetchAll`: through `execute`; the list is replaced only when a list came back. */
    method FetchAll(response: Response<seq<Record<T>>>) returns (out: Outcome<seq<Record<T>>>)
      modifies this`items, request
      ensures response.Ok? ==>
        (items == response.data && out == Returned(Some(response.data))
         && request.data == Some(response.data) && !request.loading && request.error == None
         && request.logouts == old(request.logouts))
      ensures response.Err? ==> items == old(items) && request.data == old(request.data)
      ensures response.Err? && response.failure.status == Some(Unauthorized) ==>
        (out == Returned(None) && request.loading && request.error == None
         && request.logouts == old(request.logouts) + 1)
      ensures response.Err? && response.failure.status != Some(Unauthorized) ==>
        (out == Rethrown(response.failure) && !request.loading
         && request.error == Some(ErrorMessage(response.failure))
         && request.logouts == old(request.logouts))
    {
      out := request.Execute(response);
      if out.Returned? && out.value.Some? {
        items := out.value.value;
      }
    }

    /** `create`: the returned item appended at the end; a failure rethrown, list unchanged. */
    method Create(response: Response<Record<T>>) returns (out: Outcome<Record<T>>)
      modifies this`items
      ensures response.Ok? ==> items == old(items) + [response.data] && out == Returned(Some(response.data))
      ensures response.Err? ==> items == old(items) && out == Rethrown(response.failure)
    {
      match response
      case Ok(x) =>
        items := items + [x];
        out := Returned(Some(x));
      case Err(f) =>
        out := Rethrown(f);
    }

    /** `update`. */
    method Update(id: int, response: Response<Record<T>>) returns (out: Outcome<Record<T>>)
      modifies this`items
      ensures response.Ok? ==>
        (items == ReplaceId(old(items), id, response.data) && out == Returned(Some(response.data)))
      ensures response.Err? ==> items == old(items) && out == Rethrown(response.failure)
    {
      match response
      case Ok(x) =>
        items := ReplaceId(items, id, x);
        out := Returned(Some(x));
      case Err(f) =>
        out := Rethrown(f);
    }

    /** `remove`: resolves with nothing on success. */
    method Remove(id: int, response: Response<()>) returns (out: Outcome<()>)
      modifies this`items
      ensures response.Ok? ==> items == RemoveId(old(items), id) && out == Returned(None)
      ensures response.Err? ==> items == old(items) && out == Rethrown(response.failure)
    {
      match response
      case Ok(_) =>
        items := RemoveId(items, id);
        out := Returned(None);
      case Err(f) =>
        out := Rethrown(f);
    }
  }

  /** A 401 leaves the request looking busy: `loading` stays true until the next call or a
      reset, and the error is the cleared one. */
  method UnauthorizedStaysLoading(f: Failure) returns (loading: bool, error: Option<string>, logouts: nat)
    requires f.status == Some(Unauthorized)
    ensures loading && error == None && logouts == 1
  {
    var r := new RequestState<int>();
    var _ := r.Execute(Err(f));
    loading, error, logouts := r.loading, r.error, r.logouts;
  }
}
