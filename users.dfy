/** `useUsers`: the user list and the user mutations. Unlike the station list, the
    user list is only replaced when the envelope carries data. */
module Users {
  import opened Api

  /** UserT. */
  datatype User = User(id: int, username: string, stationId: int)

  const ListRequest: Request := Request(Get, "/api/users", [])

  /** `createUser(username, password, stationId = 0)`: the three form fields. */
  function CreateRequest(username: string, password: string, stationId: Option<int>): Request {
    Request(Post, "/api/user", [
      FormField("username", username),
      FormField("password", password),
      FormField("station_id", NumberToString(stationId.GetOr(0)))])
  }

  function DeleteRequest(id: int): Request {
    Request(Delete, "/api/user/" + NumberToString(id), [])
  }

  /** `if (resp.success && !!resp.data) setUsers(resp.data)`. */
  function AfterList(prev: seq<User>, reply: Reply<seq<User>>): (r: seq<User>)
    ensures Succeeded(reply) && reply.envelope.data.Some? ==> r == reply.envelope.data.value
    ensures !(Succeeded(reply) && reply.envelope.data.Some?) ==> r == prev
  {
    if Succeeded(reply) && reply.envelope.data.Some? then reply.envelope.data.value else prev
  }

  class UsersStore {
    var users: seq<User>
    var sent: seq<Request>

    constructor ()
      ensures users == [] && sent == []
    {
      users, sent := [], [];
    }

    /** `getUsers()`. */
    method GetUsers(reply: Reply<seq<User>>) returns (c: Completion<Envelope<seq<User>>>)
      modifies this
      ensures sent == old(sent) + [ListRequest]
      ensures users == AfterList(old(users), reply)
      ensures c == Returned(reply)
    {
      sent := sent + [ListRequest];
      if reply.Thrown? {
        return Rejected;
      }
      var env := reply.envelope;
      if env.success && env.data.Some? {
        users := env.data.value;
      }
      c := Resolved(env);
    }

    method Mutate(own: Request, reply: Reply<()>, refetch: Reply<seq<User>>) returns (c: Completion<Envelope<()>>)
      modifies this
      ensures sent == old(sent) + MutationRequests(own, reply, ListRequest)
      ensures users == if Succeeded(reply) then AfterList(old(users), refetch) else old(users)
      ensures c == Returned(reply)
    {
      sent := sent + [own];
      if reply.Thrown? {
        return Rejected;
      }
      if reply.envelope.success {
        var _ := GetUsers(refetch);
      }
      c := Resolved(reply.envelope);
    }

    /** `createUser(username, password, stationId)`. */
    method CreateUser(username: string, password: string, stationId: Option<int>, reply: Reply<()>,
                      refetch: Reply<seq<User>>) returns (c: Completion<Envelope<()>>)
      modifies this
      ensures sent == old(sent) + MutationRequests(CreateRequest(username, password, stationId), reply, ListRequest)
      ensures users == if Succeeded(reply) then AfterList(old(users), refetch) else old(users)
      ensures c == Returned(reply)
    {
      c := Mutate(CreateRequest(username, password, stationId), reply, refetch);
    }

    /** `deleteUser(userId)`. */
    method DeleteUser(id: int, reply: Reply<()>, refetch: Reply<seq<User>>) returns (c: Completion<Envelope<()>>)
      modifies this
      ensures sent == old(sent) + MutationRequests(DeleteRequest(id), reply, ListRequest)
      ensures users == if Succeeded(reply) then AfterList(old(users), refetch) else old(users)
      ensures c == Returned(reply)
    {
      c := Mutate(DeleteRequest(id), reply, refetch);
    }
  }
}
