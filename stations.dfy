/** `useStations`: the station list and the mutations on stations and on the
    station-product links. A mutation never patches the list itself; when its
    envelope says success it calls `getStations()` again, without awaiting it. */
module Stations {
  import opened Api

  /** StationT. */
  datatype Station = Station(id: int, name: string)

  const ListRequest: Request := Request(Get, "/api/stations", [])

  function CreateRequest(name: string): Request {
    Request(Post, "/api/station", [FormField("name", name)])
  }

  function DeleteRequest(id: int): Request {
    Request(Delete, "/api/station/" + NumberToString(id), [])
  }

  function LinkUrl(stationId: int, productId: int): string {
    "/api/station/" + NumberToString(stationId) + "/" + NumberToString(productId)
  }

  function AddProductRequest(stationId: int, productId: int): Request {
    Request(Post, LinkUrl(stationId, productId), [])
  }

  function RemoveProductRequest(stationId: int, productId: int): Request {
    Request(Delete, LinkUrl(stationId, productId), [])
  }

  /** `if (resp.success) setStations(resp.data)`: `data` is stored as sent, so a
      successful envelope with `data: null` leaves the list null. */
  function AfterList(prev: Option<seq<Station>>, reply: Reply<seq<Station>>): (r: Option<seq<Station>>)
    ensures Succeeded(reply) ==> r == reply.envelope.data
    ensures !Succeeded(reply) ==> r == prev
  {
    if Succeeded(reply) then reply.envelope.data else prev
  }

  class StationsStore {
    var stations: Option<seq<Station>>
    var sent: seq<Request>

    constructor ()
      ensures stations == Some([]) && sent == []
    {
      stations, sent := Some([]), [];
    }

    /** `getStations()`. */
    method GetStations(reply: Reply<seq<Station>>) returns (c: Completion<Envelope<seq<Station>>>)
      modifies this
      ensures sent == old(sent) + [ListRequest]
      ensures stations == AfterList(old(stations), reply)
      ensures c == Returned(reply)
    {
      sent := sent + [ListRequest];
      if reply.Thrown? {
        return Rejected;
      }
      if reply.envelope.success {
        stations := reply.envelope.data;
      }
      c := Resolved(reply.envelope);
    }

    /** The common shape of the four mutations: one request, then the re-fetch on
        success. `refetch` is what the re-fetch receives; its outcome never reaches
        the mutation's own promise. */
    method Mutate<T>(own: Request, reply: Reply<T>, refetch: Reply<seq<Station>>) returns (c: Completion<Envelope<T>>)
      modifies this
      ensures sent == old(sent) + MutationRequests(own, reply, ListRequest)
      ensures stations == if Succeeded(reply) then AfterList(old(stations), refetch) else old(stations)
      ensures c == Returned(reply)
    {
      sent := sent + [own];
      if reply.Thrown? {
        return Rejected;
      }
      if reply.envelope.success {
        var _ := GetStations(refetch);
      }
      c := Resolved(reply.envelope);
    }

    /** `createStation(name)`: POST with the form field `name`. */
    method CreateStation(name: string, reply: Reply<Station>, refetch: Reply<seq<Station>>)
      returns (c: Completion<Envelope<Station>>)
      modifies this
      ensures sent == old(sent) + MutationRequests(CreateRequest(name), reply, ListRequest)
      ensures stations == if Succeeded(reply) then AfterList(old(stations), refetch) else old(stations)
      ensures c == Returned(reply)
    {
      c := Mutate(CreateRequest(name), reply, refetch);
    }

    /** `deleteStation(id)`. */
    method DeleteStation(id: int, reply: Reply<()>, refetch: Reply<seq<Station>>)
      returns (c: Completion<Envelope<()>>)
      modifies this
      ensures sent == old(sent) + MutationRequests(DeleteRequest(id), reply, ListRequest)
      ensures stations == if Succeeded(reply) then AfterList(old(stations), refetch) else old(stations)
      ensures c == Returned(reply)
    {
      c := Mutate(DeleteRequest(id), reply, refetch);
    }

    /** `addProductToStation(stationId, productId)`. */
    method AddProductToStation(stationId: int, productId: int, reply: Reply<()>, refetch: Reply<seq<Station>>)
      returns (c: Completion<Envelope<()>>)
      modifies this
      ensures sent == old(sent) + MutationRequests(AddProductRequest(stationId, productId), reply, ListRequest)
      ensures stations == if Succeeded(reply) then AfterList(old(stations), refetch) else old(stations)
      ensures c == Returned(reply)
    {
      c := Mutate(AddProductRequest(stationId, productId), reply, refetch);
    }

    /** `removeProductFromStation(stationId, productId)`. */
    method RemoveProductFromStation(stationId: int, productId: int, reply: Reply<()>, refetch: Reply<seq<Station>>)
      returns (c: Completion<Envelope<()>>)
      modifies this
      ensures sent == old(sent) + MutationRequests(RemoveProductRequest(stationId, productId), reply, ListRequest)
      ensures stations == if Succeeded(reply) then AfterList(old(stations), refetch) else old(stations)
      ensures c == Returned(reply)
    {
      c := Mutate(RemoveProductRequest(stationId, productId), reply, refetch);
    }
  }
}
