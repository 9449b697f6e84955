/**
 The wrapped influxdb.NotificationEndpointService. Its implementation is
 not part of this model: what it answers is given by a `Backend` of
 response functions, one per method of the interface, and every call made
 to it is recorded in `log`, so that what the decorator asked of it can be
 stated.
 */
module Inner {
  import opened Influx

  datatype Backend = Backend(
    find: ID -> Result<Endpoint>,
    list: Filter -> Result<Page>,
    create: (Endpoint, ID) -> Option<Error>,
    update: (ID, Endpoint, ID) -> Result<Endpoint>,
    patch: (ID, EndpointUpdate) -> Result<Endpoint>,
    delete: ID -> Result<Deleted>)

  /** One call made to the wrapped service, with its arguments. */
  datatype Call =
    | FindByIDCall(id: ID)
    | FindManyCall(filter: Filter)
    | CreateCall(edp: Endpoint, userID: ID)
    | UpdateCall(id: ID, upd: Endpoint, userID: ID)
    | PatchCall(id: ID, patch: EndpointUpdate)
    | DeleteCall(id: ID)

  /**
   The list reply as a Go slice: a backing array and the reported count. The
   model assumes the wrapped service hands over an array it does not keep.
   */
  datatype Listing = Listing(items: array<Endpoint>, count: int)

  class InnerService {
    const backend: Backend
    var log: seq<Call>

    constructor (backend: Backend)
      ensures this.backend == backend && log == []
    {
      this.backend := backend;
      log := [];
    }

    method FindNotificationEndpointByID(id: ID) returns (r: Result<Endpoint>)
      modifies this`log
      ensures r == backend.find(id)
      ensures log == old(log) + [FindByIDCall(id)]
    {
      r := backend.find(id);
      log := log + [FindByIDCall(id)];
    }

    method FindNotificationEndpoints(filter: Filter) returns (r: Result<Listing>)
      modifies this`log
      ensures backend.list(filter).Err? ==> r == Err(backend.list(filter).error)
      ensures backend.list(filter).Ok? ==>
                && r.Ok? && fresh(r.value.items)
                && r.value.items[..] == backend.list(filter).value.items
                && r.value.count == backend.list(filter).value.count
      ensures log == old(log) + [FindManyCall(filter)]
    {
      log := log + [FindManyCall(filter)];
      match backend.list(filter)
      case Err(e) =>
        r := Err(e);
      case Ok(page) =>
        var items := new Endpoint[|page.items|](i requires 0 <= i < |page.items| => page.items[i]);
        r := Ok(Listing(items, page.count));
    }

    method CreateNotificationEndpoint(edp: Endpoint, userID: ID) returns (err: Option<Error>)
      modifies this`log
      ensures err == backend.create(edp, userID)
      ensures log == old(log) + [CreateCall(edp, userID)]
    {
      err := backend.create(edp, userID);
      log := log + [CreateCall(edp, userID)];
    }

    method UpdateNotificationEndpoint(id: ID, upd: Endpoint, userID: ID) returns (r: Result<Endpoint>)
      modifies this`log
      ensures r == backend.update(id, upd, userID)
      ensures log == old(log) + [UpdateCall(id, upd, userID)]
    {
      r := backend.update(id, upd, userID);
      log := log + [UpdateCall(id, upd, userID)];
    }

    method PatchNotificationEndpoint(id: ID, upd: EndpointUpdate) returns (r: Result<Endpoint>)
      modifies this`log
      ensures r == backend.patch(id, upd)
      ensures log == old(log) + [PatchCall(id, upd)]
    {
      r := backend.patch(id, upd);
      log := log + [PatchCall(id, upd)];
    }

    method DeleteNotificationEndpoint(id: ID) returns (r: Result<Deleted>)
      modifies this`log
      ensures r == backend.delete(id)
      ensures log == old(log) + [DeleteCall(id)]
    {
      r := backend.delete(id);
      log := log + [DeleteCall(id)];
    }
  }
}
