/**
 The authorizing NotificationEndpointService: a decorator in front of the
 wrapped service that checks a permission against the request's authorizer
 before every delegated call. Single-item reads and every write fail closed;
 the list operation drops the items the caller may not read.

 Each method of the decorator is proved against a function of the wrapped
 service's answers (`FindByIDResult`, `ListResult`, `CreateGate`,
 `WriteGate`); what those functions mean is stated in their contracts and in
 the lemmas here and in module AuthorizerProperties.
 */
module Authorizer {
  import opened Influx
  import opened Inner

  // ---------------------------------------------------------------------
  // Permissions and the two per-endpoint checks
  // ---------------------------------------------------------------------

  /** The permission to perform `a` on the endpoint `id` of organization `orgID`. */
  function EndpointPermission(a: Action, orgID: ID, id: ID): Permission {
    Permission(a, Resource(NotificationEndpointResourceType, Some(orgID), Some(id)))
  }

  /** The permission to perform `a` on notification endpoints of `orgID`, with no instance. */
  function OrgPermission(a: Action, orgID: ID): Permission {
    Permission(a, Resource(NotificationEndpointResourceType, Some(orgID), None))
  }

  /** A check passes when its permission is well formed and IsAllowed grants it. */
  predicate Granted(ctx: Ctx, p: Permission) {
    ctx.validate(p).None? && ctx.isAllowed(p).None?
  }

  predicate ReadAllowed(ctx: Ctx, e: Endpoint) {
    Granted(ctx, EndpointPermission(ReadAction, e.orgID, e.id))
  }

  predicate WriteAllowed(ctx: Ctx, e: Endpoint) {
    Granted(ctx, EndpointPermission(WriteAction, e.orgID, e.id))
  }

  /** newNotificationEndpointPermission */
  function NewNotificationEndpointPermission(ctx: Ctx, a: Action, orgID: ID, id: ID): (r: Result<Permission>)
    ensures r.Ok? <==> ctx.validate(EndpointPermission(a, orgID, id)).None?
    ensures r.Ok? ==> && r.value.action == a
                      && r.value.resource.rtype == NotificationEndpointResourceType
                      && r.value.resource.orgID == Some(orgID)
                      && r.value.resource.id == Some(id)
    ensures r.Err? ==> Some(r.error) == ctx.validate(EndpointPermission(a, orgID, id))
  {
    NewPermissionAtID(ctx, id, a, NotificationEndpointResourceType, orgID)
  }

  /** authorizeReadNotificationEndpoint: nil exactly when the read permission is granted. */
  function AuthorizeRead(ctx: Ctx, orgID: ID, id: ID): (err: Option<Error>)
    ensures err.None? <==> Granted(ctx, EndpointPermission(ReadAction, orgID, id))
    // a construction error is returned as it is, without consulting IsAllowed
    ensures ctx.validate(EndpointPermission(ReadAction, orgID, id)).Some? ==>
              err == ctx.validate(EndpointPermission(ReadAction, orgID, id))
    ensures ctx.validate(EndpointPermission(ReadAction, orgID, id)).None? ==>
              err == ctx.isAllowed(EndpointPermission(ReadAction, orgID, id))
  {
    match NewNotificationEndpointPermission(ctx, ReadAction, orgID, id)
    case Err(e) => Some(e)
    case Ok(p) =>
      match ctx.isAllowed(p)
      case Some(e) => Some(e)
      case None => None
  }

  /** authorizeWriteNotificationEndpoint: nil exactly when the write permission is granted. */
  function AuthorizeWrite(ctx: Ctx, orgID: ID, id: ID): (err: Option<Error>)
    ensures err.None? <==> Granted(ctx, EndpointPermission(WriteAction, orgID, id))
    // a construction error is returned as it is, without consulting IsAllowed
    ensures ctx.validate(EndpointPermission(WriteAction, orgID, id)).Some? ==>
              err == ctx.validate(EndpointPermission(WriteAction, orgID, id))
    ensures ctx.validate(EndpointPermission(WriteAction, orgID, id)).None? ==>
              err == ctx.isAllowed(EndpointPermission(WriteAction, orgID, id))
  {
    match NewNotificationEndpointPermission(ctx, WriteAction, orgID, id)
    case Err(e) => Some(e)
    case Ok(p) =>
      match ctx.isAllowed(p)
      case Some(e) => Some(e)
      case None => None
  }

  // ---------------------------------------------------------------------
  // Single-item read
  // ---------------------------------------------------------------------

  /** The authorizing find, given what the wrapped find answered. */
  function FindByIDResult(ctx: Ctx, found: Result<Endpoint>): (r: Result<Endpoint>)
    ensures found.Err? ==> r == found
    ensures r.Ok? <==> found.Ok? && ReadAllowed(ctx, found.value)
    ensures r.Ok? ==> r == found
    ensures found.Ok? && !ReadAllowed(ctx, found.value) ==>
              Some(r.error) == AuthorizeRead(ctx, found.value.orgID, found.value.id)
  {
    match found
    case Err(e) => Err(e)
    case Ok(edp) =>
      match AuthorizeRead(ctx, edp.orgID, edp.id)
      case Some(e) => Err(e)
      case None => Ok(edp)
  }

  // ---------------------------------------------------------------------
  // Writes
  // ---------------------------------------------------------------------

  /**
   What stops Update, Patch and Delete before the wrapped write: the
   authorizing find, then the write check on the endpoint it fetched. None
   when the wrapped write is to be called.
   */
  function WriteGate(ctx: Ctx, found: Result<Endpoint>): (err: Option<Error>)
    ensures err.None? <==> found.Ok? && ReadAllowed(ctx, found.value) && WriteAllowed(ctx, found.value)
    ensures found.Err? ==> err == Some(found.error)
    ensures found.Ok? && !ReadAllowed(ctx, found.value) ==>
              err == AuthorizeRead(ctx, found.value.orgID, found.value.id)
    ensures found.Ok? && ReadAllowed(ctx, found.value) ==>
              err == AuthorizeWrite(ctx, found.value.orgID, found.value.id)
  {
    match FindByIDResult(ctx, found)
    case Err(e) => Some(e)
    case Ok(edp) => AuthorizeWrite(ctx, edp.orgID, edp.id)
  }

  /** What stops Create before the wrapped create: the org-scoped write check. */
  function CreateGate(ctx: Ctx, edp: Endpoint): (err: Option<Error>)
    ensures err.None? <==> Granted(ctx, OrgPermission(WriteAction, edp.orgID))
    ensures ctx.validate(OrgPermission(WriteAction, edp.orgID)).Some? ==>
              err == ctx.validate(OrgPermission(WriteAction, edp.orgID))
    ensures ctx.validate(OrgPermission(WriteAction, edp.orgID)).None? ==>
              err == ctx.isAllowed(OrgPermission(WriteAction, edp.orgID))
  {
    match NewPermission(ctx, WriteAction, NotificationEndpointResourceType, edp.orgID)
    case Err(e) => Some(e)
    case Ok(p) => ctx.isAllowed(p)
  }

  // ---------------------------------------------------------------------
  // The list operation
  // ---------------------------------------------------------------------

  /** The filter names an organization or a valid user. */
  predicate Scoped(filter: Filter) {
    ValidID(filter.userID) || filter.orgID.Some?
  }

  const UnscopedFilterError: Error :=
    Error(EUnauthorized, "cannot process a request without a org or user filter")

  /** The read check on `e` failed with an error that is not an authorization denial. */
  predicate Fatal(ctx: Ctx, e: Endpoint) {
    var err := AuthorizeRead(ctx, e.orgID, e.id);
    err.Some? && ErrorCode(err) != Some(EUnauthorized)
  }

  /** The read check on `e` failed with an authorization denial. */
  predicate Denied(ctx: Ctx, e: Endpoint) {
    ErrorCode(AuthorizeRead(ctx, e.orgID, e.id)) == Some(EUnauthorized)
  }

  /** The items of `s` the caller may read, in their order in `s`. */
  function Keep(ctx: Ctx, s: seq<Endpoint>): seq<Endpoint> {
    if s == [] then []
    else (if ReadAllowed(ctx, s[0]) then [s[0]] else []) + Keep(ctx, s[1..])
  }

  /** The error of the first item of `s` whose read check is fatal, if any. */
  function FirstFatal(ctx: Ctx, s: seq<Endpoint>): Option<Error> {
    if s == [] then None
    else if Fatal(ctx, s[0]) then AuthorizeRead(ctx, s[0].orgID, s[0].id)
    else FirstFatal(ctx, s[1..])
  }

  /** The authorizing list, given what the wrapped list would answer. */
  function ListResult(ctx: Ctx, filter: Filter, listed: Result<Page>): (r: Result<Page>)
    ensures !Scoped(filter) ==> r == Err(UnscopedFilterError)
    ensures Scoped(filter) && listed.Err? ==> r == Err(listed.error)
    ensures r.Ok? ==> r.value.count == |r.value.items|
  {
    if !Scoped(filter) then Err(UnscopedFilterError)
    else
      match listed
      case Err(e) => Err(e)
      case Ok(page) =>
        match FirstFatal(ctx, page.items)
        case Some(e) => Err(e)
        case None =>
          var kept := Keep(ctx, page.items);
          Ok(Page(kept, |kept|))
  }

  lemma {:induction false} KeepSnoc(ctx: Ctx, s: seq<Endpoint>, e: Endpoint)
    ensures Keep(ctx, s + [e]) == Keep(ctx, s) + (if ReadAllowed(ctx, e) then [e] else [])
  {
    if s == [] {
      assert Keep(ctx, [e]) == (if ReadAllowed(ctx, e) then [e] else []) + Keep(ctx, []);
    } else {
      assert (s + [e])[0] == s[0];
      assert (s + [e])[1..] == s[1..] + [e];
      KeepSnoc(ctx, s[1..], e);
    }
  }

  lemma {:induction false} FirstFatalNoneIff(ctx: Ctx, s: seq<Endpoint>)
    ensures FirstFatal(ctx, s).None? <==> forall i :: 0 <= i < |s| ==> !Fatal(ctx, s[i])
  {
    if s != [] {
      FirstFatalNoneIff(ctx, s[1..]);
      assert forall i :: 1 <= i < |s| ==> s[i] == s[1..][i - 1];
    }
  }

  lemma {:induction false} FirstFatalAt(ctx: Ctx, s: seq<Endpoint>, i: nat)
    requires i < |s| && Fatal(ctx, s[i])
    requires forall j :: 0 <= j < i ==> !Fatal(ctx, s[j])
    ensures FirstFatal(ctx, s) == AuthorizeRead(ctx, s[i].orgID, s[i].id)
    ensures FirstFatal(ctx, s).Some?
  {
    if i > 0 {
      assert s[1..][i - 1] == s[i];
      assert forall j :: 0 <= j < i - 1 ==> s[1..][j] == s[j + 1];
      FirstFatalAt(ctx, s[1..], i - 1);
    }
  }

  // ---------------------------------------------------------------------
  // The decorator
  // ---------------------------------------------------------------------

  class NotificationEndpointService {
    /** The wrapped service. */
    const s: InnerService

    /** NewNotificationEndpointService */
    constructor (s: InnerService)
      ensures this.s == s
    {
      this.s := s;
    }

    /** Fetches the endpoint, then checks read access to its own org and id. */
    method FindNotificationEndpointByID(ctx: Ctx, id: ID) returns (r: Result<Endpoint>)
      modifies s`log
      ensures r == FindByIDResult(ctx, s.backend.find(id))
      ensures s.log == old(s.log) + [FindByIDCall(id)]
    {
      var found := s.FindNotificationEndpointByID(id);
      if found.Err? {
        return Err(found.error);
      }
      var edp := found.value;
      var err := AuthorizeRead(ctx, edp.orgID, edp.id);
      if err.Some? {
        return Err(err.value);
      }
      return Ok(edp);
    }

    /**
     Rejects an unscoped filter before touching the wrapped service; otherwise
     filters the wrapped list in place, keeping the items whose read check
     passes, dropping the denied ones and aborting on any other error.
     */
    method FindNotificationEndpoints(ctx: Ctx, filter: Filter) returns (r: Result<Page>)
      modifies s`log
      ensures r == ListResult(ctx, filter, s.backend.list(filter))
      ensures s.log == old(s.log) + (if Scoped(filter) then [FindManyCall(filter)] else [])
    {
      if !ValidID(filter.userID) && filter.orgID == None {
        return Err(UnscopedFilterError);
      }
      var listed := s.FindNotificationEndpoints(filter);
      if listed.Err? {
        return Err(listed.error);
      }
      var edps := listed.value.items;
      ghost var all := edps[..];
      // `endpoints := edps[:0]`: the kept items are edps[..n]
      var n := 0;
      for i := 0 to edps.Length
        modifies edps
        invariant n <= i
        invariant edps[..n] == Keep(ctx, all[..i])
        // the in-place writes never reach an item not yet read
        invariant forall j :: i <= j < edps.Length ==> edps[j] == all[j]
        invariant forall j :: 0 <= j < i ==> !Fatal(ctx, all[j])
      {
        var edp := edps[i];
        var err := AuthorizeRead(ctx, edp.orgID, edp.id);
        if err.Some? && ErrorCode(err) != Some(EUnauthorized) {
          FirstFatalAt(ctx, all, i);
          return Err(err.value);
        }
        assert all[..i + 1] == all[..i] + [edp];
        KeepSnoc(ctx, all[..i], edp);
        if ErrorCode(err) == Some(EUnauthorized) {
          continue;
        }
        ghost var kept := edps[..n];
        edps[n] := edp;
        assert edps[..n + 1] == kept + [edp];
        n := n + 1;
      }
      FirstFatalNoneIff(ctx, all);
      assert all[..edps.Length] == all;
      return Ok(Page(edps[..n], n));
    }

    /** Checks write access to the organization the new endpoint declares, then creates it. */
    method CreateNotificationEndpoint(ctx: Ctx, edp: Endpoint, userID: ID) returns (err: Option<Error>)
      modifies s`log
      ensures var gate := CreateGate(ctx, edp);
              err == if gate.None? then s.backend.create(edp, userID) else gate
      ensures s.log == old(s.log) + (if CreateGate(ctx, edp).None? then [CreateCall(edp, userID)] else [])
    {
      var p := NewPermission(ctx, WriteAction, NotificationEndpointResourceType, edp.orgID);
      if p.Err? {
        return Some(p.error);
      }
      var denied := ctx.isAllowed(p.value);
      if denied.Some? {
        return denied;
      }
      err := s.CreateNotificationEndpoint(edp, userID);
    }

    /** Reads the endpoint through the authorizing find, checks write access to it, then updates. */
    method UpdateNotificationEndpoint(ctx: Ctx, id: ID, upd: Endpoint, userID: ID) returns (r: Result<Endpoint>)
      modifies s`log
      ensures var gate := WriteGate(ctx, s.backend.find(id));
              r == if gate.None? then s.backend.update(id, upd, userID) else Err(gate.value)
      ensures s.log == old(s.log) + [FindByIDCall(id)]
                       + (if WriteGate(ctx, s.backend.find(id)).None? then [UpdateCall(id, upd, userID)] else [])
    {
      var found := FindNotificationEndpointByID(ctx, id);
      if found.Err? {
        return Err(found.error);
      }
      var edp := found.value;
      var err := AuthorizeWrite(ctx, edp.orgID, edp.id);
      if err.Some? {
        return Err(err.value);
      }
      r := s.UpdateNotificationEndpoint(id, upd, userID);
    }

    /** Reads the endpoint through the authorizing find, checks write access to it, then patches. */
    method PatchNotificationEndpoint(ctx: Ctx, id: ID, upd: EndpointUpdate) returns (r: Result<Endpoint>)
      modifies s`log
      ensures var gate := WriteGate(ctx, s.backend.find(id));
              r == if gate.None? then s.backend.patch(id, upd) else Err(gate.value)
      ensures s.log == old(s.log) + [FindByIDCall(id)]
                       + (if WriteGate(ctx, s.backend.find(id)).None? then [PatchCall(id, upd)] else [])
    {
      var found := FindNotificationEndpointByID(ctx, id);
      if found.Err? {
        return Err(found.error);
      }
      var edp := found.value;
      var err := AuthorizeWrite(ctx, edp.orgID, edp.id);
      if err.Some? {
        return Err(err.value);
      }
      r := s.PatchNotificationEndpoint(id, upd);
    }

    /** Reads the endpoint through the authorizing find, checks write access to it, then deletes. */
    method DeleteNotificationEndpoint(ctx: Ctx, id: ID) returns (r: Result<Deleted>)
      modifies s`log
      ensures var gate := WriteGate(ctx, s.backend.find(id));
              r == if gate.None? then s.backend.delete(id) else Err(gate.value)
      ensures s.log == old(s.log) + [FindByIDCall(id)]
                       + (if WriteGate(ctx, s.backend.find(id)).None? then [DeleteCall(id)] else [])
    {
      var found := FindNotificationEndpointByID(ctx, id);
      if found.Err? {
        return Err(found.error);
      }
      var edp := found.value;
      var err := AuthorizeWrite(ctx, edp.orgID, edp.id);
      if err.Some? {
        return Err(err.value);
      }
      r := s.DeleteNotificationEndpoint(id);
    }
  }
}
