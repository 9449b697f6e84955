/**
 The types of the influxdb package that the authorizing notification
 endpoint service works with: identifiers, error codes, permissions, the
 endpoint itself (reduced to its organization and its own id), the list
 filter, and the two collaborators whose code is not part of this model
 (permission validation and IsAllowed), given as oracles.
 */
module Influx {

  /** influxdb.ID is an unsigned 64-bit integer. */
  type ID = x: int | 0 <= x < 0x1_0000_0000_0000_0000

  /** ID.Valid: the zero ID is the invalid one. */
  predicate ValidID(id: ID) {
    id != 0
  }

  datatype Option<+T> = None | Some(value: T)

  /** The error codes of influxdb.Error; only EUnauthorized drives behaviour here. */
  datatype Code = EInternal | ENotFound | EConflict | EInvalid | EUnauthorized | EForbidden

  /**
   An error as the decorator sees it. `code` stands for what influxdb.ErrorCode
   reports for the error: EInternal for an error that is not an influxdb.Error,
   and the wrapped error's code when an influxdb.Error has an empty Code. The
   choice between dropping an item and aborting the list depends on this code.
   */
  datatype Error = Error(code: Code, msg: string)

  /** A Go (value, error) pair whose two halves are never both set. */
  datatype Result<+T> = Ok(value: T) | Err(error: Error)

  /** influxdb.ErrorCode: the code of an error, and no code (Go's "") for nil. */
  function ErrorCode(err: Option<Error>): Option<Code> {
    match err
    case None => None
    case Some(e) => Some(e.code)
  }

  datatype Action = ReadAction | WriteAction

  datatype ResourceType = NotificationEndpointResourceType

  /** A resource scope: a type, optionally narrowed to an organization and an instance. */
  datatype Resource = Resource(rtype: ResourceType, orgID: Option<ID>, id: Option<ID>)

  datatype Permission = Permission(action: Action, resource: Resource)

  /**
   What a call needs of its surroundings and of code outside this model:
   `validate` is the check Permission.Valid makes when NewPermission or
   NewPermissionAtID builds a permission (None when it is well formed), and
   `isAllowed` is IsAllowed's verdict for the authorizer attached to the
   request's context (None when allowed).
   */
  datatype Ctx = Ctx(validate: Permission -> Option<Error>, isAllowed: Permission -> Option<Error>)

  /** NewPermissionAtID: a permission scoped to one instance of an organization. */
  function NewPermissionAtID(ctx: Ctx, id: ID, a: Action, rt: ResourceType, orgID: ID): Result<Permission> {
    var p := Permission(a, Resource(rt, Some(orgID), Some(id)));
    match ctx.validate(p)
    case Some(e) => Err(e)
    case None => Ok(p)
  }

  /** NewPermission: a permission scoped to an organization and to no instance. */
  function NewPermission(ctx: Ctx, a: Action, rt: ResourceType, orgID: ID): Result<Permission> {
    var p := Permission(a, Resource(rt, Some(orgID), None));
    match ctx.validate(p)
    case Some(e) => Err(e)
    case None => Ok(p)
  }

  /** A notification endpoint, as far as authorization looks at it. */
  datatype Endpoint = Endpoint(orgID: ID, id: ID)

  /** The partial-update payload handed to Patch; its contents are never inspected. */
  datatype EndpointUpdate = EndpointUpdate(payload: string)

  /** A secret field reported back by Delete; its contents are never inspected. */
  datatype SecretField = SecretField(key: string)

  /** NotificationEndpointFilter, reduced to its organization and user scopes. */
  datatype Filter = Filter(orgID: Option<ID>, userID: ID)

  /** The list reply: the endpoints found and the count reported with them. */
  datatype Page = Page(items: seq<Endpoint>, count: int)

  /** The delete reply: the secret fields and the ID the wrapped delete reports, passed through unchanged. */
  datatype Deleted = Deleted(secrets: seq<SecretField>, id: ID)
}
