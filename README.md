# Authorizing notification endpoint service

A Dafny model of `authorizer/notification_endpoint.go` from influxdb: the
decorator that sits in front of a `NotificationEndpointService` and checks,
before every delegated call, that the authorizer attached to the request may
perform the action.

- `influx.dfy` (module `Influx`): the influxdb types the decorator uses. An
  ID is an unsigned 64-bit integer whose zero value is invalid. There are
  error codes and errors, read/write actions, resources and permissions. An
  endpoint is reduced to its organization and its own id. The list filter is
  reduced to its organization and user scopes. `Ctx` bundles the two
  collaborators whose code is not part of this model. `validate` is the
  validity check that `NewPermission` and `NewPermissionAtID` apply to the
  permission they build. `isAllowed` is `IsAllowed`'s verdict for the
  request's authorizer.
- `inner.dfy` (module `Inner`): the wrapped service. Its answers come from a
  `Backend` of response functions, one per interface method. The class
  `InnerService` records every call made to it in `log`, which is what makes
  "the inner write was never called" statable. Its list method is assumed to hand
  over an array that the wrapped service does not keep.
- `authorizer.dfy` (module `Authorizer`): the two permission helpers, the
  class `NotificationEndpointService` with its six methods, and the functions
  each method is proved against. `FindByIDResult`, `ListResult`, `CreateGate`
  and `WriteGate` are functions of the wrapped service's answers. The list
  method filters the wrapped service's array in place, as the source does with
  `edps[:0]`.
- `properties.dfy` (module `AuthorizerProperties`): what the decorator
  promises, stated on those functions. This covers the exact shape of the
  filtered list, aborting on the first non-denial error, independence from
  the wrapped count, the org-only check of Create, the fetched endpoint
  deciding the write check, and a context that denies everything.

Go's `(value, error)` pairs are modelled as `Result<T>`: `Ok(value)` or
`Err(error)`. Where the source returns `nil, 0, err`, the model returns
`Err(err)`. A nil error is `None`, and `ErrorCode(nil)` is modelled as "no
code".

Neither `FindNotificationEndpointByID` nor a list call with a scoped filter
checks for an authorizer before calling the wrapped service: both fetch
first and check afterwards. Of these two reads, only a list call with an
unscoped filter is refused before the wrapped service is reached. Create
checks the org-scoped write permission before it calls the wrapped create.
Update, Patch and Delete, like the find, reach the wrapped find before any
check, and they reach the wrapped write only after both checks have passed.
When every item is denied,
the list call answers an empty page, not an error. `DenyingContext` states
what the code does when every permission is denied.

## Model

| member | source | states |
|---|---|---|
| `Authorizer.NewNotificationEndpointPermission` | authorizer/notification_endpoint.go:32-34 | builds a Read/Write permission on the notification endpoint type, scoped to the given org and instance id; fails with the validation error exactly when validation rejects it |
| `Authorizer.AuthorizeRead` | authorizer/notification_endpoint.go:36-47 | nil exactly when the read permission on (org, id) is well formed and granted; a construction error is returned without consulting IsAllowed; otherwise IsAllowed's error is returned |
| `Authorizer.AuthorizeWrite` | authorizer/notification_endpoint.go:49-60 | the same for the write permission on (org, id) |
| `Authorizer.FindByIDResult` | authorizer/notification_endpoint.go:63-74 | an error from the wrapped find is passed through unchanged; the fetched endpoint is returned exactly when read access to its own org and id is granted, and otherwise the read check's error is returned |
| `Authorizer.NotificationEndpointService.FindNotificationEndpointByID` | authorizer/notification_endpoint.go:63-74 | returns FindByIDResult of the wrapped find's answer; the only call made to the wrapped service is that find |
| `Authorizer.ListResult` | authorizer/notification_endpoint.go:77-110 | an unscoped filter (no valid user id and no org) gives the EUnauthorized error; with a scoped filter, a wrapped list error is passed through unchanged; a successful result's count is the length of its items |
| `Authorizer.NotificationEndpointService.FindNotificationEndpoints` | authorizer/notification_endpoint.go:77-110 | returns ListResult of the wrapped list's answer, computed by filtering the wrapped array in place; with an unscoped filter the wrapped list is never called, otherwise it is called once |
| `Authorizer.FirstFatalNoneIff` | authorizer/notification_endpoint.go:96-100 | no item aborts the list exactly when no item's read check fails with an error other than EUnauthorized |
| `Authorizer.FirstFatalAt` | authorizer/notification_endpoint.go:96-100 | the abort error is that of the first item whose read check fails with an error other than EUnauthorized |
| `Authorizer.KeepSnoc` | authorizer/notification_endpoint.go:102-106 | one more item read adds it to the kept items exactly when its read check passes |
| `Authorizer.CreateGate` | authorizer/notification_endpoint.go:113-120 | Create passes exactly when the write permission scoped to the declared org, with no instance id, is well formed and granted; a construction error is returned without consulting IsAllowed |
| `Authorizer.NotificationEndpointService.CreateNotificationEndpoint` | authorizer/notification_endpoint.go:113-122 | calls the wrapped create only when CreateGate passes, and then returns its answer unchanged; otherwise returns the gate's error and makes no call |
| `Authorizer.WriteGate` | authorizer/notification_endpoint.go:125-133 | the wrapped write is reached exactly when the wrapped find succeeded and both read and write access to the fetched endpoint's own org and id are granted; otherwise the find error, the read error or the write error, in that order |
| `Authorizer.NotificationEndpointService.UpdateNotificationEndpoint` | authorizer/notification_endpoint.go:125-136 | find first, then the write check on the fetched endpoint; the wrapped update, with the caller's id, is called only when WriteGate passes and its answer is returned unchanged; otherwise only the find was called |
| `Authorizer.NotificationEndpointService.PatchNotificationEndpoint` | authorizer/notification_endpoint.go:139-150 | the same shape for the wrapped patch |
| `Authorizer.NotificationEndpointService.DeleteNotificationEndpoint` | authorizer/notification_endpoint.go:153-164 | the same shape for the wrapped delete; on a failed gate the result is the error alone (no secrets, no id) |
| `Authorizer.NotificationEndpointService.constructor` | authorizer/notification_endpoint.go:20-30 | the decorator wraps the given service |
| `AuthorizerProperties.KeepIsSubsequence` | authorizer/notification_endpoint.go:95-107 | the kept items are an order-preserving subsequence of the wrapped list |
| `AuthorizerProperties.KeepOnlyReadable` | authorizer/notification_endpoint.go:102-106 | every kept item passed its read check |
| `AuthorizerProperties.KeepMultiplicity` | authorizer/notification_endpoint.go:95-107 | every readable item is kept as often as it occurs in the wrapped list, and nothing else is kept |
| `AuthorizerProperties.ListOkIff` | authorizer/notification_endpoint.go:79-100 | the list succeeds exactly when the filter is scoped, the wrapped list succeeds and no item's check fails with a non-denial error |
| `AuthorizerProperties.ListOkExactlyReadable` | authorizer/notification_endpoint.go:95-109 | a successful list returns exactly the readable items of the wrapped list in order, with their number as count |
| `AuthorizerProperties.ListAbortsOnFirstFatal` | authorizer/notification_endpoint.go:96-100 | the first item whose read check fails with an error other than EUnauthorized aborts the whole list with that error |
| `AuthorizerProperties.ListIgnoresInnerCount` | authorizer/notification_endpoint.go:88-88 | the count reported by the wrapped list plays no part in the result |
| `AuthorizerProperties.ListOfFiveExample` | authorizer/notification_endpoint.go:95-109 | of five endpoints with the 1st, 3rd and 5th readable and the others denied, the result is exactly those three with count 3 |
| `AuthorizerProperties.ListOfFiveAborts` | authorizer/notification_endpoint.go:97-100 | if instead the 2nd item's check fails with a non-denial error, the call fails with that error |
| `AuthorizerProperties.AuthorizeReadSkipsIsAllowedOnInvalid` | authorizer/notification_endpoint.go:37-40 | when the read permission cannot be built, the read check's outcome is the same whatever IsAllowed would answer |
| `AuthorizerProperties.AuthorizeWriteSkipsIsAllowedOnInvalid` | authorizer/notification_endpoint.go:50-53 | when the write permission cannot be built, the write check's outcome is the same whatever IsAllowed would answer |
| `AuthorizerProperties.CreateIgnoresEndpointID` | authorizer/notification_endpoint.go:114-118 | Create's check depends only on the declared org, not on any endpoint id |
| `AuthorizerProperties.WriteCheckUsesFetchedEndpoint` | authorizer/notification_endpoint.go:131-133 | when write access to the fetched endpoint is refused, the gate fails with that write error; that the gate is applied to the wrapped find's answer and never to the caller's payload is stated by the ensures of Update, Patch and Delete |
| `AuthorizerProperties.DenyingContext` | authorizer/notification_endpoint.go:63-122 | if every permission is denied with EUnauthorized, no find returns an endpoint, no write or create passes, and a scoped list answers an empty page with count 0 |

## Left out

- `IsAllowed` is defined outside this file and is not part of this model; it appears only as the oracle `Ctx.isAllowed`. `NewPermission` and `NewPermissionAtID` are also defined elsewhere. The model gives the shape of the permission they build: the action, the resource type, `Some(orgID)`, and `Some(id)` or no instance. Only their validity check is an oracle, `Ctx.validate`. No subsumption rule or ID encoding is modelled. How an authorizer is attached to a `context.Context` is not modelled either. Since `isAllowed` is a function, two evaluations of the same permission agree by construction.
- The embedded `UserResourceMappingService` and `OrganizationService` are stored by the constructor but used by none of the modelled logic, so the constructor takes only the wrapped service.
- The `FindOptions` arguments of the list call are not modelled. The model uses the error message of an unscoped filter only as a constant.
- The endpoint payload is reduced to its org and id. The `NotificationEndpointUpdate` payload and the secret fields are opaque values that are passed through.
- The wrapped service's own behaviour is not modelled. Its answers are fixed response functions, so its state changes are not represented. Only the calls made to it are recorded.
- A wrapped reply that carries both a value and an error is not modelled. Neither is a wrapped find that returns a nil endpoint with a nil error, which makes the Go code dereference nil.
- Context cancellation and the interface-conformance assertion on line 9 are Go plumbing with no behaviour here.
- A Go slice returned by the wrapped list may share the wrapped service's own storage. The source's loop writes into that backing array in place, and on the abort path it leaves the array partly overwritten. The model assumes the wrapped service hands over a fresh array that it does not keep, so these in-place writes to the wrapped service's storage are not modelled. Aliasing between the result slice and that storage is not modelled either: the method filters the array in place, but it returns the kept prefix as a sequence value.
