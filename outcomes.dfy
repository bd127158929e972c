/** Failure-carrying results: the exceptions the services throw and the HTTP
    outcomes the controllers answer with. */
module Outcomes {
  import opened Enums

  datatype Option<+T> = None | Some(value: T)

  /** Why an operation failed; one constructor per distinct exception the
      modelled code raises. */
  datatype Error =
    // role-progression check
    | RoleAlreadyHeld
    | AdminCannotChangeRole
    | BasicRoleNotRequestable
    | OnlyUserMayBecomeArtist
    | OnlyUserOrArtistMayBecomeEnterprise
    // verification workflow
    | RequestNotFound
    | RequestNotPending
    | OwnerNotFound
    | OwnerAlreadyHasRole
    | OtherPendingRequest
    | MissingObservations
    | AuthorityRecordMissing(authority: Authority)
    // user store
    | EmailInUse
    | UsernameInUse
    | UuidInUse
    | UserNotFound
    | NullReference
    // tokens and principals
    | TokenRejected
    | TokenInvalid
    | MissingUuidClaim
    | MalformedUuid
    | AuthorizationHeaderMissing
    | UsernameNotFound
    | NoRoleAssigned
    // portfolios
    | PortfolioNotFound
    | NotPortfolioOwner

  /** Outcome of a service call: a value, or the exception it threw. */
  datatype Result<+T> = Success(value: T) | Failure(error: Error)

  /** Outcome of a controller call, by HTTP status. `ServerError` stands for an
      exception that no handler catches. */
  datatype Response<+T> =
    | Ok(body: T)
    | Created(body: T)
    | NotFound
    | Forbidden
    | BadRequest(reason: string)
    | Unauthorized
    | ServerError(cause: Error)
}
