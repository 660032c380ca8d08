/** The exception classes the modelled operations raise. */
module Errors {

  datatype Error =
    | ApplicationNotFound
    | AuthenticationError
    | UserKeyInvalid
    | AccessTokenInvalid
    | ApplicationHasInconsistentData
    | ReferrerFilterInvalid
    | UserNotDefined
    | UserRequiresRegistration
    | ServiceRequiresRegisteredUser
    | ServiceRequiresDefaultUserPlan
    | UserRequiresUsername
    | UserRequiresServiceId
    | UserRequiresValidService
    | UserRequiresDefinedPlan
    /** Raised by the service lookup, see ServiceLookupError. */
    | ProviderKeyInvalid
    | ServiceIdInvalid

  /** The errors the service lookup (`Service.load_with_provider_key!`) can raise. */
  predicate ServiceLookupError(e: Error) {
    e == ProviderKeyInvalid || e == ServiceIdInvalid
  }
}
