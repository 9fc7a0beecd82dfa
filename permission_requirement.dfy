/** `PermissionRequirement`: the claim type and the required permission value, both kept as
    given. A datatype value cannot change after construction, as the get-only properties
    of the source promise. */
module PermissionRequirements {

  datatype PermissionRequirement = PermissionRequirement(ClaimType: string, ClaimValue: string)

  /** `System.Security.Claims.Claim`, reduced to its type and its value. */
  datatype Claim = Claim(Type: string, Value: string)
}
