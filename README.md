# Player: the claims-based permission engine, in Dafny

This project models the authorization core of the Player media server together with the
small utilities around it.

**Permissions.** Every playlist and media endpoint carries a marker such as
`[HasPlaylistPermission(PermissionType.Read)]`. The marker composes the policy name
`"playlist_1"`. `AuthorizationPolicyProvider.GetPolicyAsync` turns that name back into a
policy. The policy requires a claim of type `permissions.playlist` and a
`PermissionRequirement` holding the value `"1"`.

`PermissionHandler` walks the caller's claims of that type. It succeeds the requirement
when `IsThisPermissionAllowed` accepts one of the values. That check is a bitmask test over
the `[Flags]` enum `PermissionType`. `CustomUserStore` issues every user the same two
claims, granting `All` (`"15"`) on playlists and on media.

**Other parts modelled:**
- the `User` fields the store reads and writes;
- the `AppMessageType` catalogue with its messages and error codes;
- the result → HTTP status mapping of both `BaseController.HandleResult` copies;
- the `Check` argument guards;
- the WAV header decoding of `WavFormat`.

**How the source is represented:**
- Exceptions are the `Throw` case of a `Result`, and `null` is `None`.
- C# `short`, `int` and `long` are subset types of `int`. Unchecked casts and increments wrap
  explicitly (`WrapInt16`, `WrapInt32`).
- The bitwise `&` on `long` is taken on the 64-bit two's-complement pattern (`LongBits`).
- `long.ToString` and `long.TryParse` are `ToDecimal` and `ParseInt64`. They are tied
  together by `DecimalText.ParseOfToDecimal`.
- `string.Split`, `string.Trim` and `char.IsWhiteSpace` are modelled in `Text`:
  - joining the pieces of `Split` with the separator gives the string back, and a string
    made of two separator-free parts around one separator splits into exactly those parts;
  - `Trim` is proved to drop exactly the white space at both ends.

**Imperative and pure parts:**
- The handler's loop is a method over an `AuthorizationHandlerContext` object.
- `User` is a class whose fields the store's methods assign.
- `MemoryStream` is a class with a position and a copying `Read` loop.
- Everything else is functions and lemmas.

**Where the code is followed:**
- A required mask with bits outside `All` is not rejected. For example, 17 is granted by 17,
  since the test only asks for one named bit inside the mask.
- A claim value that is not a number makes the handler throw, rather than being skipped.
- The provider does not validate the value after `_`. `"playlist_abc"` resolves to a policy
  whose requirement throws in the handler when the principal carries a claim of type
  `permissions.playlist`; with no such claim the handler neither succeeds nor throws.
- `SetLockoutEnabledAsync` sets the flag to `true` whatever its argument.
- `GetPermissionStringValue` renders any value, including ones outside the declared members.
  It has no range check.

## Model

| member | source | states |
|---|---|---|
| PermissionTypes.EnumValues | Player.Domain/Enums/PermissionType.cs:6-11 | the declared members in value order start at `None`, are strictly increasing, and every one lies within the bits of `All` |
| PermissionTypes.FlagLayout | Player.Domain/Enums/PermissionType.cs:7-11 | Read, Create, Delete and Update are one bit each, pairwise disjoint; `All` is exactly their union and `None` has no bit |
| PermissionTypeExtensions.GetPermissionStringValue | Player.Domain/Extensions/PermissionTypeExtensions.cs:18-23 | the text parses back as a `long` to the permission's value, and contains no `_` (so it can sit after the separator of a policy name) |
| PermissionTypeExtensions.IsThisPermissionAllowed | Player.Domain/Extensions/PermissionTypeExtensions.cs:25-59 | throws `ArgumentOutOfRange` naming `permission`, then `permissionName`, then `claimType`, in that order of checking; returns a value exactly when both parse and the claim type is supported, and that value is the bitmask test on the parsed numbers |
| PermissionTypeExtensions.AllowedIff | Player.Domain/Extensions/PermissionTypeExtensions.cs:51-56 | the `Any` over the enum's members holds exactly when the required mask has at least one of the four operation bits and every bit of the required mask is granted |
| PermissionTypeExtensions.AllowedMonotonic | Player.Domain/Extensions/PermissionTypeExtensions.cs:51-56 | granting a superset of bits never loses a permission |
| PermissionTypeExtensions.NoneNeverAllowed | Player.Domain/Extensions/PermissionTypeExtensions.cs:51-56 | a requirement of `None` is never met, whatever is granted |
| PermissionTypeExtensions.IsThisPermissionAllowedExamples | Player.Domain.UnitTests/Extensions/PermissionTypeExtensionsTests.cs:27-54 | Read plus Create (`"3"`) grants Read, does not grant Delete, and an unsupported claim type throws |
| HasPermissionAttributes.BaseHasPermissionPolicy | Player.API/Authorization/HasMediaPermissionAttribute.cs:10-13 | when neither part contains `_`, splitting the name on `_` gives back exactly the two parts, so the name is category, `_`, permission; in every case it is one character longer than the two parts together |
| HasPermissionAttributes.HasMediaPermission | Player.API/Authorization/HasMediaPermissionAttribute.cs:18-21 | the name splits into `medias` and a part that parses back to the permission's value |
| HasPermissionAttributes.HasPlaylistPermission | Player.API/Authorization/HasMediaPermissionAttribute.cs:26-29 | the name splits into `playlist` and a part that parses back to the permission's value |
| HasPermissionAttributes.AttributeExamples | Player.API/Authorization/HasMediaPermissionAttribute.cs:18-29 | `HasMediaPermission(Read)` is `"medias_1"`, `HasPlaylistPermission(Update)` is `"playlist_8"` |
| Text.Split | Player.API/Authorization/AuthorizationPolicyProvider.cs:15 | one more part than separators, no part contains the separator, and joining the parts with the separator gives back the string |
| Text.SplitAtOnlySeparator | Player.API/Authorization/AuthorizationPolicyProvider.cs:15-23 | a string with exactly one separator between two separator-free parts splits into exactly those parts |
| AuthorizationPolicyProvider.ClaimTypeFor | Player.API/Authorization/AuthorizationPolicyProvider.cs:25-30 | a claim type exists exactly for `medias` and `playlist`; it is `permissions.` + category and is a supported claim type |
| AuthorizationPolicyProvider.GetPolicy | Player.API/Authorization/AuthorizationPolicyProvider.cs:13-37 | throws exactly for names that are not a known category, one `_` and a `_`-free rest; the wrong number of parts throws with the "not valid" parameter name, an unknown category with `policyName`; a registered name yields the registered policy; otherwise the policy requires the category's claim and a requirement holding the text after `_` |
| AuthorizationPolicyProvider.SplitNamesCategory | Player.API/Authorization/AuthorizationPolicyProvider.cs:15-23 | a name splits into two parts whose first is the category exactly when it is the category, `_` and a `_`-free rest; the second part is then that rest |
| AuthorizationPolicyProvider.ResolveMarkerName | Player.API/Authorization/AuthorizationPolicyProvider.cs:13-37 | every name a marker composes is accepted, and unless registered resolves to the category's claim type with the permission's decimal value |
| AuthorizationPolicyProvider.GetPolicyRejectsNoSeparator | Player.API/Authorization/AuthorizationPolicyProvider.cs:17-20 | `"playlist"` throws with the "not valid" parameter name |
| AuthorizationPolicyProvider.GetPolicyRejectsTwoSeparators | Player.API/Authorization/AuthorizationPolicyProvider.cs:17-20 | `"a_b_1"` throws with the "not valid" parameter name |
| AuthorizationPolicyProvider.RejectsUnknownCategory | Player.API/Authorization/AuthorizationPolicyProvider.cs:15-30 | a name made of a category other than `medias` and `playlist`, one `_` and a `_`-free value throws naming `policyName`, whatever policies are registered |
| AuthorizationPolicyProvider.GetPolicyRejectsUnknownCategory | Player.API/Authorization/AuthorizationPolicyProvider.cs:29 | `"unknown_1"` throws naming `policyName` |
| AuthorizationPolicyProvider.GetPolicyKeepsValue | Player.API/Authorization/AuthorizationPolicyProvider.cs:23-35 | a non-numeric or empty value after `_` still resolves to a policy carrying it |
| PermissionHandler.AuthorizationHandlerContext.Succeed | Player.API/Authorization/PermissionHandler.cs:14 | the requirement joins the succeeded requirements; nothing else changes |
| PermissionHandler.MatchingValues | Player.API/Authorization/PermissionHandler.cs:10 | a value is listed exactly when the principal carries a claim of the required type with that value |
| PermissionHandler.HandleRequirement | Player.API/Authorization/PermissionHandler.cs:8-17 | the loop over the matching values ends in the state of the specification `Evaluate`: the requirement is succeeded exactly when `Evaluate` says so, and the first exception, if any, is propagated |
| PermissionHandler.EvaluateCharacterization | Player.API/Authorization/PermissionHandler.cs:11-15 | the handler throws exactly when some value makes the check throw; when it does not throw, it succeeds exactly when some value is allowed |
| PermissionHandler.EvaluateThrowsIff | Player.API/Authorization/PermissionHandler.cs:11-15 | the loop ends without an exception exactly when every value's check returns |
| PermissionHandler.EvaluateSucceedsIff | Player.API/Authorization/PermissionHandler.cs:11-15 | success implies an allowed value; without an exception, any allowed value implies success |
| PermissionHandler.SucceededOnlyByAllowed | Player.API/Authorization/PermissionHandler.cs:13-14 | the requirement is succeeded only by some value whose check returned true |
| PermissionHandler.AllowedSucceeds | Player.API/Authorization/PermissionHandler.cs:13-14 | a value whose check returns true succeeds the requirement unless the loop throws |
| PermissionHandler.NoMatchingValues | Player.API/Authorization/PermissionHandler.cs:10 | claims none of which has the required type yield no values |
| PermissionHandler.ThrownIsFinal | Player.API/Authorization/PermissionHandler.cs:11-15 | once a value has thrown, the remaining values change nothing |
| PermissionHandler.MatchingValuesAppend | Player.API/Authorization/PermissionHandler.cs:10 | filtering claims distributes over concatenation, keeping order |
| PermissionHandler.OtherClaimTypesIgnored | Player.API/Authorization/PermissionHandler.cs:10 | a claim of another type, anywhere in the list, does not change what the handler sees |
| PermissionHandler.NoMatchingClaimNoSuccess | Player.API/Authorization/PermissionHandler.cs:10-15 | without a claim of the required type the handler neither succeeds nor throws |
| PermissionHandler.MalformedValueThrows | Player.API/Authorization/PermissionHandler.cs:13-14 | a non-numeric claim value, or a non-numeric required value with a claim present, makes the handler throw |
| PermissionHandler.NoneRequirementNeverSucceeds | Player.API/Authorization/PermissionHandler.cs:13-14 | a requirement of `"0"` is never succeeded, whatever the claims |
| PermissionHandler.HandlerScenario | Player.API/Authorization/PermissionHandler.cs:8-17 | a principal granted `"3"` on playlists passes a Read requirement and fails a Delete requirement, without an exception |
| CustomUserStore.Update | Player.Infrastructure.Persistence/CustomUserStore.cs:62-67 | a new concurrency stamp, `UpdatedAt` set to the current instant, and no other change; reports success |
| CustomUserStore.Create | Player.Infrastructure.Persistence/CustomUserStore.cs:56-60 | the repository records the creation instant and the identity the database assigns becomes the id, which `GetUserId` then renders; nothing else changes; reports success |
| CustomUserStore.Delete | Player.Infrastructure.Persistence/CustomUserStore.cs:69-72 | always throws `NotImplemented` |
| CustomUserStore.GetUserId | Player.Infrastructure.Persistence/CustomUserStore.cs:29-32 | the id's text parses back to the id |
| CustomUserStore.GetUserName | Player.Infrastructure.Persistence/CustomUserStore.cs:34-37 | returns the user name as the user's state records it; the matching setter's contract states that it then returns the value just set |
| CustomUserStore.GetNormalizedUserName | Player.Infrastructure.Persistence/CustomUserStore.cs:45-48 | returns the normalized user name as the user's state records it; the matching setter's contract states that it then returns the value just set |
| CustomUserStore.GetPasswordHash | Player.Infrastructure.Persistence/CustomUserStore.cs:90-93 | returns the password hash as the user's state records it; the matching setter's contract states that it then returns the value just set |
| CustomUserStore.GetSecurityStamp | Player.Infrastructure.Persistence/CustomUserStore.cs:106-109 | returns the security stamp as the user's state records it; the matching setter's contract states that it then returns the value just set |
| CustomUserStore.GetLockoutEndDate | Player.Infrastructure.Persistence/CustomUserStore.cs:111-114 | returns the lockout end as the user's state records it; the matching setter's contract states that it then returns the value just set |
| CustomUserStore.GetAccessFailedCount | Player.Infrastructure.Persistence/CustomUserStore.cs:136-139 | returns the failed-access count as the user's state records it; the matching setter's contract states that it then returns the value just set |
| CustomUserStore.GetLockoutEnabled | Player.Infrastructure.Persistence/CustomUserStore.cs:141-144 | returns the lockout flag as the user's state records it; the matching setter's contract states that it then returns the value just set |
| CustomUserStore.GetEmail | Player.Infrastructure.Persistence/CustomUserStore.cs:158-161 | returns the email as the user's state records it; the matching setter's contract states that it then returns the value just set |
| CustomUserStore.GetEmailConfirmed | Player.Infrastructure.Persistence/CustomUserStore.cs:163-166 | returns the email confirmation flag as the user's state records it; the matching setter's contract states that it then returns the value just set |
| CustomUserStore.GetNormalizedEmail | Player.Infrastructure.Persistence/CustomUserStore.cs:179-182 | returns the normalized email as the user's state records it; the matching setter's contract states that it then returns the value just set |
| CustomUserStore.HasPassword | Player.Infrastructure.Persistence/CustomUserStore.cs:95-98 | true exactly when a hash is present and has a character that is not white space |
| CustomUserStore.SetUserName | Player.Infrastructure.Persistence/CustomUserStore.cs:39-43 | the user name is the new one, the concurrency stamp is fresh, `UpdatedAt` is the current instant, nothing else changes, and the getter returns the new name |
| CustomUserStore.SetNormalizedUserName | Player.Infrastructure.Persistence/CustomUserStore.cs:50-54 | the normalized name is the new one, the stamp is fresh, `UpdatedAt` is the current instant, nothing else changes |
| CustomUserStore.SetPasswordHash | Player.Infrastructure.Persistence/CustomUserStore.cs:84-88 | the hash is the new one, the stamp is fresh, `UpdatedAt` is the current instant, nothing else changes |
| CustomUserStore.SetSecurityStamp | Player.Infrastructure.Persistence/CustomUserStore.cs:100-104 | the security stamp is the new one, the concurrency stamp is fresh, `UpdatedAt` is the current instant, nothing else changes |
| CustomUserStore.SetLockoutEndDate | Player.Infrastructure.Persistence/CustomUserStore.cs:116-120 | the lockout end is the new one, the stamp is fresh, `UpdatedAt` is the current instant, nothing else changes |
| CustomUserStore.IncrementAccessFailedCount | Player.Infrastructure.Persistence/CustomUserStore.cs:122-127 | the count goes up by one with `int` wrap-around, the new count is returned, the stamp is fresh, `UpdatedAt` is the current instant, nothing else changes |
| CustomUserStore.ResetAccessFailedCount | Player.Infrastructure.Persistence/CustomUserStore.cs:129-134 | the count is zero and the lockout end cleared, the stamp is fresh, `UpdatedAt` is the current instant, nothing else changes |
| CustomUserStore.SetLockoutEnabled | Player.Infrastructure.Persistence/CustomUserStore.cs:146-150 | lockout is enabled whatever the argument, the stamp is fresh, `UpdatedAt` is the current instant, nothing else changes |
| CustomUserStore.SetEmail | Player.Infrastructure.Persistence/CustomUserStore.cs:152-156 | the email is the new one, the stamp is fresh, `UpdatedAt` is the current instant, nothing else changes |
| CustomUserStore.SetEmailConfirmed | Player.Infrastructure.Persistence/CustomUserStore.cs:168-172 | the confirmation flag is the new one, the stamp is fresh, `UpdatedAt` is the current instant, nothing else changes |
| CustomUserStore.SetNormalizedEmail | Player.Infrastructure.Persistence/CustomUserStore.cs:184-188 | the normalized email is the new one, the stamp is fresh, `UpdatedAt` is the current instant, nothing else changes |
| CustomUserStore.GetClaims | Player.Infrastructure.Persistence/CustomUserStore.cs:190-200 | every user gets `permissions.playlist` = `"15"` and `permissions.medias` = `"15"` |
| CustomUserStore.AddClaims | Player.Infrastructure.Persistence/CustomUserStore.cs:202-205 | the user is unchanged |
| CustomUserStore.ReplaceClaim | Player.Infrastructure.Persistence/CustomUserStore.cs:207-210 | the user is unchanged |
| CustomUserStore.RemoveClaims | Player.Infrastructure.Persistence/CustomUserStore.cs:212-215 | the user is unchanged |
| CustomUserStore.GetUsersForClaim | Player.Infrastructure.Persistence/CustomUserStore.cs:217-221 | no user, for any claim |
| Endpoints.DeclaredEndpoints | Player.API/Controllers/API/PlaylistsController.cs:37-91 | each declared marker names one of the four operations |
| Endpoints.WithinAll | Player.Domain/Extensions/PermissionTypeExtensions.cs:51-56 | every value 1..15 lies within `All` and has a bit set |
| Endpoints.FullGrantSucceeds | Player.API/Authorization/PermissionHandler.cs:11-15 | a single granted value `"15"` makes the handler succeed any requirement 1..15 on a supported claim type, without an exception |
| Endpoints.IssuedValues | Player.Infrastructure.Persistence/CustomUserStore.cs:193-197 | the issued claims carry exactly one value, `"15"`, for each supported claim type |
| Endpoints.IssuedClaimsSatisfy | Player.API/Authorization/AuthorizationPolicyProvider.cs:33-35 | the issued claims carry the policy's claim type and pass its permission requirement, for any value 1..15 |
| Endpoints.OtherClaimsKeepAuthorization | Player.API/Authorization/PermissionHandler.cs:10-15 | claims of types that are not permission claim types, placed before a principal's claims, do not change whether a permission policy admits it |
| Endpoints.IssuedClaimsAuthorize | Player.Infrastructure.Persistence/CustomUserStore.cs:190-200 | a marker naming 1..15 resolves to a policy that a principal carrying the issued claims satisfies, whatever claims of other types come before them, unless a static policy of that name is registered |
| Endpoints.DeclaredEndpointsAuthorize | Player.API/Controllers/API/PlaylistsController.Medias.cs:21-85 | every declared playlist and media endpoint admits a signed-in user, unless a static policy of the same name overrides it; the principal carries the issued claims after any claims of types no permission policy asks for, such as the identity factory's name and email claims |
| Endpoints.NoneMarkerAuthorizesNobody | Player.API/Authorization/HasMediaPermissionAttribute.cs:18-29 | a marker naming `None` resolves to a policy no principal satisfies |
| AppMessageTypes.DeclaredValues | Player.Domain/Enums/AppMessageType.cs:5-9 | five distinct values in increasing order, none of them 0 (the default is undefined) |
| AppMessageTypes.IsDefined | Player.Domain/Extensions/AppMessageTypeExtensions.cs:22 | a value is a declared member exactly when it lies in 1..5 |
| AppMessageTypeExtensions.GetErrorMsg | Player.Domain/Extensions/AppMessageTypeExtensions.cs:7-18 | a message exactly for the declared members, never blank; any other value throws `ArgumentOutOfRange` naming `msg` |
| AppMessageTypeExtensions.ErrorMsgInjective | Player.Domain/Extensions/AppMessageTypeExtensions.cs:11-15 | different members have different messages |
| AppMessageTypeExtensions.GetErrorCode | Player.Domain/Extensions/AppMessageTypeExtensions.cs:20-29 | a code exactly for the declared members, `"BACKEND_"` followed by text that parses back to the member's number; any other value throws naming `msg` |
| AppMessageTypeExtensions.ErrorCodeInjective | Player.Domain/Extensions/AppMessageTypeExtensions.cs:27-28 | different members have different codes |
| AppMessageTypeExtensions.MessageExamples | Player.Domain.UnitTests/Extensions/AppMessageTypeExtensionsTests.cs:13-34 | `NotFound` has code `"BACKEND_3"`; the value 999 has neither message nor code |
| ApiBaseController.HandleResult | Player.API/Controllers/API/BaseController.cs:26-42 | success gives 200; a failure gives 500, 400, 400, 404 or 401 for UnknownError, InvalidRequest, ResourceAlreadyExists, NotFound, UserIsLockedOut; status 200 occurs exactly on success; a failure without a listed type throws; the body is always the result unchanged |
| MvcBaseController.HandleResult | Player.API/Controllers/BaseController.cs:19-35 | status 200 exactly on success, a success never throws, the body is the result unchanged, and a failure throws exactly when it has no listed type |
| MvcBaseController.SameAsApi | Player.API/Controllers/BaseController.cs:19-35 | the MVC mapping equals the API mapping on every result |
| Check.NotNull | Player.Domain/Utils/Check.cs:5-11 | throws `ArgumentNull` with the parameter name exactly for null (both overloads) |
| Text.Trim | Player.Domain/Utils/Check.cs:16 | the trimmed string is empty exactly when the string is all white space |
| Check.NotEmptyString | Player.Domain/Utils/Check.cs:13-20 | null throws `ArgumentNull` first; a present string throws `Argument` exactly when it is empty or all white space |
| Check.NotEmptyLong | Player.Domain/Utils/Check.cs:22-29 | passes exactly for a present positive value; null throws `ArgumentNull` first, anything else `ArgumentOutOfRange` |
| Check.IsEmpty | Player.Domain/Utils/Check.cs:39-40 | true exactly for values that are not positive |
| Check.NotEmptyAgreesWithIsEmpty | Player.Domain/Utils/Check.cs:39-40 | the `long` guard accepts exactly the values `IsEmpty` calls non-empty |
| WavFormats.MemoryStream.Length | Player.Application/Medias/WavFormat.cs:32 | the length of the whole underlying array |
| WavFormats.MemoryStream.Read | Player.Application/Medias/WavFormat.cs:19 | copies the next `min(count, remaining)` bytes into the buffer at the offset, leaves the rest of the buffer alone, and advances the position past them |
| WavFormats.BitwiseAssembly16 | Player.Application/Medias/WavFormat.cs:29 | ORing the low byte with the high byte shifted left by 8 gives the little-endian value of the two bytes |
| WavFormats.BitwiseAssembly32 | Player.Application/Medias/WavFormat.cs:30 | ORing the four bytes shifted left by 0, 8, 16 and 24 gives the 32-bit pattern of the little-endian value of the four bytes |
| WavFormats.DecodeHeader | Player.Application/Medias/WavFormat.cs:29-32 | the data length is the stream length less the 44 header bytes, never negative |
| WavFormats.IsWav | Player.Application/Medias/WavFormat.cs:16-20 | a fresh 44-byte buffer; true exactly when 44 bytes remain, and then the buffer holds them |
| WavFormats.FromStream | Player.Application/Medias/WavFormat.cs:22-41 | throws `Argument` exactly when fewer than 44 bytes remain; otherwise the header at the position decoded, with the whole stream's length |
| WavFormats.FromBytes | Player.Application/Medias/WavFormat.cs:43-47 | any array of 44 bytes or more decodes from its first 44 bytes (no tag is checked); shorter arrays throw |
| WavFormats.Int16RoundTrip | Player.Application/Medias/WavFormat.cs:29 | a `short` stored low byte first reads back as itself |
| WavFormats.Int32RoundTrip | Player.Application/Medias/WavFormat.cs:30 | an `int` stored low byte first reads back as itself |
| WavFormats.DecodeHeaderRoundTrip | Player.Application/Medias/WavFormat.cs:29-32 | a header holding a format's fields at offsets 22, 24 and 34 decodes to that format, whatever its other bytes |

## Left out

- ASP.NET Core plumbing is left out: dependency injection, the framework's own policy cache, and how `RequireClaim` and handlers are run. `Endpoints.Authorizes` states the framework's verdict as the conjunction of the required claim types and the handler outcomes.
- The `async`/`Task` wrappers and cancellation tokens are left out. Each operation returns its value directly.
- `IsThisPermissionAllowed` uses `long.TryParse`, modelled as an optional sign followed by digits, within the 64-bit range. Culture-specific signs and digits are left out. So are leading and trailing white space, which `TryParse` accepts.
- CustomUserStore.Update: `Guid.NewGuid()` is the parameter `newStamp` and `DateTime.UtcNow` is the parameter `now`; the write to the database is left out.
- CustomUserStore.Create: the database insert is left out; the identity it returns is the parameter `newId`, and `DateTime.UtcNow` is the parameter `now`.
- The `User` entity's `FirstName` and `LastName`, its constructor and its default values are left out; the store never reads or assigns them. `CreatedAt` and `UpdatedAt` are abstract integer instants, as `LockoutEnd` is.
- `FindByIdAsync`, `FindByNameAsync` and `FindByEmailAsync` are left out: they only forward to the data service, which is not part of this model.
- `Dispose` and the store's constructor are left out; they do nothing observable.
- `LockoutEnd` is an abstract integer instant; `DateTimeOffset` arithmetic is left out.
- `WavFormat.LengthInSeconds` is left out: it is floating point.
- `WavFormat` is modelled over a `MemoryStream`. A file or network stream may return fewer bytes than requested even when more are available; that case is left out.
- `Check`'s exception messages are left out. Only the exception kind and the parameter name are kept.
- The message and the offending value carried by each `ArgumentOutOfRangeException` are left out. So are the types of the other exceptions. An empty parameter name stands for an exception built without one.
- `EmptyResultDto` and its derived result types are not part of this model. `ActionResults.ResultDto` keeps the two fields `HandleResult` reads and carries the rest as an opaque payload.
- MvcBaseController.HandleResult: its own contract lists the shape of the mapping, not each status. The per-status cases follow from `MvcBaseController.SameAsApi` and the API contract.
- The unit test expecting `GetPermissionStringValue` to throw for `(PermissionType)999` is not modelled. The code has no such check and renders `"999"`.
