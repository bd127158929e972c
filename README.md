# Scénico backend — a verified model of its authorization and workflow core

Scénico is a platform where emerging artists publish portfolios, companies
publish casting opportunities and artists apply to them. This project models
in Dafny the part of its Spring backend that decides things:

- the **role-progression policy** and the **verification-request workflow**
  (a request goes from PENDIENTE to ACEPTADO or RECHAZADO), both the checked
  path of the service and the unchecked approve/reject endpoints of the
  controller;
- the **authority records** a user holds after a role change;
- the **user store** with its email, username and uuid uniqueness, the user
  mapper (public view, registration, patch-style update);
- the **token claims** and the **request gate** (bearer-token extraction,
  fail-open authentication, the user-details lookup);
- the **ownership rules** of portfolios and opportunities, the four-way
  portfolio search, and artists' applications (one per artist and
  opportunity).

How the model is built:

- Every entity (user, verification request, portfolio, opportunity,
  application) is a datatype value; "set fields, then `save`" replaces the
  stored value. A generic `Repository` class holds a table as a map from
  database id to row plus the next identity value; derived queries are
  functions over that map (`Select` lists the matching rows,
  `FirstKey` finds the lowest matching id).
- Services and controllers are classes whose constructor-injected
  collaborators are `const` fields; their state-changing operations are
  methods with `modifies` clauses stating the whole new state and the
  invariants they keep (one pending request per user, one application per
  artist and opportunity, unique email/username/uuid).
- An endpoint's HTTP outcome is a `Response` (Ok, Created, NotFound,
  Forbidden, BadRequest, Unauthorized, and ServerError for an exception no
  handler catches); a service's thrown exception is a `Result` failure.
- The clock is an integer parameter `now` in milliseconds; thirty days are
  `30 * 86_400_000` ms.
- A uuid is a 128-bit number written in the canonical 8-4-4-4-12 hex form.
- The JWT codec is a pair of function values (sign, parse at a time) with a
  ghost predicate `Sound` stating the three laws the service relies on; the
  lemmas that need them take `Sound` as a precondition.
- Passwords are the symbolic `Hashed(raw)` value, so a raw password can
  never be stored by type.

Where the code and its documentation disagree, or the code is incomplete,
the model follows the evident intent and says so:

- The user entity declares no roles collection, no `getRoles()` and no
  `hasRole`, yet the role service reads and rewrites `user.getRoles()` and
  asks `user.hasRole(RoleName.ROLE_ADMIN)`, a constant `RoleName` lacks; the model gives
  `UserModel` the set of authority records the role service assumes
  (`roles`), and the role assignment, registration, update and approval
  members rest on it.
- `UserService.createUser` calls `setTypeUser` on the create form, which has
  no such field; the modelled form carries an optional role that the service
  overwrites with USER.
- The verification controller calls repository methods that the request
  repository does not declare (`findByUsernameAndEstadoSolicitud`,
  `findByUsername`, `findByEstado`); they are modelled as the user's pending
  requests, the user's requests and the requests in a state.
- The request mapper never sets `rolSolicitado`; the model has the
  submission form carry the requested role into the stored request.
- The role service and the application controller name the role enum `TypeUser`; the entity's
  enum is `RoleName`, which is what the model uses. The authority constants
  `ROLE_*` are a separate `Authority` type.
- The portfolio form declares `etiquetas` as one string while the entity
  stores a list; the model's form carries a list.
- The request submission endpoint does not check the requested role against
  the current one (only the service's approval does), and the model follows
  the code.
- `SolicitudVerificacionService.java:87` compares two boxed `Long` ids with
  `!=`, a reference comparison. It is modelled as value inequality: the
  request found first is the same managed entity as the request under
  approval, and `OtherPendingCheckNeverFires` shows that under the one-pending
  invariant the check never rejects.
- In `CreateUser` the uuid-collision check comes before the initial role
  assignment; since the method runs in one transaction, this is the same as
  the role record creation being rolled back by the failing insert.

## Model

| member | source | states |
|---|---|---|
| Enums.RoleText | src/main/java/com/example/demo1/models/enums/RoleName.java:17-38 | the name of a role as the code prints it (`name()`), at least four characters |
| Enums.RoleTextInjective | src/main/java/com/example/demo1/services/JwtTokenService.java:58 | distinct roles have distinct names, so a role claim identifies the role |
| Uuids.ToString | src/main/java/com/example/demo1/services/JwtTokenService.java:64 | a uuid prints as 36 characters with dashes at positions 8, 13, 18 and 23 |
| Uuids.FromString | src/main/java/com/example/demo1/services/JwtTokenService.java:116 | only a 36-character dashed text parses to a uuid |
| Uuids.FromStringOfToString | src/main/java/com/example/demo1/services/JwtTokenService.java:108-117 | parsing the printed form of a uuid gives back that uuid |
| Uuids.ToStringInjective | src/main/java/com/example/demo1/services/JwtTokenService.java:64 | distinct uuids print differently |
| Text.Trim | src/main/java/com/example/demo1/services/SolicitudVerificacionService.java:130-138 | the trimmed note is empty exactly when the text is all white space, and otherwise starts and ends with a non-space and occurs in the text |
| Entities.OnCreate | src/main/java/com/example/demo1/models/entidades/UserModel.java:50-58 | a uuid is assigned only when absent, both audit times become now, nothing else changes |
| Entities.OnUpdate | src/main/java/com/example/demo1/models/entidades/UserModel.java:139-142 | a changed user gets the modification time now, an unchanged one keeps its stored time, and no other field is touched |
| Roles.ExpectedAuthorities | src/main/java/com/example/demo1/services/RoleService.java:22-62 | ROLE_USER is always held; ADMIN gives exactly the earlier authorities plus ROLE_USER and ROLE_ADMIN, nothing more; any other role gives at most two authorities from USER, ARTISTA, EMPRESA |
| Roles.AddedRecord | src/main/java/com/example/demo1/services/RoleService.java:31-45 | the extra record looked up after ROLE_USER: none for USER, a distinct one for every other role |
| Roles.AdminPermissionIffAdminRole | src/main/java/com/example/demo1/services/RoleService.java:79-83 | after a role change administrative permission holds exactly when the new role is ADMIN |
| Roles.NonAdminRolesForgetHistory | src/main/java/com/example/demo1/services/RoleService.java:31-53 | USER, ARTIST and ENTERPRISE give exactly the basic authority plus the role's own, whatever was held before |
| Roles.TienePermisosAdministrativos | src/main/java/com/example/demo1/services/RoleService.java:79-81 | true exactly when the user holds the ROLE_ADMIN record; by AdminPermissionIffAdminRole, after a role change exactly when the new role is ADMIN |
| Roles.RoleRepository.FindByName | src/main/java/com/example/demo1/repositories/IRoleRepository.java:10 | a record is found exactly when one exists for that authority |
| Roles.RoleRepository.Save | src/main/java/com/example/demo1/services/RoleService.java:68-72 | saving a record adds exactly that authority |
| Roles.RoleService.ActualizarRolesSegunTipo | src/main/java/com/example/demo1/services/RoleService.java:22-62 | a missing record fails with that record's name before anything changes; otherwise the user's authorities become ExpectedAuthorities |
| Roles.RoleService.AsignarRolInicial | src/main/java/com/example/demo1/services/RoleService.java:64-76 | the ROLE_USER record exists afterwards, and the user has role USER and authorities exactly {ROLE_USER} |
| UserMapping.ToResponseDTO | src/main/java/com/example/demo1/mappers/UserMapper.java:49-66 | no user gives no view; a user without a role fails; otherwise the view carries the uuid, username, first and last name, email, location, photo, description, role name, and verified true exactly for a TRUE flag |
| UserMapping.ResponseHidesInternals | src/main/java/com/example/demo1/mappers/UserMapper.java:54-65 | the view does not depend on the password, id, audit times or authorities |
| UserMapping.ToEntity | src/main/java/com/example/demo1/mappers/UserMapper.java:74-90 | the profile fields and role are copied, the password is stored encoded, the user starts unverified with no uuid and no authorities |
| UserMapping.RegisteredViewShowsForm | src/main/java/com/example/demo1/mappers/UserMapper.java:74-90 | the view of a converted registration shows the form's profile and role, unverified |
| UserMapping.UpdateUserFromDTO | src/main/java/com/example/demo1/mappers/UserMapper.java:97-126 | the field-by-field patch ends in the state ApplyUpdate describes |
| UserMapping.UpdateOverwritesPresentFields | src/main/java/com/example/demo1/mappers/UserMapper.java:97-126 | every field present in the form is overwritten (the password encoded) and every absent one kept |
| UserMapping.UpdateKeepsProtectedFields | src/main/java/com/example/demo1/mappers/UserMapper.java:97-126 | id, uuid, verification, creation time and authorities are never changed by a form, and a role is never removed |
| UserMapping.EmptyFormTouchesOnlyUpdateAt | src/main/java/com/example/demo1/mappers/UserMapper.java:97-125 | a form with every field absent changes only the modification time |
| UserMapping.ApplyUpdateIdempotent | src/main/java/com/example/demo1/mappers/UserMapper.java:97-126 | applying a form twice is applying it once |
| UserMapping.TypeUserBypass | src/main/java/com/example/demo1/mappers/UserMapper.java:122-124 | a form carrying a role installs it directly, leaving verification and authorities as they were |
| Users.UserByUuid | src/main/java/com/example/demo1/repositories/IUserRepository.java:39 | in a valid store, nothing is found exactly when no user has the uuid, and otherwise the one that has it |
| Users.UserByUsername | src/main/java/com/example/demo1/repositories/IUserRepository.java:32 | the one user with that username, or nothing exactly when none has it |
| Users.UserByEmail | src/main/java/com/example/demo1/repositories/IUserRepository.java:60 | the one user with that email, or nothing exactly when none has it |
| Users.View | src/main/java/com/example/demo1/mappers/UserMapper.java:49-66 | the view of a stored user fails, with a null reference, exactly when it has no role; otherwise it carries the user's uuid, username, email, role name and verification flag |
| Users.CreatedUser | src/main/java/com/example/demo1/services/UserService.java:72-79 | a registered user has role USER, authority {ROLE_USER}, is unverified, has the given uuid, the form's email and username and the encoded password |
| Users.UserService.CreateUser | src/main/java/com/example/demo1/services/UserService.java:64-81 | it succeeds exactly when neither email, username nor generated uuid is taken; a taken email fails first, then a taken username, then a colliding uuid, storing nothing; otherwise exactly the created user is added and the store grows by one, uniqueness kept |
| Users.UserService.GetByUuid | src/main/java/com/example/demo1/services/UserService.java:88-91 | fails exactly when no stored user has the uuid, and otherwise returns that user |
| Users.UserService.FindByUuid | src/main/java/com/example/demo1/services/UserService.java:98-102 | the view of the user with the uuid, or not found |
| Users.UserService.FindByUsername | src/main/java/com/example/demo1/services/UserService.java:109-113 | the view of the user with the username, or not found |
| Users.UserService.UpdateUser | src/main/java/com/example/demo1/services/UserService.java:135-156 | unknown uuid fails; a changed email, then a changed username, already in use fails; an unchanged one is not checked; otherwise the stored user becomes the patched one; failures save nothing and uniqueness is kept |
| Users.UserService.DeleteUser | src/main/java/com/example/demo1/services/UserService.java:162-166 | fails exactly for an unknown uuid, and otherwise removes exactly that user |
| Users.UserService.VerifyUser | src/main/java/com/example/demo1/services/UserService.java:173-180 | the user becomes verified; role, identity and profile are kept |
| Tokens.IssuedClaims | src/main/java/com/example/demo1/services/JwtTokenService.java:53-69 | subject is the email, role is the role name or "USER", userId the id, uuid its printed form, expiry the issue time plus the lifetime; a user with no uuid cannot get a token |
| Tokens.GenerateToken | src/main/java/com/example/demo1/services/JwtTokenService.java:53-69 | the token is the signed issued claims |
| Tokens.ValidateToken | src/main/java/com/example/demo1/services/JwtTokenService.java:77-84 | true exactly when the token parses, every parse failure being reported as false; under a sound codec a valid token has not passed its expiry |
| Tokens.GetClaims | src/main/java/com/example/demo1/services/JwtTokenService.java:126-136 | succeeds exactly for a token that parses, with the parsed claims |
| Tokens.GetUsernameFromToken | src/main/java/com/example/demo1/services/JwtTokenService.java:92-99 | the subject of a token that parses, and an error otherwise |
| Tokens.GetUuidFromToken | src/main/java/com/example/demo1/services/JwtTokenService.java:108-117 | fails for a token that does not parse, for a missing uuid claim and for a claim that is not a uuid; otherwise the parsed uuid |
| Tokens.ResolveToken | src/main/java/com/example/demo1/services/JwtTokenService.java:146-158 | succeeds exactly when the header starts with "Bearer ", with the rest of the header; fails otherwise |
| Tokens.ResolveTokenOfBearer | src/main/java/com/example/demo1/services/JwtTokenService.java:151-155 | a header made of the prefix and a token resolves to that token |
| Tokens.IssuedTokenValidUntilExpiry | src/main/java/com/example/demo1/services/JwtTokenService.java:77-84 | an issued token validates, with its issued claims, up to and including its expiry instant |
| Tokens.IssuedTokenExpires | src/main/java/com/example/demo1/services/JwtTokenService.java:55-84 | an issued token no longer validates at any time after its expiry instant (issue time plus the configured lifetime) |
| Tokens.IssuedTokenRoundTrip | src/main/java/com/example/demo1/services/JwtTokenService.java:92-117 | the subject and uuid read back from an issued token are the user's email and uuid, and the role claim is the user's role name |
| UserDetails.AuthorityText | src/main/java/com/example/demo1/security/CustomUserDetailsService.java:34-36 | the authority is "ROLE_" followed by the role name |
| UserDetails.AuthorityTextInjective | src/main/java/com/example/demo1/security/CustomUserDetailsService.java:34-36 | distinct roles grant distinct authorities |
| UserDetails.LoadUserByUsername | src/main/java/com/example/demo1/security/CustomUserDetailsService.java:25-43 | an unknown email is not found, a user without a role fails, otherwise the principal is named by the email, has the stored hash and exactly one authority |
| AuthFilter.IsExempt | src/main/java/com/example/demo1/security/JwtAuthenticationFilter.java:66 | only paths under /api/v1/users/ (the register and login prefixes) bypass token handling |
| AuthFilter.Authenticate | src/main/java/com/example/demo1/security/JwtAuthenticationFilter.java:66-86 | an exempt path is never authenticated; an authentication needs a bearer token that validates (and, by AuthenticationNeedsValidToken, a stored user it names) |
| AuthFilter.GetJwtFromRequest | src/main/java/com/example/demo1/security/JwtAuthenticationFilter.java:96-102 | the text after "Bearer " when the header has that prefix, nothing otherwise |
| AuthFilter.AuthenticationNeedsValidToken | src/main/java/com/example/demo1/security/JwtAuthenticationFilter.java:66-86 | an authentication is only ever established on a non-exempt path, from a bearer token that validates and names a stored user with a role, with exactly that user's authority |
| AuthFilter.IssuedTokenAuthenticates | src/main/java/com/example/demo1/security/JwtAuthenticationFilter.java:71-82 | a token issued to a stored user with a role authenticates that user on every non-exempt path until it expires |
| AuthFilter.FilterChain.DoFilter | src/main/java/com/example/demo1/security/JwtAuthenticationFilter.java:88 | the chain receives the request |
| AuthFilter.JwtAuthenticationFilter.DoFilterInternal | src/main/java/com/example/demo1/security/JwtAuthenticationFilter.java:59-89 | the chain receives the request exactly once on every path; the context gains the authentication Authenticate describes and is otherwise left as it was |
| Verification.ValidarProgresionRoles | src/main/java/com/example/demo1/services/SolicitudVerificacionService.java:34-60 | succeeds exactly for the accepted (current, requested) pairs; the role already held and a change away from ADMIN fail with their own errors |
| Verification.AdminNeverProgresses | src/main/java/com/example/demo1/services/SolicitudVerificacionService.java:40-42 | an ADMIN never passes, whatever is requested |
| Verification.UserNeverRequestableAdminAlways | src/main/java/com/example/demo1/services/SolicitudVerificacionService.java:45-47 | USER can never be requested; ADMIN can be requested exactly from every non-ADMIN role |
| Verification.ArtistAndEnterpriseSources | src/main/java/com/example/demo1/services/SolicitudVerificacionService.java:48-58 | ARTIST only from USER, ENTERPRISE only from USER or ARTIST |
| Verification.SixOfSixteenAccepted | src/main/java/com/example/demo1/services/SolicitudVerificacionService.java:34-60 | exactly six of the sixteen role pairs pass |
| Verification.FirstPendingOf | src/main/java/com/example/demo1/services/SolicitudVerificacionService.java:84-85 | the lowest-id pending request of the user, found whenever one exists |
| Verification.OtherPendingCheckNeverFires | src/main/java/com/example/demo1/services/SolicitudVerificacionService.java:84-89 | when no user has two pending requests, a pending request is its user's first pending one |
| Verification.ApprovalCheck | src/main/java/com/example/demo1/services/SolicitudVerificacionService.java:62-92 | succeeds exactly when the request exists and is pending, its owner exists and lacks the requested role, it is the owner's first pending request and the progression is accepted; otherwise the first failing check's error in source order: unknown request, not pending, missing owner, role already held, another pending request, then the progression's own error |
| Verification.SolicitudVerificacionService.ActualizarUsuario | src/main/java/com/example/demo1/services/SolicitudVerificacionService.java:110-117 | the owner takes the new role, becomes verified and has its authorities recomputed, and is saved only when the role service succeeds |
| Verification.SolicitudVerificacionService.AprobarSolicitud | src/main/java/com/example/demo1/services/SolicitudVerificacionService.java:62-107 | every failed check returns its error and changes nothing; on success the request alone becomes ACEPTADO with a resolution time and its owner is promoted and verified; one pending request per user is kept |
| Verification.SolicitudVerificacionService.RechazarSolicitud | src/main/java/com/example/demo1/services/SolicitudVerificacionService.java:119-152 | unknown, non-pending and blank-note requests fail and change nothing; on success the request becomes RECHAZADO with the trimmed note and a resolution time, and the owner keeps role and verification |
| VerificationController.NewRequest | src/main/java/com/example/demo1/controllers/SolicitudVerifController.java:48-50 | a submitted request is pending, unresolved, without a note, of that user, with the form's texts and requested role |
| VerificationController.SolicitudVerifController.CrearSolicitudVerificacion | src/main/java/com/example/demo1/controllers/SolicitudVerifController.java:33-52 | an unknown user is not found, a verified user and a user with a pending request are refused with their messages, nothing being stored; otherwise exactly the new pending request is added; one pending request per user is kept |
| VerificationController.SolicitudVerifController.GetSolicitudVerificacion | src/main/java/com/example/demo1/controllers/SolicitudVerifController.java:54-63 | not found exactly for an unknown user, otherwise exactly that user's requests |
| VerificationController.SolicitudVerifController.GetSolicitudesPorEstado | src/main/java/com/example/demo1/controllers/SolicitudVerifController.java:66-76 | exactly the requests in the given state, or all of them when none is given |
| VerificationController.SolicitudVerifController.AprobarSolicitudVerificacion | src/main/java/com/example/demo1/controllers/SolicitudVerifController.java:79-89 | any request, in any state, becomes ACEPTADO and its owner verified, with the owner's role and authorities unchanged |
| VerificationController.SolicitudVerifController.RechazarSolicitud | src/main/java/com/example/demo1/controllers/SolicitudVerifController.java:91-101 | any request becomes RECHAZADO; the note is replaced only when one is given; the owner is untouched |
| Portfolios.NewPortfolio | src/main/java/com/example/demo1/services/PortafolioService.java:44-50 | a created portfolio has the form's fields, the owner and the creation time |
| Portfolios.WithForm | src/main/java/com/example/demo1/services/PortafolioService.java:71-78 | the eight editable fields become the form's |
| Portfolios.WithFormKeepsIdentity | src/main/java/com/example/demo1/services/PortafolioService.java:71-81 | an edit keeps id, owner and creation time, the current form changes nothing, and editing a fresh portfolio is creating it with the new form |
| Portfolios.Dispatch | src/main/java/com/example/demo1/controllers/PortafolioController.java:208-220 | both filters pick the combined query, type only the type query, tag only the tag query with no type, neither every portfolio |
| Portfolios.MemberMatchImpliesLikeMatch | src/main/java/com/example/demo1/repositories/IPortafolioRepository.java:48-60 | whatever the combined query finds, the tag query with the same type finds too |
| Portfolios.TagOnlySearchIgnoresType | src/main/java/com/example/demo1/repositories/IPortafolioRepository.java:48-52 | the tag-only search does not depend on the file type |
| Portfolios.PortafolioService.CrearPortafolio | src/main/java/com/example/demo1/services/PortafolioService.java:44-51 | exactly the new portfolio, owned by the user and stamped now, is added; the store grows by one |
| Portfolios.PortafolioService.ActualizarPortafolio | src/main/java/com/example/demo1/services/PortafolioService.java:60-83 | unknown id fails, a caller who is not the owner fails, both saving nothing; otherwise the stored portfolio takes the form's eight fields |
| Portfolios.PortafolioController.ObtenerPortafolioPorUsuario | src/main/java/com/example/demo1/controllers/PortafolioController.java:92-102 | not found exactly for an unknown user id, otherwise exactly that user's portfolios |
| Portfolios.PortafolioController.ObtenerPortafolioPorUsername | src/main/java/com/example/demo1/controllers/PortafolioController.java:125-134 | not found exactly for an unknown username, otherwise exactly that user's portfolios |
| Portfolios.PortafolioController.BuscarPorTipoArchivoAndEtiquetas | src/main/java/com/example/demo1/controllers/PortafolioController.java:208-225 | exactly the stored portfolios the dispatched query matches |
| Portfolios.PortafolioController.EliminarPortafolioAuth | src/main/java/com/example/demo1/controllers/PortafolioController.java:164-184 | a missing or unreadable token is an unhandled error, an unknown id not found, a caller who is not the owner forbidden, none of them deleting; the owner deletes exactly that portfolio |
| Portfolios.PortafolioController.EliminarPortafolio | src/main/java/com/example/demo1/controllers/PortafolioController.java:191-200 | deletes the portfolio exactly when it exists, and reports not found otherwise |
| Opportunities.NewOpportunity | src/main/java/com/example/demo1/mappers/OportunidadMapper.java:82-94 | a created opportunity has the form's texts, is ABIERTO, is published now and closes thirty days later, owned by the company |
| Opportunities.CreationIgnoresFormState | src/main/java/com/example/demo1/mappers/OportunidadMapper.java:82-94 | the form's state plays no part in a creation |
| Opportunities.WithForm | src/main/java/com/example/demo1/services/OportunidadService.java:23-35 | the six editable fields, the state included, become the form's |
| Opportunities.WithFormKeepsScheduleAndOwner | src/main/java/com/example/demo1/services/OportunidadService.java:23-35 | an edit keeps id, owner, publication and closing time, and is idempotent |
| Opportunities.EditAfterCreation | src/main/java/com/example/demo1/services/OportunidadService.java:23-35 | editing a fresh opportunity is creating it with the new form and its state |
| Opportunities.OportunidadService.ActualizarDesdeDTO | src/main/java/com/example/demo1/services/OportunidadService.java:23-35 | the stored opportunity is replaced by the edited one |
| Opportunities.OportunidadController.CrearOportunidad | src/main/java/com/example/demo1/controllers/OportunidadController.java:63-89 | a missing or unreadable token is an unhandled error, an unknown caller not found, a caller who is not a company forbidden, none of them storing; a company adds exactly its new open opportunity |
| Opportunities.OportunidadController.ActualizarOportunidad | src/main/java/com/example/demo1/controllers/OportunidadController.java:148-200 | an unreadable token is unauthorized, an unknown caller an unhandled error, an unknown id not found; any existing caller edits any opportunity, with no ownership check; route security admits only ROLE_ENTERPRISE callers to this PUT, so in a deployment that means any company |
| Opportunities.OportunidadController.EliminarOportunidad | src/main/java/com/example/demo1/controllers/OportunidadController.java:205-221 | no authentication is an unhandled error (unreachable once route security admits only ROLE_ENTERPRISE callers to this DELETE), an unknown id not found; unless the caller is a company that owns it the result is forbidden; only then is exactly that opportunity deleted |
| Opportunities.OportunidadController.GetOportunidadesByEmpresa | src/main/java/com/example/demo1/controllers/OportunidadController.java:230-249 | not found exactly for an unknown uuid, forbidden for a user who is not a company, otherwise exactly that company's opportunities |
| Applications.NewApplication | src/main/java/com/example/demo1/controllers/PostulacionController.java:49-56 | a new application is PENDENTE, linked to the artist and the opportunity, with the message and the time |
| Applications.InsertKeepsPairsUnique | src/main/java/com/example/demo1/controllers/PostulacionController.java:45-56 | adding an application for a pair nobody holds keeps one application per pair, and the pair is then held |
| Applications.StatusChangeKeepsPairsUnique | src/main/java/com/example/demo1/controllers/PostulacionController.java:89-91 | changing a status keeps one application per pair |
| Applications.FindByArtistaAndOportunidad | src/main/java/com/example/demo1/repositories/IPostulacionRepository.java:15 | the application of that artist to that opportunity, found exactly when one exists |
| Applications.PostulacionController.CrearPostulacion | src/main/java/com/example/demo1/controllers/PostulacionController.java:29-58 | an unknown artist or opportunity is not found, a non-artist forbidden, a second application refused, none storing; otherwise exactly the new pending application is added; one application per pair is kept |
| Applications.PostulacionController.ObtenerPostulacionesPorArtista | src/main/java/com/example/demo1/controllers/PostulacionController.java:61-69 | not found exactly for an unknown user, otherwise exactly that artist's applications |
| Applications.PostulacionController.ObtenerPostulacionesPorOportunidad | src/main/java/com/example/demo1/controllers/PostulacionController.java:72-79 | not found exactly for an unknown opportunity, otherwise exactly its applications |
| Applications.PostulacionController.ActualizarEstado | src/main/java/com/example/demo1/controllers/PostulacionController.java:82-92 | an unknown application is not found and nothing changes; otherwise exactly its status becomes the given one |

## Left out

- JWT signing, key derivation, compact encoding and jjwt's own expiry check are library behaviour: the codec is abstract and `Sound` states what the service relies on.
- Tokens: the expiry is carried at millisecond precision and a token is accepted up to and including that instant; jjwt's serialisation of `exp` in whole seconds and its clock-skew allowance are not modelled.
- Verification.FirstPendingOf: reads `get(0)` of the derived pending-request query as the pending request with the lowest id; JPA leaves that list's order unspecified, which is harmless while a user has at most one pending request.
- BCrypt hashing and matching are foreign code: the hash is the symbolic `Hashed(raw)`.
- Spring wiring: route security, CORS, the authentication manager, the login and authentication services, and exception-to-status handlers are framework configuration.
- Bean validation of forms and entities (sizes, patterns, `@NotBlank`, `@Future` on the closing date) is done by the framework before or at save time, and is not modelled.
- File, mail and network I/O, among them `saveProfileImage`, are outside the core.
- `getAllUsers` is a plain listing of every user's view; it is not modelled.
- Response DTO mapping of requests, portfolios and opportunities (which reads the owner's username and profile) is not modelled: endpoints return the stored entity, so a dangling owner link made visible only by that mapping is not modelled either; the remaining-days calendar arithmetic of the opportunity listing is date-library behaviour.
- The obtenerPortafolioPorUuid listing, the opportunity lookups by id, category and state, the public listings and the controller's portfolio create and update endpoints are thin wrappers over modelled operations and are not modelled.
- Referential integrity (foreign keys, the effect of deleting a referenced user or opportunity) is database behaviour and is not modelled; owners are held by uuid (portfolios, opportunities) or user id (requests, applications).
- Object identity of managed entities, lazy loading and the persistence context are not modelled; entities are values.
- Transactions, rollbacks beyond the ones stated and concurrent requests are not modelled; the model is sequential.
- Time is one integer of milliseconds; the truncation of token times to seconds and the several readings of the clock within one call are not modelled.
- Uuids.FromString: accepts only the canonical 36-character form (either case), while `UUID.fromString` also accepts shorter groups.
- Portfolios.Matches: case-insensitive comparison is ASCII only, the LIKE wildcards `%` and `_` inside the searched text are taken literally, and the rows a JOIN duplicates once per matching tag are returned once; database collation is not modelled.
- Null text fields of the forms and entities are modelled as present strings except where the code tests for null.
- The framework `User` principal rejecting an empty name or password is not modelled.
