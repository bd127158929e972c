/** The user mapper: entity to public view, registration form to entity, and
    the patch an update form applies. */
module UserMapping {
  import opened Enums
  import opened Outcomes
  import opened Uuids
  import opened Entities

  /** The registration form. A role is carried so that the service can fix
      it before conversion. */
  datatype CreateUserDTO = CreateUserDTO(
    username: string,
    firstName: string,
    lastName: Option<string>,
    email: string,
    location: Option<string>,
    password: string,
    photoProfile: Option<string>,
    description: string,
    typeUser: Option<RoleName>)

  /** The update form: an absent field means "keep the stored value". */
  datatype UpdateUserDTO = UpdateUserDTO(
    password: Option<string>,
    photoProfile: Option<string>,
    description: Option<string>,
    location: Option<string>,
    email: Option<string>,
    username: Option<string>,
    firstName: Option<string>,
    lastName: Option<string>,
    typeUser: Option<RoleName>)

  /** The public view of a user; it has no password, id or authority field. */
  datatype UserResponseDTO = UserResponseDTO(
    uuid: Option<Uuid>,
    username: string,
    firstName: Option<string>,
    lastName: Option<string>,
    email: string,
    location: Option<string>,
    photoProfile: Option<string>,
    description: Option<string>,
    typeUser: string,
    verified: bool)

  /** `toResponseDTO`: no user gives no view; a user without a role cannot be
      shown (the role's name is read unguarded). */
  function ToResponseDTO(user: Option<UserModel>): (r: Result<Option<UserResponseDTO>>)
    ensures user.None? ==> r == Success(None)
    ensures r.Failure? <==> user.Some? && user.value.typeUser.None?
    ensures r.Failure? ==> r.error == NullReference
    ensures r.Success? && user.Some? ==> (r.value.Some?
      && r.value.value.verified == IsVerified(user.value)
      && r.value.value.typeUser == RoleText(user.value.typeUser.value)
      && r.value.value.uuid == user.value.uuid
      && r.value.value.email == user.value.email
      && r.value.value.username == user.value.username
      && r.value.value.firstName == user.value.firstName
      && r.value.value.lastName == user.value.lastName
      && r.value.value.location == user.value.location
      && r.value.value.photoProfile == user.value.photoProfile
      && r.value.value.description == user.value.description)
  {
    match user
    case None => Success(None)
    case Some(u) =>
      if u.typeUser.None? then Failure(NullReference)
      else Success(Some(UserResponseDTO(u.uuid, u.username, u.firstName, u.lastName, u.email,
        u.location, u.photoProfile, u.description, RoleText(u.typeUser.value), u.verified == Some(true))))
  }

  /** The view depends on no secret or internal field: not the password, the
      id, the audit times or the authorities. */
  lemma ResponseHidesInternals(u: UserModel, p: PasswordHash, id: nat, t0: int, t1: int, roles: set<Authority>)
    ensures ToResponseDTO(Some(u.(password := p, id := id, createdAt := t0, updateAt := t1, roles := roles)))
            == ToResponseDTO(Some(u))
  {
  }

  /** `toEntity`: the profile fields and role are copied, the password is
      stored encoded, the user starts unverified with no authorities. */
  function ToEntity(dto: CreateUserDTO, now: int): (r: UserModel)
    ensures r.username == dto.username && r.email == dto.email
    ensures r.firstName == Some(dto.firstName) && r.lastName == dto.lastName
    ensures r.location == dto.location && r.photoProfile == dto.photoProfile
    ensures r.description == Some(dto.description) && r.typeUser == dto.typeUser
    ensures r.password == Hashed(dto.password)
    ensures !IsVerified(r) && r.verified.Some?
    ensures r.uuid.None? && r.roles == {}
    ensures r.createdAt == now && r.updateAt == now
  {
    UserModel(0, None, dto.username, Some(dto.firstName), dto.lastName, dto.email, Hashed(dto.password),
      dto.typeUser, Some(false), dto.location, dto.photoProfile, Some(dto.description), now, now, {})
  }

  /** A patched value: the form's value when present, otherwise the current one. */
  function Patch<T>(field: Option<T>, current: T): (r: T)
    ensures field.Some? ==> r == field.value
    ensures field.None? ==> r == current
  {
    if field.Some? then field.value else current
  }

  /** A patched nullable value. */
  function PatchNullable<T>(field: Option<T>, current: Option<T>): (r: Option<T>)
    ensures field.Some? ==> r == field
    ensures field.None? ==> r == current
  {
    if field.Some? then field else current
  }

  /** The patch of an update form, as one value: the state `UpdateUserFromDTO`
      leaves the user in. */
  function ApplyUpdate(dto: UpdateUserDTO, u: UserModel, now: int): UserModel
  {
    u.(username := Patch(dto.username, u.username),
       password := if dto.password.Some? then Hashed(dto.password.value) else u.password,
       firstName := PatchNullable(dto.firstName, u.firstName),
       lastName := PatchNullable(dto.lastName, u.lastName),
       email := Patch(dto.email, u.email),
       location := PatchNullable(dto.location, u.location),
       photoProfile := PatchNullable(dto.photoProfile, u.photoProfile),
       description := PatchNullable(dto.description, u.description),
       typeUser := PatchNullable(dto.typeUser, u.typeUser),
       updateAt := now)
  }

  /** `updateUserFromDTO`, one field at a time. */
  method UpdateUserFromDTO(dto: UpdateUserDTO, user: UserModel, now: int) returns (r: UserModel)
    ensures r == ApplyUpdate(dto, user, now)
  {
    r := user;
    if dto.username.Some? {
      r := r.(username := dto.username.value);
    }
    if dto.password.Some? {
      r := r.(password := Hashed(dto.password.value));
    }
    if dto.firstName.Some? {
      r := r.(firstName := dto.firstName);
    }
    if dto.lastName.Some? {
      r := r.(lastName := dto.lastName);
    }
    if dto.email.Some? {
      r := r.(email := dto.email.value);
    }
    if dto.location.Some? {
      r := r.(location := dto.location);
    }
    if dto.photoProfile.Some? {
      r := r.(photoProfile := dto.photoProfile);
    }
    if dto.description.Some? {
      r := r.(description := dto.description);
    }
    if dto.typeUser.Some? {
      r := r.(typeUser := dto.typeUser);
    }
    r := r.(updateAt := now);
  }

  /** The fields a form cannot reach: identity, verification, creation time
      and authorities are kept, and a role is never removed. */
  lemma UpdateKeepsProtectedFields(dto: UpdateUserDTO, u: UserModel, now: int)
    ensures ApplyUpdate(dto, u, now).id == u.id
    ensures ApplyUpdate(dto, u, now).uuid == u.uuid
    ensures ApplyUpdate(dto, u, now).verified == u.verified
    ensures ApplyUpdate(dto, u, now).createdAt == u.createdAt
    ensures ApplyUpdate(dto, u, now).roles == u.roles
    ensures u.typeUser.Some? ==> ApplyUpdate(dto, u, now).typeUser.Some?
    ensures ApplyUpdate(dto, u, now).updateAt == now
  {
  }

  /** Every field present in the form is overwritten with the form's value
      (the password encoded), and every absent one keeps the stored value. */
  lemma UpdateOverwritesPresentFields(dto: UpdateUserDTO, u: UserModel, now: int)
    ensures var r := ApplyUpdate(dto, u, now);
      (dto.username.Some? ==> r.username == dto.username.value)
      && (dto.username.None? ==> r.username == u.username)
      && (dto.email.Some? ==> r.email == dto.email.value)
      && (dto.email.None? ==> r.email == u.email)
      && (dto.password.Some? ==> r.password == Hashed(dto.password.value))
      && (dto.password.None? ==> r.password == u.password)
      && (dto.firstName.Some? ==> r.firstName == dto.firstName)
      && (dto.firstName.None? ==> r.firstName == u.firstName)
      && (dto.lastName.Some? ==> r.lastName == dto.lastName)
      && (dto.lastName.None? ==> r.lastName == u.lastName)
      && (dto.location.Some? ==> r.location == dto.location)
      && (dto.location.None? ==> r.location == u.location)
      && (dto.photoProfile.Some? ==> r.photoProfile == dto.photoProfile)
      && (dto.photoProfile.None? ==> r.photoProfile == u.photoProfile)
      && (dto.description.Some? ==> r.description == dto.description)
      && (dto.description.None? ==> r.description == u.description)
      && (dto.typeUser.Some? ==> r.typeUser == dto.typeUser)
      && (dto.typeUser.None? ==> r.typeUser == u.typeUser)
  {
  }

  predicate IsEmptyForm(dto: UpdateUserDTO) {
    dto == UpdateUserDTO(None, None, None, None, None, None, None, None, None)
  }

  /** A form with every field absent changes only the modification time. */
  lemma EmptyFormTouchesOnlyUpdateAt(dto: UpdateUserDTO, u: UserModel, now: int)
    requires IsEmptyForm(dto)
    ensures ApplyUpdate(dto, u, now) == u.(updateAt := now)
  {
  }

  /** Applying the same form twice is applying it once. */
  lemma ApplyUpdateIdempotent(dto: UpdateUserDTO, u: UserModel, now: int)
    ensures ApplyUpdate(dto, ApplyUpdate(dto, u, now), now) == ApplyUpdate(dto, u, now)
  {
  }

  /** The role bypass: a form carrying a role installs it directly, whatever
      the current role and verification state, and leaves the authorities as
      they were, so they no longer follow the role. */
  lemma TypeUserBypass(dto: UpdateUserDTO, u: UserModel, now: int, t: RoleName)
    requires dto.typeUser == Some(t)
    ensures ApplyUpdate(dto, u, now).typeUser == Some(t)
    ensures ApplyUpdate(dto, u, now).roles == u.roles
    ensures ApplyUpdate(dto, u, now).verified == u.verified
  {
  }

  /** The public view of a converted registration shows the form's profile
      and the given role, unverified. */
  lemma RegisteredViewShowsForm(dto: CreateUserDTO, now: int, t: RoleName)
    requires dto.typeUser == Some(t)
    ensures ToResponseDTO(Some(ToEntity(dto, now))).Success?
    ensures var v := ToResponseDTO(Some(ToEntity(dto, now))).value.value;
      v.username == dto.username && v.email == dto.email && v.typeUser == RoleText(t)
      && v.firstName == Some(dto.firstName) && v.description == Some(dto.description)
      && !v.verified
  {
  }
}
