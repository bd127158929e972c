/** The user store and the user service: registration with uniqueness of
    email and username, lookups by uuid and username, update, deletion and
    manual verification. */
module Users {
  import opened Enums
  import opened Outcomes
  import opened Uuids
  import opened Entities
  import opened Repositories
  import opened Roles
  import opened UserMapping

  /** What the user table guarantees: each row is stored under its own id,
      below the next id; it has a uuid; email, username and uuid
      are unique across rows. */
  ghost predicate UsersValid(users: map<nat, UserModel>, n: nat) {
    (forall k :: k in users ==> k < n && users[k].id == k && users[k].uuid.Some?)
    && (forall j, k :: j in users && k in users && j != k ==>
          users[j].email != users[k].email && users[j].username != users[k].username
          && users[j].uuid != users[k].uuid)
  }

  predicate ExistsByEmail(users: map<nat, UserModel>, email: string) {
    exists k :: k in users && users[k].email == email
  }

  predicate ExistsByUsername(users: map<nat, UserModel>, username: string) {
    exists k :: k in users && users[k].username == username
  }

  predicate ExistsByUuid(users: map<nat, UserModel>, uuid: Uuid) {
    exists k :: k in users && users[k].uuid == Some(uuid)
  }

  /** The stored user with the lowest id satisfying `p`. */
  function FindUser(users: map<nat, UserModel>, n: nat, p: UserModel -> bool): (r: Option<UserModel>)
    ensures r.Some? ==> r.value in users.Values && p(r.value)
    ensures r.None? ==> forall k :: k in users && k < n ==> !p(users[k])
  {
    var k := FirstKey(users, 0, n, p);
    if k.Some? then Some(users[k.value]) else None
  }

  /** `findByUuid`: the one user with that uuid, if any. */
  function UserByUuid(users: map<nat, UserModel>, n: nat, uuid: Uuid): (r: Option<UserModel>)
    requires UsersValid(users, n)
    ensures r.None? <==> !ExistsByUuid(users, uuid)
    ensures forall k :: k in users && users[k].uuid == Some(uuid) ==> r == Some(users[k])
  {
    FindUser(users, n, (u: UserModel) => u.uuid == Some(uuid))
  }

  /** `findByUsername`: the one user with that username, if any. */
  function UserByUsername(users: map<nat, UserModel>, n: nat, username: string): (r: Option<UserModel>)
    requires UsersValid(users, n)
    ensures r.None? <==> !ExistsByUsername(users, username)
    ensures forall k :: k in users && users[k].username == username ==> r == Some(users[k])
  {
    FindUser(users, n, (u: UserModel) => u.username == username)
  }

  /** `findByEmail`: the one user with that email, if any. */
  function UserByEmail(users: map<nat, UserModel>, n: nat, email: string): (r: Option<UserModel>)
    requires UsersValid(users, n)
    ensures r.None? <==> !ExistsByEmail(users, email)
    ensures forall k :: k in users && users[k].email == email ==> r == Some(users[k])
  {
    FindUser(users, n, (u: UserModel) => u.email == email)
  }

  /** An update form changes the email of `e` to one some stored user has. */
  predicate EmailClash(users: map<nat, UserModel>, e: UserModel, dto: UpdateUserDTO) {
    dto.email.Some? && dto.email.value != e.email && ExistsByEmail(users, dto.email.value)
  }

  /** An update form changes the username of `e` to one some stored user has. */
  predicate UsernameClash(users: map<nat, UserModel>, e: UserModel, dto: UpdateUserDTO) {
    dto.username.Some? && dto.username.value != e.username && ExistsByUsername(users, dto.username.value)
  }

  /** The public view of a stored user, as `toResponseDTO` builds it. */
  function View(u: UserModel): (r: Result<UserResponseDTO>)
    ensures r.Failure? <==> u.typeUser.None?
    ensures r.Failure? ==> r.error == NullReference
    ensures r.Success? ==> r.value.uuid == u.uuid && r.value.username == u.username && r.value.email == u.email
    ensures r.Success? ==> r.value.verified == IsVerified(u) && r.value.typeUser == RoleText(u.typeUser.value)
  {
    match ToResponseDTO(Some(u))
    case Failure(e) => Failure(e)
    case Success(v) => Success(v.value)
  }

  /** The user a registration stores under `id`: the form's profile with
      role USER, the basic authority only, unverified, with the given uuid. */
  function CreatedUser(dto: CreateUserDTO, id: nat, uuid: Uuid, now: int): (u: UserModel)
    ensures u.id == id && u.uuid == Some(uuid)
    ensures u.typeUser == Some(USER) && u.roles == {ROLE_USER} && !IsVerified(u)
    ensures u.email == dto.email && u.username == dto.username && u.password == Hashed(dto.password)
    ensures u.createdAt == now && u.updateAt == now
  {
    ToEntity(dto, now).(id := id, uuid := Some(uuid), typeUser := Some(USER), roles := {ROLE_USER})
  }

  class UserService {
    const userRepository: Repository<UserModel>
    const roleService: RoleService

    constructor (userRepository: Repository<UserModel>, roleService: RoleService)
      ensures this.userRepository == userRepository && this.roleService == roleService
    {
      this.userRepository := userRepository;
      this.roleService := roleService;
    }

    ghost predicate Valid()
      reads userRepository
    {
      userRepository.Valid() && UsersValid(userRepository.rows, userRepository.nextId)
    }

    /** `createUser`: the email is checked first, then the username; the
        generated uuid must not collide with a stored one (the column is
        unique). On any failure nothing is stored. */
    method CreateUser(dto: CreateUserDTO, now: int, generated: Uuid) returns (r: Result<UserResponseDTO>)
      requires Valid()
      modifies userRepository, roleService.roleRepository
      ensures Valid()
      ensures ExistsByEmail(old(userRepository.rows), dto.email) ==> r == Failure(EmailInUse)
      ensures (!ExistsByEmail(old(userRepository.rows), dto.email)
               && ExistsByUsername(old(userRepository.rows), dto.username)) ==> r == Failure(UsernameInUse)
      ensures (!ExistsByEmail(old(userRepository.rows), dto.email)
               && !ExistsByUsername(old(userRepository.rows), dto.username)
               && ExistsByUuid(old(userRepository.rows), generated)) ==> r == Failure(UuidInUse)
      ensures r.Success? <==> (!ExistsByEmail(old(userRepository.rows), dto.email)
                               && !ExistsByUsername(old(userRepository.rows), dto.username)
                               && !ExistsByUuid(old(userRepository.rows), generated))
      ensures r.Failure? ==> unchanged(userRepository) && unchanged(roleService.roleRepository)
      ensures r.Success? ==>
        var u := CreatedUser(dto, old(userRepository.nextId), generated, now);
        userRepository.rows == old(userRepository.rows)[u.id := u]
        && |userRepository.rows| == |old(userRepository.rows)| + 1
        && roleService.roleRepository.names == old(roleService.roleRepository.names) + {ROLE_USER}
        && r == View(u)
    {
      if ExistsByEmail(userRepository.rows, dto.email) {
        return Failure(EmailInUse);
      }
      if ExistsByUsername(userRepository.rows, dto.username) {
        return Failure(UsernameInUse);
      }
      if ExistsByUuid(userRepository.rows, generated) {
        return Failure(UuidInUse);
      }
      var form := dto.(typeUser := Some(USER));
      var user := ToEntity(form, now);
      user := user.(uuid := Some(generated));
      user := roleService.AsignarRolInicial(user);
      user := OnCreate(user, now, generated);
      user := user.(id := userRepository.nextId);
      assert user == CreatedUser(dto, userRepository.nextId, generated, now);
      userRepository.Insert(user);
      r := View(user);
    }

    /** `getByUuid`. */
    function GetByUuid(uuid: Uuid): (r: Result<UserModel>)
      reads userRepository
      requires Valid()
      ensures r.Failure? <==> !ExistsByUuid(userRepository.rows, uuid)
      ensures r.Failure? ==> r.error == UserNotFound
      ensures r.Success? ==> r.value in userRepository.rows.Values && r.value.uuid == Some(uuid)
    {
      match UserByUuid(userRepository.rows, userRepository.nextId, uuid)
      case None => Failure(UserNotFound)
      case Some(u) => Success(u)
    }

    /** `findByUuid`: the public view of the user with that uuid. */
    function FindByUuid(uuid: Uuid): (r: Result<UserResponseDTO>)
      reads userRepository
      requires Valid()
      ensures !ExistsByUuid(userRepository.rows, uuid) ==> r == Failure(UserNotFound)
      ensures r.Success? ==> r.value.uuid == Some(uuid)
      ensures forall k :: k in userRepository.rows && userRepository.rows[k].uuid == Some(uuid)
                ==> r == View(userRepository.rows[k])
    {
      match UserByUuid(userRepository.rows, userRepository.nextId, uuid)
      case None => Failure(UserNotFound)
      case Some(u) => View(u)
    }

    /** `findByUsername`: the public view of the user with that username. */
    function FindByUsername(username: string): (r: Result<UserResponseDTO>)
      reads userRepository
      requires Valid()
      ensures !ExistsByUsername(userRepository.rows, username) ==> r == Failure(UserNotFound)
      ensures r.Success? ==> r.value.username == username
      ensures forall k :: k in userRepository.rows && userRepository.rows[k].username == username
                ==> r == View(userRepository.rows[k])
    {
      match UserByUsername(userRepository.rows, userRepository.nextId, username)
      case None => Failure(UserNotFound)
      case Some(u) => View(u)
    }

    /** `updateUser`: a changed email or username must not be in use by any
        stored user; an unchanged one is not checked. On success the stored
        user is replaced by the patched one. */
    method UpdateUser(uuid: Uuid, dto: UpdateUserDTO, now: int) returns (r: Result<UserResponseDTO>)
      requires Valid()
      modifies userRepository
      ensures Valid()
      ensures !ExistsByUuid(old(userRepository.rows), uuid) ==> r == Failure(UserNotFound)
      ensures r.Failure? ==> unchanged(userRepository)
      ensures forall k :: k in old(userRepository.rows) && old(userRepository.rows)[k].uuid == Some(uuid) ==>
        var e := old(userRepository.rows)[k];
        (EmailClash(old(userRepository.rows), e, dto) ==> r == Failure(EmailInUse))
        && (!EmailClash(old(userRepository.rows), e, dto) && UsernameClash(old(userRepository.rows), e, dto)
            ==> r == Failure(UsernameInUse))
        && (!EmailClash(old(userRepository.rows), e, dto) && !UsernameClash(old(userRepository.rows), e, dto)
            ==> r == View(ApplyUpdate(dto, e, now))
                && (r.Success? ==> userRepository.rows == old(userRepository.rows)[k := ApplyUpdate(dto, e, now)]))
    {
      var found := UserByUuid(userRepository.rows, userRepository.nextId, uuid);
      if found.None? {
        return Failure(UserNotFound);
      }
      var existing := found.value;
      if EmailClash(userRepository.rows, existing, dto) {
        return Failure(EmailInUse);
      }
      if UsernameClash(userRepository.rows, existing, dto) {
        return Failure(UsernameInUse);
      }
      var updated := UpdateUserFromDTO(dto, existing, now);
      UpdateKeepsProtectedFields(dto, existing, now);
      r := View(updated);
      if r.Success? {
        userRepository.Save(existing.id, updated);
      }
    }

    /** `deleteUser`: removes exactly the user with that uuid. */
    method DeleteUser(uuid: Uuid) returns (r: Result<()>)
      requires Valid()
      modifies userRepository
      ensures Valid()
      ensures r.Failure? <==> !ExistsByUuid(old(userRepository.rows), uuid)
      ensures r.Failure? ==> r.error == UserNotFound && unchanged(userRepository)
      ensures forall k :: k in old(userRepository.rows) && old(userRepository.rows)[k].uuid == Some(uuid) ==>
        userRepository.rows == old(userRepository.rows) - {k}
    {
      var found := UserByUuid(userRepository.rows, userRepository.nextId, uuid);
      if found.None? {
        return Failure(UserNotFound);
      }
      userRepository.Delete(found.value.id);
      r := Success(());
    }

    /** `verifyUser`: the user becomes verified; role, identity and profile
        are kept. As for an update, a user without a role cannot be shown and
        nothing is then stored. */
    method VerifyUser(uuid: Uuid, now: int) returns (r: Result<UserResponseDTO>)
      requires Valid()
      modifies userRepository
      ensures Valid()
      ensures !ExistsByUuid(old(userRepository.rows), uuid) ==> r == Failure(UserNotFound)
      ensures r.Failure? ==> unchanged(userRepository)
      ensures forall k :: k in old(userRepository.rows) && old(userRepository.rows)[k].uuid == Some(uuid) ==>
        var u := old(userRepository.rows)[k].(verified := Some(true), updateAt := now);
        r == View(u) && (r.Success? ==> userRepository.rows == old(userRepository.rows)[k := u] && r.value.verified)
    {
      var found := UserByUuid(userRepository.rows, userRepository.nextId, uuid);
      if found.None? {
        return Failure(UserNotFound);
      }
      var user := found.value.(verified := Some(true), updateAt := now);
      r := View(user);
      if r.Success? {
        userRepository.Save(user.id, user);
      }
    }
  }
}
