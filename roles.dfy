/** The role service: which authority records a user holds after a change of
    platform role. */
module Roles {
  import opened Enums
  import opened Outcomes
  import opened Entities

  /** The authorities a user holding `prev` ends up with after a change to
      `tipo`: the basic authority always, plus the one the new role adds; an
      administrator keeps everything held before. */
  function ExpectedAuthorities(prev: set<Authority>, tipo: RoleName): (r: set<Authority>)
    ensures ROLE_USER in r
    ensures tipo == ADMIN ==> prev + {ROLE_ADMIN} <= r && r <= prev + {ROLE_USER, ROLE_ADMIN}
    ensures tipo != ADMIN ==> r <= {ROLE_USER, ROLE_ARTISTA, ROLE_EMPRESA} && |r| <= 2
  {
    match tipo
    case USER => {ROLE_USER}
    case ARTIST => {ROLE_USER, ROLE_ARTISTA}
    case ENTERPRISE => {ROLE_USER, ROLE_EMPRESA}
    case ADMIN => prev + {ROLE_USER, ROLE_ADMIN}
  }

  /** The authority record a change to `tipo` looks up after the basic one. */
  function AddedRecord(tipo: RoleName): (r: Option<Authority>)
    ensures r.Some? <==> tipo != USER
    ensures r.Some? ==> r.value != ROLE_USER
  {
    match tipo
    case USER => None
    case ARTIST => Some(ROLE_ARTISTA)
    case ENTERPRISE => Some(ROLE_EMPRESA)
    case ADMIN => Some(ROLE_ADMIN)
  }

  /** `tienePermisosAdministrativos`: the user holds the administrator
      authority record (the entity's `hasRole`). */
  predicate TienePermisosAdministrativos(user: UserModel) {
    ROLE_ADMIN in user.roles
  }

  /** After a role change, administrative permission holds exactly when the
      new role is ADMIN: changing away from ADMIN revokes it. */
  lemma AdminPermissionIffAdminRole(user: UserModel, tipo: RoleName)
    ensures TienePermisosAdministrativos(user.(roles := ExpectedAuthorities(user.roles, tipo)))
            <==> tipo == ADMIN
  {
  }

  /** Each non-administrator role yields exactly the basic authority and the
      one the role adds, whatever was held before. */
  lemma NonAdminRolesForgetHistory(prev: set<Authority>, other: set<Authority>, tipo: RoleName)
    requires tipo != ADMIN
    ensures ExpectedAuthorities(prev, tipo) == ExpectedAuthorities(other, tipo)
    ensures ExpectedAuthorities(prev, tipo)
            == {ROLE_USER} + (if tipo == USER then {} else {AddedRecord(tipo).value})
  {
  }

  /** The role repository: the authority names for which a record exists. */
  class RoleRepository {
    var names: set<Authority>

    constructor (names0: set<Authority>)
      ensures names == names0
    {
      names := names0;
    }

    /** `findByName` (the record itself carries nothing but its name). */
    function FindByName(name: Authority): (r: Option<Authority>)
      reads this
      ensures r.Some? <==> name in names
      ensures r.Some? ==> r.value == name
    {
      if name in names then Some(name) else None
    }

    /** `save` of a new record. */
    method Save(name: Authority)
      modifies this
      ensures names == old(names) + {name}
    {
      names := names + {name};
    }
  }

  class RoleService {
    const roleRepository: RoleRepository

    constructor (roleRepository: RoleRepository)
      ensures this.roleRepository == roleRepository
    {
      this.roleRepository := roleRepository;
    }

    /** `actualizarRolesSegunTipo`: collects the new authorities one record at
        a time and only then replaces the user's set, so a missing record
        fails before the user is touched. The updated user is returned. */
    method ActualizarRolesSegunTipo(user: UserModel, nuevoTipo: RoleName) returns (r: Result<UserModel>)
      ensures ROLE_USER !in roleRepository.names ==> r == Failure(AuthorityRecordMissing(ROLE_USER))
      ensures ROLE_USER in roleRepository.names && AddedRecord(nuevoTipo).Some?
              && AddedRecord(nuevoTipo).value !in roleRepository.names
              ==> r == Failure(AuthorityRecordMissing(AddedRecord(nuevoTipo).value))
      ensures r.Success? <==> (ROLE_USER in roleRepository.names
              && (AddedRecord(nuevoTipo).Some? ==> AddedRecord(nuevoTipo).value in roleRepository.names))
      ensures r.Success? ==> r.value == user.(roles := ExpectedAuthorities(user.roles, nuevoTipo))
    {
      var nuevosRoles: set<Authority> := {};
      var roleUser := roleRepository.FindByName(ROLE_USER);
      if roleUser.None? {
        return Failure(AuthorityRecordMissing(ROLE_USER));
      }
      nuevosRoles := nuevosRoles + {roleUser.value};
      match nuevoTipo {
        case ARTIST =>
          var roleArtist := roleRepository.FindByName(ROLE_ARTISTA);
          if roleArtist.None? {
            return Failure(AuthorityRecordMissing(ROLE_ARTISTA));
          }
          nuevosRoles := nuevosRoles + {roleArtist.value};
        case ENTERPRISE =>
          var roleEmpresa := roleRepository.FindByName(ROLE_EMPRESA);
          if roleEmpresa.None? {
            return Failure(AuthorityRecordMissing(ROLE_EMPRESA));
          }
          nuevosRoles := nuevosRoles + {roleEmpresa.value};
        case ADMIN =>
          var roleAdmin := roleRepository.FindByName(ROLE_ADMIN);
          if roleAdmin.None? {
            return Failure(AuthorityRecordMissing(ROLE_ADMIN));
          }
          nuevosRoles := nuevosRoles + user.roles;
          nuevosRoles := nuevosRoles + {roleAdmin.value};
        case USER =>
      }
      r := Success(user.(roles := nuevosRoles));
    }

    /** `asignarRolInicial`: role USER with exactly the basic authority; the
        basic record is created when it does not exist yet. */
    method AsignarRolInicial(user: UserModel) returns (u: UserModel)
      modifies roleRepository
      ensures roleRepository.names == old(roleRepository.names) + {ROLE_USER}
      ensures u == user.(typeUser := Some(USER), roles := {ROLE_USER})
      ensures u.roles == ExpectedAuthorities(user.roles, USER)
    {
      var role := roleRepository.FindByName(ROLE_USER);
      if role.None? {
        roleRepository.Save(ROLE_USER);
      }
      u := user.(typeUser := Some(USER), roles := {ROLE_USER});
    }
  }
}
