/** The verification workflow of the service layer: the role-progression
    policy and the approval and rejection of pending requests. */
module Verification {
  import opened Enums
  import opened Outcomes
  import opened Text
  import opened Entities
  import opened Repositories
  import opened Roles
  import opened Users

  /** The (current role, requested role) pairs the progression policy
      accepts. A user with no role may only ask to become ADMIN. */
  const AcceptedProgressions: set<(Option<RoleName>, RoleName)> := {
    (Some(USER), ARTIST), (Some(USER), ENTERPRISE), (Some(ARTIST), ENTERPRISE),
    (Some(USER), ADMIN), (Some(ARTIST), ADMIN), (Some(ENTERPRISE), ADMIN),
    (None, ADMIN)
  }

  /** `validarProgresionRoles`, with the checks in the code's order. */
  function ValidarProgresionRoles(rolActual: Option<RoleName>, rolSolicitado: RoleName): (r: Result<()>)
    ensures r.Success? <==> (rolActual, rolSolicitado) in AcceptedProgressions
    ensures rolActual == Some(rolSolicitado) ==> r == Failure(RoleAlreadyHeld)
    ensures rolActual == Some(ADMIN) && rolSolicitado != ADMIN ==> r == Failure(AdminCannotChangeRole)
  {
    if rolActual == Some(rolSolicitado) then Failure(RoleAlreadyHeld)
    else if rolActual == Some(ADMIN) then Failure(AdminCannotChangeRole)
    else match rolSolicitado
      case USER => Failure(BasicRoleNotRequestable)
      case ADMIN =>
        assert rolActual.Some? ==> rolActual.value != ADMIN;
        assert rolActual.None? || rolActual.value in {USER, ARTIST, ENTERPRISE};
        Success(())
      case ARTIST => if rolActual != Some(USER) then Failure(OnlyUserMayBecomeArtist) else Success(())
      case ENTERPRISE =>
        if rolActual != Some(USER) && rolActual != Some(ARTIST) then Failure(OnlyUserOrArtistMayBecomeEnterprise)
        else Success(())
  }

  /** An administrator never passes the check, whatever is requested. */
  lemma AdminNeverProgresses(rolSolicitado: RoleName)
    ensures ValidarProgresionRoles(Some(ADMIN), rolSolicitado).Failure?
  {
  }

  /** The basic role can never be requested; ADMIN can be requested from
      every role but ADMIN itself. */
  lemma UserNeverRequestableAdminAlways(rolActual: Option<RoleName>)
    ensures ValidarProgresionRoles(rolActual, USER).Failure?
    ensures ValidarProgresionRoles(rolActual, ADMIN).Success? <==> rolActual != Some(ADMIN)
  {
  }

  /** ARTIST only from USER; ENTERPRISE only from USER or ARTIST. */
  lemma ArtistAndEnterpriseSources(rolActual: Option<RoleName>)
    ensures ValidarProgresionRoles(rolActual, ARTIST).Success? <==> rolActual == Some(USER)
    ensures ValidarProgresionRoles(rolActual, ENTERPRISE).Success?
            <==> rolActual == Some(USER) || rolActual == Some(ARTIST)
  {
  }

  /** Over the sixteen pairs of roles, exactly six pass. */
  lemma {:induction false} SixOfSixteenAccepted()
    ensures |set a: RoleName, b: RoleName | ValidarProgresionRoles(Some(a), b).Success? :: (a, b)| == 6
  {
    var accepted := set a: RoleName, b: RoleName | ValidarProgresionRoles(Some(a), b).Success? :: (a, b);
    var six := {(USER, ARTIST), (USER, ENTERPRISE), (ARTIST, ENTERPRISE),
                (USER, ADMIN), (ARTIST, ADMIN), (ENTERPRISE, ADMIN)};
    forall p | p in accepted
      ensures p in six
    {
      var (a, b) := p;
      assert ValidarProgresionRoles(Some(a), b).Success?;
    }
    forall p | p in six
      ensures p in accepted
    {
      assert ValidarProgresionRoles(Some(p.0), p.1).Success?;
    }
    assert accepted == six;
  }

  /** What the request table guarantees: each row is stored under its own id,
      below the next id. */
  ghost predicate RequestsValid(requests: map<nat, SolicitudVerificacion>, n: nat) {
    forall k :: k in requests ==> k < n && requests[k].idSolicitud == k
  }

  /** No user has two pending requests: the invariant the submission path
      keeps. */
  ghost predicate AtMostOnePendingPerUser(requests: map<nat, SolicitudVerificacion>) {
    forall j, k :: j in requests && k in requests && j != k
      && requests[j].estadoSolicitud == PENDIENTE && requests[k].estadoSolicitud == PENDIENTE
      ==> requests[j].user != requests[k].user
  }

  /** `findByUserAndEstadoSolicitud(user, PENDIENTE)`, first element: the
      pending request of that user with the lowest id. */
  function FirstPendingOf(requests: map<nat, SolicitudVerificacion>, n: nat, user: nat): (r: Option<nat>)
    ensures r.Some? ==> r.value in requests && requests[r.value].user == user
                        && requests[r.value].estadoSolicitud == PENDIENTE
    ensures forall k :: (k in requests && k < n && requests[k].user == user
                         && requests[k].estadoSolicitud == PENDIENTE) ==> r.Some? && r.value <= k
  {
    FirstKey(requests, 0, n, (s: SolicitudVerificacion) => s.user == user && s.estadoSolicitud == PENDIENTE)
  }

  /** Under the one-pending invariant, a pending request is the first pending
      one of its user, so the other-pending check cannot reject it. */
  lemma {:induction false} OtherPendingCheckNeverFires(
    requests: map<nat, SolicitudVerificacion>, n: nat, id: nat)
    requires RequestsValid(requests, n) && AtMostOnePendingPerUser(requests)
    requires id in requests && requests[id].estadoSolicitud == PENDIENTE
    ensures FirstPendingOf(requests, n, requests[id].user) == Some(id)
  {
    var first := FirstPendingOf(requests, n, requests[id].user);
    assert first.Some?;
  }

  /** Every check approval makes before changing anything, in order, with
      the error each one raises; success means all pass. */
  function ApprovalCheck(requests: map<nat, SolicitudVerificacion>, n: nat, users: map<nat, UserModel>, id: nat)
    : (r: Result<()>)
    requires RequestsValid(requests, n)
    ensures r.Success? <==> (id in requests && requests[id].estadoSolicitud == PENDIENTE
      && requests[id].user in users
      && users[requests[id].user].typeUser != Some(requests[id].rolSolicitado)
      && FirstPendingOf(requests, n, requests[id].user) == Some(id)
      && (users[requests[id].user].typeUser, requests[id].rolSolicitado) in AcceptedProgressions)
    ensures id !in requests ==> r == Failure(RequestNotFound)
    ensures id in requests && requests[id].estadoSolicitud != PENDIENTE ==> r == Failure(RequestNotPending)
    ensures id in requests && requests[id].estadoSolicitud == PENDIENTE ==>
      var s := requests[id];
      && (s.user !in users ==> r == Failure(OwnerNotFound))
      && (s.user in users && users[s.user].typeUser == Some(s.rolSolicitado) ==> r == Failure(OwnerAlreadyHasRole))
      && ((s.user in users && users[s.user].typeUser != Some(s.rolSolicitado)
           && FirstPendingOf(requests, n, s.user) != Some(id)) ==> r == Failure(OtherPendingRequest))
      && ((s.user in users && users[s.user].typeUser != Some(s.rolSolicitado)
           && FirstPendingOf(requests, n, s.user) == Some(id))
          ==> r == ValidarProgresionRoles(users[s.user].typeUser, s.rolSolicitado))
  {
    if id !in requests then Failure(RequestNotFound)
    else
      var solicitud := requests[id];
      if solicitud.estadoSolicitud != PENDIENTE then Failure(RequestNotPending)
      else if solicitud.user !in users then Failure(OwnerNotFound)
      else
        var user := users[solicitud.user];
        if user.typeUser == Some(solicitud.rolSolicitado) then Failure(OwnerAlreadyHasRole)
        else
          var pendientes := FirstPendingOf(requests, n, solicitud.user);
          if pendientes.Some? && pendientes.value != id then Failure(OtherPendingRequest)
          else ValidarProgresionRoles(user.typeUser, solicitud.rolSolicitado)
  }

  /** The authority records a change to `rol` needs are all present. */
  predicate RecordsPresent(names: set<Authority>, rol: RoleName) {
    ROLE_USER in names && (AddedRecord(rol).Some? ==> AddedRecord(rol).value in names)
  }

  /** A rejection note that is missing or only white space. */
  predicate IsBlankNote(note: Option<string>) {
    note.None? || Trim(note.value) == []
  }

  class SolicitudVerificacionService {
    const solicitudVerifRepository: Repository<SolicitudVerificacion>
    const userRepository: Repository<UserModel>
    const roleService: RoleService

    constructor (solicitudVerifRepository: Repository<SolicitudVerificacion>,
                 userRepository: Repository<UserModel>, roleService: RoleService)
      ensures this.solicitudVerifRepository == solicitudVerifRepository
      ensures this.userRepository == userRepository && this.roleService == roleService
    {
      this.solicitudVerifRepository := solicitudVerifRepository;
      this.userRepository := userRepository;
      this.roleService := roleService;
    }

    ghost predicate Valid()
      reads solicitudVerifRepository, userRepository
    {
      solicitudVerifRepository.Valid() && userRepository.Valid()
      && RequestsValid(solicitudVerifRepository.rows, solicitudVerifRepository.nextId)
      && UsersValid(userRepository.rows, userRepository.nextId)
    }

    /** `actualizarUsuario`: the owner takes the new role, becomes verified
        and has its authorities recomputed; it is saved only if the role
        service succeeds. */
    method ActualizarUsuario(user: UserModel, nuevoRol: RoleName, now: int) returns (r: Result<UserModel>)
      requires Valid() && user.id in userRepository.rows
      requires user.email == userRepository.rows[user.id].email
      requires user.username == userRepository.rows[user.id].username
      requires user.uuid == userRepository.rows[user.id].uuid
      modifies userRepository
      ensures Valid() && unchanged(solicitudVerifRepository)
      ensures var expected := user.(typeUser := Some(nuevoRol), verified := Some(true), updateAt := now,
                                   roles := ExpectedAuthorities(user.roles, nuevoRol));
        (RecordsPresent(roleService.roleRepository.names, nuevoRol) ==> r == Success(expected))
        && (!RecordsPresent(roleService.roleRepository.names, nuevoRol) ==> r.Failure?)
      ensures r.Failure? ==> unchanged(userRepository)
      ensures r.Success? ==> userRepository.rows == old(userRepository.rows)[user.id := r.value]
                             && userRepository.nextId == old(userRepository.nextId)
    {
      var u := user.(typeUser := Some(nuevoRol));
      u := u.(verified := Some(true));
      u := u.(updateAt := now);
      r := roleService.ActualizarRolesSegunTipo(u, nuevoRol);
      if r.Success? {
        userRepository.Save(user.id, r.value);
      }
    }

    /** `aprobarSolicitud`: after every check of `ApprovalCheck` passes, the
        owner takes the requested role and becomes verified, and the request
        is accepted with a resolution time. No failure stores anything. */
    method AprobarSolicitud(idSolicitud: nat, now: int) returns (r: Result<SolicitudVerificacion>)
      requires Valid()
      modifies solicitudVerifRepository, userRepository
      ensures Valid()
      ensures AtMostOnePendingPerUser(old(solicitudVerifRepository.rows))
              ==> AtMostOnePendingPerUser(solicitudVerifRepository.rows)
      ensures r.Failure? ==> unchanged(solicitudVerifRepository) && unchanged(userRepository)
      ensures var check := ApprovalCheck(old(solicitudVerifRepository.rows), old(solicitudVerifRepository.nextId),
                                         old(userRepository.rows), idSolicitud);
        check.Failure? ==> r == Failure(check.error)
      ensures var check := ApprovalCheck(old(solicitudVerifRepository.rows), old(solicitudVerifRepository.nextId),
                                         old(userRepository.rows), idSolicitud);
        check.Success? ==>
          var s := old(solicitudVerifRepository.rows)[idSolicitud];
          var o := old(userRepository.rows)[s.user];
          var aceptada := s.(estadoSolicitud := ACEPTADO, fechaResolucion := Some(now));
          var promovido := o.(typeUser := Some(s.rolSolicitado), verified := Some(true), updateAt := now,
                              roles := ExpectedAuthorities(o.roles, s.rolSolicitado));
          (!RecordsPresent(roleService.roleRepository.names, s.rolSolicitado) ==> r.Failure?)
          && (RecordsPresent(roleService.roleRepository.names, s.rolSolicitado) ==>
                r == Success(aceptada)
                && solicitudVerifRepository.rows == old(solicitudVerifRepository.rows)[idSolicitud := aceptada]
                && userRepository.rows == old(userRepository.rows)[s.user := promovido])
    {
      var found := solicitudVerifRepository.FindById(idSolicitud);
      if found.None? {
        return Failure(RequestNotFound);
      }
      var solicitud := found.value;
      if solicitud.estadoSolicitud != PENDIENTE {
        return Failure(RequestNotPending);
      }
      var owner := userRepository.FindById(solicitud.user);
      if owner.None? {
        return Failure(OwnerNotFound);
      }
      var user := owner.value;
      var rolSolicitado := solicitud.rolSolicitado;
      if user.typeUser == Some(rolSolicitado) {
        return Failure(OwnerAlreadyHasRole);
      }
      var pendientes := FirstPendingOf(solicitudVerifRepository.rows, solicitudVerifRepository.nextId, solicitud.user);
      if pendientes.Some? && pendientes.value != solicitud.idSolicitud {
        return Failure(OtherPendingRequest);
      }
      var progresion := ValidarProgresionRoles(user.typeUser, rolSolicitado);
      if progresion.Failure? {
        return Failure(progresion.error);
      }
      var actualizado := ActualizarUsuario(user, rolSolicitado, now);
      if actualizado.Failure? {
        return Failure(actualizado.error);
      }
      var aceptada := solicitud.(estadoSolicitud := ACEPTADO, fechaResolucion := Some(now));
      solicitudVerifRepository.Save(idSolicitud, aceptada);
      r := Success(aceptada);
    }

    /** `rechazarSolicitud`: a pending request with a note that is not blank
        is rejected with the trimmed note and a resolution time; its owner
        keeps role and verification and only gets a new modification time. */
    method RechazarSolicitud(idSolicitud: nat, observacionAdmin: Option<string>, now: int)
      returns (r: Result<SolicitudVerificacion>)
      requires Valid()
      modifies solicitudVerifRepository, userRepository
      ensures Valid()
      ensures AtMostOnePendingPerUser(old(solicitudVerifRepository.rows))
              ==> AtMostOnePendingPerUser(solicitudVerifRepository.rows)
      ensures r.Failure? ==> unchanged(solicitudVerifRepository) && unchanged(userRepository)
      ensures idSolicitud !in old(solicitudVerifRepository.rows) ==> r == Failure(RequestNotFound)
      ensures idSolicitud in old(solicitudVerifRepository.rows) ==>
        var s := old(solicitudVerifRepository.rows)[idSolicitud];
        (s.estadoSolicitud != PENDIENTE ==> r == Failure(RequestNotPending))
        && (s.estadoSolicitud == PENDIENTE && IsBlankNote(observacionAdmin) ==> r == Failure(MissingObservations))
        && (s.estadoSolicitud == PENDIENTE && !IsBlankNote(observacionAdmin) && s.user !in old(userRepository.rows)
            ==> r == Failure(NullReference))
        && (s.estadoSolicitud == PENDIENTE && !IsBlankNote(observacionAdmin) && s.user in old(userRepository.rows)
            ==> var rechazada := s.(estadoSolicitud := RECHAZADO, fechaResolucion := Some(now),
                                    observacionesAdmin := Some(Trim(observacionAdmin.value)));
                r == Success(rechazada)
                && solicitudVerifRepository.rows == old(solicitudVerifRepository.rows)[idSolicitud := rechazada]
                && userRepository.rows
                   == old(userRepository.rows)[s.user := old(userRepository.rows)[s.user].(updateAt := now)])
    {
      var found := solicitudVerifRepository.FindById(idSolicitud);
      if found.None? {
        return Failure(RequestNotFound);
      }
      var solicitud := found.value;
      if solicitud.estadoSolicitud != PENDIENTE {
        return Failure(RequestNotPending);
      }
      if observacionAdmin.None? || Trim(observacionAdmin.value) == [] {
        return Failure(MissingObservations);
      }
      var rechazada := solicitud.(estadoSolicitud := RECHAZADO);
      rechazada := rechazada.(fechaResolucion := Some(now));
      rechazada := rechazada.(observacionesAdmin := Some(Trim(observacionAdmin.value)));
      var owner := userRepository.FindById(solicitud.user);
      if owner.None? {
        return Failure(NullReference);
      }
      var user := owner.value.(updateAt := now);
      userRepository.Save(solicitud.user, user);
      solicitudVerifRepository.Save(idSolicitud, rechazada);
      r := Success(rechazada);
    }
  }
}
