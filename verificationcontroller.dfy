/** The verification-request endpoints. Submission is the only path that
    creates requests and it keeps one pending request per user; its approve
    and reject endpoints are separate from the service's and check nothing. */
module VerificationController {
  import opened Enums
  import opened Outcomes
  import opened Entities
  import opened Repositories
  import opened Users
  import opened Verification

  /** The submission form. */
  datatype SolicitudVerificacionDTO = SolicitudVerificacionDTO(
    descripcion: string,
    archivoDemoUrl: string,
    rolSolicitado: RoleName)

  const AlreadyVerified := "El usuario ya has sido verificado."
  const AlreadyRequested := "Ya se ha realizado una solicitud."

  predicate HasPending(requests: map<nat, SolicitudVerificacion>, user: nat) {
    exists k :: k in requests && requests[k].user == user && requests[k].estadoSolicitud == PENDIENTE
  }

  /** The request a submission stores under `id`: pending, unresolved, with no
      note, linked to that user. */
  function NewRequest(dto: SolicitudVerificacionDTO, id: nat, user: nat, now: int): (s: SolicitudVerificacion)
    ensures s.idSolicitud == id && s.user == user && s.dateSolicitud == now
    ensures s.estadoSolicitud == PENDIENTE && s.fechaResolucion.None? && s.observacionesAdmin.None?
    ensures s.descripcion == dto.descripcion && s.archivoDemoUrl == dto.archivoDemoUrl
    ensures s.rolSolicitado == dto.rolSolicitado
  {
    SolicitudVerificacion(id, user, dto.descripcion, dto.archivoDemoUrl, now, None, PENDIENTE, None, dto.rolSolicitado)
  }

  /** Every stored request that has `estado`, or every one when no state is
      given. */
  function InState(estado: Option<EstadoSolicitud>): (p: SolicitudVerificacion -> bool)
  {
    (s: SolicitudVerificacion) => estado.None? || s.estadoSolicitud == estado.value
  }

  class SolicitudVerifController {
    const solicitudVerifRepository: Repository<SolicitudVerificacion>
    const userRepository: Repository<UserModel>

    constructor (solicitudVerifRepository: Repository<SolicitudVerificacion>, userRepository: Repository<UserModel>)
      ensures this.solicitudVerifRepository == solicitudVerifRepository && this.userRepository == userRepository
    {
      this.solicitudVerifRepository := solicitudVerifRepository;
      this.userRepository := userRepository;
    }

    ghost predicate Valid()
      reads solicitudVerifRepository, userRepository
    {
      solicitudVerifRepository.Valid() && userRepository.Valid()
      && RequestsValid(solicitudVerifRepository.rows, solicitudVerifRepository.nextId)
      && UsersValid(userRepository.rows, userRepository.nextId)
    }

    /** `crearSolicitudVerificacion`: an unknown user is not found; a verified
        user, or one with a pending request, is refused; otherwise a new
        pending request of that user is stored. The requested role is not
        checked here. */
    method CrearSolicitudVerificacion(idUser: nat, dto: SolicitudVerificacionDTO, now: int)
      returns (r: Response<SolicitudVerificacion>)
      requires Valid()
      modifies solicitudVerifRepository
      ensures Valid()
      ensures AtMostOnePendingPerUser(old(solicitudVerifRepository.rows))
              ==> AtMostOnePendingPerUser(solicitudVerifRepository.rows)
      ensures !r.Ok? ==> unchanged(solicitudVerifRepository)
      ensures idUser !in userRepository.rows ==> r == NotFound
      ensures idUser in userRepository.rows && IsVerified(userRepository.rows[idUser])
              ==> r == BadRequest(AlreadyVerified)
      ensures (idUser in userRepository.rows && !IsVerified(userRepository.rows[idUser])
               && HasPending(old(solicitudVerifRepository.rows), idUser)) ==> r == BadRequest(AlreadyRequested)
      ensures idUser in userRepository.rows && !IsVerified(userRepository.rows[idUser])
              && !HasPending(old(solicitudVerifRepository.rows), idUser) ==>
        var s := NewRequest(dto, old(solicitudVerifRepository.nextId), idUser, now);
        r == Ok(s) && solicitudVerifRepository.rows == old(solicitudVerifRepository.rows)[s.idSolicitud := s]
    {
      var user := userRepository.FindById(idUser);
      if user.None? {
        return NotFound;
      }
      var userModel := user.value;
      if IsVerified(userModel) {
        return BadRequest(AlreadyVerified);
      }
      var pendientes := Select(solicitudVerifRepository.rows, solicitudVerifRepository.nextId,
        (s: SolicitudVerificacion) => s.user == idUser && s.estadoSolicitud == PENDIENTE);
      if |pendientes| != 0 {
        assert pendientes[0] in solicitudVerifRepository.rows.Values;
        ghost var k :| k in solicitudVerifRepository.rows && solicitudVerifRepository.rows[k] == pendientes[0];
        return BadRequest(AlreadyRequested);
      }
      var nuevaSolicitud := NewRequest(dto, solicitudVerifRepository.nextId, idUser, now);
      solicitudVerifRepository.Insert(nuevaSolicitud);
      r := Ok(nuevaSolicitud);
    }

    /** `getSolicitudVerificacion`: the requests of a known user. */
    function GetSolicitudVerificacion(idUser: nat): (r: Response<seq<SolicitudVerificacion>>)
      reads solicitudVerifRepository, userRepository
      requires Valid()
      ensures r.NotFound? <==> idUser !in userRepository.rows
      ensures r.Ok? ==> (forall s :: s in r.body <==> s in solicitudVerifRepository.rows.Values && s.user == idUser)
      ensures r.NotFound? || r.Ok?
    {
      if idUser !in userRepository.rows then NotFound
      else Ok(Select(solicitudVerifRepository.rows, solicitudVerifRepository.nextId,
        (s: SolicitudVerificacion) => s.user == idUser))
    }

    /** `getSolicitudesPorEstado`: exactly the requests in the given state, or
        all of them. */
    function GetSolicitudesPorEstado(estado: Option<EstadoSolicitud>): (r: Response<seq<SolicitudVerificacion>>)
      reads solicitudVerifRepository, userRepository
      requires Valid()
      ensures r.Ok?
      ensures forall s :: s in r.body <==>
        s in solicitudVerifRepository.rows.Values && (estado.None? || s.estadoSolicitud == estado.value)
    {
      Ok(Select(solicitudVerifRepository.rows, solicitudVerifRepository.nextId, InState(estado)))
    }

    /** `aprobarSolicitudVerificacion`: accepts the request whatever its
        state, and marks its owner verified without changing the owner's
        role or setting a resolution time. A missing owner is dereferenced
        before anything is saved. */
    method AprobarSolicitudVerificacion(idSolicitud: nat, now: int) returns (r: Response<SolicitudVerificacion>)
      requires Valid()
      modifies solicitudVerifRepository, userRepository
      ensures Valid()
      ensures AtMostOnePendingPerUser(old(solicitudVerifRepository.rows))
              ==> AtMostOnePendingPerUser(solicitudVerifRepository.rows)
      ensures !r.Ok? ==> unchanged(solicitudVerifRepository) && unchanged(userRepository)
      ensures idSolicitud !in old(solicitudVerifRepository.rows) ==> r == NotFound
      ensures idSolicitud in old(solicitudVerifRepository.rows) ==>
        var s := old(solicitudVerifRepository.rows)[idSolicitud];
        (s.user !in old(userRepository.rows) ==> r == ServerError(NullReference))
        && (s.user in old(userRepository.rows) ==>
              var o := old(userRepository.rows)[s.user];
              var aceptada := s.(estadoSolicitud := ACEPTADO);
              r == Ok(aceptada)
              && solicitudVerifRepository.rows == old(solicitudVerifRepository.rows)[idSolicitud := aceptada]
              && userRepository.rows == old(userRepository.rows)[s.user := OnUpdate(o, o.(verified := Some(true)), now)]
              && IsVerified(userRepository.rows[s.user])
              && userRepository.rows[s.user].typeUser == o.typeUser
              && userRepository.rows[s.user].roles == o.roles)
    {
      var found := solicitudVerifRepository.FindById(idSolicitud);
      if found.None? {
        return NotFound;
      }
      var solicitud := found.value.(estadoSolicitud := ACEPTADO);
      var owner := userRepository.FindById(solicitud.user);
      if owner.None? {
        return ServerError(NullReference);
      }
      var user := owner.value.(verified := Some(true));
      solicitudVerifRepository.Save(idSolicitud, solicitud);
      userRepository.Save(solicitud.user, OnUpdate(owner.value, user, now));
      r := Ok(solicitud);
    }

    /** `rechazarSolicitud`: rejects the request whatever its state; the note
        is replaced only when one is given, no resolution time is set and the
        owner is not touched. */
    method RechazarSolicitud(idSolicitud: nat, observacionAdmin: Option<string>)
      returns (r: Response<SolicitudVerificacion>)
      requires Valid()
      modifies solicitudVerifRepository
      ensures Valid()
      ensures AtMostOnePendingPerUser(old(solicitudVerifRepository.rows))
              ==> AtMostOnePendingPerUser(solicitudVerifRepository.rows)
      ensures idSolicitud !in old(solicitudVerifRepository.rows) ==> r == NotFound && unchanged(solicitudVerifRepository)
      ensures idSolicitud in old(solicitudVerifRepository.rows) ==>
        var s := old(solicitudVerifRepository.rows)[idSolicitud];
        var rechazada := s.(estadoSolicitud := RECHAZADO,
                            observacionesAdmin := if observacionAdmin.Some? then observacionAdmin else s.observacionesAdmin);
        r == Ok(rechazada)
        && solicitudVerifRepository.rows == old(solicitudVerifRepository.rows)[idSolicitud := rechazada]
    {
      var found := solicitudVerifRepository.FindById(idSolicitud);
      if found.None? {
        return NotFound;
      }
      var solicitud := found.value.(estadoSolicitud := RECHAZADO);
      if observacionAdmin.Some? {
        solicitud := solicitud.(observacionesAdmin := observacionAdmin);
      }
      solicitudVerifRepository.Save(idSolicitud, solicitud);
      r := Ok(solicitud);
    }
  }
}
