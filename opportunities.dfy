/** Opportunities published by companies: enterprise-only creation, an
    update with no ownership check, owner-only deletion and the listing of a
    company's opportunities. */
module Opportunities {
  import opened Enums
  import opened Outcomes
  import opened Uuids
  import opened Entities
  import opened Repositories
  import opened Users
  import opened Tokens
  import opened AuthFilter

  /** One day in milliseconds. */
  const DayMs: int := 86_400_000

  /** An opportunity stays open for this many days after its publication. */
  const OpenDays: int := 30

  /** The opportunity form; its state may be absent. */
  datatype CrearOportunidadDTO = CrearOportunidadDTO(
    titulo: string,
    descripcion: string,
    categoria: string,
    requisitos: string,
    estado: Option<EstadoOportunidad>,
    ubicacion: string)

  /** The opportunity a creation stores: the form's texts, published now,
      open, closing thirty days later, owned by the company. */
  function NewOpportunity(dto: CrearOportunidadDTO, id: nat, owner: Uuid, now: int): (o: Oportunidad)
    ensures o.id == id && o.owner == owner
    ensures o.estado == Some(ABIERTO)
    ensures o.fecha == now && o.fechaCierre == now + OpenDays * DayMs
    ensures o.fechaCierre - o.fecha == 2_592_000_000
    ensures o.titulo == dto.titulo && o.descripcion == dto.descripcion && o.categoria == dto.categoria
    ensures o.requisitos == dto.requisitos && o.ubicacion == dto.ubicacion
  {
    Oportunidad(id, dto.titulo, dto.descripcion, dto.categoria, dto.requisitos, dto.ubicacion,
      now, now + OpenDays * DayMs, Some(ABIERTO), owner)
  }

  /** The state of a creation form is ignored. */
  lemma CreationIgnoresFormState(dto: CrearOportunidadDTO, s: Option<EstadoOportunidad>, id: nat, owner: Uuid, now: int)
    ensures NewOpportunity(dto.(estado := s), id, owner, now) == NewOpportunity(dto, id, owner, now)
  {
  }

  /** An opportunity with the six editable fields copied from the form. */
  function WithForm(o: Oportunidad, dto: CrearOportunidadDTO): (q: Oportunidad)
    ensures q.titulo == dto.titulo && q.descripcion == dto.descripcion && q.categoria == dto.categoria
    ensures q.requisitos == dto.requisitos && q.estado == dto.estado && q.ubicacion == dto.ubicacion
  {
    o.(titulo := dto.titulo, descripcion := dto.descripcion, categoria := dto.categoria,
       requisitos := dto.requisitos, estado := dto.estado, ubicacion := dto.ubicacion)
  }

  /** An edit keeps the identity, owner and schedule, and applying the same
      form twice is applying it once. */
  lemma WithFormKeepsScheduleAndOwner(o: Oportunidad, dto: CrearOportunidadDTO)
    ensures WithForm(o, dto).id == o.id && WithForm(o, dto).owner == o.owner
    ensures WithForm(o, dto).fecha == o.fecha && WithForm(o, dto).fechaCierre == o.fechaCierre
    ensures WithForm(WithForm(o, dto), dto) == WithForm(o, dto)
  {
  }

  /** Editing a fresh opportunity is creating it with the form's state. */
  lemma EditAfterCreation(dto0: CrearOportunidadDTO, dto: CrearOportunidadDTO, id: nat, owner: Uuid, now: int)
    ensures WithForm(NewOpportunity(dto0, id, owner, now), dto)
         == NewOpportunity(dto, id, owner, now).(estado := dto.estado)
  {
  }

  /** Every stored opportunity carries its own key as its id. */
  ghost predicate OpportunitiesValid(rows: map<nat, Oportunidad>) {
    forall k :: k in rows ==> rows[k].id == k
  }

  /** Whether the user is a company. */
  predicate IsEnterprise(u: UserModel) {
    u.typeUser == Some(ENTERPRISE)
  }

  class OportunidadService {
    const oportunidadRepository: Repository<Oportunidad>

    constructor (oportunidadRepository: Repository<Oportunidad>)
      ensures this.oportunidadRepository == oportunidadRepository
    {
      this.oportunidadRepository := oportunidadRepository;
    }

    /** `actualizarDesdeDTO`: the six editable fields are copied and the
        stored opportunity is replaced. */
    method ActualizarDesdeDTO(original: Oportunidad, dto: CrearOportunidadDTO) returns (r: Oportunidad)
      requires oportunidadRepository.Valid() && original.id in oportunidadRepository.rows
      modifies oportunidadRepository
      ensures oportunidadRepository.Valid()
      ensures r == WithForm(original, dto)
      ensures oportunidadRepository.rows == old(oportunidadRepository.rows)[original.id := r]
    {
      var o := original;
      o := o.(titulo := dto.titulo);
      o := o.(descripcion := dto.descripcion);
      o := o.(categoria := dto.categoria);
      o := o.(requisitos := dto.requisitos);
      o := o.(estado := dto.estado);
      o := o.(ubicacion := dto.ubicacion);
      oportunidadRepository.Save(original.id, o);
      r := o;
    }
  }

  class OportunidadController {
    const oportunidadRepository: Repository<Oportunidad>
    const userRepository: Repository<UserModel>
    const jwtTokenService: TokenConfig
    const oportunidadService: OportunidadService

    constructor (oportunidadRepository: Repository<Oportunidad>, userRepository: Repository<UserModel>,
                 jwtTokenService: TokenConfig, oportunidadService: OportunidadService)
      requires oportunidadService.oportunidadRepository == oportunidadRepository
      ensures this.oportunidadRepository == oportunidadRepository && this.userRepository == userRepository
      ensures this.jwtTokenService == jwtTokenService && this.oportunidadService == oportunidadService
    {
      this.oportunidadRepository := oportunidadRepository;
      this.userRepository := userRepository;
      this.jwtTokenService := jwtTokenService;
      this.oportunidadService := oportunidadService;
    }

    ghost predicate Valid()
      reads this, oportunidadRepository, userRepository, oportunidadService
    {
      oportunidadService.oportunidadRepository == oportunidadRepository
      && oportunidadRepository.Valid() && OpportunitiesValid(oportunidadRepository.rows)
      && userRepository.Valid() && UsersValid(userRepository.rows, userRepository.nextId)
    }

    /** `crearOportunidad`: a missing bearer token or an unreadable one is an
        unhandled error; an unknown caller is not found; only a company
        publishes, and what it publishes is its own, open opportunity. */
    method CrearOportunidad(dto: CrearOportunidadDTO, authorization: Option<string>, now: int)
      returns (r: Response<Oportunidad>)
      requires Valid()
      modifies oportunidadRepository
      ensures Valid()
      ensures !r.Created? ==> unchanged(oportunidadRepository)
      ensures ResolveToken(authorization).Failure? ==> r == ServerError(AuthorizationHeaderMissing)
      ensures ResolveToken(authorization).Success? ==>
        var caller := GetUuidFromToken(jwtTokenService, ResolveToken(authorization).value, now);
        (caller.Failure? ==> r == ServerError(caller.error))
        && (caller.Success? && !ExistsByUuid(userRepository.rows, caller.value) ==> r == NotFound)
        && (forall k :: k in userRepository.rows && caller.Success? && userRepository.rows[k].uuid == Some(caller.value) ==>
              (!IsEnterprise(userRepository.rows[k]) ==> r == Forbidden)
              && (IsEnterprise(userRepository.rows[k]) ==>
                    r == Created(NewOpportunity(dto, old(oportunidadRepository.nextId), caller.value, now))
                    && oportunidadRepository.rows == old(oportunidadRepository.rows)[r.body.id := r.body]))
    {
      var token := ResolveToken(authorization);
      if token.Failure? {
        return ServerError(token.error);
      }
      var uuid := GetUuidFromToken(jwtTokenService, token.value, now);
      if uuid.Failure? {
        return ServerError(uuid.error);
      }
      var empresaUser := UserByUuid(userRepository.rows, userRepository.nextId, uuid.value);
      if empresaUser.None? {
        return NotFound;
      }
      if empresaUser.value.typeUser != Some(ENTERPRISE) {
        return Forbidden;
      }
      var nuevaOportunidad := NewOpportunity(dto, oportunidadRepository.nextId, uuid.value, now);
      oportunidadRepository.Insert(nuevaOportunidad);
      r := Created(nuevaOportunidad);
    }

    /** `actualizarOportunidad`: any caller with a readable token who exists
        may edit any opportunity; the ownership check is absent. */
    method ActualizarOportunidad(id: nat, dto: CrearOportunidadDTO, authorization: Option<string>, now: int)
      returns (r: Response<Oportunidad>)
      requires Valid()
      modifies oportunidadRepository
      ensures Valid()
      ensures !r.Ok? ==> unchanged(oportunidadRepository)
      ensures ResolveToken(authorization).Failure? ==> r == ServerError(AuthorizationHeaderMissing)
      ensures ResolveToken(authorization).Success? ==>
        var caller := GetUuidFromToken(jwtTokenService, ResolveToken(authorization).value, now);
        (caller.Failure? ==> r == Unauthorized)
        && (caller.Success? && !ExistsByUuid(userRepository.rows, caller.value) ==> r == ServerError(UserNotFound))
        && (caller.Success? && ExistsByUuid(userRepository.rows, caller.value) ==>
              (id !in old(oportunidadRepository.rows) ==> r == NotFound)
              && (id in old(oportunidadRepository.rows) ==>
                    r == Ok(WithForm(old(oportunidadRepository.rows)[id], dto))
                    && oportunidadRepository.rows == old(oportunidadRepository.rows)[id := r.body]))
    {
      var token := ResolveToken(authorization);
      if token.Failure? {
        return ServerError(token.error);
      }
      var uuidUsuario := GetUuidFromToken(jwtTokenService, token.value, now);
      if uuidUsuario.Failure? {
        return Unauthorized;
      }
      var currentUser := UserByUuid(userRepository.rows, userRepository.nextId, uuidUsuario.value);
      if currentUser.None? {
        return ServerError(UserNotFound);
      }
      var maybeOport := oportunidadRepository.FindById(id);
      if maybeOport.None? {
        return NotFound;
      }
      var oportunidad := maybeOport.value;
      assert oportunidad.id == id;
      var updated := oportunidadService.ActualizarDesdeDTO(oportunidad, dto);
      r := Ok(updated);
    }

    /** `eliminarOportunidad`: the caller is the authenticated principal,
        whose name is an email; only a company that owns the opportunity
        deletes it. */
    method EliminarOportunidad(id: nat, context: SecurityContext) returns (r: Response<()>)
      requires Valid()
      modifies oportunidadRepository
      ensures Valid()
      ensures !r.Ok? ==> unchanged(oportunidadRepository)
      ensures context.authentication.None? ==> r == ServerError(NullReference)
      ensures context.authentication.Some? ==>
        var email := context.authentication.value.principal.username;
        (id !in old(oportunidadRepository.rows) ==> r == NotFound)
        && (id in old(oportunidadRepository.rows) && !ExistsByEmail(userRepository.rows, email) ==> r == Forbidden)
        && (forall k :: (k in userRepository.rows && userRepository.rows[k].email == email
                          && id in old(oportunidadRepository.rows)) ==>
              var u := userRepository.rows[k];
              var o := old(oportunidadRepository.rows)[id];
              (!IsEnterprise(u) || u.uuid != Some(o.owner) ==> r == Forbidden)
              && (IsEnterprise(u) && u.uuid == Some(o.owner) ==>
                    r == Ok(()) && oportunidadRepository.rows == old(oportunidadRepository.rows) - {id}))
    {
      if context.authentication.None? {
        return ServerError(NullReference);
      }
      var email := context.authentication.value.principal.username;
      var currentUser := UserByEmail(userRepository.rows, userRepository.nextId, email);
      var found := oportunidadRepository.FindById(id);
      if found.None? {
        return NotFound;
      }
      var oportunidad := found.value;
      if currentUser.None? || currentUser.value.typeUser != Some(ENTERPRISE)
         || currentUser.value.uuid != Some(oportunidad.owner) {
        return Forbidden;
      }
      oportunidadRepository.Delete(id);
      r := Ok(());
    }

    /** `getOportunidadesByEmpresa`: exactly a company's own opportunities;
        an unknown uuid is not found and a user who is not a company is
        refused. */
    function GetOportunidadesByEmpresa(uuid: Uuid): (r: Response<seq<Oportunidad>>)
      reads this, oportunidadRepository, userRepository, oportunidadService
      requires Valid()
      ensures r.NotFound? <==> !ExistsByUuid(userRepository.rows, uuid)
      ensures r.NotFound? || r.Forbidden? || r.Ok?
      ensures forall k :: k in userRepository.rows && userRepository.rows[k].uuid == Some(uuid) ==>
        (!IsEnterprise(userRepository.rows[k]) ==> r == Forbidden)
        && (IsEnterprise(userRepository.rows[k]) ==>
              r.Ok? && forall o :: o in r.body <==> o in oportunidadRepository.rows.Values && o.owner == uuid)
    {
      match UserByUuid(userRepository.rows, userRepository.nextId, uuid)
      case None => NotFound
      case Some(usuarioEmpresa) =>
        if usuarioEmpresa.typeUser != Some(ENTERPRISE) then Forbidden
        else Ok(Select(oportunidadRepository.rows, oportunidadRepository.nextId, (o: Oportunidad) => o.owner == uuid))
    }
  }
}
