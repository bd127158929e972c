/** Portfolios: creation and owner-only update in the service, owner-guarded
    and unguarded deletion, listings and the four-way search in the
    controller. */
module Portfolios {
  import opened Enums
  import opened Outcomes
  import opened Uuids
  import opened Text
  import opened Entities
  import opened Repositories
  import opened Users
  import opened Tokens

  /** The portfolio form; the tags are carried as a list, as the entity
      stores them. */
  datatype PortafolioRequestDTO = PortafolioRequestDTO(
    titulo: string,
    descripcion: string,
    tipoArchivo: Option<TipoArchivo>,
    urlArchivo: string,
    urlImagen: string,
    nombreImagen: string,
    descripcionImagen: string,
    etiquetas: seq<string>)

  /** The portfolio a creation stores: the form's fields, the owner and the
      creation time. */
  function NewPortfolio(dto: PortafolioRequestDTO, id: nat, owner: Uuid, now: int): (p: Portafolio)
    ensures p.idPortafolio == id && p.owner == owner && p.fechaCreacion == now
    ensures FormOf(p) == dto
  {
    Portafolio(id, dto.titulo, dto.descripcion, dto.tipoArchivo, dto.urlArchivo, dto.urlImagen,
      dto.nombreImagen, dto.descripcionImagen, dto.etiquetas, now, owner)
  }

  /** The eight editable fields of a portfolio, as a form. */
  function FormOf(p: Portafolio): PortafolioRequestDTO {
    PortafolioRequestDTO(p.titulo, p.descripcion, p.tipoArchivo, p.urlArchivo, p.urlImagen,
      p.nombreImagen, p.descripcionImagen, p.etiquetas)
  }

  /** A portfolio with its eight editable fields replaced by the form's. */
  function WithForm(p: Portafolio, dto: PortafolioRequestDTO): (q: Portafolio)
    ensures FormOf(q) == dto
  {
    p.(titulo := dto.titulo, descripcion := dto.descripcion, tipoArchivo := dto.tipoArchivo,
       urlArchivo := dto.urlArchivo, urlImagen := dto.urlImagen, nombreImagen := dto.nombreImagen,
       descripcionImagen := dto.descripcionImagen, etiquetas := dto.etiquetas)
  }

  /** Replacing the editable fields keeps identity, owner and creation time;
      editing a fresh portfolio is creating it with the new form. */
  lemma WithFormKeepsIdentity(p: Portafolio, dto: PortafolioRequestDTO)
    ensures WithForm(p, dto).idPortafolio == p.idPortafolio
    ensures WithForm(p, dto).owner == p.owner
    ensures WithForm(p, dto).fechaCreacion == p.fechaCreacion
    ensures WithForm(p, FormOf(p)) == p
    ensures forall dto0: PortafolioRequestDTO, id: nat, owner: Uuid, now: int ::
      WithForm(NewPortfolio(dto0, id, owner, now), dto) == NewPortfolio(dto, id, owner, now)
  {
  }

  /** The four queries the search dispatches to. */
  datatype PortfolioQuery =
    | TypeAndTagMember(fileType: TipoArchivo, tag: string)   // derived: type and a tag equal ignoring case
    | ByType(fileType: TipoArchivo)                            // derived: type
    | TagLike(optType: Option<TipoArchivo>, text: string)     // JPQL: optional type, a tag containing the text
    | All

  /** ASCII case-insensitive equality of two texts. */
  predicate EqualsIgnoreCase(a: string, b: string) {
    LowerAscii(a) == LowerAscii(b)
  }

  /** Whether a portfolio is in the result of a query. */
  predicate Matches(q: PortfolioQuery, p: Portafolio) {
    match q
    case TypeAndTagMember(t, e) =>
      p.tipoArchivo == Some(t) && exists i :: 0 <= i < |p.etiquetas| && EqualsIgnoreCase(p.etiquetas[i], e)
    case ByType(t) => p.tipoArchivo == Some(t)
    case TagLike(t, e) =>
      (t.None? || p.tipoArchivo == t)
      && exists i :: 0 <= i < |p.etiquetas| && Contains(LowerAscii(p.etiquetas[i]), LowerAscii(e))
    case All => true
  }

  /** The query the search runs for its two optional filters. */
  function Dispatch(tipoArchivo: Option<TipoArchivo>, etiqueta: Option<string>): (q: PortfolioQuery)
    ensures tipoArchivo.Some? && etiqueta.Some? ==> q == TypeAndTagMember(tipoArchivo.value, etiqueta.value)
    ensures tipoArchivo.Some? && etiqueta.None? ==> q == ByType(tipoArchivo.value)
    ensures tipoArchivo.None? && etiqueta.Some? ==> q == TagLike(None, etiqueta.value)
    ensures tipoArchivo.None? && etiqueta.None? ==> q == All
  {
    if tipoArchivo.Some? && etiqueta.Some? then TypeAndTagMember(tipoArchivo.value, etiqueta.value)
    else if tipoArchivo.Some? then ByType(tipoArchivo.value)
    else if etiqueta.Some? then TagLike(tipoArchivo, etiqueta.value)
    else All
  }

  /** A text occurs in itself. */
  lemma ContainsSelf(s: string)
    ensures Contains(s, s)
  {
    assert OccursAt(s, s, 0);
  }

  /** The combined query is narrower than the tag query with the same type:
      a tag equal to the text ignoring case also contains it. */
  lemma {:induction false} MemberMatchImpliesLikeMatch(t: TipoArchivo, e: string, p: Portafolio)
    requires Matches(TypeAndTagMember(t, e), p)
    ensures Matches(TagLike(Some(t), e), p)
  {
    var i :| 0 <= i < |p.etiquetas| && EqualsIgnoreCase(p.etiquetas[i], e);
    ContainsSelf(LowerAscii(e));
  }

  /** The tag-only search ignores the file type altogether. */
  lemma TagOnlySearchIgnoresType(e: string, p: Portafolio, t: Option<TipoArchivo>)
    ensures Matches(Dispatch(None, Some(e)), p) <==> Matches(Dispatch(None, Some(e)), p.(tipoArchivo := t))
  {
  }

  class PortafolioService {
    const portafolioRepository: Repository<Portafolio>

    constructor (portafolioRepository: Repository<Portafolio>)
      ensures this.portafolioRepository == portafolioRepository
    {
      this.portafolioRepository := portafolioRepository;
    }

    /** `crearPortafolio`: the new portfolio is owned by the given user and
        stamped with the creation time. */
    method CrearPortafolio(dto: PortafolioRequestDTO, user: UserModel, now: int) returns (r: Portafolio)
      requires portafolioRepository.Valid() && user.uuid.Some?
      modifies portafolioRepository
      ensures portafolioRepository.Valid()
      ensures r == NewPortfolio(dto, old(portafolioRepository.nextId), user.uuid.value, now)
      ensures portafolioRepository.rows == old(portafolioRepository.rows)[r.idPortafolio := r]
      ensures |portafolioRepository.rows| == |old(portafolioRepository.rows)| + 1
    {
      var portafolio := NewPortfolio(dto, portafolioRepository.nextId, user.uuid.value, now);
      portafolioRepository.Insert(portafolio);
      r := portafolio;
    }

    /** `actualizarPortafolio`: only the owner may replace the eight editable
        fields; the id, owner and creation time are kept. */
    method ActualizarPortafolio(idPortafolio: nat, dto: PortafolioRequestDTO, user: UserModel)
      returns (r: Result<Portafolio>)
      requires portafolioRepository.Valid()
      modifies portafolioRepository
      ensures portafolioRepository.Valid()
      ensures r.Failure? ==> unchanged(portafolioRepository)
      ensures idPortafolio !in old(portafolioRepository.rows) ==> r == Failure(PortfolioNotFound)
      ensures idPortafolio in old(portafolioRepository.rows) ==>
        var p := old(portafolioRepository.rows)[idPortafolio];
        (user.uuid != Some(p.owner) ==> r == Failure(NotPortfolioOwner))
        && (user.uuid == Some(p.owner) ==>
              r == Success(WithForm(p, dto))
              && portafolioRepository.rows == old(portafolioRepository.rows)[idPortafolio := WithForm(p, dto)])
    {
      var found := portafolioRepository.FindById(idPortafolio);
      if found.None? {
        return Failure(PortfolioNotFound);
      }
      var portafolio := found.value;
      if user.uuid != Some(portafolio.owner) {
        return Failure(NotPortfolioOwner);
      }
      portafolio := portafolio.(titulo := dto.titulo);
      portafolio := portafolio.(descripcion := dto.descripcion);
      portafolio := portafolio.(tipoArchivo := dto.tipoArchivo);
      portafolio := portafolio.(urlArchivo := dto.urlArchivo);
      portafolio := portafolio.(urlImagen := dto.urlImagen);
      portafolio := portafolio.(nombreImagen := dto.nombreImagen);
      portafolio := portafolio.(descripcionImagen := dto.descripcionImagen);
      portafolio := portafolio.(etiquetas := dto.etiquetas);
      portafolioRepository.Save(idPortafolio, portafolio);
      r := Success(portafolio);
    }
  }

  /** The portfolios whose owner is the given user. */
  function OwnedBy(user: UserModel): (p: Portafolio -> bool) {
    (x: Portafolio) => user.uuid == Some(x.owner)
  }

  class PortafolioController {
    const portafolioRepository: Repository<Portafolio>
    const userRepository: Repository<UserModel>
    const jwtTokenService: TokenConfig

    constructor (portafolioRepository: Repository<Portafolio>, userRepository: Repository<UserModel>,
                 jwtTokenService: TokenConfig)
      ensures this.portafolioRepository == portafolioRepository && this.userRepository == userRepository
      ensures this.jwtTokenService == jwtTokenService
    {
      this.portafolioRepository := portafolioRepository;
      this.userRepository := userRepository;
      this.jwtTokenService := jwtTokenService;
    }

    ghost predicate Valid()
      reads portafolioRepository, userRepository
    {
      portafolioRepository.Valid() && userRepository.Valid() && UsersValid(userRepository.rows, userRepository.nextId)
    }

    /** `obtenerPortafolioPorUsuario`: the portfolios of a known user id. */
    function ObtenerPortafolioPorUsuario(idUser: nat): (r: Response<seq<Portafolio>>)
      reads portafolioRepository, userRepository
      requires Valid()
      ensures r.NotFound? <==> idUser !in userRepository.rows
      ensures r.NotFound? || r.Ok?
      ensures r.Ok? ==> forall p :: p in r.body <==>
        p in portafolioRepository.rows.Values && userRepository.rows[idUser].uuid == Some(p.owner)
    {
      if idUser !in userRepository.rows then NotFound
      else Ok(Select(portafolioRepository.rows, portafolioRepository.nextId, OwnedBy(userRepository.rows[idUser])))
    }

    /** `obtenerPortafolioPorUsername`: the portfolios of a known username. */
    function ObtenerPortafolioPorUsername(username: string): (r: Response<seq<Portafolio>>)
      reads portafolioRepository, userRepository
      requires Valid()
      ensures r.NotFound? <==> !ExistsByUsername(userRepository.rows, username)
      ensures r.NotFound? || r.Ok?
      ensures forall k :: k in userRepository.rows && userRepository.rows[k].username == username ==>
        r.Ok? && forall p :: p in r.body <==>
          p in portafolioRepository.rows.Values && userRepository.rows[k].uuid == Some(p.owner)
    {
      match UserByUsername(userRepository.rows, userRepository.nextId, username)
      case None => NotFound
      case Some(u) => Ok(Select(portafolioRepository.rows, portafolioRepository.nextId, OwnedBy(u)))
    }

    /** `buscarPorTipoArchivoAndEtiquetas`: the portfolios matching the query
        the filters select. */
    function BuscarPorTipoArchivoAndEtiquetas(tipoArchivo: Option<TipoArchivo>, etiqueta: Option<string>)
      : (r: Response<seq<Portafolio>>)
      reads portafolioRepository, userRepository
      requires Valid()
      ensures r.Ok?
      ensures forall p :: p in r.body <==>
        p in portafolioRepository.rows.Values && Matches(Dispatch(tipoArchivo, etiqueta), p)
    {
      var q := Dispatch(tipoArchivo, etiqueta);
      Ok(Select(portafolioRepository.rows, portafolioRepository.nextId, (p: Portafolio) => Matches(q, p)))
    }

    /** `eliminarPortafolioAuth`: the caller is the uuid in the bearer token;
        a missing or unreadable token is an unhandled error. Only the owner
        deletes, and exactly that portfolio. */
    method EliminarPortafolioAuth(idPortafolio: nat, authorization: Option<string>, now: int)
      returns (r: Response<()>)
      requires Valid()
      modifies portafolioRepository
      ensures Valid()
      ensures !r.Ok? ==> unchanged(portafolioRepository)
      ensures ResolveToken(authorization).Failure? ==> r == ServerError(AuthorizationHeaderMissing)
      ensures ResolveToken(authorization).Success? ==>
        var caller := GetUuidFromToken(jwtTokenService, ResolveToken(authorization).value, now);
        (caller.Failure? ==> r == ServerError(caller.error))
        && (caller.Success? && idPortafolio !in old(portafolioRepository.rows) ==> r == NotFound)
        && (caller.Success? && idPortafolio in old(portafolioRepository.rows) ==>
              var p := old(portafolioRepository.rows)[idPortafolio];
              (p.owner != caller.value ==> r == Forbidden)
              && (p.owner == caller.value ==>
                    r == Ok(()) && portafolioRepository.rows == old(portafolioRepository.rows) - {idPortafolio}))
    {
      var token := ResolveToken(authorization);
      if token.Failure? {
        return ServerError(token.error);
      }
      var currentUserUuid := GetUuidFromToken(jwtTokenService, token.value, now);
      if currentUserUuid.Failure? {
        return ServerError(currentUserUuid.error);
      }
      var optionalPortafolio := portafolioRepository.FindById(idPortafolio);
      if optionalPortafolio.None? {
        return NotFound;
      }
      if optionalPortafolio.value.owner != currentUserUuid.value {
        return Forbidden;
      }
      portafolioRepository.Delete(idPortafolio);
      r := Ok(());
    }

    /** `eliminarPortafolio`: deletes the portfolio when it exists, with no
        ownership check. */
    method EliminarPortafolio(idPortafolio: nat) returns (r: Response<()>)
      requires Valid()
      modifies portafolioRepository
      ensures Valid()
      ensures r.Ok? <==> idPortafolio in old(portafolioRepository.rows)
      ensures r.Ok? || r.NotFound?
      ensures portafolioRepository.rows == old(portafolioRepository.rows) - {idPortafolio}
    {
      if portafolioRepository.FindById(idPortafolio).Some? {
        portafolioRepository.Delete(idPortafolio);
        return Ok(());
      } else {
        return NotFound;
      }
    }
  }
}
