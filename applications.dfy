/** Applications of artists to opportunities: artist-only creation with at
    most one application per artist and opportunity, the listings by artist
    and by opportunity, and the status update. */
module Applications {
  import opened Enums
  import opened Outcomes
  import opened Entities
  import opened Repositories
  import opened Users
  import opened Opportunities

  /** The refusal text of a second application to the same opportunity. */
  const AllVacanciesTaken: string := "Han sido ocupadas todas las vacantes."

  /** Every stored application carries its own key as its id. */
  ghost predicate ApplicationsValid(rows: map<nat, Postulacion>) {
    forall k :: k in rows ==> rows[k].id == k
  }

  /** Whether an application links this artist to this opportunity. */
  predicate Links(p: Postulacion, artista: nat, oportunidad: nat) {
    p.artista == artista && p.oportunidad == oportunidad
  }

  /** Whether the artist has applied to the opportunity. */
  predicate HasApplied(rows: map<nat, Postulacion>, artista: nat, oportunidad: nat) {
    exists k :: k in rows && Links(rows[k], artista, oportunidad)
  }

  /** No two stored applications link the same artist and opportunity. */
  ghost predicate AtMostOnePerPair(rows: map<nat, Postulacion>) {
    forall a, b :: a in rows && b in rows && a != b ==>
      !Links(rows[b], rows[a].artista, rows[a].oportunidad)
  }

  /** A fresh application: pending, linked to the artist and the
      opportunity, with the message and the time of application. */
  function NewApplication(id: nat, artista: nat, oportunidad: nat, mensaje: Option<string>, now: int)
    : (p: Postulacion)
    ensures p.id == id && Links(p, artista, oportunidad)
    ensures p.estadoPostulacion == PENDENTE && p.mensaje == mensaje && p.fecha == now
  {
    Postulacion(id, artista, oportunidad, mensaje, now, PENDENTE)
  }

  /** Adding an application for a pair nobody holds keeps the pairs unique,
      and the pair is then held. */
  lemma {:induction false} InsertKeepsPairsUnique(rows: map<nat, Postulacion>, k: nat, p: Postulacion)
    requires AtMostOnePerPair(rows) && k !in rows && !HasApplied(rows, p.artista, p.oportunidad)
    ensures AtMostOnePerPair(rows[k := p])
    ensures HasApplied(rows[k := p], p.artista, p.oportunidad)
  {
    var rows' := rows[k := p];
    forall a, b | a in rows' && b in rows' && a != b
      ensures !Links(rows'[b], rows'[a].artista, rows'[a].oportunidad)
    {
      if a == k {
        assert !Links(rows[b], p.artista, p.oportunidad);
      } else if b == k {
        assert !Links(rows[a], p.artista, p.oportunidad);
      }
    }
    assert Links(rows'[k], p.artista, p.oportunidad);
  }

  /** Changing only the status of a stored application keeps the pairs
      unique. */
  lemma {:induction false} StatusChangeKeepsPairsUnique(rows: map<nat, Postulacion>, k: nat, s: EstadoPostulacion)
    requires AtMostOnePerPair(rows) && k in rows
    ensures AtMostOnePerPair(rows[k := rows[k].(estadoPostulacion := s)])
  {
    var rows' := rows[k := rows[k].(estadoPostulacion := s)];
    forall a, b | a in rows' && b in rows' && a != b
      ensures !Links(rows'[b], rows'[a].artista, rows'[a].oportunidad)
    {
      assert Links(rows'[b], rows'[a].artista, rows'[a].oportunidad)
         ==> Links(rows[b], rows[a].artista, rows[a].oportunidad);
    }
  }

  /** `findByUsuarioArtistaAndOportunidad`: the application of the artist
      to the opportunity, which is unique when pairs are. */
  function FindByArtistaAndOportunidad(rows: map<nat, Postulacion>, n: nat, artista: nat, oportunidad: nat)
    : (r: Option<Postulacion>)
    requires forall k :: k in rows ==> k < n
    requires AtMostOnePerPair(rows)
    ensures r.None? <==> !HasApplied(rows, artista, oportunidad)
    ensures forall k :: k in rows && Links(rows[k], artista, oportunidad) ==> r == Some(rows[k])
  {
    var k := FirstKey(rows, 0, n, (p: Postulacion) => Links(p, artista, oportunidad));
    if k.Some? then Some(rows[k.value]) else None
  }

  class PostulacionController {
    const postulacionRepository: Repository<Postulacion>
    const userRepository: Repository<UserModel>
    const oportunidadRepository: Repository<Oportunidad>

    constructor (postulacionRepository: Repository<Postulacion>, userRepository: Repository<UserModel>,
                 oportunidadRepository: Repository<Oportunidad>)
      ensures this.postulacionRepository == postulacionRepository && this.userRepository == userRepository
      ensures this.oportunidadRepository == oportunidadRepository
    {
      this.postulacionRepository := postulacionRepository;
      this.userRepository := userRepository;
      this.oportunidadRepository := oportunidadRepository;
    }

    ghost predicate Valid()
      reads postulacionRepository, userRepository, oportunidadRepository
    {
      postulacionRepository.Valid() && ApplicationsValid(postulacionRepository.rows)
      && AtMostOnePerPair(postulacionRepository.rows)
      && userRepository.Valid() && UsersValid(userRepository.rows, userRepository.nextId)
      && oportunidadRepository.Valid() && OpportunitiesValid(oportunidadRepository.rows)
    }

    /** `crearPostulacion`: the artist and the opportunity must exist, the
        applicant must be an artist, and only a first application is stored. */
    method CrearPostulacion(idArtista: nat, idOportunidad: nat, mensaje: Option<string>, now: int)
      returns (r: Response<Postulacion>)
      requires Valid()
      modifies postulacionRepository
      ensures Valid()
      ensures !r.Ok? ==> unchanged(postulacionRepository)
      ensures idArtista !in userRepository.rows || idOportunidad !in oportunidadRepository.rows ==> r == NotFound
      ensures idArtista in userRepository.rows && idOportunidad in oportunidadRepository.rows ==>
        (userRepository.rows[idArtista].typeUser != Some(ARTIST) ==> r == Forbidden)
        && (userRepository.rows[idArtista].typeUser == Some(ARTIST) ==>
              (HasApplied(old(postulacionRepository.rows), idArtista, idOportunidad) ==> r == BadRequest(AllVacanciesTaken))
              && (!HasApplied(old(postulacionRepository.rows), idArtista, idOportunidad) ==>
                    r == Ok(NewApplication(old(postulacionRepository.nextId), idArtista, idOportunidad, mensaje, now))
                    && postulacionRepository.rows == old(postulacionRepository.rows)[r.body.id := r.body]))
      ensures r.Ok? ==> HasApplied(postulacionRepository.rows, idArtista, idOportunidad)
    {
      var artistaOptional := userRepository.FindById(idArtista);
      var oportunidadOptional := oportunidadRepository.FindById(idOportunidad);
      if artistaOptional.None? || oportunidadOptional.None? {
        return NotFound;
      }
      var artista := artistaOptional.value;
      if artista.typeUser != Some(ARTIST) {
        return Forbidden;
      }
      var existing := FindByArtistaAndOportunidad(postulacionRepository.rows, postulacionRepository.nextId,
                                                  idArtista, idOportunidad);
      if existing.Some? {
        return BadRequest(AllVacanciesTaken);
      }
      var postulacion := NewApplication(postulacionRepository.nextId, idArtista, idOportunidad, mensaje, now);
      InsertKeepsPairsUnique(postulacionRepository.rows, postulacionRepository.nextId, postulacion);
      postulacionRepository.Insert(postulacion);
      r := Ok(postulacion);
    }

    /** `obtenerPostulacionesPorArtista`: the applications of a known user. */
    function ObtenerPostulacionesPorArtista(idArtista: nat): (r: Response<seq<Postulacion>>)
      reads postulacionRepository, userRepository, oportunidadRepository
      requires Valid()
      ensures r.NotFound? <==> idArtista !in userRepository.rows
      ensures r.NotFound? || r.Ok?
      ensures r.Ok? ==> forall p :: p in r.body <==> p in postulacionRepository.rows.Values && p.artista == idArtista
    {
      if idArtista !in userRepository.rows then NotFound
      else Ok(Select(postulacionRepository.rows, postulacionRepository.nextId, (p: Postulacion) => p.artista == idArtista))
    }

    /** `obtenerPostulacionesPorOportunidad`: the applications to a known
        opportunity. */
    function ObtenerPostulacionesPorOportunidad(idOportunidad: nat): (r: Response<seq<Postulacion>>)
      reads postulacionRepository, userRepository, oportunidadRepository
      requires Valid()
      ensures r.NotFound? <==> idOportunidad !in oportunidadRepository.rows
      ensures r.NotFound? || r.Ok?
      ensures r.Ok? ==> forall p :: p in r.body <==>
        p in postulacionRepository.rows.Values && p.oportunidad == idOportunidad
    {
      if idOportunidad !in oportunidadRepository.rows then NotFound
      else Ok(Select(postulacionRepository.rows, postulacionRepository.nextId,
                     (p: Postulacion) => p.oportunidad == idOportunidad))
    }

    /** `actualizarEstado`: sets exactly the given status of a known
        application. */
    method ActualizarEstado(idPostulacion: nat, nuevoEstado: EstadoPostulacion) returns (r: Response<Postulacion>)
      requires Valid()
      modifies postulacionRepository
      ensures Valid()
      ensures idPostulacion !in old(postulacionRepository.rows) ==> r == NotFound && unchanged(postulacionRepository)
      ensures idPostulacion in old(postulacionRepository.rows) ==>
        var p := old(postulacionRepository.rows)[idPostulacion].(estadoPostulacion := nuevoEstado);
        r == Ok(p) && postulacionRepository.rows == old(postulacionRepository.rows)[idPostulacion := p]
    {
      var postulacion := postulacionRepository.FindById(idPostulacion);
      if postulacion.None? {
        return NotFound;
      }
      var postulacion1 := postulacion.value.(estadoPostulacion := nuevoEstado);
      StatusChangeKeepsPairsUnique(postulacionRepository.rows, idPostulacion, nuevoEstado);
      postulacionRepository.Save(idPostulacion, postulacion1);
      r := Ok(postulacion1);
    }
  }
}
