/** The persistent entities (models/entidades) as values. A reference from one
    entity to another is held as the referenced entity's key: the owner of a
    portfolio or an opportunity as the owner's uuid (every comparison the code
    makes on those owners is a uuid or id comparison), the user of a request
    or an application as the user's id. */
module Entities {
  import opened Enums
  import opened Outcomes
  import opened Uuids

  /** A stored password. The encoder is foreign code, so the hash is symbolic:
      a stored password is never the raw text itself. */
  datatype PasswordHash = Hashed(raw: string)

  datatype UserModel = UserModel(
    id: nat,
    uuid: Option<Uuid>,
    username: string,
    firstName: Option<string>,
    lastName: Option<string>,
    email: string,
    password: PasswordHash,
    typeUser: Option<RoleName>,
    verified: Option<bool>,
    location: Option<string>,
    photoProfile: Option<string>,
    description: Option<string>,
    createdAt: int,
    updateAt: int,
    roles: set<Authority>)

  /** `UserModel.isVerified`: a missing flag counts as not verified. */
  predicate IsVerified(u: UserModel) {
    u.verified == Some(true)
  }

  /** The `@PrePersist` hook: a uuid is generated only when none is assigned;
      both audit times become the current time. */
  function OnCreate(u: UserModel, now: int, generated: Uuid): (r: UserModel)
    ensures r.uuid.Some?
    ensures u.uuid.Some? ==> r.uuid == u.uuid
    ensures u.uuid.None? ==> r.uuid == Some(generated)
    ensures r.createdAt == now && r.updateAt == now
    ensures r.(uuid := u.uuid, createdAt := u.createdAt, updateAt := u.updateAt) == u
  {
    u.(uuid := if u.uuid.Some? then u.uuid else Some(generated), createdAt := now, updateAt := now)
  }

  /** The `@PreUpdate` hook as the persistence layer applies it on saving a
      managed user: a user whose fields changed gets the current time as its
      modification time; an unchanged one is not written at all. */
  function OnUpdate(stored: UserModel, changed: UserModel, now: int): (r: UserModel)
    ensures r.updateAt == (if changed == stored then stored.updateAt else now)
    ensures r.(updateAt := changed.updateAt) == changed
  {
    if changed == stored then stored else changed.(updateAt := now)
  }

  datatype SolicitudVerificacion = SolicitudVerificacion(
    idSolicitud: nat,
    user: nat,
    descripcion: string,
    archivoDemoUrl: string,
    dateSolicitud: int,
    fechaResolucion: Option<int>,
    estadoSolicitud: EstadoSolicitud,
    observacionesAdmin: Option<string>,
    rolSolicitado: RoleName)

  datatype Portafolio = Portafolio(
    idPortafolio: nat,
    titulo: string,
    descripcion: string,
    tipoArchivo: Option<TipoArchivo>,
    urlArchivo: string,
    urlImagen: string,
    nombreImagen: string,
    descripcionImagen: string,
    etiquetas: seq<string>,
    fechaCreacion: int,
    owner: Uuid)

  /** An opportunity; its state column is nullable, and an update may copy
      an absent state from the form. */
  datatype Oportunidad = Oportunidad(
    id: nat,
    titulo: string,
    descripcion: string,
    categoria: string,
    requisitos: string,
    ubicacion: string,
    fecha: int,
    fechaCierre: int,
    estado: Option<EstadoOportunidad>,
    owner: Uuid)

  datatype Postulacion = Postulacion(
    id: nat,
    artista: nat,
    oportunidad: nat,
    mensaje: Option<string>,
    fecha: int,
    estadoPostulacion: EstadoPostulacion)
}
