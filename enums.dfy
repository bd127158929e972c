/** The closed enumerations of the platform (models/enums). */
module Enums {

  /** Platform role of a user (RoleName; the code also calls it TypeUser). The
      declaration order USER, ARTIST, ADMIN, ENTERPRISE carries no meaning. */
  datatype RoleName = USER | ARTIST | ADMIN | ENTERPRISE

  /** The text `RoleName.name()` yields. */
  function RoleText(r: RoleName): (s: string)
    ensures |s| >= 4
  {
    match r
    case USER => "USER"
    case ARTIST => "ARTIST"
    case ADMIN => "ADMIN"
    case ENTERPRISE => "ENTERPRISE"
  }

  lemma RoleTextInjective(a: RoleName, b: RoleName)
    ensures RoleText(a) == RoleText(b) <==> a == b
  {
    if a != b {
      assert RoleText(a)[0] != RoleText(b)[0] || RoleText(a)[1] != RoleText(b)[1];
    }
  }

  /** The authority records kept by the role repository (the ROLE_* names the
      role service looks up; they are not values of RoleName). */
  datatype Authority = ROLE_USER | ROLE_ARTISTA | ROLE_EMPRESA | ROLE_ADMIN

  /** State of a verification request. */
  datatype EstadoSolicitud = PENDIENTE | ACEPTADO | RECHAZADO

  /** State of an opportunity. */
  datatype EstadoOportunidad = ABIERTO | CERRADO

  /** State of an application. Only PENDENTE is named by the code that is
      modelled; any other value is carried by name. */
  datatype EstadoPostulacion = PENDENTE | OtroEstado(name: string)

  /** Kind of file a portfolio entry holds. */
  datatype TipoArchivo = VIDEO | AUDIO | IMAGE | DOCUMENT
}
