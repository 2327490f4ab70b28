/** The user document (models/Usuario.js) and the user collection as an
    in-memory map from id to record. */
module Usuario {

  /** Ids are the hexadecimal text of a document's ObjectId. */
  type UserId = string

  /** A user document. `contrasena` holds the bcrypt hash, never the plaintext;
      `creadoEn` is a timestamp. */
  datatype UserRecord = UserRecord(
    nombre: string,
    correo: string,
    contrasena: string,
    creadoEn: int,
    inhabilitado: bool,
    permisos: seq<string>)

  /** The users collection. */
  type Users = map<UserId, UserRecord>

  /** `Usuario.findOne({ correo })` finds something. */
  predicate EmailRegistered(users: Users, correo: string) {
    exists id :: id in users && users[id].correo == correo
  }
}
