/** Outcomes shared by every request handler of the catalog API: the HTTP
    status codes the handlers answer with, the reason each error message
    names, and the permission tokens the handlers test for. */
module Http {

  datatype Option<+T> = None | Some(value: T)

  /** The status codes the handlers can answer with (500 paths are not modelled). */
  datatype Status = Ok200 | Created201 | BadRequest400 | Unauthorized401
                  | Forbidden403 | NotFound404 | Conflict409

  /** One constructor per error message of the source; `MissingFields` stands
      for both wordings of the missing-fields message. */
  datatype Reason =
    | MissingFields            // "Faltan campos requeridos" / "obligatorios"
    | EmailTaken               // "El correo ya está registrado"
    | UserNotFound             // "Usuario no encontrado"
    | UserNotFoundOrDisabled   // "Usuario no encontrado o inhabilitado"
    | UserDisabled             // "Usuario inhabilitado"
    | WrongPassword            // "Contraseña incorrecta"
    | CannotModifyUser         // "No tienes permiso para modificar este usuario"
    | CannotChangeRole         // "No puedes cambiar permisos o rol de este usuario"
    | InvalidRole              // "Rol no válido"
    | CannotDisableSelf        // "No tienes permiso para deshabilitarte"
    | CannotDisableOthers      // "No tienes permiso para deshabilitar a otros usuarios"
    | CannotCreateBooks        // "No tienes permiso para crear libros"
    | CannotModifyBooks        // "No tienes permiso para modificar libros"
    | CannotDisableBooks       // "No tienes permiso para inhabilitar libros"
    | BookNotFound             // "Libro no encontrado"
    | BookNotFoundOrDisabled   // "Libro no encontrado o inhabilitado"
    | BookNotAvailable         // "El libro no está disponible para reserva"
    | StartInPast              // "La fecha de reserva no puede ser en el pasado"
    | EndNotAfterStart         // "La fecha de entrega debe ser posterior ..."
    | ReservationNotFound      // "Reserva no encontrada para este usuario"
    | CannotViewHistory        // "No tienes permiso para ver el historial de reservas"
    | CannotViewReservations   // "No tienes permiso para ver estas reservas"
    | TokenMissing             // "Token no proporcionado"
    | TokenMalformed           // "Token inválido"
    | TokenRejected            // "Token inválido o expirado"
    | InvalidOrDisabledUser    // "Usuario no válido o inhabilitado"

  /** A handler's answer: a success status with its body, or an error status with its message. */
  datatype Result<+T> = Ok(status: Status, value: T) | Fail(status: Status, reason: Reason)

  /** JavaScript truthiness of an optional string field of a request:
      absent (undefined) and the empty string are falsy. */
  predicate Truthy(field: Option<string>) {
    field.Some? && field.value != ""
  }

  // The permission tokens the handlers test for.
  const SelfModify := "modificación_propia"
  const CreateBooks := "crear_libros"
  const ModifyBooks := "modificar_libros"
  const ModifyUsers := "modificar_usuarios"
  const DisableUsers := "inhabilitar_usuarios"
  const DisableBooks := "inhabilitar_libros"
  const ViewHistory := "ver_historial"

  /** `permisos.includes(p)`. */
  predicate Has(permisos: seq<string>, p: string) {
    p in permisos
  }
}
