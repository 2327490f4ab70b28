# Library catalog API: reservation and authorization logic in Dafny

This project models the decision logic of a small library-catalog REST API
(Express + Mongoose). The API keeps books with an embedded reservation list, user
accounts with permission lists, and a token middleware. Remove the database, HTTP and
crypto calls and each handler is the same thing: one document is read, a ladder of
guards runs, the document is changed and saved. The model keeps that ladder and that
change:

- the collections are in-memory maps from id to record (`Libros.Catalog.books`,
  `Usuarios.Registry.users`), and each handler is one atomic step;
- HTTP answers are `Http.Result` values: a status code, plus a body or the reason
  (one constructor per error message of the source);
- dates are integer timestamps and "now" is a parameter;
- `jwt.verify`, `bcrypt.hash` and `bcrypt.compare`, and the database's answers to
  `findOne`/`find`, are inputs.

Files, one module per source file:

- `http.dfy`, module `Http`: statuses, messages and permission names shared by the handlers;
- `usuario_model.dfy`, module `Usuario`: the user record of `models/Usuario.js`;
- `auth.dfy`, module `Auth`: `middleware/auth.js`;
- `libro_model.dfy`, module `Libro`: `models/Libro.js`;
- `libro_controller.dfy`, module `Libros`: `controllers/libroController.js` and the identical inline handlers of `routes/libros.js`;
- `usuario_controller.dfy`, module `Usuarios`: `controllers/usuarioController.js`.

A book is a class (`Libro.Book`) because its handlers change it in place: `push`,
`splice` and flag assignments. Each method of the class is tied to a step function
on the value `Libro.BookRecord`. The central invariant is `disponible ==
(|reservas| == 0)`. `Libro.HistoryKeepsConsistent` proves that every sequence of
reserve, cancel, update and disable steps keeps it. `Libro.CreatedBookStaysConsistent`
proves that every book created through the API satisfies it after any history of
steps. User documents are values in the `Registry` map, and a handler replaces the
entry when it saves.

Two behaviours are worth knowing before reading the contracts:
- Reserving an unavailable book answers 400, not 409 Conflict.
- The duplicate-address check at registration compares addresses exactly, without
  normalising case.

## Model

| member | source | states |
|---|---|---|
| `Auth.Split` | middleware/auth.js:12 | `split(' ')` gives at least one piece and no piece contains the separator |
| `Auth.JoinSplit` | middleware/auth.js:12 | splitting loses nothing: joining the pieces with the separator gives the header back |
| `Auth.Token` | middleware/auth.js:12-13 | the token (piece 1) is absent exactly when the header has no space, and never contains a space |
| `Auth.TokenAfterFirstSpace` | middleware/auth.js:12 | for a header "word rest" with a space-free word, the token is the first piece of the rest |
| `Auth.VerifyToken` | middleware/auth.js:8-37 | the ladder in order: no header 401, no or empty token 401, rejected token 403, absent or disabled user 401; the request goes on exactly when the header's token verifies to the id of a stored, enabled user, and the context copies that user's id, name, address and permissions |
| `Libro.NewRecord` | models/Libro.js:11-20 | a new book has the five given fields and the defaults `disponible` true, `inhabilitado` false, no reservations, so it satisfies the invariant |
| `Libro.ReserveStep` | models/Libro.js:36-58 | refusals in order (unavailable, start before now, return not after start), all 400 and all leaving the book as it was; success exactly when available and now <= start < end; on success one reservation {caller id, caller name, start, end} is appended at the end, the book becomes unavailable and nothing else changes; the invariant is kept |
| `Libro.FirstMatch` | models/Libro.js:96-98 | `findIndex`: -1 exactly when no reservation is the caller's, otherwise a position holding the caller's reservation with no earlier such position |
| `Libro.RemoveAt` | models/Libro.js:105 | `splice(i, 1)`: one element fewer, the elements before and after `i` keep their order, and the multiset loses exactly the removed element |
| `Libro.CancelStep` | models/Libro.js:96-110 | success exactly when the book holds a reservation by the caller; with none, 404 and the book unchanged; otherwise the first such reservation is removed and the rest keep their order; `disponible` becomes true when the list becomes empty and is otherwise left as it was; no other field changes; the invariant is kept |
| `Libro.Patched` | controllers/libroController.js:82-86 | each of the five fields is overwritten only by a truthy value; `disponible`, `inhabilitado`, `reservas` and the id are untouched |
| `Libro.Disabled` | controllers/libroController.js:107 | soft delete sets `inhabilitado` and changes nothing else |
| `Libro.DisabledIdempotent` | controllers/libroController.js:107 | soft-deleting a book twice gives the same book as once |
| `Libro.Apply` | models/Libro.js:48-110 | every book mutation (reserve, cancel, update, disable) keeps `disponible == (|reservas| == 0)` and the id |
| `Libro.HistoryKeepsConsistent` | models/Libro.js:55-110 | any sequence of book mutations from a consistent book ends in a consistent book |
| `Libro.CreatedBookStaysConsistent` | models/Libro.js:17-19 | a book created with the schema defaults stays consistent through any history of mutations |
| `Libro.StaysUnavailable` | models/Libro.js:36-110 | an unavailable book stays unavailable through any history of reservations, edits and soft deletes without a cancellation |
| `Libro.ReservedBookRefuses` | models/Libro.js:36-38 | after a successful reservation and any later history without a cancellation, every reservation attempt, by anyone, with any dates and at any time, is refused with 400 as unavailable and leaves the book as it was |
| `Libro.Book.constructor` | controllers/libroController.js:17 | a new book object holds exactly `NewRecord` of the given fields |
| `Libro.Book.Reserve` | models/Libro.js:36-58 | the object's answer and new contents are those of `ReserveStep` on its old contents; its invariant is kept |
| `Libro.Book.Cancel` | models/Libro.js:96-110 | the object's answer and new contents are those of `CancelStep` on its old contents; its invariant is kept |
| `Libro.Book.Update` | routes/libros.js:127-131 | the object's new contents are `Patched` of its old contents |
| `Libro.Book.Disable` | routes/libros.js:160 | the object's new contents are `Disabled` of its old contents |
| `Libro.ReservationCycle` | models/Libro.js:25-118 | on a new book: a first reservation succeeds with the caller's data, a second user's reservation is refused as unavailable, the first user's cancellation empties the list and makes the book available, and the second user's reservation then succeeds |
| `Libros.CheckCreate` | controllers/libroController.js:8-14 | missing `crear_libros` gives 403 before the field check; any of the five fields missing gives 400; otherwise exactly the five given values are kept |
| `Libros.BuildFilter` | controllers/libroController.js:29-36 | the filter always has `inhabilitado: false`; every other key is present exactly when its parameter is truthy and carries that parameter; `disponibilidad` maps to true exactly for the text "true" |
| `Libros.ListingsDisjoint` | routes/libros.js:55-90 | on the `inhabilitado` criterion the default listing selects exactly the enabled books and the disabled listing exactly the disabled ones |
| `Libros.HistoryGuard` | routes/libros.js:180-183 | the history route passes exactly when the caller holds `ver_historial`, otherwise 403 |
| `Libros.NoRoleSeesHistory` | controllers/usuarioController.js:11-15 | every role of the role table is refused by the history guard |
| `Libros.EntriesOfAppend` | routes/libros.js:210-222 | within one book, the lines for two runs of reservations are the lines of the first run followed by those of the second |
| `Libros.ProjectionAppend` | routes/libros.js:209-223 | the lines for two runs of books are the lines of the first run followed by those of the second, so book order is kept |
| `Libros.ProjectionSound` | routes/libros.js:211-220 | every line is {book id, title, author, start, return} of a reservation that the user made on one of the books |
| `Libros.ProjectionComplete` | controllers/libroController.js:129-145 | every reservation that the user made on one of the books has its line |
| `Libros.ReservationsOfUser` | routes/libros.js:196-223 | 403 unless the caller holds `modificar_usuarios` or is the owner; otherwise the nested loop returns exactly the projection of the books' reservations by that user, in book order and then reservation order |
| `Libros.Catalog.CreateBook` | routes/libros.js:20-36 | refusals as `CheckCreate`, with the collection unchanged; on success a fresh book holding `NewRecord` of the fields is stored under the new id and nothing else changes; every stored book stays consistent |
| `Libros.Catalog.GetBook` | controllers/libroController.js:61-62 | an absent or disabled book gives 404; otherwise the stored book |
| `Libros.Catalog.UpdateBook` | controllers/libroController.js:74-86 | 403 without `modificar_libros`, then 404 for an absent book; otherwise success (200 with the saved book) exactly when the permission is held and the book exists, and the stored book becomes `Patched` of itself; a refused call changes nothing |
| `Libros.Catalog.DisableBook` | controllers/libroController.js:99-108 | 403 without `modificar_libros`, then 404; success (200 with the saved book) exactly when the permission is held and the book exists, and then only `inhabilitado` is set; a refused call changes nothing |
| `Libros.Catalog.ReserveBook` | models/Libro.js:30-58 | an absent book gives 404; a present one (disabled or not) follows `ReserveStep`; all books stay consistent |
| `Libros.Catalog.CancelReservation` | models/Libro.js:89-110 | an absent book gives 404; a present one follows `CancelStep` for the caller's id; all books stay consistent |
| `Libros.Catalog.BookReservations` | models/Libro.js:71-77 | an absent book gives 404; otherwise its reservation list exactly as stored |
| `Libros.Catalog.ReservationHistory` | routes/libros.js:178-186 | 403 without `ver_historial`, otherwise the answer of `BookReservations` |
| `Usuarios.RoleTable` | controllers/usuarioController.js:11-15 | exactly three roles; `editor` is exactly [modificación_propia, crear_libros, modificar_libros]; every role grants `modificación_propia`, nothing outside the administrator's list, and never `ver_historial` |
| `Usuarios.Register` | controllers/usuarioController.js:20-37 | any missing field gives 400; an address already stored gives 409 (disabled accounts included); otherwise an enabled account with the given name and address, the hash, and exactly ['modificación_propia'] |
| `Usuarios.SecondRegistrationConflicts` | controllers/usuarioController.js:25-28 | after a registration, a second registration with the same address is refused with 409 |
| `Usuarios.Login` | controllers/usuarioController.js:49-65 | in order: missing field 400, unknown address 404, disabled account 403 whatever the password, wrong password 401; a token payload {id, correo, permisos} is issued exactly when both fields are present and the account is found, enabled and its password matches |
| `Usuarios.FetchUser` | controllers/usuarioController.js:80-84 | an absent or disabled user gives 404; otherwise the stored record |
| `Usuarios.Update` | controllers/usuarioController.js:97-128 | neither self nor `modificar_usuarios` gives 403 before the lookup; absent gives 404; name, address and password change only for truthy fields; the creation date and the flag never change; a privilege change without `modificar_usuarios` gives 403; a role wins over `permisos`, replaces the whole list, and an unknown role gives 400; `permisos` applies only as an array; only `modificar_usuarios` can change permissions; every edit passing these guards succeeds with 200 |
| `Usuarios.EditorRoleReplacesPermissions` | controllers/usuarioController.js:121-125 | assigning `editor` leaves exactly its three permissions, whatever the account held |
| `Usuarios.Disable` | controllers/usuarioController.js:144-161 | absent gives 404; disabling oneself needs `modificación_propia` and disabling another needs `modificar_usuarios` (403 otherwise); success sets only `inhabilitado` |
| `Usuarios.DisableIdempotent` | controllers/usuarioController.js:161 | disabling an already disabled account succeeds and changes nothing more |
| `Usuarios.DisabledUserLocksOut` | controllers/usuarioController.js:56 | once disabled, the account is refused at login (403) and by the token middleware |
| `Usuarios.SelfUpdateRefusedAsWritten` | controllers/usuarioController.js:97-101 | with the identity check as written, a caller without `modificar_usuarios` is refused even on their own account |
| `Usuarios.SelfDisableRefusedAsWritten` | controllers/usuarioController.js:149-158 | with the identity check as written, a standard user disabling their own account is refused as if disabling another user |
| `Usuarios.IsSelfAsWritten` | controllers/usuarioController.js:97 | `===` between the ObjectId the middleware stores and the string route parameter never holds, whatever the ids |
| `Usuarios.IsSelf` | routes/libros.js:197 | comparing both sides' `toString()` holds exactly when the ids' text is equal |
| `Usuarios.SelfUpdateAllowed` | controllers/usuarioController.js:97-114 | with the intended check, any caller may edit their own name, address and password, and their permissions stay as they were |
| `Usuarios.SelfDisableAllowed` | controllers/usuarioController.js:149-161 | with the intended check, a caller holding `modificación_propia` can disable their own account |
| `Usuarios.Registry.RegisterUser` | controllers/usuarioController.js:18-39 | the answer is `Register`'s; on success the new record is stored under the fresh id, otherwise the collection is unchanged |
| `Usuarios.Registry.GetUser` | controllers/usuarioController.js:76-86 | the answer is `FetchUser`'s on the stored collection, so a returned user is stored and enabled |
| `Usuarios.Registry.UpdateUser` | controllers/usuarioController.js:93-133 | the field-by-field edit answers as `Update` with the intended identity check and saves only on success; a refusal saves nothing, even when fields were already edited |
| `Usuarios.Registry.DisableUser` | controllers/usuarioController.js:140-164 | the answer is `Disable`'s with the intended identity check; only on success is the flagged record saved |

## Left out

- Persistence: Mongoose `find`, `findById` and `save`, schemas as database artefacts,
  the `timestamps` fields, and the unique index on `correo` (models/Usuario.js:5).
  That index makes an update to a taken address fail at save with a 500. The model
  does not enforce unique addresses.
- `Usuarios.Login`: the user is what `findOne({ correo })` returned, passed in (`found`),
  because which of several equal addresses the database returns is not modelled.
- Concurrency: the read-then-save race between two reservations of the same book. Each
  handler is one atomic step.
- bcrypt: `hashed` is the value `bcrypt.hash` returned and `compare` stands for
  `bcrypt.compare`. JWT signing, the secret and the 2-hour expiry are not modelled.
  `Auth.VerifyToken` takes the verification outcome as a function from token to
  user id, where None means `jwt.verify` or the id cast threw.
- `Auth.VerifyToken`: `usuario.permisos || []` is not modelled. The record's
  `permisos` is always a list (the schema default is `[]`).
- Date parsing with `new Date(...)`, including invalid or missing dates (NaN passes
  both date checks). Dates are integer timestamps.
- How the filter matches: `$regex` with option `i`, and `$eq` on a date. The model
  records the filter as built and claims nothing about what it selects beyond the
  `inhabilitado` key. The `disponibilidad` key does not name the schema field
  `disponible`. It is recorded as built.
- Every 500 path (`catch` blocks).
- Request fields are modelled as optional strings, where truthy means present and
  non-empty. Other JSON values are not modelled, except for `permisos` (an array or
  some other value). So is a role name that is an inherited property of a JavaScript
  object (`roles['toString']`).
- `Libros.ReservationsOfUser`: the books are the ones the query
  `{'reservas.usuarioId': idUsuario}` returned, in the database's order, passed in.
- HTTP routing and bootstrapping (server.js, db.js, routes/usuarios.js wiring) are not
  part of this model.
- The permissions `inhabilitar_usuarios` and `inhabilitar_libros` are granted by the
  administrator role but are never checked. Disabling checks `modificar_usuarios` and
  `modificar_libros`, as the code does.

## Findings

| source | as written | input that shows it | evidently intended | confidence | as-written member | corrected member |
|---|---|---|---|---|---|---|
| controllers/usuarioController.js:97 | `req.usuario.id === id` compares the ObjectId that middleware/auth.js:27 stores with the route parameter, a string. Strict equality between an object and a string is always false | a standard user (`['modificación_propia']`) sends `PUT /usuarios/<own id>` with `{nombre: "x"}` and gets 403 | the caller is the target when the ids' text is equal, as routes/libros.js:197 compares with `toString()` | high, not executed | `Usuarios.SelfUpdateRefusedAsWritten` | `Usuarios.SelfUpdateAllowed` |
| controllers/usuarioController.js:149 | the same strict comparison in `inhabilitarUsuario` | a standard user sends `DELETE /usuarios/<own id>` and gets 403 "No tienes permiso para deshabilitar a otros usuarios" | self-disable allowed with `modificación_propia` | high, not executed | `Usuarios.SelfDisableRefusedAsWritten` | `Usuarios.SelfDisableAllowed` |

The model uses the corrected check (`Usuarios.IsSelf`) in `Usuarios.Registry.UpdateUser`
and `Usuarios.Registry.DisableUser`. The decision functions `Usuarios.Update` and
`Usuarios.Disable` take the identity as an input, so that both readings can be stated.
