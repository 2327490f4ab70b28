/** The user handlers (controllers/usuarioController.js): the role table,
    registration, the login ladder, lookup by id, the guarded partial update
    and the soft delete.

    Each handler's decision is a function of the request and the stored
    record; `Registry` holds the users collection and applies the decisions
    in place. bcrypt is not modelled: `hashed` is what `bcrypt.hash` returned
    and `compare` stands for `bcrypt.compare`. */
module Usuarios {
  import opened Http
  import opened Usuario
  import opened Auth

  /** The role table: role name to the permission list it grants. */
  const Roles: map<string, seq<string>> := map[
    "usuario_estandar" := [SelfModify],
    "editor" := [SelfModify, CreateBooks, ModifyBooks],
    "administrador" := [SelfModify, CreateBooks, ModifyBooks, ModifyUsers, DisableUsers, DisableBooks]
  ]

  /** Exactly three roles; `editor` grants exactly self-modification and the
      two book permissions; every role grants self-modification and nothing
      the administrator lacks; none grants the history permission. */
  lemma RoleTable()
    ensures Roles.Keys == {"usuario_estandar", "editor", "administrador"}
    ensures Roles["editor"] == [SelfModify, CreateBooks, ModifyBooks]
    ensures forall rol :: rol in Roles ==> SelfModify in Roles[rol]
    ensures forall rol, p :: rol in Roles && p in Roles[rol] ==> p in Roles["administrador"]
    ensures forall rol :: rol in Roles ==> ViewHistory !in Roles[rol]
  {
  }

  /** The record at `id`, if any (`Usuario.findById`). */
  function Lookup(users: Users, id: UserId): Option<UserRecord> {
    if id in users then Some(users[id]) else None
  }

  // ---------------------------------------------------------------- register

  datatype Registration = Registration(nombre: Option<string>, correo: Option<string>, contrasena: Option<string>)

  /** `registerUsuario`: missing fields, then an address already taken (exact
      comparison, disabled accounts included), else a new standard account. */
  function Register(users: Users, req: Registration, hashed: string, now: int): (r: Result<UserRecord>)
    ensures !(Truthy(req.nombre) && Truthy(req.correo) && Truthy(req.contrasena)) ==>
              r == Fail(BadRequest400, MissingFields)
    ensures Truthy(req.nombre) && Truthy(req.correo) && Truthy(req.contrasena)
            && EmailRegistered(users, req.correo.value) ==>
              r == Fail(Conflict409, EmailTaken)
    ensures r.Ok? <==> Truthy(req.nombre) && Truthy(req.correo) && Truthy(req.contrasena)
                       && !EmailRegistered(users, req.correo.value)
    // a new account has the given name and address, the hash, is enabled and
    // holds exactly the self-modification permission
    ensures r.Ok? ==>
              && r.status == Created201
              && r.value.nombre == req.nombre.value && r.value.correo == req.correo.value
              && r.value.contrasena == hashed && r.value.creadoEn == now
              && !r.value.inhabilitado && r.value.permisos == [SelfModify]
  {
    if !(Truthy(req.nombre) && Truthy(req.correo) && Truthy(req.contrasena)) then
      Fail(BadRequest400, MissingFields)
    else if EmailRegistered(users, req.correo.value) then
      Fail(Conflict409, EmailTaken)
    else
      Ok(Created201, UserRecord(req.nombre.value, req.correo.value, hashed, now, false, [SelfModify]))
  }

  /** Registering twice with the same address: the second attempt is refused. */
  lemma SecondRegistrationConflicts(users: Users, req: Registration, hashed: string, now: int,
                                    newId: UserId, req2: Registration, hashed2: string, now2: int)
    requires Register(users, req, hashed, now).Ok?
    requires Truthy(req2.nombre) && Truthy(req2.contrasena) && req2.correo == req.correo
    ensures Register(users[newId := Register(users, req, hashed, now).value], req2, hashed2, now2)
            == Fail(Conflict409, EmailTaken)
  {
    var users' := users[newId := Register(users, req, hashed, now).value];
    assert users'[newId].correo == req2.correo.value;
  }

  // ------------------------------------------------------------------- login

  datatype Credentials = Credentials(correo: Option<string>, contrasena: Option<string>)

  /** The payload the signed token carries. */
  datatype TokenPayload = TokenPayload(id: UserId, correo: string, permisos: seq<string>)

  /** `loginUsuario`. `found` is what `Usuario.findOne({ correo })` returned. */
  function Login(req: Credentials, found: Option<(UserId, UserRecord)>, compare: (string, string) -> bool): (r: Result<TokenPayload>)
    requires Truthy(req.correo) && found.Some? ==> found.value.1.correo == req.correo.value
    ensures !(Truthy(req.correo) && Truthy(req.contrasena)) ==> r == Fail(BadRequest400, MissingFields)
    ensures Truthy(req.correo) && Truthy(req.contrasena) && found.None? ==> r == Fail(NotFound404, UserNotFound)
    // a disabled account is refused whatever the password
    ensures Truthy(req.correo) && Truthy(req.contrasena) && found.Some? && found.value.1.inhabilitado ==>
              r == Fail(Forbidden403, UserDisabled)
    ensures Truthy(req.correo) && Truthy(req.contrasena) && found.Some? && !found.value.1.inhabilitado
            && !compare(req.contrasena.value, found.value.1.contrasena) ==>
              r == Fail(Unauthorized401, WrongPassword)
    // an enabled account whose password matched always gets its token
    ensures r.Ok? <==> Truthy(req.correo) && Truthy(req.contrasena) && found.Some?
                       && !found.value.1.inhabilitado && compare(req.contrasena.value, found.value.1.contrasena)
    // a token is issued only for an enabled account whose password matched,
    // and carries that account's id, address and permissions
    ensures r.Ok? ==>
              && found.Some? && !found.value.1.inhabilitado
              && Truthy(req.contrasena) && compare(req.contrasena.value, found.value.1.contrasena)
              && r == Ok(Ok200, TokenPayload(found.value.0, req.correo.value, found.value.1.permisos))
  {
    if !(Truthy(req.correo) && Truthy(req.contrasena)) then Fail(BadRequest400, MissingFields)
    else match found
      case None => Fail(NotFound404, UserNotFound)
      case Some((id, u)) =>
        if u.inhabilitado then Fail(Forbidden403, UserDisabled)
        else if !compare(req.contrasena.value, u.contrasena) then Fail(Unauthorized401, WrongPassword)
        else Ok(Ok200, TokenPayload(id, u.correo, u.permisos))
  }

  // --------------------------------------------------------------- fetch one

  /** `obtenerUsuarioPorId`: absent and disabled users are both 404. */
  function FetchUser(users: Users, id: UserId): (r: Result<UserRecord>)
    ensures r.Ok? <==> id in users && !users[id].inhabilitado
    ensures r.Ok? ==> r == Ok(Ok200, users[id])
    ensures r.Fail? ==> r == Fail(NotFound404, UserNotFoundOrDisabled)
  {
    if id in users && !users[id].inhabilitado then Ok(Ok200, users[id])
    else Fail(NotFound404, UserNotFoundOrDisabled)
  }

  // ------------------------------------------------------------------ update

  /** The `permisos` field of an update body: absent, an array, or some other
      JSON value, truthy or not. */
  datatype PermisosField = Absent | List(items: seq<string>) | NotAList(truthy: bool)

  predicate PermisosTruthy(p: PermisosField) {
    p.List? || (p.NotAList? && p.truthy)
  }

  datatype UserUpdate = UserUpdate(
    nombre: Option<string>,
    correo: Option<string>,
    contrasena: Option<string>,
    permisos: PermisosField,
    rol: Option<string>)

  /** The body asks for a permission or role change. */
  predicate AsksPrivilegeChange(req: UserUpdate) {
    PermisosTruthy(req.permisos) || Truthy(req.rol)
  }

  /** `actualizarUsuario` as a decision: the record to save, or the refusal.
      `isSelf` says whether the caller is the target; `target` is what
      `findById` returned. */
  function Update(caller: Caller, isSelf: bool, target: Option<UserRecord>, req: UserUpdate, hashed: string): (r: Result<UserRecord>)
    // neither the target nor an administrator: 403 before any lookup
    ensures !isSelf && !Has(caller.permisos, ModifyUsers) ==> r == Fail(Forbidden403, CannotModifyUser)
    ensures (isSelf || Has(caller.permisos, ModifyUsers)) && target.None? ==> r == Fail(NotFound404, UserNotFound)
    // a permission or role change without `modificar_usuarios`: 403
    ensures isSelf && !Has(caller.permisos, ModifyUsers) && target.Some? && AsksPrivilegeChange(req) ==>
              r == Fail(Forbidden403, CannotChangeRole)
    // an unknown role: 400
    ensures Has(caller.permisos, ModifyUsers) && target.Some? && Truthy(req.rol) && req.rol.value !in Roles ==>
              r == Fail(BadRequest400, InvalidRole)
    // every allowed edit of an existing account is saved
    ensures r.Ok? <==> target.Some? && (isSelf || Has(caller.permisos, ModifyUsers))
                       && (!AsksPrivilegeChange(req)
                           || (Has(caller.permisos, ModifyUsers) && (!Truthy(req.rol) || req.rol.value in Roles)))
    ensures r.Ok? ==> target.Some? && r.status == Ok200
    // name, address and password are overwritten only by truthy fields
    ensures r.Ok? ==> r.value.nombre == (if Truthy(req.nombre) then req.nombre.value else target.value.nombre)
    ensures r.Ok? ==> r.value.correo == (if Truthy(req.correo) then req.correo.value else target.value.correo)
    ensures r.Ok? ==> r.value.contrasena == (if Truthy(req.contrasena) then hashed else target.value.contrasena)
    // the creation date and the disabled flag are never touched
    ensures r.Ok? ==> r.value.creadoEn == target.value.creadoEn && r.value.inhabilitado == target.value.inhabilitado
    // a role replaces the whole permission list and wins over `permisos`
    ensures r.Ok? && Truthy(req.rol) ==> req.rol.value in Roles && r.value.permisos == Roles[req.rol.value]
    // otherwise only an array replaces it
    ensures r.Ok? && !Truthy(req.rol) ==>
              r.value.permisos == (if req.permisos.List? then req.permisos.items else target.value.permisos)
    // only `modificar_usuarios` can change anyone's permissions
    ensures r.Ok? && r.value.permisos != target.value.permisos ==> Has(caller.permisos, ModifyUsers)
  {
    var canModify := Has(caller.permisos, ModifyUsers);
    if !isSelf && !canModify then Fail(Forbidden403, CannotModifyUser)
    else if target.None? then Fail(NotFound404, UserNotFound)
    else
      var u := target.value;
      var edited := u.(nombre := if Truthy(req.nombre) then req.nombre.value else u.nombre,
                       correo := if Truthy(req.correo) then req.correo.value else u.correo,
                       contrasena := if Truthy(req.contrasena) then hashed else u.contrasena);
      if !AsksPrivilegeChange(req) then Ok(Ok200, edited)
      else if !canModify then Fail(Forbidden403, CannotChangeRole)
      else if Truthy(req.rol) then
        if req.rol.value in Roles then Ok(Ok200, edited.(permisos := Roles[req.rol.value]))
        else Fail(BadRequest400, InvalidRole)
      else if req.permisos.List? then Ok(Ok200, edited.(permisos := req.permisos.items))
      else Ok(Ok200, edited)
  }

  /** Assigning the `editor` role leaves exactly its three permissions,
      whatever the account held before. */
  lemma EditorRoleReplacesPermissions(caller: Caller, isSelf: bool, t: UserRecord, req: UserUpdate, hashed: string)
    requires Has(caller.permisos, ModifyUsers) && req.rol == Some("editor")
    ensures var r := Update(caller, isSelf, Some(t), req, hashed);
            r.Ok? && r.value.permisos == [SelfModify, CreateBooks, ModifyBooks]
  {
  }

  // ----------------------------------------------------------------- disable

  /** `inhabilitarUsuario` as a decision: lookup first, then the permission
      for disabling oneself or another user. */
  function Disable(caller: Caller, isSelf: bool, target: Option<UserRecord>): (r: Result<UserRecord>)
    ensures target.None? ==> r == Fail(NotFound404, UserNotFound)
    ensures target.Some? && isSelf && !Has(caller.permisos, SelfModify) ==> r == Fail(Forbidden403, CannotDisableSelf)
    ensures target.Some? && !isSelf && !Has(caller.permisos, ModifyUsers) ==> r == Fail(Forbidden403, CannotDisableOthers)
    ensures r.Ok? <==> target.Some? && Has(caller.permisos, if isSelf then SelfModify else ModifyUsers)
    // only the flag changes
    ensures r.Ok? ==> r == Ok(Ok200, target.value.(inhabilitado := true))
  {
    if target.None? then Fail(NotFound404, UserNotFound)
    else if isSelf && !Has(caller.permisos, SelfModify) then Fail(Forbidden403, CannotDisableSelf)
    else if !isSelf && !Has(caller.permisos, ModifyUsers) then Fail(Forbidden403, CannotDisableOthers)
    else Ok(Ok200, target.value.(inhabilitado := true))
  }

  /** Disabling an already disabled user changes nothing more. */
  lemma DisableIdempotent(caller: Caller, isSelf: bool, t: UserRecord)
    requires Disable(caller, isSelf, Some(t)).Ok?
    ensures var once := Disable(caller, isSelf, Some(t)).value;
            Disable(caller, isSelf, Some(once)) == Ok(Ok200, once)
  {
  }

  /** Once disabled, a user can neither log in nor pass the token check. */
  lemma DisabledUserLocksOut(caller: Caller, isSelf: bool, users: Users, id: UserId,
                             req: Credentials, compare: (string, string) -> bool,
                             authorization: Option<string>, verify: string -> Option<UserId>)
    requires id in users && Disable(caller, isSelf, Some(users[id])).Ok?
    requires Truthy(req.correo) && Truthy(req.contrasena) && req.correo.value == users[id].correo
    ensures var after := users[id := Disable(caller, isSelf, Some(users[id])).value];
            && Login(req, Some((id, after[id])), compare) == Fail(Forbidden403, UserDisabled)
            && !(VerifyToken(authorization, verify, after).Next? && VerifyToken(authorization, verify, after).usuario.id == id)
  {
  }

  // --------------------------------------------------- self identity (finding)

  /** The two kinds of value the identity checks compare: a string (a route
      parameter) and a document's `_id`, an ObjectId object whose text form
      is its hexadecimal id. */
  datatype JsValue = JsString(text: string) | ObjectId(hex: string)

  /** JavaScript `===` between a string and any value: strings are equal by
      content, and a string is never strictly equal to an object.
      (Two objects compare by reference; no identity check here does that.) */
  function StrictEquals(a: JsValue, b: JsValue): bool
    requires a.JsString? || b.JsString?
  {
    a.JsString? && b.JsString? && a.text == b.text
  }

  /** `v.toString()`. */
  function ToString(v: JsValue): string {
    match v
    case JsString(t) => t
    case ObjectId(h) => h
  }

  /** `req.usuario.id === id` as written: the left side is the ObjectId the
      middleware copied from the document, the right side the route
      parameter. The check never holds, whatever the ids. */
  function IsSelfAsWritten(callerId: UserId, id: string): (same: bool)
    ensures !same
  {
    StrictEquals(ObjectId(callerId), JsString(id))
  }

  /** As written, a caller without `modificar_usuarios` cannot update even
      their own account. */
  lemma SelfUpdateRefusedAsWritten(caller: Caller, t: UserRecord, req: UserUpdate, hashed: string)
    requires !Has(caller.permisos, ModifyUsers)
    ensures Update(caller, IsSelfAsWritten(caller.id, caller.id), Some(t), req, hashed)
            == Fail(Forbidden403, CannotModifyUser)
  {
  }

  /** As written, a standard user disabling their own account is treated as
      disabling someone else and refused. */
  lemma SelfDisableRefusedAsWritten(caller: Caller, t: UserRecord)
    requires Has(caller.permisos, SelfModify) && !Has(caller.permisos, ModifyUsers)
    ensures Disable(caller, IsSelfAsWritten(caller.id, caller.id), Some(t))
            == Fail(Forbidden403, CannotDisableOthers)
  {
  }

  /** The intended identity check, comparing both sides' `toString()` as
      routes/libros.js does: it holds exactly when the ids' text is equal. */
  function IsSelf(callerId: UserId, id: string): (same: bool)
    ensures same <==> callerId == id
  {
    StrictEquals(JsString(ToString(ObjectId(callerId))), JsString(ToString(JsString(id))))
  }

  /** With the intended check, any caller may edit their own name, address
      and password. */
  lemma SelfUpdateAllowed(caller: Caller, t: UserRecord, req: UserUpdate, hashed: string)
    requires !AsksPrivilegeChange(req)
    ensures var r := Update(caller, IsSelf(caller.id, caller.id), Some(t), req, hashed);
            r.Ok? && r.value.permisos == t.permisos
  {
  }

  /** With the intended check, a caller holding `modificación_propia` may
      disable their own account. */
  lemma SelfDisableAllowed(caller: Caller, t: UserRecord)
    requires Has(caller.permisos, SelfModify)
    ensures Disable(caller, IsSelf(caller.id, caller.id), Some(t)) == Ok(Ok200, t.(inhabilitado := true))
  {
  }

  // ---------------------------------------------------------------- registry

  /** The users collection; each handler is one atomic read-modify-save. */
  class Registry {
    var users: Users

    constructor ()
      ensures users == map[]
    {
      users := map[];
    }

    /** `registerUsuario`. `newId` is the fresh id the database assigns. */
    method RegisterUser(req: Registration, hashed: string, now: int, newId: UserId) returns (r: Result<UserRecord>)
      requires newId !in users
      modifies this
      ensures r == Register(old(users), req, hashed, now)
      ensures users == if r.Ok? then old(users)[newId := r.value] else old(users)
    {
      r := Register(users, req, hashed, now);
      if r.Ok? {
        users := users[newId := r.value];
      }
    }

    /** `obtenerUsuarioPorId`. */
    function GetUser(id: UserId): (r: Result<UserRecord>)
      reads this
      ensures r == FetchUser(users, id)
      ensures r.Ok? ==> id in users && !r.value.inhabilitado
    {
      FetchUser(users, id)
    }

    /** `actualizarUsuario`: the document is edited field by field and saved
        only when no later check refuses. */
    method UpdateUser(caller: Caller, id: UserId, req: UserUpdate, hashed: string) returns (r: Result<UserRecord>)
      modifies this
      ensures r == Update(caller, IsSelf(caller.id, id), Lookup(old(users), id), req, hashed)
      ensures users == if r.Ok? then old(users)[id := r.value] else old(users)
    {
      var esMismoUsuario := IsSelf(caller.id, id);
      var puedeModificarUsuarios := Has(caller.permisos, ModifyUsers);
      if !esMismoUsuario && !puedeModificarUsuarios {
        return Fail(Forbidden403, CannotModifyUser);
      }
      if id !in users {
        return Fail(NotFound404, UserNotFound);
      }
      var u := users[id];
      if Truthy(req.nombre) { u := u.(nombre := req.nombre.value); }
      if Truthy(req.correo) { u := u.(correo := req.correo.value); }
      if Truthy(req.contrasena) { u := u.(contrasena := hashed); }
      if AsksPrivilegeChange(req) {
        if !puedeModificarUsuarios {
          return Fail(Forbidden403, CannotChangeRole);
        }
        if Truthy(req.rol) {
          if req.rol.value !in Roles {
            return Fail(BadRequest400, InvalidRole);
          }
          u := u.(permisos := Roles[req.rol.value]);
        } else if req.permisos.List? {
          u := u.(permisos := req.permisos.items);
        }
      }
      users := users[id := u];
      r := Ok(Ok200, u);
    }

    /** `inhabilitarUsuario`. */
    method DisableUser(caller: Caller, id: UserId) returns (r: Result<UserRecord>)
      modifies this
      ensures r == Disable(caller, IsSelf(caller.id, id), Lookup(old(users), id))
      ensures users == if r.Ok? then old(users)[id := r.value] else old(users)
    {
      if id !in users {
        return Fail(NotFound404, UserNotFound);
      }
      var usuarioObjetivo := users[id];
      var esMismoUsuario := IsSelf(caller.id, id);
      if esMismoUsuario && !Has(caller.permisos, SelfModify) {
        return Fail(Forbidden403, CannotDisableSelf);
      }
      if !esMismoUsuario && !Has(caller.permisos, ModifyUsers) {
        return Fail(Forbidden403, CannotDisableOthers);
      }
      usuarioObjetivo := usuarioObjetivo.(inhabilitado := true);
      users := users[id := usuarioObjetivo];
      r := Ok(Ok200, usuarioObjetivo);
    }
  }
}
