/** The book handlers (controllers/libroController.js, and the identical
    inline handlers of routes/libros.js): permission and field checks, the
    listing filter, lookup by id, truthy-only update, soft delete, the
    reservation endpoints over the stored books, and the per-user
    reservation listing.

    The books collection is a map from id to `Book` object; each handler is
    one atomic step against it. */
module Libros {
  import opened Http
  import opened Usuario
  import opened Auth
  import opened Libro
  import Usuarios

  /** All five required fields are present and non-empty. */
  predicate AllPresent(input: BookInput) {
    Truthy(input.titulo) && Truthy(input.autor) && Truthy(input.genero)
    && Truthy(input.fechaPublicacion) && Truthy(input.editorial)
  }

  /** The guards of `crearLibro`: the permission is checked before the fields. */
  function CheckCreate(permisos: seq<string>, input: BookInput): (r: Result<BookFields>)
    ensures !Has(permisos, CreateBooks) ==> r == Fail(Forbidden403, CannotCreateBooks)
    ensures Has(permisos, CreateBooks) && !AllPresent(input) ==> r == Fail(BadRequest400, MissingFields)
    ensures r.Ok? <==> Has(permisos, CreateBooks) && AllPresent(input)
    // the stored fields are exactly the five given ones
    ensures r.Ok? ==>
              && r.status == Created201
              && r.value == BookFields(input.titulo.value, input.autor.value, input.genero.value,
                                       input.fechaPublicacion.value, input.editorial.value)
  {
    if !Has(permisos, CreateBooks) then Fail(Forbidden403, CannotCreateBooks)
    else if !AllPresent(input) then Fail(BadRequest400, MissingFields)
    else Ok(Created201, BookFields(input.titulo.value, input.autor.value, input.genero.value,
                                   input.fechaPublicacion.value, input.editorial.value))
  }

  /** The query parameters of the listing, as strings when given. */
  datatype Query = Query(
    titulo: Option<string>,
    autor: Option<string>,
    genero: Option<string>,
    fechaPublicacion: Option<string>,
    editorial: Option<string>,
    disponibilidad: Option<string>)

  /** One criterion of a listing filter: a boolean equality, a
      case-insensitive pattern (`$regex` with `$options: 'i'`), or an exact
      text match (`$eq`). */
  datatype Cond = Equals(flag: bool) | Matches(pattern: string) | SameAs(value: string)

  /** A filter document: field name to criterion. */
  type Filter = map<string, Cond>

  /** Adds `key := cond(field)` to the filter when the field is truthy. */
  function AddIf(f: Filter, key: string, field: Option<string>, cond: Cond): Filter {
    if Truthy(field) then f[key := cond] else f
  }

  /** `filtros` of `obtenerLibros`, built key by key from the query. */
  function BuildFilter(q: Query): (f: Filter)
    // disabled books are always excluded
    ensures "inhabilitado" in f && f["inhabilitado"] == Equals(false)
    ensures f.Keys <= {"inhabilitado", "titulo", "autor", "genero", "fechaPublicacion", "editorial", "disponibilidad"}
    // every other key is there exactly when its parameter is truthy
    ensures "titulo" in f <==> Truthy(q.titulo)
    ensures "autor" in f <==> Truthy(q.autor)
    ensures "genero" in f <==> Truthy(q.genero)
    ensures "fechaPublicacion" in f <==> Truthy(q.fechaPublicacion)
    ensures "editorial" in f <==> Truthy(q.editorial)
    ensures "disponibilidad" in f <==> Truthy(q.disponibilidad)
    // and carries that parameter
    ensures "titulo" in f ==> f["titulo"] == Matches(q.titulo.value)
    ensures "autor" in f ==> f["autor"] == Matches(q.autor.value)
    ensures "genero" in f ==> f["genero"] == Matches(q.genero.value)
    ensures "fechaPublicacion" in f ==> f["fechaPublicacion"] == SameAs(q.fechaPublicacion.value)
    ensures "editorial" in f ==> f["editorial"] == Matches(q.editorial.value)
    // the availability criterion is true exactly for the text "true"
    ensures "disponibilidad" in f ==> f["disponibilidad"] == Equals(q.disponibilidad.value == "true")
  {
    var f0: Filter := map["inhabilitado" := Equals(false)];
    var f1 := AddIf(f0, "titulo", q.titulo, Matches(if Truthy(q.titulo) then q.titulo.value else ""));
    var f2 := AddIf(f1, "autor", q.autor, Matches(if Truthy(q.autor) then q.autor.value else ""));
    var f3 := AddIf(f2, "genero", q.genero, Matches(if Truthy(q.genero) then q.genero.value else ""));
    var f4 := AddIf(f3, "fechaPublicacion", q.fechaPublicacion,
                    SameAs(if Truthy(q.fechaPublicacion) then q.fechaPublicacion.value else ""));
    var f5 := AddIf(f4, "editorial", q.editorial, Matches(if Truthy(q.editorial) then q.editorial.value else ""));
    AddIf(f5, "disponibilidad", q.disponibilidad,
          Equals(Truthy(q.disponibilidad) && q.disponibilidad.value == "true"))
  }

  /** The filter of the disabled-books listing. */
  const DisabledFilter: Filter := map["inhabilitado" := Equals(true)]

  /** Whether a book passes the `inhabilitado` criterion of a filter (the one
      criterion whose meaning is exact; the pattern criteria are left to the
      database). */
  predicate FlagSelects(f: Filter, b: BookRecord) {
    "inhabilitado" in f ==> f["inhabilitado"] == Equals(b.inhabilitado)
  }

  /** The default listing never shows a disabled book and the disabled
      listing never shows an enabled one: they are disjoint. */
  lemma ListingsDisjoint(q: Query, b: BookRecord)
    ensures FlagSelects(BuildFilter(q), b) <==> !b.inhabilitado
    ensures FlagSelects(DisabledFilter, b) <==> b.inhabilitado
  {
  }

  /** The route guard of the reservation history. */
  function HistoryGuard(permisos: seq<string>): (r: Result<()>)
    ensures r.Ok? <==> Has(permisos, ViewHistory)
    ensures r.Fail? ==> r == Fail(Forbidden403, CannotViewHistory)
  {
    if Has(permisos, ViewHistory) then Ok(Ok200, ()) else Fail(Forbidden403, CannotViewHistory)
  }

  /** No role of the role table grants the history permission, so a caller
      whose permissions come from a role is always refused. */
  lemma NoRoleSeesHistory(rol: string)
    requires rol in Usuarios.Roles
    ensures HistoryGuard(Usuarios.Roles[rol]) == Fail(Forbidden403, CannotViewHistory)
  {
  }

  /** One line of the per-user reservation listing. */
  datatype Dates = Dates(fechaReserva: int, fechaEntrega: int)
  datatype Entry = Entry(libroId: BookId, titulo: string, autor: string, reserva: Dates)

  function EntryFor(b: BookRecord, r: Reservation): Entry {
    Entry(b.id, b.titulo, b.autor, Dates(r.fechaReserva, r.fechaEntrega))
  }

  /** The lines for the reservations `rs` of book `b` that `uid` made, in order. */
  function EntriesOf(b: BookRecord, rs: seq<Reservation>, uid: UserId): seq<Entry>
    decreases |rs|
  {
    if rs == [] then []
    else
      var last := rs[|rs| - 1];
      EntriesOf(b, rs[..|rs| - 1], uid) + (if last.usuarioId == uid then [EntryFor(b, last)] else [])
  }

  /** The lines for all books, book by book. */
  function Projection(bs: seq<BookRecord>, uid: UserId): seq<Entry>
    decreases |bs|
  {
    if bs == [] then []
    else
      var last := bs[|bs| - 1];
      Projection(bs[..|bs| - 1], uid) + EntriesOf(last, last.reservas, uid)
  }

  /** The lines of a list of reservations are those of its parts, in order. */
  lemma {:induction false} EntriesOfAppend(b: BookRecord, rs1: seq<Reservation>, rs2: seq<Reservation>, uid: UserId)
    ensures EntriesOf(b, rs1 + rs2, uid) == EntriesOf(b, rs1, uid) + EntriesOf(b, rs2, uid)
    decreases |rs2|
  {
    if rs2 != [] {
      var rs2' := rs2[..|rs2| - 1];
      assert (rs1 + rs2)[..|rs1 + rs2| - 1] == rs1 + rs2';
      EntriesOfAppend(b, rs1, rs2', uid);
    } else {
      assert rs1 + rs2 == rs1;
    }
  }

  /** Book order is kept: the lines for two runs of books are the lines for
      the first run followed by those for the second. */
  lemma {:induction false} ProjectionAppend(bs1: seq<BookRecord>, bs2: seq<BookRecord>, uid: UserId)
    ensures Projection(bs1 + bs2, uid) == Projection(bs1, uid) + Projection(bs2, uid)
    decreases |bs2|
  {
    if bs2 != [] {
      var bs2' := bs2[..|bs2| - 1];
      assert (bs1 + bs2)[..|bs1 + bs2| - 1] == bs1 + bs2';
      ProjectionAppend(bs1, bs2', uid);
    } else {
      assert bs1 + bs2 == bs1;
    }
  }

  /** Every line comes from a reservation that `uid` made on one of the books. */
  lemma {:induction false} ProjectionSound(bs: seq<BookRecord>, uid: UserId, e: Entry)
    requires e in Projection(bs, uid)
    ensures exists i, j :: 0 <= i < |bs| && 0 <= j < |bs[i].reservas|
                           && bs[i].reservas[j].usuarioId == uid && e == EntryFor(bs[i], bs[i].reservas[j])
    decreases |bs|
  {
    var n := |bs| - 1;
    if e in Projection(bs[..n], uid) {
      ProjectionSound(bs[..n], uid, e);
      var i, j :| 0 <= i < n && 0 <= j < |bs[..n][i].reservas|
                  && bs[..n][i].reservas[j].usuarioId == uid && e == EntryFor(bs[..n][i], bs[..n][i].reservas[j]);
      assert bs[..n][i] == bs[i];
    } else {
      var j := EntryOfSound(bs[n], bs[n].reservas, uid, e);
      assert bs[n].reservas[j].usuarioId == uid && e == EntryFor(bs[n], bs[n].reservas[j]);
    }
  }

  lemma {:induction false} EntryOfSound(b: BookRecord, rs: seq<Reservation>, uid: UserId, e: Entry) returns (j: nat)
    requires e in EntriesOf(b, rs, uid)
    ensures j < |rs| && rs[j].usuarioId == uid && e == EntryFor(b, rs[j])
    decreases |rs|
  {
    var n := |rs| - 1;
    if e in EntriesOf(b, rs[..n], uid) {
      j := EntryOfSound(b, rs[..n], uid, e);
    } else {
      j := n;
    }
  }

  /** Every reservation that `uid` made on one of the books has its line. */
  lemma {:induction false} ProjectionComplete(bs: seq<BookRecord>, uid: UserId, i: nat, j: nat)
    requires i < |bs| && j < |bs[i].reservas| && bs[i].reservas[j].usuarioId == uid
    ensures EntryFor(bs[i], bs[i].reservas[j]) in Projection(bs, uid)
    decreases |bs|
  {
    var n := |bs| - 1;
    if i < n {
      ProjectionComplete(bs[..n], uid, i, j);
    } else {
      EntryOfComplete(bs[n], bs[n].reservas, uid, j);
    }
  }

  lemma {:induction false} EntryOfComplete(b: BookRecord, rs: seq<Reservation>, uid: UserId, j: nat)
    requires j < |rs| && rs[j].usuarioId == uid
    ensures EntryFor(b, rs[j]) in EntriesOf(b, rs, uid)
    decreases |rs|
  {
    var n := |rs| - 1;
    if j < n {
      EntryOfComplete(b, rs[..n], uid, j);
    }
  }

  /** The stored contents of a list of books. */
  function Records(libros: seq<Book>): (rs: seq<BookRecord>)
    reads libros
    ensures |rs| == |libros|
    ensures forall i :: 0 <= i < |libros| ==> rs[i] == libros[i].Record()
  {
    seq(|libros|, i reads libros requires 0 <= i < |libros| => libros[i].Record())
  }

  /** Whose reservations a caller may list: anyone's with `modificar_usuarios`,
      otherwise only their own. */
  predicate MaySeeReservationsOf(caller: Caller, idUsuario: UserId) {
    Has(caller.permisos, ModifyUsers) || Usuarios.IsSelf(caller.id, idUsuario)
  }

  /** `obtenerReservasPorUsuario`: after the admin-or-owner check, one line per
      reservation by `idUsuario`, in book order and then reservation order.
      `libros` are the books the query `{'reservas.usuarioId': idUsuario}`
      returned; books without such a reservation would add no line. */
  method ReservationsOfUser(caller: Caller, idUsuario: UserId, libros: seq<Book>) returns (r: Result<seq<Entry>>)
    ensures !MaySeeReservationsOf(caller, idUsuario) ==> r == Fail(Forbidden403, CannotViewReservations)
    ensures MaySeeReservationsOf(caller, idUsuario) ==> r == Ok(Ok200, Projection(Records(libros), idUsuario))
  {
    if !MaySeeReservationsOf(caller, idUsuario) {
      return Fail(Forbidden403, CannotViewReservations);
    }
    ghost var all := Records(libros);
    var lineas: seq<Entry> := [];
    var i := 0;
    while i < |libros|
      invariant 0 <= i <= |libros|
      invariant lineas == Projection(all[..i], idUsuario)
    {
      var libro := libros[i];
      var j := 0;
      while j < |libro.reservas|
        invariant 0 <= j <= |libro.reservas|
        invariant lineas == Projection(all[..i], idUsuario) + EntriesOf(all[i], libro.reservas[..j], idUsuario)
      {
        var reserva := libro.reservas[j];
        if reserva.usuarioId == idUsuario {
          lineas := lineas + [Entry(libro.id, libro.titulo, libro.autor, Dates(reserva.fechaReserva, reserva.fechaEntrega))];
        }
        assert libro.reservas[..j + 1][..j] == libro.reservas[..j];
        j := j + 1;
      }
      assert libro.reservas[..j] == all[i].reservas;
      assert all[..i + 1][..i] == all[..i];
      i := i + 1;
    }
    assert all[..i] == all;
    r := Ok(Ok200, lineas);
  }

  /** The books collection. */
  class Catalog {
    var books: map<BookId, Book>

    /** Every stored book sits under its own id and is consistent. */
    ghost predicate Valid()
      reads this, books.Values
    {
      forall k :: k in books ==> books[k].id == k && books[k].Valid()
    }

    constructor ()
      ensures books == map[] && Valid()
    {
      books := map[];
    }

    /** `crearLibro`. `newId` is the fresh id the database gives the document. */
    method CreateBook(caller: Caller, input: BookInput, newId: BookId) returns (r: Result<BookRecord>)
      requires Valid()
      requires newId !in books
      modifies this
      ensures Valid()
      ensures var c := CheckCreate(caller.permisos, input);
              if c.Fail? then r == Fail(c.status, c.reason) && books == old(books)
              else && newId in books && fresh(books[newId])
                   && books == old(books)[newId := books[newId]]
                   && r == Ok(Created201, NewRecord(newId, c.value))
                   && books[newId].Record() == r.value
    {
      var c := CheckCreate(caller.permisos, input);
      if c.Fail? {
        return Fail(c.status, c.reason);
      }
      var libro := new Book(newId, c.value);
      books := books[newId := libro];
      r := Ok(Created201, libro.Record());
    }

    /** `obtenerLibroPorId`: a disabled book is as good as absent. */
    function GetBook(id: BookId): (r: Result<BookRecord>)
      reads this, books.Values
      ensures r.Ok? <==> id in books && !books[id].inhabilitado
      ensures r.Ok? ==> r == Ok(Ok200, books[id].Record())
      ensures r.Fail? ==> r == Fail(NotFound404, BookNotFoundOrDisabled)
    {
      if id in books && !books[id].inhabilitado then Ok(Ok200, books[id].Record())
      else Fail(NotFound404, BookNotFoundOrDisabled)
    }

    /** `actualizarLibro`: permission, then lookup, then truthy-only update. */
    method UpdateBook(caller: Caller, id: BookId, p: BookInput) returns (r: Result<BookRecord>)
      requires Valid()
      modifies if id in books then {books[id]} else {}
      ensures Valid()
      ensures !Has(caller.permisos, ModifyBooks) ==> r == Fail(Forbidden403, CannotModifyBooks)
      ensures Has(caller.permisos, ModifyBooks) && id !in books ==> r == Fail(NotFound404, BookNotFound)
      ensures id in books ==>
                books[id].Record() == if Has(caller.permisos, ModifyBooks)
                                      then Patched(old(books[id].Record()), p)
                                      else old(books[id].Record())
      ensures r.Ok? <==> Has(caller.permisos, ModifyBooks) && id in books
      ensures r.Ok? ==> id in books && r == Ok(Ok200, books[id].Record())
    {
      if !Has(caller.permisos, ModifyBooks) {
        return Fail(Forbidden403, CannotModifyBooks);
      }
      if id !in books {
        return Fail(NotFound404, BookNotFound);
      }
      var libro := books[id];
      libro.Update(p);
      r := Ok(Ok200, libro.Record());
    }

    /** `inhabilitarLibro`: permission (`modificar_libros`), then lookup, then
        the flag. */
    method DisableBook(caller: Caller, id: BookId) returns (r: Result<BookRecord>)
      requires Valid()
      modifies if id in books then {books[id]} else {}
      ensures Valid()
      ensures !Has(caller.permisos, ModifyBooks) ==> r == Fail(Forbidden403, CannotDisableBooks)
      ensures Has(caller.permisos, ModifyBooks) && id !in books ==> r == Fail(NotFound404, BookNotFound)
      ensures id in books ==>
                books[id].Record() == if Has(caller.permisos, ModifyBooks)
                                      then Disabled(old(books[id].Record()))
                                      else old(books[id].Record())
      ensures r.Ok? <==> Has(caller.permisos, ModifyBooks) && id in books
      ensures r.Ok? ==> id in books && r == Ok(Ok200, books[id].Record())
    {
      if !Has(caller.permisos, ModifyBooks) {
        return Fail(Forbidden403, CannotDisableBooks);
      }
      if id !in books {
        return Fail(NotFound404, BookNotFound);
      }
      var libro := books[id];
      libro.Disable();
      r := Ok(Ok200, libro.Record());
    }

    /** `agregarReserva`: lookup by id (disabled books included), then the
        reservation step. */
    method ReserveBook(caller: Caller, id: BookId, start: int, end: int, now: int) returns (r: Result<Reservation>)
      requires Valid()
      modifies if id in books then {books[id]} else {}
      ensures Valid()
      ensures id !in books ==> r == Fail(NotFound404, BookNotFound)
      ensures id in books ==>
                && r == ReserveStep(old(books[id].Record()), caller, start, end, now).reply
                && books[id].Record() == ReserveStep(old(books[id].Record()), caller, start, end, now).after
    {
      if id !in books {
        return Fail(NotFound404, BookNotFound);
      }
      r := books[id].Reserve(caller, start, end, now);
    }

    /** `cancelarReserva`: lookup by id, then the cancellation step. */
    method CancelReservation(caller: Caller, id: BookId) returns (r: Result<BookRecord>)
      requires Valid()
      modifies if id in books then {books[id]} else {}
      ensures Valid()
      ensures id !in books ==> r == Fail(NotFound404, BookNotFound)
      ensures id in books ==>
                && r == CancelStep(old(books[id].Record()), caller.id).reply
                && books[id].Record() == CancelStep(old(books[id].Record()), caller.id).after
    {
      if id !in books {
        return Fail(NotFound404, BookNotFound);
      }
      r := books[id].Cancel(caller.id);
    }

    /** `obtenerReservas`: the book's reservation list as stored. */
    function BookReservations(id: BookId): (r: Result<seq<Reservation>>)
      reads this, books.Values
      ensures id !in books ==> r == Fail(NotFound404, BookNotFound)
      ensures id in books ==> r == Ok(Ok200, books[id].reservas)
    {
      if id !in books then Fail(NotFound404, BookNotFound) else Ok(Ok200, books[id].reservas)
    }

    /** The reservation-history route: the `ver_historial` guard, then
        `obtenerReservas`. */
    function ReservationHistory(caller: Caller, id: BookId): (r: Result<seq<Reservation>>)
      reads this, books.Values
      ensures !Has(caller.permisos, ViewHistory) ==> r == Fail(Forbidden403, CannotViewHistory)
      ensures Has(caller.permisos, ViewHistory) ==> r == BookReservations(id)
    {
      match HistoryGuard(caller.permisos)
      case Fail(s, why) => Fail(s, why)
      case Ok(_, _) => BookReservations(id)
    }
  }
}
