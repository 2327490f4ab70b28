/** The book document and its embedded reservations (models/Libro.js).

    A book is an object whose handlers change it in place: reserving pushes a
    reservation and clears `disponible`, cancelling splices one out and sets
    `disponible` again once the list is empty, updating and disabling
    overwrite fields. Each of those is a method of `Book`; what it does is
    stated by a step function on the value `BookRecord`, and the invariant
    `disponible == (|reservas| == 0)` is proved about any sequence of steps. */
module Libro {
  import opened Http
  import opened Usuario
  import opened Auth

  type BookId = string

  /** An embedded reservation: who reserved (id and name snapshot) and the
      start and return dates, as timestamps. */
  datatype Reservation = Reservation(usuarioId: UserId, nombreUsuario: string, fechaReserva: int, fechaEntrega: int)

  /** A book document as a value. `fechaPublicacion` is kept as the text the
      request carried. */
  datatype BookRecord = BookRecord(
    id: BookId,
    titulo: string,
    autor: string,
    genero: string,
    fechaPublicacion: string,
    editorial: string,
    disponible: bool,
    inhabilitado: bool,
    reservas: seq<Reservation>)

  /** The five required fields of a new book. */
  datatype BookFields = BookFields(titulo: string, autor: string, genero: string, fechaPublicacion: string, editorial: string)

  /** The five fields as a request body carries them: each may be absent. */
  datatype BookInput = BookInput(
    titulo: Option<string>,
    autor: Option<string>,
    genero: Option<string>,
    fechaPublicacion: Option<string>,
    editorial: Option<string>)

  /** A book is available exactly when it holds no reservation. */
  predicate Consistent(b: BookRecord) {
    b.disponible == (|b.reservas| == 0)
  }

  /** `new Libro({...})`: the given fields plus the schema defaults
      `disponible: true`, `inhabilitado: false`, `reservas: []`. */
  function NewRecord(id: BookId, f: BookFields): (b: BookRecord)
    ensures Consistent(b)
    ensures b.disponible && !b.inhabilitado && b.reservas == []
    ensures b.id == id && b.titulo == f.titulo && b.autor == f.autor && b.genero == f.genero
    ensures b.fechaPublicacion == f.fechaPublicacion && b.editorial == f.editorial
  {
    BookRecord(id, f.titulo, f.autor, f.genero, f.fechaPublicacion, f.editorial, true, false, [])
  }

  /** What a step answers and what the book is afterwards. */
  datatype Step<+T> = Step(reply: Result<T>, after: BookRecord)

  /** Reserving an existing book (`agregarReserva` after the lookup): not
      available, start in the past, and return not after start are refused in
      that order; otherwise one reservation for the caller is appended. The
      book's `inhabilitado` flag is not consulted. */
  function ReserveStep(b: BookRecord, caller: Caller, start: int, end: int, now: int): (s: Step<Reservation>)
    // a refusal leaves the book as it was
    ensures s.reply.Fail? ==> s.after == b && s.reply.status == BadRequest400
    ensures !b.disponible ==> s.reply == Fail(BadRequest400, BookNotAvailable)
    ensures b.disponible && start < now ==> s.reply == Fail(BadRequest400, StartInPast)
    ensures b.disponible && now <= start && end <= start ==> s.reply == Fail(BadRequest400, EndNotAfterStart)
    // success exactly for an available book, a start not before now and a later return
    ensures s.reply.Ok? <==> b.disponible && now <= start < end
    // on success one reservation {caller, start, end} is appended at the end,
    // the book becomes unavailable, and no other field changes
    ensures s.reply.Ok? ==>
              && s.reply.status == Created201
              && s.reply.value == Reservation(caller.id, caller.nombre, start, end)
              && s.after.reservas == b.reservas + [s.reply.value]
              && !s.after.disponible
              && s.after.(reservas := b.reservas, disponible := b.disponible) == b
    ensures Consistent(b) ==> Consistent(s.after)
  {
    if !b.disponible then Step(Fail(BadRequest400, BookNotAvailable), b)
    else if start < now then Step(Fail(BadRequest400, StartInPast), b)
    else if end <= start then Step(Fail(BadRequest400, EndNotAfterStart), b)
    else
      var nueva := Reservation(caller.id, caller.nombre, start, end);
      Step(Ok(Created201, nueva), b.(reservas := b.reservas + [nueva], disponible := false))
  }

  /** `reservas.findIndex(r => r.usuarioId == uid)`: the first position
      holding a reservation by `uid`, or -1. */
  function FirstMatch(rs: seq<Reservation>, uid: UserId): (i: int)
    ensures -1 <= i < |rs|
    ensures 0 <= i ==> rs[i].usuarioId == uid
    ensures forall j :: 0 <= j < |rs| && (i < 0 || j < i) ==> rs[j].usuarioId != uid
    ensures 0 <= i <==> exists j :: 0 <= j < |rs| && rs[j].usuarioId == uid
  {
    if rs == [] then -1
    else if rs[0].usuarioId == uid then 0
    else
      var k := FirstMatch(rs[1..], uid);
      if k < 0 then -1 else k + 1
  }

  /** `rs.splice(i, 1)`: everything but position `i`, in order. */
  function RemoveAt(rs: seq<Reservation>, i: nat): (r: seq<Reservation>)
    requires i < |rs|
    ensures |r| == |rs| - 1
    ensures forall j :: 0 <= j < i ==> r[j] == rs[j]
    ensures forall j :: i <= j < |r| ==> r[j] == rs[j + 1]
    ensures multiset(r) + multiset{rs[i]} == multiset(rs)
  {
    assert rs == rs[..i] + [rs[i]] + rs[i + 1..];
    rs[..i] + rs[i + 1..]
  }

  /** The book once the reservation at position `i` is spliced out: the
      flag is set when no reservation is left and otherwise left alone. */
  function Withdrawn(b: BookRecord, i: nat): (a: BookRecord)
    requires i < |b.reservas|
    ensures a.reservas == RemoveAt(b.reservas, i)
    ensures a.disponible == (b.disponible || |a.reservas| == 0)
    ensures a.(reservas := b.reservas, disponible := b.disponible) == b
    ensures Consistent(b) ==> Consistent(a)
  {
    var rest := RemoveAt(b.reservas, i);
    b.(reservas := rest, disponible := if |rest| == 0 then true else b.disponible)
  }

  /** Cancelling the caller's reservation on an existing book
      (`cancelarReserva` after the lookup). */
  function CancelStep(b: BookRecord, uid: UserId): (s: Step<BookRecord>)
    // the call succeeds exactly when the book holds a reservation by the caller
    ensures s.reply.Ok? <==> exists j :: 0 <= j < |b.reservas| && b.reservas[j].usuarioId == uid
    // otherwise 404 and the book as it was
    ensures s.reply.Fail? ==> s == Step(Fail(NotFound404, ReservationNotFound), b)
    // otherwise the first reservation by the caller is removed, the others
    // keep their order, and the answer is the book as saved
    ensures s.reply.Ok? ==>
              var i := FirstMatch(b.reservas, uid);
              && 0 <= i
              && s.after.reservas == RemoveAt(b.reservas, i)
              && s.reply == Ok(Ok200, s.after)
    // the flag is set when the list becomes empty and otherwise left alone
    ensures s.after.disponible == (b.disponible || (s.reply.Ok? && |s.after.reservas| == 0))
    ensures s.after.(reservas := b.reservas, disponible := b.disponible) == b
    ensures Consistent(b) ==> Consistent(s.after)
  {
    var i := FirstMatch(b.reservas, uid);
    if i < 0 then Step(Fail(NotFound404, ReservationNotFound), b)
    else
      var after := Withdrawn(b, i);
      Step(Ok(Ok200, after), after)
  }

  /** The value a truthy request field overwrites, or the old one. */
  function Overwrite(field: Option<string>, current: string): string {
    if Truthy(field) then field.value else current
  }

  /** Truthy-only partial update of the five descriptive fields
      (`actualizarLibro` after the permission check and the lookup). */
  function Patched(b: BookRecord, p: BookInput): (a: BookRecord)
    ensures a.titulo == (if Truthy(p.titulo) then p.titulo.value else b.titulo)
    ensures a.autor == (if Truthy(p.autor) then p.autor.value else b.autor)
    ensures a.genero == (if Truthy(p.genero) then p.genero.value else b.genero)
    ensures a.fechaPublicacion == (if Truthy(p.fechaPublicacion) then p.fechaPublicacion.value else b.fechaPublicacion)
    ensures a.editorial == (if Truthy(p.editorial) then p.editorial.value else b.editorial)
    // the flags, the reservations and the id are never touched
    ensures a.id == b.id && a.disponible == b.disponible && a.inhabilitado == b.inhabilitado
    ensures a.reservas == b.reservas
  {
    b.(titulo := Overwrite(p.titulo, b.titulo),
       autor := Overwrite(p.autor, b.autor),
       genero := Overwrite(p.genero, b.genero),
       fechaPublicacion := Overwrite(p.fechaPublicacion, b.fechaPublicacion),
       editorial := Overwrite(p.editorial, b.editorial))
  }

  /** Soft delete: only `inhabilitado` changes, and it becomes true. */
  function Disabled(b: BookRecord): (a: BookRecord)
    ensures a.inhabilitado
    ensures a.(inhabilitado := b.inhabilitado) == b
  {
    b.(inhabilitado := true)
  }

  /** Soft delete is idempotent. */
  lemma DisabledIdempotent(b: BookRecord)
    ensures Disabled(Disabled(b)) == Disabled(b)
  {
  }

  /** Every way a stored book can change. */
  datatype BookOp =
    | ReserveOp(caller: Caller, start: int, end: int, now: int)
    | CancelOp(uid: UserId)
    | PatchOp(patch: BookInput)
    | DisableOp

  function Apply(b: BookRecord, op: BookOp): (a: BookRecord)
    ensures Consistent(b) ==> Consistent(a)
    ensures a.id == b.id
  {
    match op
    case ReserveOp(caller, start, end, now) => ReserveStep(b, caller, start, end, now).after
    case CancelOp(uid) => CancelStep(b, uid).after
    case PatchOp(p) => Patched(b, p)
    case DisableOp => Disabled(b)
  }

  /** The book after a whole history of operations, oldest first. */
  function ApplyAll(b: BookRecord, ops: seq<BookOp>): BookRecord
    decreases |ops|
  {
    if ops == [] then b else ApplyAll(Apply(b, ops[0]), ops[1..])
  }

  /** Every book mutation keeps `disponible == (|reservas| == 0)`. */
  lemma {:induction false} HistoryKeepsConsistent(b: BookRecord, ops: seq<BookOp>)
    requires Consistent(b)
    ensures Consistent(ApplyAll(b, ops))
    decreases |ops|
  {
    if ops != [] {
      HistoryKeepsConsistent(Apply(b, ops[0]), ops[1..]);
    }
  }

  /** A created book is consistent, so every book ever stored is. */
  lemma {:induction false} CreatedBookStaysConsistent(id: BookId, f: BookFields, ops: seq<BookOp>)
    ensures Consistent(ApplyAll(NewRecord(id, f), ops))
  {
    HistoryKeepsConsistent(NewRecord(id, f), ops);
  }

  /** The history holds no cancellation. */
  predicate NoCancel(ops: seq<BookOp>) {
    forall k :: 0 <= k < |ops| ==> !ops[k].CancelOp?
  }

  /** Only a cancellation makes an unavailable book available again. */
  lemma {:induction false} StaysUnavailable(b: BookRecord, ops: seq<BookOp>)
    requires !b.disponible && NoCancel(ops)
    ensures !ApplyAll(b, ops).disponible
    decreases |ops|
  {
    if ops != [] {
      assert !ops[0].CancelOp?;
      assert NoCancel(ops[1..]) by {
        forall k | 0 <= k < |ops[1..]| ensures !ops[1..][k].CancelOp? {
          assert ops[1..][k] == ops[k + 1];
        }
      }
      StaysUnavailable(Apply(b, ops[0]), ops[1..]);
    }
  }

  /** While a reservation is held nobody else can reserve: after a successful
      reservation, and any later reservations, edits and soft deletes but no
      cancellation, every reservation attempt is refused as unavailable,
      whoever makes it and whatever the dates and the clock. */
  lemma ReservedBookRefuses(b: BookRecord, first: Caller, s1: int, e1: int, now1: int,
                            ops: seq<BookOp>, second: Caller, s2: int, e2: int, now2: int)
    requires ReserveStep(b, first, s1, e1, now1).reply.Ok?
    requires NoCancel(ops)
    ensures var a := ApplyAll(ReserveStep(b, first, s1, e1, now1).after, ops);
            ReserveStep(a, second, s2, e2, now2) == Step(Fail(BadRequest400, BookNotAvailable), a)
  {
    StaysUnavailable(ReserveStep(b, first, s1, e1, now1).after, ops);
  }

  /** A book document, changed in place by the reservation and edit handlers. */
  class Book {
    const id: BookId
    var titulo: string
    var autor: string
    var genero: string
    var fechaPublicacion: string
    var editorial: string
    var disponible: bool
    var inhabilitado: bool
    var reservas: seq<Reservation>

    /** The document's current contents. */
    function Record(): (r: BookRecord)
      reads this
      ensures r.id == id && r.disponible == disponible && r.inhabilitado == inhabilitado
      ensures r.reservas == reservas
    {
      BookRecord(id, titulo, autor, genero, fechaPublicacion, editorial, disponible, inhabilitado, reservas)
    }

    ghost predicate Valid()
      reads this
    {
      Consistent(Record())
    }

    /** `new Libro({ titulo, autor, genero, fechaPublicacion, editorial })`. */
    constructor (id: BookId, f: BookFields)
      ensures Record() == NewRecord(id, f)
      ensures Valid()
    {
      this.id := id;
      titulo, autor, genero := f.titulo, f.autor, f.genero;
      fechaPublicacion, editorial := f.fechaPublicacion, f.editorial;
      disponible, inhabilitado, reservas := true, false, [];
    }

    /** `agregarReserva` once the book is found. */
    method Reserve(caller: Caller, start: int, end: int, now: int) returns (r: Result<Reservation>)
      modifies this
      ensures r == ReserveStep(old(Record()), caller, start, end, now).reply
      ensures Record() == ReserveStep(old(Record()), caller, start, end, now).after
      ensures old(Valid()) ==> Valid()
    {
      if !disponible {
        return Fail(BadRequest400, BookNotAvailable);
      }
      if start < now {
        return Fail(BadRequest400, StartInPast);
      }
      if end <= start {
        return Fail(BadRequest400, EndNotAfterStart);
      }
      var nueva := Reservation(caller.id, caller.nombre, start, end);
      reservas := reservas + [nueva];
      disponible := false;
      r := Ok(Created201, nueva);
    }

    /** `cancelarReserva` once the book is found. */
    method Cancel(uid: UserId) returns (r: Result<BookRecord>)
      modifies this
      ensures r == CancelStep(old(Record()), uid).reply
      ensures Record() == CancelStep(old(Record()), uid).after
      ensures old(Valid()) ==> Valid()
    {
      var i := FirstMatch(reservas, uid);
      if i == -1 {
        return Fail(NotFound404, ReservationNotFound);
      }
      reservas := RemoveAt(reservas, i);
      if |reservas| == 0 {
        disponible := true;
      }
      r := Ok(Ok200, Record());
    }

    /** The field assignments of `actualizarLibro`. */
    method Update(p: BookInput)
      modifies this
      ensures Record() == Patched(old(Record()), p)
      ensures old(Valid()) ==> Valid()
    {
      if Truthy(p.titulo) { titulo := p.titulo.value; }
      if Truthy(p.autor) { autor := p.autor.value; }
      if Truthy(p.genero) { genero := p.genero.value; }
      if Truthy(p.fechaPublicacion) { fechaPublicacion := p.fechaPublicacion.value; }
      if Truthy(p.editorial) { editorial := p.editorial.value; }
    }

    /** `inhabilitado = true`. */
    method Disable()
      modifies this
      ensures Record() == Disabled(old(Record()))
      ensures old(Valid()) ==> Valid()
    {
      inhabilitado := true;
    }
  }

  /** The scenario of a reservation cycle: reserve, a second reservation is
      refused, cancel, and the second reservation then succeeds. */
  method ReservationCycle(f: BookFields, u1: Caller, u2: Caller, now: int)
    returns (first: Result<Reservation>, refused: Result<Reservation>,
             cancelled: Result<BookRecord>, second: Result<Reservation>)
    requires u1.id != u2.id
    ensures first == Ok(Created201, Reservation(u1.id, u1.nombre, now + 1, now + 2))
    ensures refused == Fail(BadRequest400, BookNotAvailable)
    ensures cancelled.Ok? && cancelled.value.disponible && cancelled.value.reservas == []
    ensures second == Ok(Created201, Reservation(u2.id, u2.nombre, now + 1, now + 2))
  {
    var b := new Book("B1", f);
    first := b.Reserve(u1, now + 1, now + 2, now);
    refused := b.Reserve(u2, now + 1, now + 2, now);
    cancelled := b.Cancel(u1.id);
    second := b.Reserve(u2, now + 1, now + 2, now);
  }
}
