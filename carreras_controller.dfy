/** The handlers of src/controllers/carrerasController.js. */
module CarrerasController {
  import opened Tables
  import opened Models
  import opened Associations
  import opened Ordering
  import opened Requests
  import opened Store
  import Writes

  /** The listing order: `nombre`, ascending. */
  function CarreraKey(c: Carrera): SortKey
  {
    [c.nombre]
  }

  /** getCarreras: every career once, sorted by name. */
  method GetCarreras(s: Database) returns (out: seq<(int, Carrera)>)
    requires s.Valid()
    ensures Sorted(out, CarreraKey)
    ensures forall x :: x in out ==> x.0 in s.carreras.rows && s.carreras.rows[x.0] == x.1
    ensures forall k :: k in s.carreras.rows ==> multiset(out)[(k, s.carreras.rows[k])] == 1
  {
    out := OrderBy(s.carreras, CarreraKey);
  }

  /** getCarreraById: the career, or 404 when there is none. */
  function GetCarreraById(s: Database, id: int): (r: Reply<Carrera>)
    reads s
    ensures r.Ok? <==> id in s.carreras.rows
    ensures r.Ok? ==> r.row == s.carreras.rows[id]
    ensures !r.Ok? ==> r == Failed(404, "CARRERA_NOT_FOUND")
  {
    FindByPk(s.carreras, id, "CARRERA_NOT_FOUND")
  }

  /** createCarrera: the school must exist (400); a second career with the
      same name in the same school is refused by the unique index (409);
      otherwise the career is added (201). */
  method CreateCarrera(s: Database, body: Carrera) returns (r: Reply<Carrera>)
    requires s.Valid()
    modifies s`carreras
    ensures s.Valid()
    ensures r == Failed(400, "ESCUELA_NOT_FOUND") <==> !RefersTo(body.id_escuela, s.escuelas.rows.Keys)
    ensures r == Failed(409, "DUPLICATE_CARRERA") <==>
      RefersTo(body.id_escuela, s.escuelas.rows.Keys)
      && !CarrerasOk(old(s.carreras.rows)[old(s.carreras.next) := body])
    ensures r.Ok? <==>
      RefersTo(body.id_escuela, s.escuelas.rows.Keys)
      && CarrerasOk(old(s.carreras.rows)[old(s.carreras.next) := body])
    ensures r.Failed? || r.Ok?
    ensures r.Failed? ==> s.carreras == old(s.carreras)
    ensures r.Ok? ==> r == Ok(201, old(s.carreras.next), body) && s.carreras == old(s.carreras).Insert(body)
  {
    if !RefersTo(body.id_escuela, s.escuelas.rows.Keys) {
      return Failed(400, "ESCUELA_NOT_FOUND");
    }
    var id := s.carreras.next;
    if !CarreraAccepted(s.carreras.rows, id, body) {
      return Failed(409, "DUPLICATE_CARRERA");
    }
    ghost var before := s.Snapshot();
    Writes.RefsPut(s.carreras.rows, CarreraToEscuela, s.escuelas.rows, id, body);
    s.carreras := s.carreras.Insert(body);
    Writes.CarrerasWritten(before, s.carreras);
    r := Ok(201, id, body);
  }

  /** The row updateCarrera writes: an omitted or falsy field keeps its value. */
  function MergeCarrera(current: Carrera, body: Carrera): Carrera
  {
    Carrera(Or(body.nombre, current.nombre), OrId(body.id_escuela, current.id_escuela))
  }

  /** A school given in an update body that does not exist. */
  predicate EscuelaMissing(s: Database, body: Carrera)
    reads s
  {
    TruthyId(body.id_escuela) && body.id_escuela.value !in s.escuelas.rows
  }

  /** updateCarrera: 404 for an unknown id; a given school must exist (400);
      a merged row that duplicates another career answers 409; otherwise
      the merged row is written. */
  method UpdateCarrera(s: Database, id: int, body: Carrera) returns (r: Reply<Carrera>)
    requires s.Valid()
    modifies s`carreras
    ensures s.Valid()
    ensures r == Failed(404, "CARRERA_NOT_FOUND") <==> id !in old(s.carreras.rows)
    ensures r == Failed(400, "ESCUELA_NOT_FOUND") <==> id in old(s.carreras.rows) && EscuelaMissing(s, body)
    ensures r == Failed(409, "DUPLICATE_CARRERA") <==>
      id in old(s.carreras.rows) && !EscuelaMissing(s, body)
      && !CarrerasOk(old(s.carreras.rows)[id := MergeCarrera(old(s.carreras.rows[id]), body)])
    ensures r.Ok? <==>
      id in old(s.carreras.rows) && !EscuelaMissing(s, body)
      && CarrerasOk(old(s.carreras.rows)[id := MergeCarrera(old(s.carreras.rows[id]), body)])
    ensures r.Failed? || r.Ok?
    ensures r.Failed? ==> s.carreras == old(s.carreras)
    ensures r.Ok? ==> r == Ok(200, id, MergeCarrera(old(s.carreras.rows[id]), body))
                      && s.carreras == old(s.carreras).Put(id, r.row)
  {
    if id !in s.carreras.rows {
      return Failed(404, "CARRERA_NOT_FOUND");
    }
    if EscuelaMissing(s, body) {
      return Failed(400, "ESCUELA_NOT_FOUND");
    }
    var row := MergeCarrera(s.carreras.rows[id], body);
    if !CarreraAccepted(s.carreras.rows, id, row) {
      return Failed(409, "DUPLICATE_CARRERA");
    }
    ghost var before := s.Snapshot();
    Writes.RefsPut(s.carreras.rows, CarreraToEscuela, s.escuelas.rows, id, row);
    s.carreras := s.carreras.Put(id, row);
    Writes.CarrerasWritten(before, s.carreras);
    r := Ok(200, id, row);
  }

  /** deleteCarrera: 404 for an unknown id; otherwise the career goes, with
      its coordinators, and the profiles that named it lose their career
      (204). No reference can block the delete, so the 400 branch of the
      handler is never taken. */
  method DeleteCarrera(s: Database, id: int) returns (r: Reply<Carrera>)
    requires s.Valid()
    modifies s`carreras, s`coordinadores, s`perfiles
    ensures s.Valid()
    ensures id in old(s.carreras.rows) ==> r == NoContent && s.Snapshot() == RemoveCarreras(old(s.Snapshot()), {id})
    ensures id !in old(s.carreras.rows) ==> r == Failed(404, "CARRERA_NOT_FOUND") && s.Snapshot() == old(s.Snapshot())
  {
    if id !in s.carreras.rows {
      return Failed(404, "CARRERA_NOT_FOUND");
    }
    s.DestroyCarreras({id});
    r := NoContent;
  }
}
