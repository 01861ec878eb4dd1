/** The handlers of src/controllers/coordinadorCarreraController.js. */
module CoordinadorCarreraController {
  import opened Tables
  import opened Models
  import opened Associations
  import opened Ordering
  import opened Requests
  import opened Store
  import Writes

  /** The listing order: `apellidos`, then `nombres`, ascending. */
  function CoordinadorKey(c: Coordinador): SortKey
  {
    [c.apellidos, c.nombres]
  }

  /** getCoordinadores: every coordinator once, sorted by surname, then name. */
  method GetCoordinadores(s: Database) returns (out: seq<(int, Coordinador)>)
    requires s.Valid()
    ensures Sorted(out, CoordinadorKey)
    ensures forall x :: x in out ==> x.0 in s.coordinadores.rows && s.coordinadores.rows[x.0] == x.1
    ensures forall k :: k in s.coordinadores.rows ==> multiset(out)[(k, s.coordinadores.rows[k])] == 1
  {
    out := OrderBy(s.coordinadores, CoordinadorKey);
  }

  /** getCoordinadorById: the coordinator, or 404 when there is none. */
  function GetCoordinadorById(s: Database, id: int): (r: Reply<Coordinador>)
    reads s
    ensures r.Ok? <==> id in s.coordinadores.rows
    ensures r.Ok? ==> r.row == s.coordinadores.rows[id]
    ensures !r.Ok? ==> r == Failed(404, "COORDINADOR_NOT_FOUND")
  {
    FindByPk(s.coordinadores, id, "COORDINADOR_NOT_FOUND")
  }

  /** createCoordinador: the career must exist (400), then the institutional
      email must be free (409); a lookup by an omitted email fails, and so
      does a value longer than its column (500). Otherwise exactly one row,
      the five given fields, is added. */
  method CreateCoordinador(s: Database, body: Coordinador) returns (r: Reply<Coordinador>)
    requires s.Valid()
    modifies s`coordinadores
    ensures s.Valid()
    ensures r == Failed(400, "CARRERA_NOT_FOUND") <==> !RefersTo(body.id_carrera, s.carreras.rows.Keys)
    ensures r == Failed(409, "DUPLICATE_EMAIL") <==>
      RefersTo(body.id_carrera, s.carreras.rows.Keys) && body.correo_institucional.Some?
      && CorreoTaken(old(s.coordinadores.rows), body.correo_institucional.value)
    ensures r == Failed(500, "CREATE_COORDINADOR_ERROR") <==>
      RefersTo(body.id_carrera, s.carreras.rows.Keys)
      && (body.correo_institucional.None?
          || (!CorreoTaken(old(s.coordinadores.rows), body.correo_institucional.value) && !CoordinadorOk(body)))
    ensures r.Ok? <==>
      RefersTo(body.id_carrera, s.carreras.rows.Keys) && body.correo_institucional.Some?
      && !CorreoTaken(old(s.coordinadores.rows), body.correo_institucional.value) && CoordinadorOk(body)
    ensures r.Failed? || r.Ok?
    ensures r.Failed? ==> s.coordinadores == old(s.coordinadores)
    ensures r.Ok? ==> r == Ok(201, old(s.coordinadores.next), body)
                      && s.coordinadores == old(s.coordinadores).Insert(body)
  {
    if !RefersTo(body.id_carrera, s.carreras.rows.Keys) {
      return Failed(400, "CARRERA_NOT_FOUND");
    }
    if body.correo_institucional.None? {
      return Failed(500, "CREATE_COORDINADOR_ERROR");
    }
    if CorreoTaken(s.coordinadores.rows, body.correo_institucional.value) {
      return Failed(409, "DUPLICATE_EMAIL");
    }
    if !CoordinadorOk(body) {
      return Failed(500, "CREATE_COORDINADOR_ERROR");
    }
    ghost var before := s.Snapshot();
    var id := s.coordinadores.next;
    CorreoCheckKeepsUnique(s.coordinadores.rows, id, body);
    Writes.RefsPut(s.coordinadores.rows, CoordinadorToCarrera, s.carreras.rows, id, body);
    s.coordinadores := s.coordinadores.Insert(body);
    Writes.CoordinadoresWritten(before, s.coordinadores);
    r := Ok(201, id, body);
  }

  /** The row updateCoordinador writes: each omitted or falsy field keeps its
      current value. */
  function MergeCoordinador(current: Coordinador, body: Coordinador): Coordinador
  {
    Coordinador(Or(body.nombres, current.nombres), Or(body.apellidos, current.apellidos),
                Or(body.correo_institucional, current.correo_institucional),
                Or(body.telefono, current.telefono), OrId(body.id_carrera, current.id_carrera))
  }

  /** A career given in an update body that does not exist. */
  predicate CarreraMissing(s: Database, body: Coordinador)
    reads s
  {
    TruthyId(body.id_carrera) && body.id_carrera.value !in s.carreras.rows
  }

  /** An email given in an update body that differs from the current one and
      that some coordinator holds. */
  predicate CorreoConflict(cs: map<int, Coordinador>, current: Coordinador, body: Coordinador)
  {
    Truthy(body.correo_institucional) && body.correo_institucional != current.correo_institucional
    && CorreoTaken(cs, body.correo_institucional.value)
  }

  /** updateCoordinador: 404 for an unknown id; a given career must exist
      (400); a given email that differs from the current one must be free
      (409); a merged row with a value longer than its column fails (500);
      otherwise the merged row is written. */
  method UpdateCoordinador(s: Database, id: int, body: Coordinador) returns (r: Reply<Coordinador>)
    requires s.Valid()
    modifies s`coordinadores
    ensures s.Valid()
    ensures r == Failed(404, "COORDINADOR_NOT_FOUND") <==> id !in old(s.coordinadores.rows)
    ensures r == Failed(400, "CARRERA_NOT_FOUND") <==> id in old(s.coordinadores.rows) && CarreraMissing(s, body)
    ensures r == Failed(409, "DUPLICATE_EMAIL") <==>
      id in old(s.coordinadores.rows) && !CarreraMissing(s, body)
      && CorreoConflict(old(s.coordinadores.rows), old(s.coordinadores.rows[id]), body)
    ensures r == Failed(500, "UPDATE_COORDINADOR_ERROR") <==>
      id in old(s.coordinadores.rows) && !CarreraMissing(s, body)
      && !CorreoConflict(old(s.coordinadores.rows), old(s.coordinadores.rows[id]), body)
      && !CoordinadorOk(MergeCoordinador(old(s.coordinadores.rows[id]), body))
    ensures r.Ok? <==>
      id in old(s.coordinadores.rows) && !CarreraMissing(s, body)
      && !CorreoConflict(old(s.coordinadores.rows), old(s.coordinadores.rows[id]), body)
      && CoordinadorOk(MergeCoordinador(old(s.coordinadores.rows[id]), body))
    ensures r.Failed? || r.Ok?
    ensures r.Failed? ==> s.coordinadores == old(s.coordinadores)
    ensures r.Ok? ==> r == Ok(200, id, MergeCoordinador(old(s.coordinadores.rows[id]), body))
                      && s.coordinadores == old(s.coordinadores).Put(id, r.row)
  {
    if id !in s.coordinadores.rows {
      return Failed(404, "COORDINADOR_NOT_FOUND");
    }
    var current := s.coordinadores.rows[id];
    if CarreraMissing(s, body) {
      return Failed(400, "CARRERA_NOT_FOUND");
    }
    if CorreoConflict(s.coordinadores.rows, current, body) {
      return Failed(409, "DUPLICATE_EMAIL");
    }
    var row := MergeCoordinador(current, body);
    if !CoordinadorOk(row) {
      return Failed(500, "UPDATE_COORDINADOR_ERROR");
    }
    ghost var before := s.Snapshot();
    CorreoCheckKeepsUnique(s.coordinadores.rows, id, row);
    Writes.RefsPut(s.coordinadores.rows, CoordinadorToCarrera, s.carreras.rows, id, row);
    s.coordinadores := s.coordinadores.Put(id, row);
    Writes.CoordinadoresWritten(before, s.coordinadores);
    r := Ok(200, id, row);
  }

  /** deleteCoordinador: 404 for an unknown id, otherwise the row is removed (204). */
  method DeleteCoordinador(s: Database, id: int) returns (r: Reply<Coordinador>)
    requires s.Valid()
    modifies s`coordinadores
    ensures s.Valid()
    ensures id in old(s.coordinadores.rows) ==> r == NoContent
    ensures id !in old(s.coordinadores.rows) ==> r == Failed(404, "COORDINADOR_NOT_FOUND")
    ensures s.coordinadores == old(s.coordinadores).Drop({id})
  {
    if id !in s.coordinadores.rows {
      return Failed(404, "COORDINADOR_NOT_FOUND");
    }
    ghost var before := s.Snapshot();
    s.coordinadores := s.coordinadores.Drop({id});
    Writes.CoordinadoresWritten(before, s.coordinadores);
    r := NoContent;
  }
}
