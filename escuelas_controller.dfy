/** The handlers of src/controllers/escuelasController.js. */
module EscuelasController {
  import opened Tables
  import opened Models
  import opened Associations
  import opened Requests
  import opened Store
  import Writes

  /** getEscuelas: every school once, in primary-key order. */
  method GetEscuelas(s: Database) returns (out: seq<(int, Escuela)>)
    requires s.Valid()
    ensures forall i :: 0 <= i < |out| ==>
              out[i].0 in s.escuelas.rows && s.escuelas.rows[out[i].0] == out[i].1
    ensures forall i, j :: 0 <= i < j < |out| ==> out[i].0 < out[j].0
    ensures forall k :: k in s.escuelas.rows ==> exists i :: 0 <= i < |out| && out[i].0 == k
  {
    out := Scan(s.escuelas);
  }

  /** getEscuelaById: the school, or 404 when there is none. */
  function GetEscuelaById(s: Database, id: int): (r: Reply<Escuela>)
    reads s
    ensures r.Ok? <==> id in s.escuelas.rows
    ensures r.Ok? ==> r.row == s.escuelas.rows[id]
    ensures !r.Ok? ==> r == Failed(404, "ESCUELA_NOT_FOUND")
  {
    FindByPk(s.escuelas, id, "ESCUELA_NOT_FOUND")
  }

  /** createEscuela: a school with the given name, null when omitted, is
      added (201) unless the name is too long or another school has it (500). */
  method CreateEscuela(s: Database, nombre: Option<string>) returns (r: Reply<Escuela>)
    requires s.Valid()
    modifies s`escuelas
    ensures s.Valid()
    ensures r.Ok? <==> EscuelasOk(old(s.escuelas.rows)[old(s.escuelas.next) := Escuela(nombre)])
    ensures !r.Ok? ==> r == Failed(500, "CREATE_ESCUELA_ERROR") && s.escuelas == old(s.escuelas)
    ensures r.Ok? ==> r == Ok(201, old(s.escuelas.next), Escuela(nombre))
                      && s.escuelas == old(s.escuelas).Insert(r.row)
  {
    var row := Escuela(nombre);
    var id := s.escuelas.next;
    if !EscuelaAccepted(s.escuelas.rows, id, row) {
      return Failed(500, "CREATE_ESCUELA_ERROR");
    }
    ghost var before := s.Snapshot();
    s.escuelas := s.escuelas.Insert(row);
    Writes.EscuelasWritten(before, s.escuelas);
    r := Ok(201, id, row);
  }

  /** A school's name can be null any number of times: the unique index
      only separates names that are given. */
  lemma NamelessSchoolsAccepted(es: map<int, Escuela>, at: int)
    requires EscuelasOk(es)
    ensures EscuelasOk(es[at := Escuela(None)])
  {
    EveryPut(es, at, Escuela(None), EscuelaOk);
    DistinctPut(es, at, Escuela(None), EscuelaClash);
  }

  /** updateEscuela: 404 for an unknown id; a given name replaces the old one,
      an omitted one leaves it; a name too long or held by another school
      answers 500; otherwise the school is written (200). */
  method UpdateEscuela(s: Database, id: int, nombre: Option<string>) returns (r: Reply<Escuela>)
    requires s.Valid()
    modifies s`escuelas
    ensures s.Valid()
    ensures id !in old(s.escuelas.rows) ==> r == Failed(404, "ESCUELA_NOT_FOUND")
    ensures r.Ok? <==> id in old(s.escuelas.rows)
                       && EscuelasOk(old(s.escuelas.rows)[id := Escuela(GivenOpt(nombre, old(s.escuelas.rows[id].nombre)))])
    ensures r.Failed? || r.Ok?
    ensures r.Failed? ==> s.escuelas == old(s.escuelas)
    ensures r.Failed? && id in old(s.escuelas.rows) ==> r == Failed(500, "UPDATE_ESCUELA_ERROR")
    ensures r.Ok? ==> r == Ok(200, id, Escuela(GivenOpt(nombre, old(s.escuelas.rows[id].nombre))))
                      && s.escuelas == old(s.escuelas).Put(id, r.row)
  {
    if id !in s.escuelas.rows {
      return Failed(404, "ESCUELA_NOT_FOUND");
    }
    var row := Escuela(GivenOpt(nombre, s.escuelas.rows[id].nombre));
    if !EscuelaAccepted(s.escuelas.rows, id, row) {
      return Failed(500, "UPDATE_ESCUELA_ERROR");
    }
    ghost var before := s.Snapshot();
    s.escuelas := s.escuelas.Put(id, row);
    Writes.EscuelasWritten(before, s.escuelas);
    r := Ok(200, id, row);
  }

  /** deleteEscuela: 404 for an unknown id; otherwise the school goes with its
      careers and their coordinators, and profiles lose those careers (204). */
  method DeleteEscuela(s: Database, id: int) returns (r: Reply<Escuela>)
    requires s.Valid()
    modifies s`escuelas, s`carreras, s`coordinadores, s`perfiles
    ensures s.Valid()
    ensures id in old(s.escuelas.rows) ==> r == NoContent && s.Snapshot() == RemoveEscuela(old(s.Snapshot()), id)
    ensures id !in old(s.escuelas.rows) ==> r == Failed(404, "ESCUELA_NOT_FOUND") && s.Snapshot() == old(s.Snapshot())
  {
    if id !in s.escuelas.rows {
      return Failed(404, "ESCUELA_NOT_FOUND");
    }
    s.DestroyEscuela(id);
    r := NoContent;
  }
}
