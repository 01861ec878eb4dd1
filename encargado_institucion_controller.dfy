/** The handlers of src/controllers/encargadoInstitucionController.js. */
module EncargadoInstitucionController {
  import opened Tables
  import opened Models
  import opened Associations
  import opened Ordering
  import opened Requests
  import opened Store
  import Writes

  /** The listing order: `apellidos`, then `nombres`, ascending. */
  function EncargadoKey(e: Encargado): SortKey
  {
    [e.apellidos, e.nombres]
  }

  /** getEncargadosInstitucion: every manager once, sorted by surname, then name. */
  method GetEncargadosInstitucion(s: Database) returns (out: seq<(int, Encargado)>)
    requires s.Valid()
    ensures Sorted(out, EncargadoKey)
    ensures forall x :: x in out ==> x.0 in s.encargados.rows && s.encargados.rows[x.0] == x.1
    ensures forall k :: k in s.encargados.rows ==> multiset(out)[(k, s.encargados.rows[k])] == 1
  {
    out := OrderBy(s.encargados, EncargadoKey);
  }

  /** getEncargadoInstitucionById: the manager, or 404 when there is none. */
  function GetEncargadoInstitucionById(s: Database, id: int): (r: Reply<Encargado>)
    reads s
    ensures r.Ok? <==> id in s.encargados.rows
    ensures r.Ok? ==> r.row == s.encargados.rows[id]
    ensures !r.Ok? ==> r == Failed(404, "ENCARGADO_NOT_FOUND")
  {
    FindByPk(s.encargados, id, "ENCARGADO_NOT_FOUND")
  }

  /** createEncargadoInstitucion: the four given fields become a new row
      (201), unless a value is longer than its column (500) or another
      manager already has the email (409). */
  method CreateEncargadoInstitucion(s: Database, body: Encargado) returns (r: Reply<Encargado>)
    requires s.Valid()
    modifies s`encargados
    ensures s.Valid()
    ensures r == Failed(500, "CREATE_ENCARGADO_ERROR") <==> !EncargadoOk(body)
    ensures r == Failed(409, "DUPLICATE_EMAIL") <==>
      EncargadoOk(body) && !EncargadosOk(old(s.encargados.rows)[old(s.encargados.next) := body])
    ensures r.Ok? <==> EncargadosOk(old(s.encargados.rows)[old(s.encargados.next) := body])
    ensures r.Failed? || r.Ok?
    ensures r.Failed? ==> s.encargados == old(s.encargados)
    ensures r.Ok? ==> r == Ok(201, old(s.encargados.next), body) && s.encargados == old(s.encargados).Insert(body)
  {
    if !EncargadoOk(body) {
      EveryPut(s.encargados.rows, s.encargados.next, body, EncargadoOk);
      return Failed(500, "CREATE_ENCARGADO_ERROR");
    }
    var id := s.encargados.next;
    if !EncargadoAccepted(s.encargados.rows, id, body) {
      return Failed(409, "DUPLICATE_EMAIL");
    }
    ghost var before := s.Snapshot();
    s.encargados := s.encargados.Insert(body);
    Writes.EncargadosWritten(before, s.encargados);
    r := Ok(201, id, body);
  }

  /** The row updateEncargadoInstitucion writes: an omitted or falsy field
      keeps its value. */
  function MergeEncargado(current: Encargado, body: Encargado): Encargado
  {
    Encargado(Or(body.nombres, current.nombres), Or(body.apellidos, current.apellidos),
              Or(body.correo, current.correo), Or(body.telefono, current.telefono))
  }

  /** updateEncargadoInstitucion: 404 for an unknown id; a merged row with a
      value longer than its column answers 500, one whose email another
      manager has answers 409; otherwise it is written. */
  method UpdateEncargadoInstitucion(s: Database, id: int, body: Encargado) returns (r: Reply<Encargado>)
    requires s.Valid()
    modifies s`encargados
    ensures s.Valid()
    ensures r == Failed(404, "ENCARGADO_NOT_FOUND") <==> id !in old(s.encargados.rows)
    ensures r == Failed(500, "UPDATE_ENCARGADO_ERROR") <==>
      id in old(s.encargados.rows) && !EncargadoOk(MergeEncargado(old(s.encargados.rows[id]), body))
    ensures r == Failed(409, "DUPLICATE_EMAIL") <==>
      id in old(s.encargados.rows) && EncargadoOk(MergeEncargado(old(s.encargados.rows[id]), body))
      && !EncargadosOk(old(s.encargados.rows)[id := MergeEncargado(old(s.encargados.rows[id]), body)])
    ensures r.Ok? <==>
      id in old(s.encargados.rows)
      && EncargadosOk(old(s.encargados.rows)[id := MergeEncargado(old(s.encargados.rows[id]), body)])
    ensures r.Failed? || r.Ok?
    ensures r.Failed? ==> s.encargados == old(s.encargados)
    ensures r.Ok? ==> r == Ok(200, id, MergeEncargado(old(s.encargados.rows[id]), body))
                      && s.encargados == old(s.encargados).Put(id, r.row)
  {
    if id !in s.encargados.rows {
      return Failed(404, "ENCARGADO_NOT_FOUND");
    }
    var row := MergeEncargado(s.encargados.rows[id], body);
    if !EncargadoOk(row) {
      EveryPut(s.encargados.rows, id, row, EncargadoOk);
      return Failed(500, "UPDATE_ENCARGADO_ERROR");
    }
    if !EncargadoAccepted(s.encargados.rows, id, row) {
      return Failed(409, "DUPLICATE_EMAIL");
    }
    ghost var before := s.Snapshot();
    s.encargados := s.encargados.Put(id, row);
    Writes.EncargadosWritten(before, s.encargados);
    r := Ok(200, id, row);
  }

  /** Leaving the email out of an update, or resubmitting the manager's own,
      can never conflict: the merged row keeps an email only that manager has. */
  lemma OwnCorreoNeverConflicts(es: map<int, Encargado>, id: int, body: Encargado)
    requires EncargadosOk(es) && id in es
    requires !Truthy(body.correo) || body.correo == es[id].correo
    ensures Distinct(es[id := MergeEncargado(es[id], body)], EncargadoClash)
  {
    var row := MergeEncargado(es[id], body);
    assert row.correo == es[id].correo;
    forall k | k in es && k != id
      ensures !EncargadoClash(es[k], row)
    {
      assert !EncargadoClash(es[k], es[id]);
    }
    DistinctPut(es, id, row, EncargadoClash);
  }

  /** deleteEncargadoInstitucion: 404 for an unknown id, otherwise the row is removed (204). */
  method DeleteEncargadoInstitucion(s: Database, id: int) returns (r: Reply<Encargado>)
    requires s.Valid()
    modifies s`encargados
    ensures s.Valid()
    ensures id in old(s.encargados.rows) ==> r == NoContent
    ensures id !in old(s.encargados.rows) ==> r == Failed(404, "ENCARGADO_NOT_FOUND")
    ensures s.encargados == old(s.encargados).Drop({id})
  {
    if id !in s.encargados.rows {
      return Failed(404, "ENCARGADO_NOT_FOUND");
    }
    ghost var before := s.Snapshot();
    s.encargados := s.encargados.Drop({id});
    Writes.EncargadosWritten(before, s.encargados);
    r := NoContent;
  }
}
