/** The handlers of src/controllers/habilidadesController.js. */
module HabilidadesController {
  import opened Tables
  import opened Models
  import opened Associations
  import opened Requests
  import opened Store
  import Writes

  /** getHabilidades: every skill once, in primary-key order. */
  method GetHabilidades(s: Database) returns (out: seq<(int, Habilidad)>)
    requires s.Valid()
    ensures forall i :: 0 <= i < |out| ==>
              out[i].0 in s.habilidades.rows && s.habilidades.rows[out[i].0] == out[i].1
    ensures forall i, j :: 0 <= i < j < |out| ==> out[i].0 < out[j].0
    ensures forall k :: k in s.habilidades.rows ==> exists i :: 0 <= i < |out| && out[i].0 == k
  {
    out := Scan(s.habilidades);
  }

  /** getHabilidadById: the skill, or 404 when there is none. */
  function GetHabilidadById(s: Database, id: int): (r: Reply<Habilidad>)
    reads s
    ensures r.Ok? <==> id in s.habilidades.rows
    ensures r.Ok? ==> r.row == s.habilidades.rows[id]
    ensures !r.Ok? ==> r == Failed(404, "ERR_HABILIDAD_NOT_FOUND")
  {
    FindByPk(s.habilidades, id, "ERR_HABILIDAD_NOT_FOUND")
  }

  /** createHabilidad: the skill is added (201) unless its description is too long (500). */
  method CreateHabilidad(s: Database, body: Habilidad) returns (r: Reply<Habilidad>)
    requires s.Valid()
    modifies s`habilidades
    ensures s.Valid()
    ensures r.Ok? <==> HabilidadOk(body)
    ensures !r.Ok? ==> r == Failed(500, "ERR_CREATE_HABILIDAD") && s.habilidades == old(s.habilidades)
    ensures r.Ok? ==> r == Ok(201, old(s.habilidades.next), body) && s.habilidades == old(s.habilidades).Insert(body)
  {
    if !HabilidadOk(body) {
      return Failed(500, "ERR_CREATE_HABILIDAD");
    }
    var id := s.habilidades.next;
    ghost var before := s.Snapshot();
    EveryPut(s.habilidades.rows, id, body, HabilidadOk);
    s.habilidades := s.habilidades.Insert(body);
    Writes.HabilidadesWritten(before, s.habilidades);
    r := Ok(201, id, body);
  }

  /** updateHabilidad: no row under the id, or a body that sets no column
      (`update` drops omitted values and then reports no changed row),
      answers 404; a given description replaces the old one, and one too
      long answers 500; otherwise the row is written and read back (200). */
  method UpdateHabilidad(s: Database, id: int, body: Habilidad) returns (r: Reply<Habilidad>)
    requires s.Valid()
    modifies s`habilidades
    ensures s.Valid()
    ensures r == Failed(404, "ERR_HABILIDAD_NOT_FOUND") <==> id !in old(s.habilidades.rows) || body.descripcion.None?
    ensures r == Failed(500, "ERR_UPDATE_HABILIDAD") <==>
      id in old(s.habilidades.rows) && body.descripcion.Some? && !HabilidadOk(body)
    ensures r.Ok? <==> id in old(s.habilidades.rows) && body.descripcion.Some? && HabilidadOk(body)
    ensures r.Failed? || r.Ok?
    ensures r.Failed? ==> s.habilidades == old(s.habilidades)
    ensures r.Ok? ==> r == Ok(200, id, body) && s.habilidades == old(s.habilidades).Put(id, body)
  {
    if id !in s.habilidades.rows || body.descripcion.None? {
      return Failed(404, "ERR_HABILIDAD_NOT_FOUND");
    }
    if !HabilidadOk(body) {
      return Failed(500, "ERR_UPDATE_HABILIDAD");
    }
    ghost var before := s.Snapshot();
    EveryPut(s.habilidades.rows, id, body, HabilidadOk);
    s.habilidades := s.habilidades.Put(id, body);
    Writes.HabilidadesWritten(before, s.habilidades);
    r := Ok(200, id, body);
  }

  /** deleteHabilidad: 404 when no skill has the id; otherwise the skill goes
      with every user and project row that names it, and a confirmation
      message is answered. */
  method DeleteHabilidad(s: Database, id: int) returns (r: Reply<Habilidad>)
    requires s.Valid()
    modifies s`habilidades, s`usuariosHabilidades, s`proyectosHabilidades
    ensures s.Valid()
    ensures id in old(s.habilidades.rows) ==>
      r == Message("Habilidad eliminada exitosamente") && s.Snapshot() == RemoveHabilidad(old(s.Snapshot()), id)
    ensures id !in old(s.habilidades.rows) ==>
      r == Failed(404, "ERR_HABILIDAD_NOT_FOUND") && s.Snapshot() == old(s.Snapshot())
  {
    if id !in s.habilidades.rows {
      return Failed(404, "ERR_HABILIDAD_NOT_FOUND");
    }
    s.DestroyHabilidad(id);
    r := Message("Habilidad eliminada exitosamente");
  }
}
