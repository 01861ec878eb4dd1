/** The handlers of src/controllers/proyectosInstitucionesHabilidadesController.js. */
module ProyectosInstitucionesHabilidadesController {
  import opened Tables
  import opened Models
  import opened Associations
  import opened Requests
  import opened Store
  import Writes

  /** A request body: either key may be omitted. */
  datatype Body = Body(proyecto_id: Option<int>, habilidad_id: Option<int>)

  /** Whether the body sets a column. `update` drops omitted values, and
      with nothing left to set it reports no changed row without asking the
      database. */
  predicate SetsAColumn(body: Body)
  {
    body.proyecto_id.Some? || body.habilidad_id.Some?
  }

  /** getProyectosInstitucionesHabilidades: every project-skill row once, in primary-key order. */
  method GetProyectosInstitucionesHabilidades(s: Database) returns (out: seq<(int, ProyectoHabilidad)>)
    requires s.Valid()
    ensures forall i :: 0 <= i < |out| ==>
              out[i].0 in s.proyectosHabilidades.rows && s.proyectosHabilidades.rows[out[i].0] == out[i].1
    ensures forall i, j :: 0 <= i < j < |out| ==> out[i].0 < out[j].0
    ensures forall k :: k in s.proyectosHabilidades.rows ==> exists i :: 0 <= i < |out| && out[i].0 == k
  {
    out := Scan(s.proyectosHabilidades);
  }

  /** getProyectosInstitucionesHabilidadById: the row, or 404 when there is none. */
  function GetProyectosInstitucionesHabilidadById(s: Database, id: int): (r: Reply<ProyectoHabilidad>)
    reads s
    ensures r.Ok? <==> id in s.proyectosHabilidades.rows
    ensures r.Ok? ==> r.row == s.proyectosHabilidades.rows[id]
    ensures !r.Ok? ==> r == Failed(404, "RELACION_NOT_FOUND_ERROR")
  {
    FindByPk(s.proyectosHabilidades, id, "RELACION_NOT_FOUND_ERROR")
  }

  /** Whether the pair names a project and a skill that exist. */
  predicate Resolves(s: Database, u: ProyectoHabilidad)
    reads s
  {
    u.proyecto_id in s.proyectos.rows && u.habilidad_id in s.habilidades.rows
  }

  /** createProyectosInstitucionesHabilidad: both keys are required (500); a
      pair the project already asks for answers 409; a pair naming a missing
      project or skill is refused by the foreign keys (500); otherwise the
      pair is added (201). */
  method CreateProyectosInstitucionesHabilidad(s: Database, body: Body) returns (r: Reply<ProyectoHabilidad>)
    requires s.Valid()
    modifies s`proyectosHabilidades
    ensures s.Valid()
    ensures r == Failed(500, "CREATE_PROYECTOS_INSTITUCIONES_HABILIDADES_ERROR") <==>
      body.proyecto_id.None? || body.habilidad_id.None?
      || var u := ProyectoHabilidad(body.proyecto_id.value, body.habilidad_id.value);
         ProyectosHabilidadesOk(old(s.proyectosHabilidades.rows)[old(s.proyectosHabilidades.next) := u])
         && !Resolves(s, u)
    ensures r == Failed(409, "RELACION_DUPLICADA_ERROR") <==>
      body.proyecto_id.Some? && body.habilidad_id.Some?
      && !ProyectosHabilidadesOk(old(s.proyectosHabilidades.rows)[old(s.proyectosHabilidades.next) :=
                                  ProyectoHabilidad(body.proyecto_id.value, body.habilidad_id.value)])
    ensures r.Ok? <==>
      body.proyecto_id.Some? && body.habilidad_id.Some?
      && var u := ProyectoHabilidad(body.proyecto_id.value, body.habilidad_id.value);
         ProyectosHabilidadesOk(old(s.proyectosHabilidades.rows)[old(s.proyectosHabilidades.next) := u])
         && Resolves(s, u)
    ensures r.Failed? || r.Ok?
    ensures r.Failed? ==> s.proyectosHabilidades == old(s.proyectosHabilidades)
    ensures r.Ok? ==> r == Ok(201, old(s.proyectosHabilidades.next), r.row)
                      && r.row == ProyectoHabilidad(body.proyecto_id.value, body.habilidad_id.value)
                      && s.proyectosHabilidades == old(s.proyectosHabilidades).Insert(r.row)
  {
    if body.proyecto_id.None? || body.habilidad_id.None? {
      return Failed(500, "CREATE_PROYECTOS_INSTITUCIONES_HABILIDADES_ERROR");
    }
    var row := ProyectoHabilidad(body.proyecto_id.value, body.habilidad_id.value);
    var id := s.proyectosHabilidades.next;
    if !ProyectoHabilidadAccepted(s.proyectosHabilidades.rows, id, row) {
      return Failed(409, "RELACION_DUPLICADA_ERROR");
    }
    if !Resolves(s, row) {
      return Failed(500, "CREATE_PROYECTOS_INSTITUCIONES_HABILIDADES_ERROR");
    }
    ghost var before := s.Snapshot();
    Writes.RefsPut(s.proyectosHabilidades.rows, ProyectoHabilidadToProyecto, s.proyectos.rows, id, row);
    Writes.RefsPut(s.proyectosHabilidades.rows, ProyectoHabilidadToHabilidad, s.habilidades.rows, id, row);
    s.proyectosHabilidades := s.proyectosHabilidades.Insert(row);
    Writes.ProyectosHabilidadesWritten(before, s.proyectosHabilidades);
    r := Ok(201, id, row);
  }

  /** The row updateProyectosInstitucionesHabilidad writes: an omitted key is left as it is. */
  function MergeProyectoHabilidad(current: ProyectoHabilidad, body: Body): ProyectoHabilidad
  {
    ProyectoHabilidad(Given(body.proyecto_id, current.proyecto_id), Given(body.habilidad_id, current.habilidad_id))
  }

  /** updateProyectosInstitucionesHabilidad: no row under the id, or a body
      that sets no column, answers 404; a merged pair another row holds
      answers 409; a merged pair naming a missing project or skill answers 500;
      otherwise the merged pair is written and answered (200). */
  method UpdateProyectosInstitucionesHabilidad(s: Database, id: int, body: Body) returns (r: Reply<ProyectoHabilidad>)
    requires s.Valid()
    modifies s`proyectosHabilidades
    ensures s.Valid()
    ensures r == Failed(404, "RELACION_NOT_FOUND_ERROR") <==> id !in old(s.proyectosHabilidades.rows) || !SetsAColumn(body)
    ensures r == Failed(409, "RELACION_DUPLICADA_ERROR") <==>
      id in old(s.proyectosHabilidades.rows) && SetsAColumn(body)
      && !ProyectosHabilidadesOk(old(s.proyectosHabilidades.rows)[id := MergeProyectoHabilidad(old(s.proyectosHabilidades.rows)[id], body)])
    ensures r == Failed(500, "UPDATE_PROYECTOS_INSTITUCIONES_HABILIDADES_ERROR") <==>
      id in old(s.proyectosHabilidades.rows) && SetsAColumn(body)
      && var u := MergeProyectoHabilidad(old(s.proyectosHabilidades.rows)[id], body);
         ProyectosHabilidadesOk(old(s.proyectosHabilidades.rows)[id := u]) && !Resolves(s, u)
    ensures r.Ok? <==>
      id in old(s.proyectosHabilidades.rows) && SetsAColumn(body)
      && var u := MergeProyectoHabilidad(old(s.proyectosHabilidades.rows)[id], body);
         ProyectosHabilidadesOk(old(s.proyectosHabilidades.rows)[id := u]) && Resolves(s, u)
    ensures r.Failed? || r.Ok?
    ensures r.Failed? ==> s.proyectosHabilidades == old(s.proyectosHabilidades)
    ensures r.Ok? ==> r == Ok(200, id, MergeProyectoHabilidad(old(s.proyectosHabilidades.rows[id]), body))
                      && s.proyectosHabilidades == old(s.proyectosHabilidades).Put(id, r.row)
  {
    if id !in s.proyectosHabilidades.rows || !SetsAColumn(body) {
      return Failed(404, "RELACION_NOT_FOUND_ERROR");
    }
    var row := MergeProyectoHabilidad(s.proyectosHabilidades.rows[id], body);
    if !ProyectoHabilidadAccepted(s.proyectosHabilidades.rows, id, row) {
      return Failed(409, "RELACION_DUPLICADA_ERROR");
    }
    if !Resolves(s, row) {
      return Failed(500, "UPDATE_PROYECTOS_INSTITUCIONES_HABILIDADES_ERROR");
    }
    ghost var before := s.Snapshot();
    Writes.RefsPut(s.proyectosHabilidades.rows, ProyectoHabilidadToProyecto, s.proyectos.rows, id, row);
    Writes.RefsPut(s.proyectosHabilidades.rows, ProyectoHabilidadToHabilidad, s.habilidades.rows, id, row);
    s.proyectosHabilidades := s.proyectosHabilidades.Put(id, row);
    Writes.ProyectosHabilidadesWritten(before, s.proyectosHabilidades);
    r := Ok(200, id, row);
  }

  /** A project asks for a skill once: writing it under a second key breaks uniqueness. */
  lemma PairHeldOnce(us: map<int, ProyectoHabilidad>, at: int, u: ProyectoHabilidad)
    requires exists k :: k in us && k != at && us[k] == u
    ensures !ProyectosHabilidadesOk(us[at := u])
  {
    var k :| k in us && k != at && us[k] == u;
    var m := us[at := u];
    assert k in m && at in m && ProyectoHabilidadClash(m[k], m[at]);
  }

  /** deleteProyectosInstitucionesHabilidad: 404 for an unknown id, otherwise the row is removed (204). */
  method DeleteProyectosInstitucionesHabilidad(s: Database, id: int) returns (r: Reply<ProyectoHabilidad>)
    requires s.Valid()
    modifies s`proyectosHabilidades
    ensures s.Valid()
    ensures id in old(s.proyectosHabilidades.rows) ==> r == NoContent
    ensures id !in old(s.proyectosHabilidades.rows) ==> r == Failed(404, "RELACION_NOT_FOUND_ERROR")
    ensures s.proyectosHabilidades == old(s.proyectosHabilidades).Drop({id})
  {
    if id !in s.proyectosHabilidades.rows {
      return Failed(404, "RELACION_NOT_FOUND_ERROR");
    }
    ghost var before := s.Snapshot();
    s.proyectosHabilidades := s.proyectosHabilidades.Drop({id});
    Writes.ProyectosHabilidadesWritten(before, s.proyectosHabilidades);
    r := NoContent;
  }
}
