/** The handlers of src/controllers/aplicacionesEstudiantesController.js. */
module AplicacionesEstudiantesController {
  import opened Tables
  import opened Models
  import opened Associations
  import opened Requests
  import opened Store
  import Writes

  /** A request body: every field may be omitted; `estado` is the text sent. */
  datatype Body = Body(estudiante_id: Option<int>, proyecto_id: Option<int>, estado: Option<string>)

  /** Whether a sent `estado` is one the enumeration accepts. */
  predicate EstadoValid(x: Option<string>)
  {
    x.None? || ParseEstado(x.value).Some?
  }

  /** Whether the application names a student and a project that exist. */
  predicate Resolves(s: Database, a: Aplicacion)
    reads s
  {
    a.estudiante_id in s.usuarios.rows && a.proyecto_id in s.proyectos.rows
  }

  /** getAplicacionesEstudiantes: every application once, in primary-key order. */
  method GetAplicacionesEstudiantes(s: Database) returns (out: seq<(int, Aplicacion)>)
    requires s.Valid()
    ensures forall i :: 0 <= i < |out| ==>
              out[i].0 in s.aplicaciones.rows && s.aplicaciones.rows[out[i].0] == out[i].1
    ensures forall i, j :: 0 <= i < j < |out| ==> out[i].0 < out[j].0
    ensures forall k :: k in s.aplicaciones.rows ==> exists i :: 0 <= i < |out| && out[i].0 == k
  {
    out := Scan(s.aplicaciones);
  }

  /** getAplicacionEstudianteById: the application, or 404 when there is none. */
  function GetAplicacionEstudianteById(s: Database, id: int): (r: Reply<Aplicacion>)
    reads s
    ensures r.Ok? <==> id in s.aplicaciones.rows
    ensures r.Ok? ==> r.row == s.aplicaciones.rows[id]
    ensures !r.Ok? ==> r == Failed(404, "ERR_APLICACION_NOT_FOUND")
  {
    FindByPk(s.aplicaciones, id, "ERR_APLICACION_NOT_FOUND")
  }

  /** The row a create writes from a body that has both keys: a missing
      `estado` takes its default, `Pendiente`. */
  function NewAplicacion(body: Body): (a: Aplicacion)
    requires body.estudiante_id.Some? && body.proyecto_id.Some? && EstadoValid(body.estado)
    ensures a.estudiante_id == body.estudiante_id.value && a.proyecto_id == body.proyecto_id.value
    ensures body.estado.None? ==> a.estado == Pendiente
    ensures body.estado.Some? ==> EstadoText(a.estado) == body.estado.value
  {
    Aplicacion(body.estudiante_id.value, body.proyecto_id.value,
               if body.estado.Some? then ParseEstado(body.estado.value).value else Pendiente)
  }

  /** createAplicacionEstudiante: a body without both keys, with an `estado`
      outside the enumeration, or naming a missing student or project is
      refused (500); otherwise the application is added (201). */
  method CreateAplicacionEstudiante(s: Database, body: Body) returns (r: Reply<Aplicacion>)
    requires s.Valid()
    modifies s`aplicaciones
    ensures s.Valid()
    ensures r.Ok? <==> body.estudiante_id.Some? && body.proyecto_id.Some? && EstadoValid(body.estado)
                       && Resolves(s, NewAplicacion(body))
    ensures !r.Ok? ==> r == Failed(500, "ERR_CREATE_APLICACION") && s.aplicaciones == old(s.aplicaciones)
    ensures r.Ok? ==> r == Ok(201, old(s.aplicaciones.next), NewAplicacion(body))
                      && s.aplicaciones == old(s.aplicaciones).Insert(r.row)
  {
    if body.estudiante_id.None? || body.proyecto_id.None? || !EstadoValid(body.estado) {
      return Failed(500, "ERR_CREATE_APLICACION");
    }
    var row := NewAplicacion(body);
    if !Resolves(s, row) {
      return Failed(500, "ERR_CREATE_APLICACION");
    }
    var id := s.aplicaciones.next;
    ghost var before := s.Snapshot();
    Writes.RefsPut(s.aplicaciones.rows, AplicacionToEstudiante, s.usuarios.rows, id, row);
    Writes.RefsPut(s.aplicaciones.rows, AplicacionToProyecto, s.proyectos.rows, id, row);
    s.aplicaciones := s.aplicaciones.Insert(row);
    Writes.AplicacionesWritten(before, s.aplicaciones);
    r := Ok(201, id, row);
  }

  /** The row an update writes: an omitted field is left as it is. */
  function MergeAplicacion(current: Aplicacion, body: Body): (a: Aplicacion)
    requires EstadoValid(body.estado)
    ensures body.estado.Some? ==> EstadoText(a.estado) == body.estado.value
  {
    Aplicacion(Given(body.estudiante_id, current.estudiante_id), Given(body.proyecto_id, current.proyecto_id),
               if body.estado.Some? then ParseEstado(body.estado.value).value else current.estado)
  }

  /** Whether the body sets a column. `update` drops omitted values, and
      with nothing left to set it reports no changed row without asking the
      database. */
  predicate SetsAColumn(body: Body)
  {
    body.estudiante_id.Some? || body.proyecto_id.Some? || body.estado.Some?
  }

  /** updateAplicacionEstudiante: no row under the id, or a body that sets
      no column, answers 404; an
      `estado` outside the enumeration, or a merged row naming a missing
      student or project, is refused when the row is written (500);
      otherwise the merged row is written and answered (200). */
  method UpdateAplicacionEstudiante(s: Database, id: int, body: Body) returns (r: Reply<Aplicacion>)
    requires s.Valid()
    modifies s`aplicaciones
    ensures s.Valid()
    ensures r == Failed(404, "ERR_APLICACION_NOT_FOUND") <==> id !in old(s.aplicaciones.rows) || !SetsAColumn(body)
    ensures r == Failed(500, "ERR_UPDATE_APLICACION") <==>
      id in old(s.aplicaciones.rows) && SetsAColumn(body)
      && !(EstadoValid(body.estado) && Resolves(s, MergeAplicacion(old(s.aplicaciones.rows[id]), body)))
    ensures r.Ok? <==> id in old(s.aplicaciones.rows) && SetsAColumn(body) && EstadoValid(body.estado)
                       && Resolves(s, MergeAplicacion(old(s.aplicaciones.rows[id]), body))
    ensures r.Failed? || r.Ok?
    ensures r.Failed? ==> s.aplicaciones == old(s.aplicaciones)
    ensures r.Ok? ==> r == Ok(200, id, MergeAplicacion(old(s.aplicaciones.rows[id]), body))
                      && s.aplicaciones == old(s.aplicaciones).Put(id, r.row)
  {
    if id !in s.aplicaciones.rows || !SetsAColumn(body) {
      return Failed(404, "ERR_APLICACION_NOT_FOUND");
    }
    if !EstadoValid(body.estado) {
      return Failed(500, "ERR_UPDATE_APLICACION");
    }
    var row := MergeAplicacion(s.aplicaciones.rows[id], body);
    if !Resolves(s, row) {
      return Failed(500, "ERR_UPDATE_APLICACION");
    }
    ghost var before := s.Snapshot();
    Writes.RefsPut(s.aplicaciones.rows, AplicacionToEstudiante, s.usuarios.rows, id, row);
    Writes.RefsPut(s.aplicaciones.rows, AplicacionToProyecto, s.proyectos.rows, id, row);
    s.aplicaciones := s.aplicaciones.Put(id, row);
    Writes.AplicacionesWritten(before, s.aplicaciones);
    r := Ok(200, id, row);
  }

  /** A status change alone leaves the student and the project as they were. */
  lemma EstadoOnlyChangesEstado(current: Aplicacion, e: Estado)
    ensures MergeAplicacion(current, Body(None, None, Some(EstadoText(e)))) == current.(estado := e)
  {
    EnumTextsRoundTrip(e, Otro);
  }

  /** deleteAplicacionEstudiante: 404 for an unknown id, otherwise the row is
      removed and a confirmation message is answered. */
  method DeleteAplicacionEstudiante(s: Database, id: int) returns (r: Reply<Aplicacion>)
    requires s.Valid()
    modifies s`aplicaciones
    ensures s.Valid()
    ensures id in old(s.aplicaciones.rows) ==> r == Message("Aplicación eliminada exitosamente")
    ensures id !in old(s.aplicaciones.rows) ==> r == Failed(404, "ERR_APLICACION_NOT_FOUND")
    ensures s.aplicaciones == old(s.aplicaciones).Drop({id})
  {
    if id !in s.aplicaciones.rows {
      return Failed(404, "ERR_APLICACION_NOT_FOUND");
    }
    ghost var before := s.Snapshot();
    s.aplicaciones := s.aplicaciones.Drop({id});
    Writes.AplicacionesWritten(before, s.aplicaciones);
    r := Message("Aplicación eliminada exitosamente");
  }
}
