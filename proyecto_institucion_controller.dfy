/** The handlers of src/controllers/proyectoInstitucionController.js. The
    create and update handlers read eight fields of the body; a field left as
    `None` is omitted. */
module ProyectoInstitucionController {
  import opened Tables
  import opened Models
  import opened Associations
  import opened Requests
  import opened Store
  import Writes

  /** The eight body fields the handlers read. */
  datatype Body = Body(institucion_id: Option<int>, nombre: Option<string>, descripcion: Option<string>,
                       fecha_inicio: Option<Date>, fecha_fin: Option<Date>, modalidad: Option<string>,
                       direccion: Option<string>, disponibilidad: Option<bool>)

  /** getProyectosInstitucion: every project once, in primary-key order. */
  method GetProyectosInstitucion(s: Database) returns (out: seq<(int, Proyecto)>)
    requires s.Valid()
    ensures forall i :: 0 <= i < |out| ==>
              out[i].0 in s.proyectos.rows && s.proyectos.rows[out[i].0] == out[i].1
    ensures forall i, j :: 0 <= i < j < |out| ==> out[i].0 < out[j].0
    ensures forall k :: k in s.proyectos.rows ==> exists i :: 0 <= i < |out| && out[i].0 == k
  {
    out := Scan(s.proyectos);
  }

  /** getProyectoInstitucionById: the project, or 404 when there is none. */
  function GetProyectoInstitucionById(s: Database, id: int): (r: Reply<Proyecto>)
    reads s
    ensures r.Ok? <==> id in s.proyectos.rows
    ensures r.Ok? ==> r.row == s.proyectos.rows[id]
    ensures !r.Ok? ==> r == Failed(404, "PROYECTO_INSTITUCION_NOT_FOUND")
  {
    FindByPk(s.proyectos, id, "PROYECTO_INSTITUCION_NOT_FOUND")
  }

  /** Whether the body carries the three required columns. */
  predicate Complete(b: Body)
  {
    b.institucion_id.Some? && b.nombre.Some? && b.descripcion.Some?
  }

  /** The row a create writes: a falsy date is null, a missing availability
      takes its default, true, and the status its default, `Pendiente`; the
      columns the handler does not pass are null. */
  function NewProyecto(b: Body): (p: Proyecto)
    requires Complete(b)
    ensures p.institucion_id == b.institucion_id.value && p.nombre == b.nombre.value
            && p.descripcion == b.descripcion.value
    ensures p.fecha_inicio.Some? <==> Truthy(b.fecha_inicio)
    ensures p.fecha_fin.Some? <==> Truthy(b.fecha_fin)
    ensures p.disponibilidad == Some(if b.disponibilidad.Some? then b.disponibilidad.value else true)
    ensures p.estado == Pendiente
    ensures p.sitio_web.None? && p.actividad_principal.None? && p.horario_requerido.None? && p.id_encargado.None?
  {
    Proyecto(b.institucion_id.value, b.nombre.value, b.descripcion.value, None,
             DateOrNull(b.fecha_inicio), DateOrNull(b.fecha_fin), b.modalidad, b.direccion, None, None,
             Some(if b.disponibilidad.Some? then b.disponibilidad.value else true), None, Pendiente)
  }

  /** createProyectoInstitucion: the row is added (201) exactly when the
      three required columns are given, every value fits its column and the
      institution exists; nothing is checked beforehand, so every other
      case is a store failure (500). */
  method CreateProyectoInstitucion(s: Database, body: Body) returns (r: Reply<Proyecto>)
    requires s.Valid()
    modifies s`proyectos
    ensures s.Valid()
    ensures r.Ok? <==> Complete(body) && ProyectoOk(NewProyecto(body)) && body.institucion_id.value in s.instituciones.rows
    ensures !r.Ok? ==> r == Failed(500, "CREATE_PROYECTO_INSTITUCION_ERROR") && s.proyectos == old(s.proyectos)
    ensures r.Ok? ==> r == Ok(201, old(s.proyectos.next), NewProyecto(body))
                      && s.proyectos == old(s.proyectos).Insert(r.row)
  {
    if !Complete(body) {
      return Failed(500, "CREATE_PROYECTO_INSTITUCION_ERROR");
    }
    var row := NewProyecto(body);
    if !ProyectoOk(row) || row.institucion_id !in s.instituciones.rows {
      return Failed(500, "CREATE_PROYECTO_INSTITUCION_ERROR");
    }
    var id := s.proyectos.next;
    ghost var before := s.Snapshot();
    EveryPut(s.proyectos.rows, id, row, ProyectoOk);
    Writes.RefsPut(s.proyectos.rows, ProyectoToInstitucion, s.instituciones.rows, id, row);
    s.proyectos := s.proyectos.Insert(row);
    Writes.ProyectosWritten(before, s.proyectos);
    r := Ok(201, id, row);
  }

  /** The row an update writes: both dates are always written, a falsy one
      as null; the other six fields replace their column when given and
      leave it as it is when omitted. */
  function MergeProyecto(current: Proyecto, b: Body): Proyecto
  {
    current.(institucion_id := Given(b.institucion_id, current.institucion_id),
             nombre := Given(b.nombre, current.nombre),
             descripcion := Given(b.descripcion, current.descripcion),
             fecha_inicio := DateOrNull(b.fecha_inicio),
             fecha_fin := DateOrNull(b.fecha_fin),
             modalidad := GivenOpt(b.modalidad, current.modalidad),
             direccion := GivenOpt(b.direccion, current.direccion),
             disponibilidad := GivenOpt(b.disponibilidad, current.disponibilidad))
  }

  /** An update that omits a date clears it, whatever the project held. */
  lemma OmittedDatesCleared(current: Proyecto, b: Body)
    requires b.fecha_inicio.None? || b.fecha_fin.None?
    ensures b.fecha_inicio.None? ==> MergeProyecto(current, b).fecha_inicio.None?
    ensures b.fecha_fin.None? ==> MergeProyecto(current, b).fecha_fin.None?
  {
  }

  /** An update never touches the columns outside the eight it reads: the
      web site, main activity, schedule, manager and status. */
  lemma UnreadColumnsKept(current: Proyecto, b: Body)
    ensures var p := MergeProyecto(current, b);
            p.sitio_web == current.sitio_web && p.actividad_principal == current.actividad_principal
            && p.horario_requerido == current.horario_requerido && p.id_encargado == current.id_encargado
            && p.estado == current.estado
  {
  }

  /** updateProyectoInstitucion: 404 for an unknown id; a merged row that
      does not fit its columns or names a missing institution answers 500;
      otherwise it is written and read back (200). */
  method UpdateProyectoInstitucion(s: Database, id: int, body: Body) returns (r: Reply<Proyecto>)
    requires s.Valid()
    modifies s`proyectos
    ensures s.Valid()
    ensures id !in old(s.proyectos.rows) ==> r == Failed(404, "PROYECTO_INSTITUCION_NOT_FOUND")
    ensures r.Ok? <==> id in old(s.proyectos.rows)
                       && var p := MergeProyecto(old(s.proyectos.rows[id]), body);
                          ProyectoOk(p) && p.institucion_id in s.instituciones.rows
    ensures r.Failed? || r.Ok?
    ensures r.Failed? ==> s.proyectos == old(s.proyectos)
    ensures r.Failed? && id in old(s.proyectos.rows) ==> r == Failed(500, "UPDATE_PROYECTO_INSTITUCION_ERROR")
    ensures r.Ok? ==> r == Ok(200, id, MergeProyecto(old(s.proyectos.rows[id]), body))
                      && s.proyectos == old(s.proyectos).Put(id, r.row)
  {
    if id !in s.proyectos.rows {
      return Failed(404, "PROYECTO_INSTITUCION_NOT_FOUND");
    }
    var row := MergeProyecto(s.proyectos.rows[id], body);
    if !ProyectoOk(row) || row.institucion_id !in s.instituciones.rows {
      return Failed(500, "UPDATE_PROYECTO_INSTITUCION_ERROR");
    }
    ghost var before := s.Snapshot();
    EveryPut(s.proyectos.rows, id, row, ProyectoOk);
    Writes.RefsPut(s.proyectos.rows, ProyectoToInstitucion, s.instituciones.rows, id, row);
    s.proyectos := s.proyectos.Put(id, row);
    Writes.ProyectosWritten(before, s.proyectos);
    r := Ok(200, id, row);
  }

  /** deleteProyectoInstitucion: 404 for an unknown id; otherwise the project
      goes with its applications, skill rows, activities and logbooks (204). */
  method DeleteProyectoInstitucion(s: Database, id: int) returns (r: Reply<Proyecto>)
    requires s.Valid()
    modifies s`proyectos, s`aplicaciones, s`proyectosHabilidades, s`actividades
    modifies s`bitacoras, s`bitacoraPerfiles, s`bitacoraItemLinks
    ensures s.Valid()
    ensures id in old(s.proyectos.rows) ==> r == NoContent && s.Snapshot() == RemoveProyectos(old(s.Snapshot()), {id})
    ensures id !in old(s.proyectos.rows) ==> r == Failed(404, "PROYECTO_INSTITUCION_NOT_FOUND")
                                             && s.Snapshot() == old(s.Snapshot())
  {
    if id !in s.proyectos.rows {
      return Failed(404, "PROYECTO_INSTITUCION_NOT_FOUND");
    }
    s.DestroyProyectos({id});
    r := NoContent;
  }
}
