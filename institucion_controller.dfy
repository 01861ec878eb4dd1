/** The handlers of src/controllers/institucionController.js. The create and
    update handlers read six fields of the body; a field left as `None` is
    omitted. */
module InstitucionController {
  import opened Tables
  import opened Models
  import opened Associations
  import opened Requests
  import opened Store
  import Writes

  /** The six body fields the handlers read. */
  datatype Body = Body(nombre: Option<string>, direccion: Option<string>, telefono: Option<string>,
                       email: Option<string>, fecha_fundacion: Option<Date>, nit: Option<string>)

  /** getInstituciones: every institution once, in primary-key order. */
  method GetInstituciones(s: Database) returns (out: seq<(int, Institucion)>)
    requires s.Valid()
    ensures forall i :: 0 <= i < |out| ==>
              out[i].0 in s.instituciones.rows && s.instituciones.rows[out[i].0] == out[i].1
    ensures forall i, j :: 0 <= i < j < |out| ==> out[i].0 < out[j].0
    ensures forall k :: k in s.instituciones.rows ==> exists i :: 0 <= i < |out| && out[i].0 == k
  {
    out := Scan(s.instituciones);
  }

  /** getInstitucionById: the institution, or 404 when there is none. */
  function GetInstitucionById(s: Database, id: int): (r: Reply<Institucion>)
    reads s
    ensures r.Ok? <==> id in s.instituciones.rows
    ensures r.Ok? ==> r.row == s.instituciones.rows[id]
    ensures !r.Ok? ==> r == Failed(404, "INSTITUCION_NOT_FOUND")
  {
    FindByPk(s.instituciones, id, "INSTITUCION_NOT_FOUND")
  }

  /** The row a create writes from a body with a name: a falsy founding
      date is null, every other omitted field null. */
  function NewInstitucion(b: Body): (i: Institucion)
    requires b.nombre.Some?
    ensures i.nombre == b.nombre.value && i.email == b.email
    ensures i.fecha_fundacion.Some? <==> Truthy(b.fecha_fundacion)
  {
    Institucion(b.nombre.value, b.direccion, b.telefono, b.email, DateOrNull(b.fecha_fundacion), b.nit)
  }

  /** createInstitucion: a body without a name, a value too long for its
      column, or a name or email another institution holds is refused
      (500, a duplicate included); otherwise the institution is added (201). */
  method CreateInstitucion(s: Database, body: Body) returns (r: Reply<Institucion>)
    requires s.Valid()
    modifies s`instituciones
    ensures s.Valid()
    ensures r.Ok? <==> body.nombre.Some?
                       && InstitucionesOk(old(s.instituciones.rows)[old(s.instituciones.next) := NewInstitucion(body)])
    ensures !r.Ok? ==> r == Failed(500, "CREATE_INSTITUCION_ERROR") && s.instituciones == old(s.instituciones)
    ensures r.Ok? ==> r == Ok(201, old(s.instituciones.next), NewInstitucion(body))
                      && s.instituciones == old(s.instituciones).Insert(r.row)
  {
    if body.nombre.None? {
      return Failed(500, "CREATE_INSTITUCION_ERROR");
    }
    var row := NewInstitucion(body);
    var id := s.instituciones.next;
    if !InstitucionAccepted(s.instituciones.rows, id, row) {
      return Failed(500, "CREATE_INSTITUCION_ERROR");
    }
    ghost var before := s.Snapshot();
    s.instituciones := s.instituciones.Insert(row);
    Writes.InstitucionesWritten(before, s.instituciones);
    r := Ok(201, id, row);
  }

  /** The row an update writes: the founding date is always written, a falsy
      one as null; the other five fields replace their column when given and
      leave it as it is when omitted. */
  function MergeInstitucion(current: Institucion, b: Body): Institucion
  {
    Institucion(Given(b.nombre, current.nombre), GivenOpt(b.direccion, current.direccion),
                GivenOpt(b.telefono, current.telefono), GivenOpt(b.email, current.email),
                DateOrNull(b.fecha_fundacion), GivenOpt(b.nit, current.nit))
  }

  /** updateInstitucion: 404 for an unknown id; a merged row that does not
      fit its columns or takes another institution's name or email answers
      500; otherwise it is written (200). */
  method UpdateInstitucion(s: Database, id: int, body: Body) returns (r: Reply<Institucion>)
    requires s.Valid()
    modifies s`instituciones
    ensures s.Valid()
    ensures id !in old(s.instituciones.rows) ==> r == Failed(404, "INSTITUCION_NOT_FOUND")
    ensures r.Ok? <==> id in old(s.instituciones.rows)
                       && InstitucionesOk(old(s.instituciones.rows)[id := MergeInstitucion(old(s.instituciones.rows[id]), body)])
    ensures r.Failed? || r.Ok?
    ensures r.Failed? ==> s.instituciones == old(s.instituciones)
    ensures r.Failed? && id in old(s.instituciones.rows) ==> r == Failed(500, "UPDATE_INSTITUCION_ERROR")
    ensures r.Ok? ==> r == Ok(200, id, MergeInstitucion(old(s.instituciones.rows[id]), body))
                      && s.instituciones == old(s.instituciones).Put(id, r.row)
  {
    if id !in s.instituciones.rows {
      return Failed(404, "INSTITUCION_NOT_FOUND");
    }
    var row := MergeInstitucion(s.instituciones.rows[id], body);
    if !InstitucionAccepted(s.instituciones.rows, id, row) {
      return Failed(500, "UPDATE_INSTITUCION_ERROR");
    }
    ghost var before := s.Snapshot();
    s.instituciones := s.instituciones.Put(id, row);
    Writes.InstitucionesWritten(before, s.instituciones);
    r := Ok(200, id, row);
  }

  /** An update that resubmits the institution's own name and email, or
      leaves them out, never clashes, whatever it does to the founding date. */
  lemma OwnValuesNeverClash(ins: map<int, Institucion>, id: int, b: Body)
    requires InstitucionesOk(ins) && id in ins
    requires b.nombre.None? || b.nombre == Some(ins[id].nombre)
    requires b.email.None? || b.email == ins[id].email
    requires FitsIn(b.telefono, 20) && FitsIn(b.nit, 25)
    ensures InstitucionesOk(ins[id := MergeInstitucion(ins[id], b)])
  {
    var row := MergeInstitucion(ins[id], b);
    assert InstitucionOk(ins[id]);
    forall k | k in ins && k != id
      ensures !InstitucionClash(ins[k], row)
    {
      assert !InstitucionClash(ins[k], ins[id]);
    }
    EveryPut(ins, id, row, InstitucionOk);
    DistinctPut(ins, id, row, InstitucionClash);
  }

  /** Taking the name of another institution is always refused. */
  lemma TakenNameRefused(ins: map<int, Institucion>, id: int, other: int, b: Body)
    requires id in ins && other in ins && other != id
    requires b.nombre == Some(ins[other].nombre)
    ensures !InstitucionesOk(ins[id := MergeInstitucion(ins[id], b)])
  {
    var m := ins[id := MergeInstitucion(ins[id], b)];
    assert other in m && id in m && InstitucionClash(m[other], m[id]);
  }

  /** deleteInstitucion: 404 for an unknown id; otherwise the institution
      goes with its projects and everything that hangs from them (204). */
  method DeleteInstitucion(s: Database, id: int) returns (r: Reply<Institucion>)
    requires s.Valid()
    modifies s`instituciones, s`proyectos, s`aplicaciones, s`proyectosHabilidades
    modifies s`actividades, s`bitacoras, s`bitacoraPerfiles, s`bitacoraItemLinks
    ensures s.Valid()
    ensures id in old(s.instituciones.rows) ==> r == NoContent && s.Snapshot() == RemoveInstitucion(old(s.Snapshot()), id)
    ensures id !in old(s.instituciones.rows) ==> r == Failed(404, "INSTITUCION_NOT_FOUND")
                                                 && s.Snapshot() == old(s.Snapshot())
  {
    if id !in s.instituciones.rows {
      return Failed(404, "INSTITUCION_NOT_FOUND");
    }
    s.DestroyInstitucion(id);
    r := NoContent;
  }
}
