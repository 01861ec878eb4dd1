/** The handlers of src/controllers/perfilUsuarioController.js. The create
    and update handlers name two variables, `telefono` and `anio_academico`,
    that are declared nowhere: evaluating them throws, so as written both
    handlers answer 500 for every profile they reach. Each is modelled as
    written and as evidently intended, with the two unknown names left out
    (neither is a column of the profile table). */
module PerfilUsuarioController {
  import opened Tables
  import opened Models
  import opened Associations
  import opened Requests
  import opened Store
  import Writes

  /** The body fields the handlers read; `genero` is the text sent. */
  datatype Body = Body(usuario_id: Option<int>, direccion: Option<string>, fecha_nacimiento: Option<Date>,
                       genero: Option<string>, foto_perfil: Option<string>)

  /** Whether a sent `genero` is one the enumeration accepts. */
  predicate GeneroValid(x: Option<string>)
  {
    x.None? || ParseGenero(x.value).Some?
  }

  /** The stored value of a valid `genero`. */
  function GeneroOf(x: Option<string>): (g: Option<Genero>)
    requires GeneroValid(x)
    ensures g.Some? <==> x.Some?
    ensures g.Some? ==> GeneroText(g.value) == x.value
  {
    if x.Some? then ParseGenero(x.value) else None
  }

  /** getPerfilesUsuario: every profile once, in primary-key order. */
  method GetPerfilesUsuario(s: Database) returns (out: seq<(int, Perfil)>)
    requires s.Valid()
    ensures forall i :: 0 <= i < |out| ==> out[i].0 in s.perfiles.rows && s.perfiles.rows[out[i].0] == out[i].1
    ensures forall i, j :: 0 <= i < j < |out| ==> out[i].0 < out[j].0
    ensures forall k :: k in s.perfiles.rows ==> exists i :: 0 <= i < |out| && out[i].0 == k
  {
    out := Scan(s.perfiles);
  }

  /** getPerfilUsuarioById: the profile, or 404 when there is none. */
  function GetPerfilUsuarioById(s: Database, id: int): (r: Reply<Perfil>)
    reads s
    ensures r.Ok? <==> id in s.perfiles.rows
    ensures r.Ok? ==> r.row == s.perfiles.rows[id]
    ensures !r.Ok? ==> r == Failed(404, "PERFIL_USUARIO_NOT_FOUND")
  {
    FindByPk(s.perfiles, id, "PERFIL_USUARIO_NOT_FOUND")
  }

  /** getPerfilUsuarioByUsuarioId: a profile of the user, the first in
      primary-key order, or 404 when the user has none. */
  function GetPerfilUsuarioByUsuarioId(s: Database, usuario_id: int): (r: Reply<Perfil>)
    requires s.Valid()
    reads s
    ensures r.Ok? <==> exists k :: k in s.perfiles.rows && s.perfiles.rows[k].usuario_id == usuario_id
    ensures r.Ok? ==> r.status == 200 && r.id in s.perfiles.rows && r.row == s.perfiles.rows[r.id]
                      && r.row.usuario_id == usuario_id
    ensures r.Ok? ==> forall k :: k in s.perfiles.rows && k < r.id ==> s.perfiles.rows[k].usuario_id != usuario_id
    ensures !r.Ok? ==> r == Failed(404, "PERFIL_USUARIO_NOT_FOUND")
  {
    match FirstRef(s.perfiles, PerfilToUsuario, usuario_id, 1)
    case Some(k) => Ok(200, k, s.perfiles.rows[k])
    case None => Failed(404, "PERFIL_USUARIO_NOT_FOUND")
  }

  /** createPerfilUsuario as written: the row it would build names an
      undeclared variable, so it fails before the store is reached, for
      every body (500), and nothing is added. */
  method CreatePerfilUsuario(s: Database, body: Body) returns (r: Reply<Perfil>)
    requires s.Valid()
    ensures r == Failed(500, "CREATE_PERFIL_USUARIO_ERROR")
  {
    r := Failed(500, "CREATE_PERFIL_USUARIO_ERROR");
  }

  /** The row the intended create writes: a falsy birth date is null; the
      profile starts without a career. */
  function NewPerfil(b: Body): (p: Perfil)
    requires b.usuario_id.Some? && GeneroValid(b.genero)
    ensures p.usuario_id == b.usuario_id.value && p.id_carrera.None?
    ensures p.fecha_nacimiento.Some? <==> Truthy(b.fecha_nacimiento)
  {
    Perfil(b.usuario_id.value, b.direccion, DateOrNull(b.fecha_nacimiento), GeneroOf(b.genero), b.foto_perfil, None)
  }

  /** createPerfilUsuario as intended: the profile is added (201) exactly
      when the user is given and exists, the gender is one of the
      enumeration and the photo fits its column; otherwise the store
      refuses it (500). */
  method CreatePerfilUsuarioCorrected(s: Database, body: Body) returns (r: Reply<Perfil>)
    requires s.Valid()
    modifies s`perfiles
    ensures s.Valid()
    ensures r.Ok? <==> body.usuario_id.Some? && GeneroValid(body.genero) && PerfilOk(NewPerfil(body))
                       && body.usuario_id.value in s.usuarios.rows
    ensures !r.Ok? ==> r == Failed(500, "CREATE_PERFIL_USUARIO_ERROR") && s.perfiles == old(s.perfiles)
    ensures r.Ok? ==> r == Ok(201, old(s.perfiles.next), NewPerfil(body)) && s.perfiles == old(s.perfiles).Insert(r.row)
  {
    if body.usuario_id.None? || !GeneroValid(body.genero) {
      return Failed(500, "CREATE_PERFIL_USUARIO_ERROR");
    }
    var row := NewPerfil(body);
    if !PerfilOk(row) || row.usuario_id !in s.usuarios.rows {
      return Failed(500, "CREATE_PERFIL_USUARIO_ERROR");
    }
    var id := s.perfiles.next;
    ghost var before := s.Snapshot();
    EveryPut(s.perfiles.rows, id, row, PerfilOk);
    Writes.RefsPut(s.perfiles.rows, PerfilToUsuario, s.usuarios.rows, id, row);
    Writes.RefsPut(s.perfiles.rows, PerfilToCarrera, s.carreras.rows, id, row);
    s.perfiles := s.perfiles.Insert(row);
    Writes.PerfilesWritten(before, s.perfiles);
    r := Ok(201, id, row);
  }

  /** The discrepancy: for a user that exists, a body naming it and nothing
      else is one the intended create adds, while the handler as written
      refuses every body. */
  lemma CreateRefusesAcceptableProfile(s: Database, u: int)
    requires s.Valid() && u in s.usuarios.rows
    ensures var b := Body(Some(u), None, None, None, None);
            GeneroValid(b.genero) && PerfilOk(NewPerfil(b)) && b.usuario_id.value in s.usuarios.rows
  {
  }

  /** updatePerfilUsuario as written: 404 for an unknown id; for a profile
      that exists the update it would make names an undeclared variable, so
      it fails (500) and nothing changes. */
  method UpdatePerfilUsuario(s: Database, id: int, body: Body) returns (r: Reply<Perfil>)
    requires s.Valid()
    ensures id !in s.perfiles.rows ==> r == Failed(404, "PERFIL_USUARIO_NOT_FOUND")
    ensures id in s.perfiles.rows ==> r == Failed(500, "UPDATE_PERFIL_USUARIO_ERROR")
  {
    if id !in s.perfiles.rows {
      return Failed(404, "PERFIL_USUARIO_NOT_FOUND");
    }
    r := Failed(500, "UPDATE_PERFIL_USUARIO_ERROR");
  }

  /** The row the intended update writes: the birth date is always written,
      a falsy one as null; address, gender and photo replace their column
      when given and leave it when omitted; the user and career are kept. */
  function MergePerfil(current: Perfil, b: Body): (p: Perfil)
    requires GeneroValid(b.genero)
    ensures p.usuario_id == current.usuario_id && p.id_carrera == current.id_carrera
    ensures p.fecha_nacimiento.Some? <==> Truthy(b.fecha_nacimiento)
  {
    current.(direccion := GivenOpt(b.direccion, current.direccion),
             fecha_nacimiento := DateOrNull(b.fecha_nacimiento),
             genero := GivenOpt(GeneroOf(b.genero), current.genero),
             foto_perfil := GivenOpt(b.foto_perfil, current.foto_perfil))
  }

  /** updatePerfilUsuario as intended: 404 for an unknown id; a gender
      outside the enumeration or a photo too long for its column answers
      500; otherwise the merged profile is written (200). */
  method UpdatePerfilUsuarioCorrected(s: Database, id: int, body: Body) returns (r: Reply<Perfil>)
    requires s.Valid()
    modifies s`perfiles
    ensures s.Valid()
    ensures id !in old(s.perfiles.rows) ==> r == Failed(404, "PERFIL_USUARIO_NOT_FOUND")
    ensures r.Ok? <==> id in old(s.perfiles.rows) && GeneroValid(body.genero)
                       && PerfilOk(MergePerfil(old(s.perfiles.rows[id]), body))
    ensures r.Failed? || r.Ok?
    ensures r.Failed? ==> s.perfiles == old(s.perfiles)
    ensures r.Failed? && id in old(s.perfiles.rows) ==> r == Failed(500, "UPDATE_PERFIL_USUARIO_ERROR")
    ensures r.Ok? ==> r == Ok(200, id, MergePerfil(old(s.perfiles.rows[id]), body))
                      && s.perfiles == old(s.perfiles).Put(id, r.row)
  {
    if id !in s.perfiles.rows {
      return Failed(404, "PERFIL_USUARIO_NOT_FOUND");
    }
    if !GeneroValid(body.genero) {
      return Failed(500, "UPDATE_PERFIL_USUARIO_ERROR");
    }
    var current := s.perfiles.rows[id];
    var row := MergePerfil(current, body);
    if !PerfilOk(row) {
      return Failed(500, "UPDATE_PERFIL_USUARIO_ERROR");
    }
    ghost var before := s.Snapshot();
    assert Refs(s.perfiles.rows, PerfilToCarrera, s.carreras.rows);
    EveryPut(s.perfiles.rows, id, row, PerfilOk);
    Writes.RefsPut(s.perfiles.rows, PerfilToUsuario, s.usuarios.rows, id, row);
    Writes.RefsPut(s.perfiles.rows, PerfilToCarrera, s.carreras.rows, id, row);
    s.perfiles := s.perfiles.Put(id, row);
    Writes.PerfilesWritten(before, s.perfiles);
    r := Ok(200, id, row);
  }

  /** The discrepancy: an empty update of a profile that exists is one the
      intended update writes, while the handler as written refuses it. */
  lemma UpdateRefusesAcceptableChange(ps: map<int, Perfil>, id: int)
    requires Every(ps, PerfilOk) && id in ps
    ensures var b := Body(None, None, None, None, None);
            GeneroValid(b.genero) && PerfilOk(MergePerfil(ps[id], b))
  {
    assert PerfilOk(ps[id]);
  }

  /** deletePerfilUsuario: 404 for an unknown id; otherwise the profile goes
      with its emergency contacts and logbook memberships (204). */
  method DeletePerfilUsuario(s: Database, id: int) returns (r: Reply<Perfil>)
    requires s.Valid()
    modifies s`perfiles, s`contactos, s`bitacoraPerfiles
    ensures s.Valid()
    ensures id in old(s.perfiles.rows) ==> r == NoContent && s.Snapshot() == RemovePerfiles(old(s.Snapshot()), {id})
    ensures id !in old(s.perfiles.rows) ==>
      r == Failed(404, "PERFIL_USUARIO_NOT_FOUND") && s.Snapshot() == old(s.Snapshot())
  {
    if id !in s.perfiles.rows {
      return Failed(404, "PERFIL_USUARIO_NOT_FOUND");
    }
    s.DestroyPerfiles({id});
    r := NoContent;
  }
}
