/** The handlers of src/controllers/usuariosHabilidadesController.js. */
module UsuariosHabilidadesController {
  import opened Tables
  import opened Models
  import opened Associations
  import opened Requests
  import opened Store
  import Writes

  /** A request body: either key may be omitted. */
  datatype Body = Body(usuario_id: Option<int>, habilidad_id: Option<int>)

  /** Whether the body sets a column. `update` drops omitted values, and
      with nothing left to set it reports no changed row without asking the
      database. */
  predicate SetsAColumn(body: Body)
  {
    body.usuario_id.Some? || body.habilidad_id.Some?
  }

  /** getUsuariosHabilidades: every assignment once, in primary-key order. */
  method GetUsuariosHabilidades(s: Database) returns (out: seq<(int, UsuarioHabilidad)>)
    requires s.Valid()
    ensures forall i :: 0 <= i < |out| ==>
              out[i].0 in s.usuariosHabilidades.rows && s.usuariosHabilidades.rows[out[i].0] == out[i].1
    ensures forall i, j :: 0 <= i < j < |out| ==> out[i].0 < out[j].0
    ensures forall k :: k in s.usuariosHabilidades.rows ==> exists i :: 0 <= i < |out| && out[i].0 == k
  {
    out := Scan(s.usuariosHabilidades);
  }

  /** getUsuariosHabilidadById: the assignment, or 404 when there is none. */
  function GetUsuariosHabilidadById(s: Database, id: int): (r: Reply<UsuarioHabilidad>)
    reads s
    ensures r.Ok? <==> id in s.usuariosHabilidades.rows
    ensures r.Ok? ==> r.row == s.usuariosHabilidades.rows[id]
    ensures !r.Ok? ==> r == Failed(404, "USUARIOS_HABILIDADES_NOT_FOUND")
  {
    FindByPk(s.usuariosHabilidades, id, "USUARIOS_HABILIDADES_NOT_FOUND")
  }

  /** Whether the pair names a user and a skill that exist. */
  predicate Resolves(s: Database, u: UsuarioHabilidad)
    reads s
  {
    u.usuario_id in s.usuarios.rows && u.habilidad_id in s.habilidades.rows
  }

  /** createUsuariosHabilidad: both keys are required (500); a pair the user
      already holds answers 409; a pair naming a missing user or skill is
      refused by the foreign keys (500); otherwise the pair is added (201). */
  method CreateUsuariosHabilidad(s: Database, body: Body) returns (r: Reply<UsuarioHabilidad>)
    requires s.Valid()
    modifies s`usuariosHabilidades
    ensures s.Valid()
    ensures r == Failed(500, "CREATE_USUARIOS_HABILIDAD_ERROR") <==>
      body.usuario_id.None? || body.habilidad_id.None?
      || var u := UsuarioHabilidad(body.usuario_id.value, body.habilidad_id.value);
         UsuariosHabilidadesOk(old(s.usuariosHabilidades.rows)[old(s.usuariosHabilidades.next) := u])
         && !Resolves(s, u)
    ensures r == Failed(409, "DUPLICATE_USUARIO_HABILIDAD") <==>
      body.usuario_id.Some? && body.habilidad_id.Some?
      && !UsuariosHabilidadesOk(old(s.usuariosHabilidades.rows)[old(s.usuariosHabilidades.next) :=
                                  UsuarioHabilidad(body.usuario_id.value, body.habilidad_id.value)])
    ensures r.Ok? <==>
      body.usuario_id.Some? && body.habilidad_id.Some?
      && var u := UsuarioHabilidad(body.usuario_id.value, body.habilidad_id.value);
         UsuariosHabilidadesOk(old(s.usuariosHabilidades.rows)[old(s.usuariosHabilidades.next) := u])
         && Resolves(s, u)
    ensures r.Failed? || r.Ok?
    ensures r.Failed? ==> s.usuariosHabilidades == old(s.usuariosHabilidades)
    ensures r.Ok? ==> r == Ok(201, old(s.usuariosHabilidades.next), r.row)
                      && r.row == UsuarioHabilidad(body.usuario_id.value, body.habilidad_id.value)
                      && s.usuariosHabilidades == old(s.usuariosHabilidades).Insert(r.row)
  {
    if body.usuario_id.None? || body.habilidad_id.None? {
      return Failed(500, "CREATE_USUARIOS_HABILIDAD_ERROR");
    }
    var row := UsuarioHabilidad(body.usuario_id.value, body.habilidad_id.value);
    var id := s.usuariosHabilidades.next;
    if !UsuarioHabilidadAccepted(s.usuariosHabilidades.rows, id, row) {
      return Failed(409, "DUPLICATE_USUARIO_HABILIDAD");
    }
    if !Resolves(s, row) {
      return Failed(500, "CREATE_USUARIOS_HABILIDAD_ERROR");
    }
    ghost var before := s.Snapshot();
    Writes.RefsPut(s.usuariosHabilidades.rows, UsuarioHabilidadToUsuario, s.usuarios.rows, id, row);
    Writes.RefsPut(s.usuariosHabilidades.rows, UsuarioHabilidadToHabilidad, s.habilidades.rows, id, row);
    s.usuariosHabilidades := s.usuariosHabilidades.Insert(row);
    Writes.UsuariosHabilidadesWritten(before, s.usuariosHabilidades);
    r := Ok(201, id, row);
  }

  /** The row updateUsuariosHabilidad writes: an omitted key is left as it is. */
  function MergeUsuarioHabilidad(current: UsuarioHabilidad, body: Body): UsuarioHabilidad
  {
    UsuarioHabilidad(Given(body.usuario_id, current.usuario_id), Given(body.habilidad_id, current.habilidad_id))
  }

  /** updateUsuariosHabilidad: no row under the id, or a body
      that sets no column, answers 404; a merged pair another row holds
      answers 409; a merged pair naming a missing user or skill answers 500;
      otherwise the merged pair is written and answered (200). */
  method UpdateUsuariosHabilidad(s: Database, id: int, body: Body) returns (r: Reply<UsuarioHabilidad>)
    requires s.Valid()
    modifies s`usuariosHabilidades
    ensures s.Valid()
    ensures r == Failed(404, "USUARIOS_HABILIDADES_NOT_FOUND_ERROR") <==> id !in old(s.usuariosHabilidades.rows) || !SetsAColumn(body)
    ensures r == Failed(409, "DUPLICATE_USUARIO_HABILIDAD") <==>
      id in old(s.usuariosHabilidades.rows) && SetsAColumn(body)
      && !UsuariosHabilidadesOk(old(s.usuariosHabilidades.rows)[id := MergeUsuarioHabilidad(old(s.usuariosHabilidades.rows)[id], body)])
    ensures r == Failed(500, "UPDATE_USUARIOS_HABILIDAD_ERROR") <==>
      id in old(s.usuariosHabilidades.rows) && SetsAColumn(body)
      && var u := MergeUsuarioHabilidad(old(s.usuariosHabilidades.rows)[id], body);
         UsuariosHabilidadesOk(old(s.usuariosHabilidades.rows)[id := u]) && !Resolves(s, u)
    ensures r.Ok? <==>
      id in old(s.usuariosHabilidades.rows) && SetsAColumn(body)
      && var u := MergeUsuarioHabilidad(old(s.usuariosHabilidades.rows)[id], body);
         UsuariosHabilidadesOk(old(s.usuariosHabilidades.rows)[id := u]) && Resolves(s, u)
    ensures r.Failed? || r.Ok?
    ensures r.Failed? ==> s.usuariosHabilidades == old(s.usuariosHabilidades)
    ensures r.Ok? ==> r == Ok(200, id, MergeUsuarioHabilidad(old(s.usuariosHabilidades.rows[id]), body))
                      && s.usuariosHabilidades == old(s.usuariosHabilidades).Put(id, r.row)
  {
    if id !in s.usuariosHabilidades.rows || !SetsAColumn(body) {
      return Failed(404, "USUARIOS_HABILIDADES_NOT_FOUND_ERROR");
    }
    var row := MergeUsuarioHabilidad(s.usuariosHabilidades.rows[id], body);
    if !UsuarioHabilidadAccepted(s.usuariosHabilidades.rows, id, row) {
      return Failed(409, "DUPLICATE_USUARIO_HABILIDAD");
    }
    if !Resolves(s, row) {
      return Failed(500, "UPDATE_USUARIOS_HABILIDAD_ERROR");
    }
    ghost var before := s.Snapshot();
    Writes.RefsPut(s.usuariosHabilidades.rows, UsuarioHabilidadToUsuario, s.usuarios.rows, id, row);
    Writes.RefsPut(s.usuariosHabilidades.rows, UsuarioHabilidadToHabilidad, s.habilidades.rows, id, row);
    s.usuariosHabilidades := s.usuariosHabilidades.Put(id, row);
    Writes.UsuariosHabilidadesWritten(before, s.usuariosHabilidades);
    r := Ok(200, id, row);
  }

  /** A pair can be held once: writing it under a second key breaks uniqueness. */
  lemma PairHeldOnce(us: map<int, UsuarioHabilidad>, at: int, u: UsuarioHabilidad)
    requires exists k :: k in us && k != at && us[k] == u
    ensures !UsuariosHabilidadesOk(us[at := u])
  {
    var k :| k in us && k != at && us[k] == u;
    var m := us[at := u];
    assert k in m && at in m && UsuarioHabilidadClash(m[k], m[at]);
  }

  /** deleteUsuariosHabilidad: 404 for an unknown id, otherwise the row is removed (204). */
  method DeleteUsuariosHabilidad(s: Database, id: int) returns (r: Reply<UsuarioHabilidad>)
    requires s.Valid()
    modifies s`usuariosHabilidades
    ensures s.Valid()
    ensures id in old(s.usuariosHabilidades.rows) ==> r == NoContent
    ensures id !in old(s.usuariosHabilidades.rows) ==> r == Failed(404, "USUARIOS_HABILIDADES_NOT_FOUND_ERROR")
    ensures s.usuariosHabilidades == old(s.usuariosHabilidades).Drop({id})
  {
    if id !in s.usuariosHabilidades.rows {
      return Failed(404, "USUARIOS_HABILIDADES_NOT_FOUND_ERROR");
    }
    ghost var before := s.Snapshot();
    s.usuariosHabilidades := s.usuariosHabilidades.Drop({id});
    Writes.UsuariosHabilidadesWritten(before, s.usuariosHabilidades);
    r := NoContent;
  }
}
