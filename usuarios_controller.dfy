/** The handlers of src/controllers/usuariosController.js. A user is always
    answered without its password hash. */
module UsuariosController {
  import opened Tables
  import opened Models
  import opened Associations
  import opened Requests
  import opened Store
  import Writes

  /** A user as the handlers answer it: every column but `password_hash`. */
  datatype UsuarioView = UsuarioView(nombre: string, apellido: string, email: string,
                                     telefono: Option<string>, rol_id: int)

  function View(u: Usuario): UsuarioView
  {
    UsuarioView(u.nombre, u.apellido, u.email, u.telefono, u.rol_id)
  }

  /** The view of a user depends on every column but the password hash:
      two users look the same exactly when they agree outside it. */
  lemma ViewHidesPassword(u: Usuario, w: Usuario)
    ensures View(u) == View(w) <==> u.(password_hash := w.password_hash) == w
  {
  }

  /** getUsuarios: every user once, in primary-key order, without its password hash. */
  method GetUsuarios(s: Database) returns (out: seq<(int, UsuarioView)>)
    requires s.Valid()
    ensures forall i :: 0 <= i < |out| ==> out[i].0 in s.usuarios.rows && out[i].1 == View(s.usuarios.rows[out[i].0])
    ensures forall i, j :: 0 <= i < j < |out| ==> out[i].0 < out[j].0
    ensures forall k :: k in s.usuarios.rows ==> exists i :: 0 <= i < |out| && out[i].0 == k
  {
    var rows := Scan(s.usuarios);
    out := [];
    for n := 0 to |rows|
      invariant |out| == n
      invariant forall i :: 0 <= i < n ==> out[i] == (rows[i].0, View(rows[i].1))
    {
      out := out + [(rows[n].0, View(rows[n].1))];
    }
    forall k | k in s.usuarios.rows
      ensures exists i :: 0 <= i < |out| && out[i].0 == k
    {
      var i :| 0 <= i < |rows| && rows[i].0 == k;
      assert out[i].0 == k;
    }
  }

  /** getUsuarioById: the user without its password hash, or 404. */
  function GetUsuarioById(s: Database, id: int): (r: Reply<UsuarioView>)
    reads s
    ensures r.Ok? <==> id in s.usuarios.rows
    ensures r.Ok? ==> r.row == View(s.usuarios.rows[id])
    ensures !r.Ok? ==> r == Failed(404, "USUARIO_NOT_FOUND")
  {
    if id in s.usuarios.rows then Ok(200, id, View(s.usuarios.rows[id])) else Failed(404, "USUARIO_NOT_FOUND")
  }

  /** The row updateUsuario writes. Of the listed body fields only `email`
      and `rol_id` are columns of the table, and an omitted one is left as it is. */
  function UpdatedUsuario(current: Usuario, email: Option<string>, rol_id: Option<int>): Usuario
  {
    current.(email := Given(email, current.email), rol_id := Given(rol_id, current.rol_id))
  }

  /** Whether the update body sets a column. The name fields the handler
      reads are not columns and are dropped by `update`, and so are omitted
      values; with nothing left to set, `update` reports no changed row
      without asking the database. */
  predicate SetsAColumn(email: Option<string>, rol_id: Option<int>)
  {
    email.Some? || rol_id.Some?
  }

  /** Whether the database accepts the updated row under `id`: its columns
      fit, its email is unique and its role exists. */
  ghost predicate UsuarioWritable(us: map<int, Usuario>, roles: map<int, Role>, id: int,
                                  email: Option<string>, rol_id: Option<int>)
    requires id in us
  {
    var row := UpdatedUsuario(us[id], email, rol_id);
    UsuariosOk(us[id := row]) && row.rol_id in roles
  }

  /** updateUsuario: a given email that any user holds, the user being
      updated included, answers 409 before the id is looked at; then an
      unknown id, or a body that sets no column, answers 404; a row the
      database refuses answers 500; otherwise the row is written. The error
      code of the 409 answer is the status itself. */
  method UpdateUsuario(s: Database, id: int, email: Option<string>, rol_id: Option<int>) returns (r: Reply<UsuarioView>)
    requires s.Valid()
    modifies s`usuarios
    ensures s.Valid()
    ensures r == Failed(409, "409") <==> Truthy(email) && EmailTaken(old(s.usuarios.rows), email.value)
    ensures r == Failed(404, "USUARIO_NOT_FOUND") <==>
      !(Truthy(email) && EmailTaken(old(s.usuarios.rows), email.value))
      && (id !in old(s.usuarios.rows) || !SetsAColumn(email, rol_id))
    ensures r == Failed(500, "UPDATE_USUARIO_ERROR") <==>
      !(Truthy(email) && EmailTaken(old(s.usuarios.rows), email.value)) && id in old(s.usuarios.rows)
      && SetsAColumn(email, rol_id) && !UsuarioWritable(old(s.usuarios.rows), s.roles.rows, id, email, rol_id)
    ensures r.Ok? <==>
      !(Truthy(email) && EmailTaken(old(s.usuarios.rows), email.value)) && id in old(s.usuarios.rows)
      && SetsAColumn(email, rol_id) && UsuarioWritable(old(s.usuarios.rows), s.roles.rows, id, email, rol_id)
    ensures r.Failed? || r.Ok?
    ensures r.Failed? ==> s.usuarios == old(s.usuarios)
    ensures r.Ok? ==> id in old(s.usuarios.rows)
                      && s.usuarios == old(s.usuarios).Put(id, UpdatedUsuario(old(s.usuarios.rows[id]), email, rol_id))
                      && s.usuarios.rows[id].password_hash == old(s.usuarios.rows[id].password_hash)
                      && r == Ok(200, id, View(s.usuarios.rows[id]))
  {
    if Truthy(email) && EmailTaken(s.usuarios.rows, email.value) {
      return Failed(409, "409");
    }
    if id !in s.usuarios.rows || !SetsAColumn(email, rol_id) {
      return Failed(404, "USUARIO_NOT_FOUND");
    }
    var row := UpdatedUsuario(s.usuarios.rows[id], email, rol_id);
    if !UsuarioAccepted(s.usuarios.rows, id, row) || row.rol_id !in s.roles.rows {
      return Failed(500, "UPDATE_USUARIO_ERROR");
    }
    ghost var before := s.Snapshot();
    Writes.RefsPut(s.usuarios.rows, UsuarioToRol, s.roles.rows, id, row);
    s.usuarios := s.usuarios.Put(id, row);
    Writes.UsuariosWritten(before, s.usuarios);
    r := Ok(200, id, View(row));
  }

  /** Resubmitting a user's own non-empty email is a conflict: the email
      lookup does not leave the user being updated out. */
  lemma OwnEmailConflicts(us: map<int, Usuario>, id: int)
    requires id in us && |us[id].email| > 0
    ensures Truthy(Some(us[id].email)) && EmailTaken(us, us[id].email)
  {
  }

  /** Whether a user other than the one under `id` holds the email `e`: the
      lookup updateUsuario means to make, leaving the user being updated out. */
  function EmailTakenByOther(us: map<int, Usuario>, id: int, e: string): bool
  {
    exists k :: k in us && k != id && us[k].email == e
  }

  /** updateUsuario as evidently intended: the email lookup leaves the user
      being updated out; every other branch is as written. */
  method UpdateUsuarioCorrected(s: Database, id: int, email: Option<string>, rol_id: Option<int>) returns (r: Reply<UsuarioView>)
    requires s.Valid()
    modifies s`usuarios
    ensures s.Valid()
    ensures r == Failed(409, "409") <==> Truthy(email) && EmailTakenByOther(old(s.usuarios.rows), id, email.value)
    ensures r == Failed(404, "USUARIO_NOT_FOUND") <==>
      !(Truthy(email) && EmailTakenByOther(old(s.usuarios.rows), id, email.value))
      && (id !in old(s.usuarios.rows) || !SetsAColumn(email, rol_id))
    ensures r == Failed(500, "UPDATE_USUARIO_ERROR") <==>
      !(Truthy(email) && EmailTakenByOther(old(s.usuarios.rows), id, email.value)) && id in old(s.usuarios.rows)
      && SetsAColumn(email, rol_id) && !UsuarioWritable(old(s.usuarios.rows), s.roles.rows, id, email, rol_id)
    ensures r.Ok? <==>
      !(Truthy(email) && EmailTakenByOther(old(s.usuarios.rows), id, email.value)) && id in old(s.usuarios.rows)
      && SetsAColumn(email, rol_id) && UsuarioWritable(old(s.usuarios.rows), s.roles.rows, id, email, rol_id)
    ensures r.Failed? || r.Ok?
    ensures r.Failed? ==> s.usuarios == old(s.usuarios)
    ensures r.Ok? ==> id in old(s.usuarios.rows)
                      && s.usuarios == old(s.usuarios).Put(id, UpdatedUsuario(old(s.usuarios.rows[id]), email, rol_id))
                      && r == Ok(200, id, View(s.usuarios.rows[id]))
  {
    if Truthy(email) && EmailTakenByOther(s.usuarios.rows, id, email.value) {
      return Failed(409, "409");
    }
    if id !in s.usuarios.rows || !SetsAColumn(email, rol_id) {
      return Failed(404, "USUARIO_NOT_FOUND");
    }
    var row := UpdatedUsuario(s.usuarios.rows[id], email, rol_id);
    if !UsuarioAccepted(s.usuarios.rows, id, row) || row.rol_id !in s.roles.rows {
      return Failed(500, "UPDATE_USUARIO_ERROR");
    }
    ghost var before := s.Snapshot();
    Writes.RefsPut(s.usuarios.rows, UsuarioToRol, s.roles.rows, id, row);
    s.usuarios := s.usuarios.Put(id, row);
    Writes.UsuariosWritten(before, s.usuarios);
    r := Ok(200, id, View(row));
  }

  /** With the corrected lookup, resubmitting a user's own email (with a role
      that exists) is written: no other user can hold it, and the row stays
      within its columns. */
  lemma OwnEmailAccepted(us: map<int, Usuario>, id: int, rol_id: Option<int>)
    requires UsuariosOk(us) && id in us
    ensures !EmailTakenByOther(us, id, us[id].email)
    ensures UsuariosOk(us[id := UpdatedUsuario(us[id], Some(us[id].email), rol_id)])
  {
    var row := UpdatedUsuario(us[id], Some(us[id].email), rol_id);
    assert UsuarioOk(us[id]);
    forall k | k in us && k != id
      ensures us[k].email != us[id].email && !UsuarioClash(us[k], row)
    {
      assert !UsuarioClash(us[k], us[id]);
    }
    EveryPut(us, id, row, UsuarioOk);
    DistinctPut(us, id, row, UsuarioClash);
  }

  /** deleteUsuario: 404 when no user has the id; otherwise the user goes,
      with its profile, applications and skill rows (204). */
  method DeleteUsuario(s: Database, id: int) returns (r: Reply<UsuarioView>)
    requires s.Valid()
    modifies s`usuarios, s`perfiles, s`contactos, s`bitacoraPerfiles, s`aplicaciones, s`usuariosHabilidades
    ensures s.Valid()
    ensures id in old(s.usuarios.rows) ==> r == NoContent && s.Snapshot() == RemoveUsuario(old(s.Snapshot()), id)
    ensures id !in old(s.usuarios.rows) ==> r == Failed(404, "USUARIO_NOT_FOUND") && s.Snapshot() == old(s.Snapshot())
  {
    if id !in s.usuarios.rows {
      return Failed(404, "USUARIO_NOT_FOUND");
    }
    s.DestroyUsuario(id);
    r := NoContent;
  }
}
