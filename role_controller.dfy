/** The handlers of src/controllers/roleController.js. */
module RoleController {
  import opened Tables
  import opened Models
  import opened Associations
  import opened Requests
  import opened Store
  import Writes

  /** getRoles: every role once, in primary-key order. */
  method GetRoles(s: Database) returns (out: seq<(int, Role)>)
    requires s.Valid()
    ensures forall i :: 0 <= i < |out| ==> out[i].0 in s.roles.rows && s.roles.rows[out[i].0] == out[i].1
    ensures forall i, j :: 0 <= i < j < |out| ==> out[i].0 < out[j].0
    ensures forall k :: k in s.roles.rows ==> exists i :: 0 <= i < |out| && out[i].0 == k
  {
    out := Scan(s.roles);
  }

  /** getRoleById: the role, or 404 when there is none. */
  function GetRoleById(s: Database, id: int): (r: Reply<Role>)
    reads s
    ensures r.Ok? <==> id in s.roles.rows
    ensures r.Ok? ==> r.row == s.roles.rows[id]
    ensures !r.Ok? ==> r == Failed(404, "ROLE_NOT_FOUND")
  {
    FindByPk(s.roles, id, "ROLE_NOT_FOUND")
  }

  /** createRole: a role with the given name and description is added (201);
      a missing name, a value too long, or a name another role has is
      refused (500). */
  method CreateRole(s: Database, nombre: Option<string>, descripcion: Option<string>) returns (r: Reply<Role>)
    requires s.Valid()
    modifies s`roles
    ensures s.Valid()
    ensures r.Ok? <==> nombre.Some? && RolesOk(old(s.roles.rows)[old(s.roles.next) := Role(nombre.value, descripcion)])
    ensures !r.Ok? ==> r == Failed(500, "CREATE_ROLE_ERROR") && s.roles == old(s.roles)
    ensures r.Ok? ==> r == Ok(201, old(s.roles.next), Role(nombre.value, descripcion))
                      && s.roles == old(s.roles).Insert(r.row)
  {
    if nombre.None? {
      return Failed(500, "CREATE_ROLE_ERROR");
    }
    var row := Role(nombre.value, descripcion);
    var id := s.roles.next;
    if !RoleAccepted(s.roles.rows, id, row) {
      return Failed(500, "CREATE_ROLE_ERROR");
    }
    ghost var before := s.Snapshot();
    s.roles := s.roles.Insert(row);
    Writes.RolesWritten(before, s.roles);
    r := Ok(201, id, row);
  }

  /** updateRole: 404 for an unknown id; otherwise both columns are assigned
      from the body, so an omitted name fails (500) and an omitted
      description becomes null; a value too long or a name another role has
      answers 500; otherwise the role is written (200). */
  method UpdateRole(s: Database, id: int, nombre: Option<string>, descripcion: Option<string>) returns (r: Reply<Role>)
    requires s.Valid()
    modifies s`roles
    ensures s.Valid()
    ensures id !in old(s.roles.rows) ==> r == Failed(404, "ROLE_NOT_FOUND")
    ensures r.Ok? <==> id in old(s.roles.rows) && nombre.Some?
                       && RolesOk(old(s.roles.rows)[id := Role(nombre.value, descripcion)])
    ensures r.Failed? || r.Ok?
    ensures r.Failed? ==> s.roles == old(s.roles)
    ensures r.Failed? && id in old(s.roles.rows) ==> r == Failed(500, "UPDATE_ROLE_ERROR")
    ensures r.Ok? ==> r == Ok(200, id, Role(nombre.value, descripcion)) && s.roles == old(s.roles).Put(id, r.row)
  {
    if id !in s.roles.rows {
      return Failed(404, "ROLE_NOT_FOUND");
    }
    if nombre.None? {
      return Failed(500, "UPDATE_ROLE_ERROR");
    }
    var row := Role(nombre.value, descripcion);
    if !RoleAccepted(s.roles.rows, id, row) {
      return Failed(500, "UPDATE_ROLE_ERROR");
    }
    ghost var before := s.Snapshot();
    s.roles := s.roles.Put(id, row);
    Writes.RolesWritten(before, s.roles);
    r := Ok(200, id, row);
  }

  /** Renaming a role in place keeps it: resubmitting its own name with any
      description that fits never clashes. */
  lemma OwnNameNeverClashes(rs: map<int, Role>, id: int, descripcion: Option<string>)
    requires RolesOk(rs) && id in rs && FitsIn(descripcion, 50)
    ensures RolesOk(rs[id := Role(rs[id].nombre, descripcion)])
  {
    var row := Role(rs[id].nombre, descripcion);
    assert RoleOk(rs[id]);
    forall k | k in rs && k != id
      ensures !RoleClash(rs[k], row)
    {
      assert !RoleClash(rs[k], rs[id]);
    }
    EveryPut(rs, id, row, RoleOk);
    DistinctPut(rs, id, row, RoleClash);
  }

  /** deleteRole: 404 for an unknown id; a role some user still has is
      kept, the restricting foreign key failing the delete (500); otherwise
      the role is removed (204). */
  method DeleteRole(s: Database, id: int) returns (r: Reply<Role>)
    requires s.Valid()
    modifies s`roles
    ensures s.Valid()
    ensures id !in old(s.roles.rows) ==> r == Failed(404, "ROLE_NOT_FOUND") && s.roles == old(s.roles)
    ensures id in old(s.roles.rows) && RoleInUse(old(s.Snapshot()), id) ==>
      r == Failed(500, "DELETE_ROLE_ERROR") && s.roles == old(s.roles)
    ensures id in old(s.roles.rows) && !RoleInUse(old(s.Snapshot()), id) ==>
      r == NoContent && s.Snapshot() == RemoveRole(old(s.Snapshot()), id)
  {
    if id !in s.roles.rows {
      return Failed(404, "ROLE_NOT_FOUND");
    }
    var refused := s.DestroyRole(id);
    r := if refused then Failed(500, "DELETE_ROLE_ERROR") else NoContent;
  }
}
