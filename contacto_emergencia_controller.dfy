/** The handlers of src/controllers/contactoEmergenciaController.js. A body
    field left as `None` is omitted; on create it leaves the column null. */
module ContactoEmergenciaController {
  import opened Tables
  import opened Models
  import opened Associations
  import opened Requests
  import opened Store
  import Writes

  /** Whether the contact names a profile that does not exist. */
  predicate Dangles(s: Database, c: Contacto)
    reads s
  {
    c.id_perfil_usuario.Some? && c.id_perfil_usuario.value !in s.perfiles.rows
  }

  /** getContactosEmergencia: every contact once, in primary-key order. */
  method GetContactosEmergencia(s: Database) returns (out: seq<(int, Contacto)>)
    requires s.Valid()
    ensures forall i :: 0 <= i < |out| ==>
              out[i].0 in s.contactos.rows && s.contactos.rows[out[i].0] == out[i].1
    ensures forall i, j :: 0 <= i < j < |out| ==> out[i].0 < out[j].0
    ensures forall k :: k in s.contactos.rows ==> exists i :: 0 <= i < |out| && out[i].0 == k
  {
    out := Scan(s.contactos);
  }

  /** getContactoEmergenciaById: the contact, or 404 when there is none. */
  function GetContactoEmergenciaById(s: Database, id: int): (r: Reply<Contacto>)
    reads s
    ensures r.Ok? <==> id in s.contactos.rows
    ensures r.Ok? ==> r.row == s.contactos.rows[id]
    ensures !r.Ok? ==> r == Failed(404, "CONTACTO_NOT_FOUND")
  {
    FindByPk(s.contactos, id, "CONTACTO_NOT_FOUND")
  }

  /** createContactoEmergencia: a value too long for its column is refused
      (500); a profile that does not exist is refused by the foreign key
      (400); otherwise the contact is added and read back (201). */
  method CreateContactoEmergencia(s: Database, body: Contacto) returns (r: Reply<Contacto>)
    requires s.Valid()
    modifies s`contactos
    ensures s.Valid()
    ensures r == Failed(500, "CREATE_CONTACTO_ERROR") <==> !ContactoOk(body)
    ensures r == Failed(400, "PERFIL_NOT_FOUND") <==> ContactoOk(body) && Dangles(s, body)
    ensures r.Ok? <==> ContactoOk(body) && !Dangles(s, body)
    ensures r.Failed? || r.Ok?
    ensures r.Failed? ==> s.contactos == old(s.contactos)
    ensures r.Ok? ==> r == Ok(201, old(s.contactos.next), body) && s.contactos == old(s.contactos).Insert(body)
  {
    if !ContactoOk(body) {
      return Failed(500, "CREATE_CONTACTO_ERROR");
    }
    if Dangles(s, body) {
      return Failed(400, "PERFIL_NOT_FOUND");
    }
    var id := s.contactos.next;
    ghost var before := s.Snapshot();
    Writes.RefsPut(s.contactos.rows, ContactoToPerfil, s.perfiles.rows, id, body);
    EveryPut(s.contactos.rows, id, body, ContactoOk);
    s.contactos := s.contactos.Insert(body);
    Writes.ContactosWritten(before, s.contactos);
    r := Ok(201, id, body);
  }

  /** The row `contacto.update(body)` writes: each given field replaces the
      column, each omitted one is left as it is. */
  function MergeContacto(current: Contacto, body: Contacto): Contacto
  {
    Contacto(GivenOpt(body.nombres, current.nombres), GivenOpt(body.apellidos, current.apellidos),
             GivenOpt(body.telefono, current.telefono), GivenOpt(body.direccion, current.direccion),
             GivenOpt(body.id_perfil_usuario, current.id_perfil_usuario))
  }

  /** updateContactoEmergencia: 404 for an unknown id; a merged value too
      long for its column answers 500; a profile that does not exist answers
      400; otherwise the merged row is written and read back (200). */
  method UpdateContactoEmergencia(s: Database, id: int, body: Contacto) returns (r: Reply<Contacto>)
    requires s.Valid()
    modifies s`contactos
    ensures s.Valid()
    ensures r == Failed(404, "CONTACTO_NOT_FOUND") <==> id !in old(s.contactos.rows)
    ensures r == Failed(500, "UPDATE_CONTACTO_ERROR") <==>
      id in old(s.contactos.rows) && !ContactoOk(MergeContacto(old(s.contactos.rows[id]), body))
    ensures r == Failed(400, "PERFIL_NOT_FOUND") <==>
      id in old(s.contactos.rows) && var c := MergeContacto(old(s.contactos.rows[id]), body);
      ContactoOk(c) && Dangles(s, c)
    ensures r.Ok? <==>
      id in old(s.contactos.rows) && var c := MergeContacto(old(s.contactos.rows[id]), body);
      ContactoOk(c) && !Dangles(s, c)
    ensures r.Failed? || r.Ok?
    ensures r.Failed? ==> s.contactos == old(s.contactos)
    ensures r.Ok? ==> r == Ok(200, id, MergeContacto(old(s.contactos.rows[id]), body))
                      && s.contactos == old(s.contactos).Put(id, r.row)
  {
    if id !in s.contactos.rows {
      return Failed(404, "CONTACTO_NOT_FOUND");
    }
    var row := MergeContacto(s.contactos.rows[id], body);
    if !ContactoOk(row) {
      return Failed(500, "UPDATE_CONTACTO_ERROR");
    }
    if Dangles(s, row) {
      return Failed(400, "PERFIL_NOT_FOUND");
    }
    ghost var before := s.Snapshot();
    Writes.RefsPut(s.contactos.rows, ContactoToPerfil, s.perfiles.rows, id, row);
    EveryPut(s.contactos.rows, id, row, ContactoOk);
    s.contactos := s.contactos.Put(id, row);
    Writes.ContactosWritten(before, s.contactos);
    r := Ok(200, id, row);
  }

  /** Sending back the row as it is changes nothing, and sending nothing
      changes nothing: the merge keeps every column the body leaves out. */
  lemma MergeContactoKeeps(current: Contacto)
    ensures MergeContacto(current, current) == current
    ensures MergeContacto(current, Contacto(None, None, None, None, None)) == current
  {
  }

  /** deleteContactoEmergencia: 404 for an unknown id, otherwise the contact is removed (204). */
  method DeleteContactoEmergencia(s: Database, id: int) returns (r: Reply<Contacto>)
    requires s.Valid()
    modifies s`contactos
    ensures s.Valid()
    ensures id in old(s.contactos.rows) ==> r == NoContent
    ensures id !in old(s.contactos.rows) ==> r == Failed(404, "CONTACTO_NOT_FOUND")
    ensures s.contactos == old(s.contactos).Drop({id})
  {
    if id !in s.contactos.rows {
      return Failed(404, "CONTACTO_NOT_FOUND");
    }
    ghost var before := s.Snapshot();
    s.contactos := s.contactos.Drop({id});
    Writes.ContactosWritten(before, s.contactos);
    r := NoContent;
  }
}
