/** What the delete rules of the schema guarantee: every delete the database
    permits leaves it consistent, each cascade removes exactly the rows that
    depend on the deleted one, and the RESTRICT on roles is needed. */
module DeleteRules {
  import opened Tables
  import opened Models
  import opened Associations

  /** Deleting logbooks (with their links) keeps the database consistent. */
  lemma RemoveBitacorasConsistent(db: Db, bs: set<int>)
    requires Consistent(db)
    ensures Consistent(RemoveBitacoras(db, bs))
  {
    var perfilLinks := Referencing(db.bitacoraPerfiles.rows, BitacoraPerfilToBitacora, bs);
    var itemLinks := Referencing(db.bitacoraItemLinks.rows, ItemLinkToBitacora, bs);
    DropFresh(db.bitacoras, bs);
    DropFresh(db.bitacoraPerfiles, perfilLinks);
    DropFresh(db.bitacoraItemLinks, itemLinks);
    DistinctDrop(db.bitacoraItemLinks.rows, itemLinks, BitacoraItemLinkClash);
    RefsDropChild(db.bitacoras.rows, BitacoraToProyecto, db.proyectos.rows, bs);
    RefsDropParent(db.bitacoraPerfiles.rows, BitacoraPerfilToBitacora, db.bitacoras.rows, bs);
    RefsDropChild(db.bitacoraPerfiles.rows, BitacoraPerfilToPerfil, db.perfiles.rows, perfilLinks);
    RefsDropParent(db.bitacoraItemLinks.rows, ItemLinkToBitacora, db.bitacoras.rows, bs);
    RefsDropChild(db.bitacoraItemLinks.rows, ItemLinkToItem, db.bitacoraItems.rows, itemLinks);
  }

  /** Deleting projects (with everything that depends on them) keeps the
      database consistent. */
  lemma RemoveProyectosConsistent(db: Db, ps: set<int>)
    requires Consistent(db)
    ensures Consistent(RemoveProyectos(db, ps))
  {
    var bs := Referencing(db.bitacoras.rows, BitacoraToProyecto, ps);
    RemoveBitacorasConsistent(db, bs);
    var d := RemoveBitacoras(db, bs);
    var apl := Referencing(d.aplicaciones.rows, AplicacionToProyecto, ps);
    var phs := Referencing(d.proyectosHabilidades.rows, ProyectoHabilidadToProyecto, ps);
    var acts := Referencing(d.actividades.rows, ActividadToProyecto, ps);
    DropFresh(d.proyectos, ps);
    DropFresh(d.aplicaciones, apl);
    DropFresh(d.proyectosHabilidades, phs);
    DropFresh(d.actividades, acts);
    EveryDrop(d.proyectos.rows, ps, ProyectoOk);
    DistinctDrop(d.proyectosHabilidades.rows, phs, ProyectoHabilidadClash);
    RefsDropChild(d.proyectos.rows, ProyectoToInstitucion, d.instituciones.rows, ps);
    RefsDropParent(d.aplicaciones.rows, AplicacionToProyecto, d.proyectos.rows, ps);
    RefsDropChild(d.aplicaciones.rows, AplicacionToEstudiante, d.usuarios.rows, apl);
    RefsDropParent(d.proyectosHabilidades.rows, ProyectoHabilidadToProyecto, d.proyectos.rows, ps);
    RefsDropChild(d.proyectosHabilidades.rows, ProyectoHabilidadToHabilidad, d.habilidades.rows, phs);
    RefsDropParent(d.actividades.rows, ActividadToProyecto, d.proyectos.rows, ps);
    RefsDropParent(db.bitacoras.rows, BitacoraToProyecto, db.proyectos.rows, ps);
  }

  /** Deleting an institution keeps the database consistent. */
  lemma RemoveInstitucionConsistent(db: Db, i: int)
    requires Consistent(db)
    ensures Consistent(RemoveInstitucion(db, i))
  {
    var ps := Referencing(db.proyectos.rows, ProyectoToInstitucion, {i});
    RemoveProyectosConsistent(db, ps);
    var d := RemoveProyectos(db, ps);
    DropFresh(d.instituciones, {i});
    EveryDrop(d.instituciones.rows, {i}, InstitucionOk);
    DistinctDrop(d.instituciones.rows, {i}, InstitucionClash);
    RefsDropParent(db.proyectos.rows, ProyectoToInstitucion, db.instituciones.rows, {i});
  }

  /** Deleting profiles (with their contacts and logbook links) keeps the
      database consistent. */
  lemma RemovePerfilesConsistent(db: Db, ps: set<int>)
    requires Consistent(db)
    ensures Consistent(RemovePerfiles(db, ps))
  {
    var cts := Referencing(db.contactos.rows, ContactoToPerfil, ps);
    var links := Referencing(db.bitacoraPerfiles.rows, BitacoraPerfilToPerfil, ps);
    DropFresh(db.perfiles, ps);
    DropFresh(db.contactos, cts);
    DropFresh(db.bitacoraPerfiles, links);
    EveryDrop(db.perfiles.rows, ps, PerfilOk);
    RefsDropChild(db.perfiles.rows, PerfilToUsuario, db.usuarios.rows, ps);
    RefsDropChild(db.perfiles.rows, PerfilToCarrera, db.carreras.rows, ps);
    RefsDropParent(db.contactos.rows, ContactoToPerfil, db.perfiles.rows, ps);
    RefsDropParent(db.bitacoraPerfiles.rows, BitacoraPerfilToPerfil, db.perfiles.rows, ps);
    RefsDropChild(db.bitacoraPerfiles.rows, BitacoraPerfilToBitacora, db.bitacoras.rows, links);
  }

  /** Deleting a user keeps the database consistent. */
  lemma RemoveUsuarioConsistent(db: Db, u: int)
    requires Consistent(db)
    ensures Consistent(RemoveUsuario(db, u))
  {
    var ps := Referencing(db.perfiles.rows, PerfilToUsuario, {u});
    RemovePerfilesConsistent(db, ps);
    var d := RemovePerfiles(db, ps);
    var apl := Referencing(d.aplicaciones.rows, AplicacionToEstudiante, {u});
    var uhs := Referencing(d.usuariosHabilidades.rows, UsuarioHabilidadToUsuario, {u});
    DropFresh(d.usuarios, {u});
    DropFresh(d.aplicaciones, apl);
    DropFresh(d.usuariosHabilidades, uhs);
    EveryDrop(d.usuarios.rows, {u}, UsuarioOk);
    DistinctDrop(d.usuarios.rows, {u}, UsuarioClash);
    DistinctDrop(d.usuariosHabilidades.rows, uhs, UsuarioHabilidadClash);
    RefsDropChild(d.usuarios.rows, UsuarioToRol, d.roles.rows, {u});
    RefsDropParent(db.perfiles.rows, PerfilToUsuario, db.usuarios.rows, {u});
    RefsDropParent(d.aplicaciones.rows, AplicacionToEstudiante, d.usuarios.rows, {u});
    RefsDropChild(d.aplicaciones.rows, AplicacionToProyecto, d.proyectos.rows, apl);
    RefsDropParent(d.usuariosHabilidades.rows, UsuarioHabilidadToUsuario, d.usuarios.rows, {u});
    RefsDropChild(d.usuariosHabilidades.rows, UsuarioHabilidadToHabilidad, d.habilidades.rows, uhs);
  }

  /** Deleting a skill keeps the database consistent. */
  lemma RemoveHabilidadConsistent(db: Db, h: int)
    requires Consistent(db)
    ensures Consistent(RemoveHabilidad(db, h))
  {
    var uhs := Referencing(db.usuariosHabilidades.rows, UsuarioHabilidadToHabilidad, {h});
    var phs := Referencing(db.proyectosHabilidades.rows, ProyectoHabilidadToHabilidad, {h});
    DropFresh(db.habilidades, {h});
    DropFresh(db.usuariosHabilidades, uhs);
    DropFresh(db.proyectosHabilidades, phs);
    DistinctDrop(db.usuariosHabilidades.rows, uhs, UsuarioHabilidadClash);
    DistinctDrop(db.proyectosHabilidades.rows, phs, ProyectoHabilidadClash);
    RefsDropParent(db.usuariosHabilidades.rows, UsuarioHabilidadToHabilidad, db.habilidades.rows, {h});
    RefsDropChild(db.usuariosHabilidades.rows, UsuarioHabilidadToUsuario, db.usuarios.rows, uhs);
    RefsDropParent(db.proyectosHabilidades.rows, ProyectoHabilidadToHabilidad, db.habilidades.rows, {h});
    RefsDropChild(db.proyectosHabilidades.rows, ProyectoHabilidadToProyecto, db.proyectos.rows, phs);
  }

  /** Clearing the career of the profiles that name a deleted career leaves
      every profile valid, still owned by its user, and naming only careers
      that remain. */
  lemma ClearedPerfiles(db: Db, cs: set<int>)
    requires Consistent(db)
    ensures var m := Cleared(db.perfiles.rows, PerfilToCarrera, cs, WithoutCarrera);
      && m.Keys == db.perfiles.rows.Keys
      && PerfilesOk(m)
      && Refs(m, PerfilToUsuario, db.usuarios.rows)
      && Refs(m, PerfilToCarrera, db.carreras.rows - cs)
  {
    var m := Cleared(db.perfiles.rows, PerfilToCarrera, cs, WithoutCarrera);
    forall k | k in m
      ensures PerfilOk(m[k]) && m[k].usuario_id == db.perfiles.rows[k].usuario_id
      ensures m[k].id_carrera.Some? ==> m[k].id_carrera.value in db.carreras.rows - cs
    {
      assert PerfilOk(db.perfiles.rows[k]);
      assert PerfilToCarrera(db.perfiles.rows[k]).Some? ==> db.perfiles.rows[k].id_carrera.value in db.carreras.rows;
    }
  }

  /** Deleting careers (removing their coordinators, clearing them from the
      profiles) keeps the database consistent. */
  lemma RemoveCarrerasConsistent(db: Db, cs: set<int>)
    requires Consistent(db)
    ensures Consistent(RemoveCarreras(db, cs))
  {
    var crs := Referencing(db.coordinadores.rows, CoordinadorToCarrera, cs);
    DropFresh(db.carreras, cs);
    DropFresh(db.coordinadores, crs);
    ClearedPerfiles(db, cs);
    DistinctDrop(db.carreras.rows, cs, CarreraClash);
    DistinctDrop(db.coordinadores.rows, crs, CoordinadorClash);
    RefsDropChild(db.carreras.rows, CarreraToEscuela, db.escuelas.rows, cs);
    RefsDropParent(db.coordinadores.rows, CoordinadorToCarrera, db.carreras.rows, cs);
  }

  /** Deleting a school keeps the database consistent. */
  lemma RemoveEscuelaConsistent(db: Db, e: int)
    requires Consistent(db)
    ensures Consistent(RemoveEscuela(db, e))
  {
    var cs := Referencing(db.carreras.rows, CarreraToEscuela, {e});
    RemoveCarrerasConsistent(db, cs);
    var d := RemoveCarreras(db, cs);
    DropFresh(d.escuelas, {e});
    EveryDrop(d.escuelas.rows, {e}, EscuelaOk);
    DistinctDrop(d.escuelas.rows, {e}, EscuelaClash);
    RefsDropParent(db.carreras.rows, CarreraToEscuela, db.escuelas.rows, {e});
  }

  /** Deleting a role that no user refers to keeps the database consistent. */
  lemma RemoveRoleConsistent(db: Db, r: int)
    requires Consistent(db) && !RoleInUse(db, r)
    ensures Consistent(RemoveRole(db, r))
  {
    DropFresh(db.roles, {r});
    EveryDrop(db.roles.rows, {r}, RoleOk);
    DistinctDrop(db.roles.rows, {r}, RoleClash);
    RefsDropParent(db.usuarios.rows, UsuarioToRol, db.roles.rows, {r});
    assert db.usuarios.rows - Referencing(db.usuarios.rows, UsuarioToRol, {r}) == db.usuarios.rows;
  }

  /** RESTRICT is needed: deleting role `r` while user `u` refers to it would
      leave that user naming a role that does not exist. */
  lemma RoleRestrictNeeded(db: Db, r: int, u: int)
    requires u in db.usuarios.rows && db.usuarios.rows[u].rol_id == r
    ensures RoleInUse(db, r)
    ensures !Integrity(RemoveRole(db, r))
  {
    assert u in Referencing(db.usuarios.rows, UsuarioToRol, {r});
    assert UsuarioToRol(RemoveRole(db, r).usuarios.rows[u]).value !in RemoveRole(db, r).roles.rows;
  }

  // ---------------------------------------------------------------------
  // Exactly what each delete removes
  // ---------------------------------------------------------------------

  /** Deleting user `u` removes the user, the profiles it owns, the contacts
      and logbook links of those profiles, and its applications and skill
      rows; no other row of those tables, and nothing in any other table. */
  lemma RemoveUsuarioEffect(db: Db, u: int)
    requires Consistent(db)
    ensures var out := RemoveUsuario(db, u);
      && out.usuarios.rows.Keys == db.usuarios.rows.Keys - {u}
      && (forall k :: k in out.perfiles.rows <==> k in db.perfiles.rows && db.perfiles.rows[k].usuario_id != u)
      && (forall k :: k in out.aplicaciones.rows <==>
            k in db.aplicaciones.rows && db.aplicaciones.rows[k].estudiante_id != u)
      && (forall k :: k in out.usuariosHabilidades.rows <==>
            k in db.usuariosHabilidades.rows && db.usuariosHabilidades.rows[k].usuario_id != u)
      && (forall k :: k in out.contactos.rows <==>
            k in db.contactos.rows && !OwnedContacto(db, db.contactos.rows[k], u))
      && (forall k :: k in out.bitacoraPerfiles.rows <==>
            k in db.bitacoraPerfiles.rows
            && db.perfiles.rows[db.bitacoraPerfiles.rows[k].id_perfil_usuario].usuario_id != u)
      && out.roles == db.roles && out.proyectos == db.proyectos && out.instituciones == db.instituciones
      && out.habilidades == db.habilidades && out.carreras == db.carreras && out.bitacoras == db.bitacoras
      && out.coordinadores == db.coordinadores && out.bitacoraItemLinks == db.bitacoraItemLinks
  {
    var out := RemoveUsuario(db, u);
    forall k | k in db.bitacoraPerfiles.rows
      ensures k in out.bitacoraPerfiles.rows <==>
        db.perfiles.rows[db.bitacoraPerfiles.rows[k].id_perfil_usuario].usuario_id != u
    {
      assert BitacoraPerfilToPerfil(db.bitacoraPerfiles.rows[k]).value in db.perfiles.rows;
    }
  }

  /** Whether contact `c` belongs to a profile of user `u`. */
  ghost predicate OwnedContacto(db: Db, c: Contacto, u: int)
  {
    c.id_perfil_usuario.Some? && c.id_perfil_usuario.value in db.perfiles.rows
    && db.perfiles.rows[c.id_perfil_usuario.value].usuario_id == u
  }

  /** Deleting institution `i` removes its projects and, through them, exactly
      the applications, project skills, activities and logbooks of those
      projects; users, skills and logbook items stay. */
  lemma RemoveInstitucionEffect(db: Db, i: int)
    requires Consistent(db)
    ensures var out := RemoveInstitucion(db, i);
      && out.instituciones.rows.Keys == db.instituciones.rows.Keys - {i}
      && (forall k :: k in out.proyectos.rows <==>
            k in db.proyectos.rows && db.proyectos.rows[k].institucion_id != i)
      && (forall k :: k in out.aplicaciones.rows <==>
            k in db.aplicaciones.rows && db.proyectos.rows[db.aplicaciones.rows[k].proyecto_id].institucion_id != i)
      && (forall k :: k in out.proyectosHabilidades.rows <==>
            k in db.proyectosHabilidades.rows
            && db.proyectos.rows[db.proyectosHabilidades.rows[k].proyecto_id].institucion_id != i)
      && (forall k :: k in out.actividades.rows <==>
            k in db.actividades.rows && !OfInstitucion(db, db.actividades.rows[k].id_proyecto, i))
      && (forall k :: k in out.bitacoras.rows <==>
            k in db.bitacoras.rows && !OfInstitucion(db, db.bitacoras.rows[k].id_proyecto, i))
      && out.usuarios == db.usuarios && out.perfiles == db.perfiles && out.habilidades == db.habilidades
      && out.usuariosHabilidades == db.usuariosHabilidades && out.bitacoraItems == db.bitacoraItems
      && out.encargados == db.encargados && out.roles == db.roles
  {
    var out := RemoveInstitucion(db, i);
    forall k | k in db.aplicaciones.rows
      ensures k in out.aplicaciones.rows <==>
        db.proyectos.rows[db.aplicaciones.rows[k].proyecto_id].institucion_id != i
    {
      assert AplicacionToProyecto(db.aplicaciones.rows[k]).value in db.proyectos.rows;
    }
    forall k | k in db.proyectosHabilidades.rows
      ensures k in out.proyectosHabilidades.rows <==>
        db.proyectos.rows[db.proyectosHabilidades.rows[k].proyecto_id].institucion_id != i
    {
      assert ProyectoHabilidadToProyecto(db.proyectosHabilidades.rows[k]).value in db.proyectos.rows;
    }
    forall k | k in db.actividades.rows
      ensures k in out.actividades.rows <==> !OfInstitucion(db, db.actividades.rows[k].id_proyecto, i)
    {
      RefersToReferencing(db.actividades.rows[k].id_proyecto, db.proyectos.rows, ProyectoToInstitucion, {i});
    }
    forall k | k in db.bitacoras.rows
      ensures k in out.bitacoras.rows <==> !OfInstitucion(db, db.bitacoras.rows[k].id_proyecto, i)
    {
      RefersToReferencing(db.bitacoras.rows[k].id_proyecto, db.proyectos.rows, ProyectoToInstitucion, {i});
    }
  }

  /** Whether a nullable project reference names a project of institution `i`. */
  ghost predicate OfInstitucion(db: Db, p: Option<int>, i: int)
  {
    p.Some? && p.value in db.proyectos.rows && db.proyectos.rows[p.value].institucion_id == i
  }

  /** Deleting skill `h` removes exactly the user and project rows naming it. */
  lemma RemoveHabilidadEffect(db: Db, h: int)
    requires Consistent(db)
    ensures var out := RemoveHabilidad(db, h);
      && out.habilidades.rows.Keys == db.habilidades.rows.Keys - {h}
      && (forall k :: k in out.usuariosHabilidades.rows <==>
            k in db.usuariosHabilidades.rows && db.usuariosHabilidades.rows[k].habilidad_id != h)
      && (forall k :: k in out.proyectosHabilidades.rows <==>
            k in db.proyectosHabilidades.rows && db.proyectosHabilidades.rows[k].habilidad_id != h)
      && out.usuarios == db.usuarios && out.proyectos == db.proyectos
  {
  }

  /** Deleting school `e` removes its careers and their coordinators; the
      profiles stay, and a profile loses its career exactly when that career
      belonged to `e`. */
  lemma RemoveEscuelaEffect(db: Db, e: int)
    requires Consistent(db)
    ensures var out := RemoveEscuela(db, e);
      && out.escuelas.rows.Keys == db.escuelas.rows.Keys - {e}
      && (forall k :: k in out.carreras.rows <==> k in db.carreras.rows && db.carreras.rows[k].id_escuela != Some(e))
      && (forall k :: k in out.coordinadores.rows <==>
            k in db.coordinadores.rows && !OfEscuela(db, db.coordinadores.rows[k].id_carrera, e))
      && out.perfiles.rows.Keys == db.perfiles.rows.Keys
      && (forall k :: k in db.perfiles.rows ==>
            out.perfiles.rows[k] ==
              if OfEscuela(db, db.perfiles.rows[k].id_carrera, e) then db.perfiles.rows[k].(id_carrera := None)
              else db.perfiles.rows[k])
      && out.usuarios == db.usuarios && out.contactos == db.contactos
  {
    var out := RemoveEscuela(db, e);
    forall k | k in db.coordinadores.rows
      ensures k in out.coordinadores.rows <==> !OfEscuela(db, db.coordinadores.rows[k].id_carrera, e)
    {
      RefersToReferencing(db.coordinadores.rows[k].id_carrera, db.carreras.rows, CarreraToEscuela, {e});
    }
    forall k | k in db.perfiles.rows
      ensures out.perfiles.rows[k] ==
        if OfEscuela(db, db.perfiles.rows[k].id_carrera, e) then db.perfiles.rows[k].(id_carrera := None)
        else db.perfiles.rows[k]
    {
      RefersToReferencing(db.perfiles.rows[k].id_carrera, db.carreras.rows, CarreraToEscuela, {e});
    }
  }

  /** Whether a nullable career reference names a career of school `e`. */
  ghost predicate OfEscuela(db: Db, c: Option<int>, e: int)
  {
    c.Some? && c.value in db.carreras.rows && db.carreras.rows[c.value].id_escuela == Some(e)
  }
}
