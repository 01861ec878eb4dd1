/** What a write to one table must respect for the database to stay
    consistent: the table's own constraints, its references to its parents,
    and, for a table other rows refer to, keeping every key those rows may
    name. Each lemma changes one table of a consistent database. */
module Writes {
  import opened Tables
  import opened Models
  import opened Associations

  lemma RolesWritten(db: Db, t: Table<Role>)
    requires Consistent(db)
    requires t.Fresh() && RolesOk(t.rows) && db.roles.rows.Keys <= t.rows.Keys
    ensures Consistent(db.(roles := t))
  {
  }

  lemma UsuariosWritten(db: Db, t: Table<Usuario>)
    requires Consistent(db)
    requires t.Fresh() && UsuariosOk(t.rows) && db.usuarios.rows.Keys <= t.rows.Keys
    requires Refs(t.rows, UsuarioToRol, db.roles.rows)
    ensures Consistent(db.(usuarios := t))
  {
  }

  lemma PerfilesWritten(db: Db, t: Table<Perfil>)
    requires Consistent(db)
    requires t.Fresh() && PerfilesOk(t.rows) && db.perfiles.rows.Keys <= t.rows.Keys
    requires Refs(t.rows, PerfilToUsuario, db.usuarios.rows)
    requires Refs(t.rows, PerfilToCarrera, db.carreras.rows)
    ensures Consistent(db.(perfiles := t))
  {
  }

  lemma InstitucionesWritten(db: Db, t: Table<Institucion>)
    requires Consistent(db)
    requires t.Fresh() && InstitucionesOk(t.rows) && db.instituciones.rows.Keys <= t.rows.Keys
    ensures Consistent(db.(instituciones := t))
  {
  }

  lemma ProyectosWritten(db: Db, t: Table<Proyecto>)
    requires Consistent(db)
    requires t.Fresh() && ProyectosOk(t.rows) && db.proyectos.rows.Keys <= t.rows.Keys
    requires Refs(t.rows, ProyectoToInstitucion, db.instituciones.rows)
    ensures Consistent(db.(proyectos := t))
  {
  }

  lemma EscuelasWritten(db: Db, t: Table<Escuela>)
    requires Consistent(db)
    requires t.Fresh() && EscuelasOk(t.rows) && db.escuelas.rows.Keys <= t.rows.Keys
    ensures Consistent(db.(escuelas := t))
  {
  }

  lemma CarrerasWritten(db: Db, t: Table<Carrera>)
    requires Consistent(db)
    requires t.Fresh() && CarrerasOk(t.rows) && db.carreras.rows.Keys <= t.rows.Keys
    requires Refs(t.rows, CarreraToEscuela, db.escuelas.rows)
    ensures Consistent(db.(carreras := t))
  {
  }

  lemma HabilidadesWritten(db: Db, t: Table<Habilidad>)
    requires Consistent(db)
    requires t.Fresh() && HabilidadesOk(t.rows) && db.habilidades.rows.Keys <= t.rows.Keys
    ensures Consistent(db.(habilidades := t))
  {
  }

  lemma CoordinadoresWritten(db: Db, t: Table<Coordinador>)
    requires Consistent(db)
    requires t.Fresh() && CoordinadoresOk(t.rows)
    requires Refs(t.rows, CoordinadorToCarrera, db.carreras.rows)
    ensures Consistent(db.(coordinadores := t))
  {
  }

  lemma EncargadosWritten(db: Db, t: Table<Encargado>)
    requires Consistent(db)
    requires t.Fresh() && EncargadosOk(t.rows)
    ensures Consistent(db.(encargados := t))
  {
  }

  lemma UsuariosHabilidadesWritten(db: Db, t: Table<UsuarioHabilidad>)
    requires Consistent(db)
    requires t.Fresh() && UsuariosHabilidadesOk(t.rows)
    requires Refs(t.rows, UsuarioHabilidadToUsuario, db.usuarios.rows)
    requires Refs(t.rows, UsuarioHabilidadToHabilidad, db.habilidades.rows)
    ensures Consistent(db.(usuariosHabilidades := t))
  {
  }

  lemma ProyectosHabilidadesWritten(db: Db, t: Table<ProyectoHabilidad>)
    requires Consistent(db)
    requires t.Fresh() && ProyectosHabilidadesOk(t.rows)
    requires Refs(t.rows, ProyectoHabilidadToProyecto, db.proyectos.rows)
    requires Refs(t.rows, ProyectoHabilidadToHabilidad, db.habilidades.rows)
    ensures Consistent(db.(proyectosHabilidades := t))
  {
  }

  lemma AplicacionesWritten(db: Db, t: Table<Aplicacion>)
    requires Consistent(db)
    requires t.Fresh()
    requires Refs(t.rows, AplicacionToEstudiante, db.usuarios.rows)
    requires Refs(t.rows, AplicacionToProyecto, db.proyectos.rows)
    ensures Consistent(db.(aplicaciones := t))
  {
  }

  lemma ContactosWritten(db: Db, t: Table<Contacto>)
    requires Consistent(db)
    requires t.Fresh() && ContactosOk(t.rows)
    requires Refs(t.rows, ContactoToPerfil, db.perfiles.rows)
    ensures Consistent(db.(contactos := t))
  {
  }

  /** Writing `r` under key `at` keeps a child's references valid when `r`'s own reference is. */
  lemma RefsPut<C, P>(child: map<int, C>, fk: C -> Option<int>, parent: map<int, P>, at: int, r: C)
    requires Refs(child, fk, parent)
    requires fk(r).Some? ==> fk(r).value in parent
    ensures Refs(child[at := r], fk, parent)
  {
  }
}
