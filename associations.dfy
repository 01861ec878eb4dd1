/** The associations of the schema (src/models/index.js): which column of which
    table refers to which parent table, and what deleting a parent does to the
    rows that refer to it. Deleting a role is refused while a user refers to it
    (RESTRICT); deleting a career clears the reference in the profiles that
    name it (SET NULL); every other delete removes the referring rows too
    (CASCADE), transitively. */
module Associations {
  import opened Tables
  import opened Models

  /** The whole database: one table per model. */
  datatype Db = Db(
    roles: Table<Role>,
    usuarios: Table<Usuario>,
    perfiles: Table<Perfil>,
    instituciones: Table<Institucion>,
    encargados: Table<Encargado>,
    proyectos: Table<Proyecto>,
    aplicaciones: Table<Aplicacion>,
    habilidades: Table<Habilidad>,
    usuariosHabilidades: Table<UsuarioHabilidad>,
    proyectosHabilidades: Table<ProyectoHabilidad>,
    escuelas: Table<Escuela>,
    carreras: Table<Carrera>,
    coordinadores: Table<Coordinador>,
    contactos: Table<Contacto>,
    actividades: Table<Actividad>,
    bitacoras: Table<Bitacora>,
    bitacoraPerfiles: Table<BitacoraPerfil>,
    bitacoraItems: Table<BitacoraItem>,
    bitacoraItemLinks: Table<BitacoraItemLink>)

  function EmptyDb(): (db: Db)
    ensures Consistent(db)
  {
    Db(Table(map[], 1), Table(map[], 1), Table(map[], 1), Table(map[], 1), Table(map[], 1),
       Table(map[], 1), Table(map[], 1), Table(map[], 1), Table(map[], 1), Table(map[], 1),
       Table(map[], 1), Table(map[], 1), Table(map[], 1), Table(map[], 1), Table(map[], 1),
       Table(map[], 1), Table(map[], 1), Table(map[], 1), Table(map[], 1))
  }

  // ---------------------------------------------------------------------
  // Foreign keys, one selector per association
  // ---------------------------------------------------------------------

  function UsuarioToRol(u: Usuario): Option<int> { Some(u.rol_id) }
  function PerfilToUsuario(p: Perfil): Option<int> { Some(p.usuario_id) }
  function PerfilToCarrera(p: Perfil): Option<int> { p.id_carrera }
  function ProyectoToInstitucion(p: Proyecto): Option<int> { Some(p.institucion_id) }
  function AplicacionToEstudiante(a: Aplicacion): Option<int> { Some(a.estudiante_id) }
  function AplicacionToProyecto(a: Aplicacion): Option<int> { Some(a.proyecto_id) }
  function UsuarioHabilidadToUsuario(x: UsuarioHabilidad): Option<int> { Some(x.usuario_id) }
  function UsuarioHabilidadToHabilidad(x: UsuarioHabilidad): Option<int> { Some(x.habilidad_id) }
  function ProyectoHabilidadToProyecto(x: ProyectoHabilidad): Option<int> { Some(x.proyecto_id) }
  function ProyectoHabilidadToHabilidad(x: ProyectoHabilidad): Option<int> { Some(x.habilidad_id) }
  function CoordinadorToCarrera(c: Coordinador): Option<int> { c.id_carrera }
  function CarreraToEscuela(c: Carrera): Option<int> { c.id_escuela }
  function ContactoToPerfil(c: Contacto): Option<int> { c.id_perfil_usuario }
  function ActividadToProyecto(a: Actividad): Option<int> { a.id_proyecto }
  function BitacoraToProyecto(b: Bitacora): Option<int> { b.id_proyecto }
  function BitacoraPerfilToBitacora(x: BitacoraPerfil): Option<int> { Some(x.id_bitacora) }
  function BitacoraPerfilToPerfil(x: BitacoraPerfil): Option<int> { Some(x.id_perfil_usuario) }
  function ItemLinkToBitacora(x: BitacoraItemLink): Option<int> { Some(x.id_bitacora) }
  function ItemLinkToItem(x: BitacoraItemLink): Option<int> { Some(x.id_bitacora_item) }

  /** What SET NULL leaves in a profile whose career is deleted. */
  function WithoutCarrera(p: Perfil): Perfil { p.(id_carrera := None) }

  // ---------------------------------------------------------------------
  // The invariant
  // ---------------------------------------------------------------------

  /** Every key of every table was handed out by that table's counter. */
  ghost predicate AllFresh(db: Db)
  {
    db.roles.Fresh() && db.usuarios.Fresh() && db.perfiles.Fresh() && db.instituciones.Fresh()
    && db.encargados.Fresh() && db.proyectos.Fresh() && db.aplicaciones.Fresh()
    && db.habilidades.Fresh() && db.usuariosHabilidades.Fresh() && db.proyectosHabilidades.Fresh()
    && db.escuelas.Fresh() && db.carreras.Fresh() && db.coordinadores.Fresh() && db.contactos.Fresh()
    && db.actividades.Fresh() && db.bitacoras.Fresh() && db.bitacoraPerfiles.Fresh()
    && db.bitacoraItems.Fresh() && db.bitacoraItemLinks.Fresh()
  }

  /** Every row fits its columns and no unique column or index holds a duplicate. */
  ghost predicate Constraints(db: Db)
  {
    RolesOk(db.roles.rows) && UsuariosOk(db.usuarios.rows) && PerfilesOk(db.perfiles.rows)
    && InstitucionesOk(db.instituciones.rows) && ProyectosOk(db.proyectos.rows)
    && EscuelasOk(db.escuelas.rows) && CarrerasOk(db.carreras.rows)
    && HabilidadesOk(db.habilidades.rows) && EncargadosOk(db.encargados.rows)
    && CoordinadoresOk(db.coordinadores.rows) && ContactosOk(db.contactos.rows)
    && UsuariosHabilidadesOk(db.usuariosHabilidades.rows)
    && ProyectosHabilidadesOk(db.proyectosHabilidades.rows)
    && BitacoraItemLinksOk(db.bitacoraItemLinks.rows)
  }

  /** Referential integrity: no row refers to a row that does not exist. */
  ghost predicate Integrity(db: Db)
  {
    Refs(db.usuarios.rows, UsuarioToRol, db.roles.rows)
    && Refs(db.perfiles.rows, PerfilToUsuario, db.usuarios.rows)
    && Refs(db.perfiles.rows, PerfilToCarrera, db.carreras.rows)
    && Refs(db.proyectos.rows, ProyectoToInstitucion, db.instituciones.rows)
    && Refs(db.aplicaciones.rows, AplicacionToEstudiante, db.usuarios.rows)
    && Refs(db.aplicaciones.rows, AplicacionToProyecto, db.proyectos.rows)
    && Refs(db.usuariosHabilidades.rows, UsuarioHabilidadToUsuario, db.usuarios.rows)
    && Refs(db.usuariosHabilidades.rows, UsuarioHabilidadToHabilidad, db.habilidades.rows)
    && Refs(db.proyectosHabilidades.rows, ProyectoHabilidadToProyecto, db.proyectos.rows)
    && Refs(db.proyectosHabilidades.rows, ProyectoHabilidadToHabilidad, db.habilidades.rows)
    && Refs(db.coordinadores.rows, CoordinadorToCarrera, db.carreras.rows)
    && Refs(db.carreras.rows, CarreraToEscuela, db.escuelas.rows)
    && Refs(db.contactos.rows, ContactoToPerfil, db.perfiles.rows)
    && Refs(db.actividades.rows, ActividadToProyecto, db.proyectos.rows)
    && Refs(db.bitacoras.rows, BitacoraToProyecto, db.proyectos.rows)
    && Refs(db.bitacoraPerfiles.rows, BitacoraPerfilToBitacora, db.bitacoras.rows)
    && Refs(db.bitacoraPerfiles.rows, BitacoraPerfilToPerfil, db.perfiles.rows)
    && Refs(db.bitacoraItemLinks.rows, ItemLinkToBitacora, db.bitacoras.rows)
    && Refs(db.bitacoraItemLinks.rows, ItemLinkToItem, db.bitacoraItems.rows)
  }

  ghost predicate Consistent(db: Db)
  {
    AllFresh(db) && Constraints(db) && Integrity(db)
  }

  // ---------------------------------------------------------------------
  // Deletes
  // ---------------------------------------------------------------------

  /** Removes the rows of `t` whose foreign key `fk` names one of `ks`. */
  function DropRefs<T>(t: Table<T>, fk: T -> Option<int>, ks: set<int>): Table<T>
  {
    t.Drop(Referencing(t.rows, fk, ks))
  }

  /** Deleting logbooks removes their profile links and their item links. */
  function RemoveBitacoras(db: Db, bs: set<int>): Db
  {
    db.(bitacoras := db.bitacoras.Drop(bs),
        bitacoraPerfiles := DropRefs(db.bitacoraPerfiles, BitacoraPerfilToBitacora, bs),
        bitacoraItemLinks := DropRefs(db.bitacoraItemLinks, ItemLinkToBitacora, bs))
  }

  /** Deleting projects removes their logbooks (and so the logbooks' links),
      then their applications, skill rows and activities, then the projects. */
  function RemoveProyectos(db: Db, ps: set<int>): Db
  {
    var d := RemoveBitacoras(db, Referencing(db.bitacoras.rows, BitacoraToProyecto, ps));
    d.(proyectos := d.proyectos.Drop(ps),
       aplicaciones := DropRefs(d.aplicaciones, AplicacionToProyecto, ps),
       proyectosHabilidades := DropRefs(d.proyectosHabilidades, ProyectoHabilidadToProyecto, ps),
       actividades := DropRefs(d.actividades, ActividadToProyecto, ps))
  }

  /** Deleting an institution removes its projects, with everything they
      cascade to, then the institution. */
  function RemoveInstitucion(db: Db, i: int): Db
  {
    var d := RemoveProyectos(db, Referencing(db.proyectos.rows, ProyectoToInstitucion, {i}));
    d.(instituciones := d.instituciones.Drop({i}))
  }

  /** Deleting profiles removes their emergency contacts and logbook links. */
  function RemovePerfiles(db: Db, ps: set<int>): Db
  {
    db.(perfiles := db.perfiles.Drop(ps),
        contactos := DropRefs(db.contactos, ContactoToPerfil, ps),
        bitacoraPerfiles := DropRefs(db.bitacoraPerfiles, BitacoraPerfilToPerfil, ps))
  }

  /** Deleting a user removes the user's profile (with what it cascades to),
      applications and skill rows, then the user. */
  function RemoveUsuario(db: Db, u: int): Db
  {
    var d := RemovePerfiles(db, Referencing(db.perfiles.rows, PerfilToUsuario, {u}));
    d.(usuarios := d.usuarios.Drop({u}),
       aplicaciones := DropRefs(d.aplicaciones, AplicacionToEstudiante, {u}),
       usuariosHabilidades := DropRefs(d.usuariosHabilidades, UsuarioHabilidadToUsuario, {u}))
  }

  /** Deleting a skill removes the user and project rows that name it. */
  function RemoveHabilidad(db: Db, h: int): Db
  {
    db.(habilidades := db.habilidades.Drop({h}),
        usuariosHabilidades := DropRefs(db.usuariosHabilidades, UsuarioHabilidadToHabilidad, {h}),
        proyectosHabilidades := DropRefs(db.proyectosHabilidades, ProyectoHabilidadToHabilidad, {h}))
  }

  /** Deleting careers removes their coordinators and clears the career of
      the profiles that name them. */
  function RemoveCarreras(db: Db, cs: set<int>): Db
  {
    db.(carreras := db.carreras.Drop(cs),
        coordinadores := DropRefs(db.coordinadores, CoordinadorToCarrera, cs),
        perfiles := db.perfiles.(rows := Cleared(db.perfiles.rows, PerfilToCarrera, cs, WithoutCarrera)))
  }

  /** Deleting a school removes its careers, with everything they cascade to,
      then the school. */
  function RemoveEscuela(db: Db, e: int): Db
  {
    var d := RemoveCarreras(db, Referencing(db.carreras.rows, CarreraToEscuela, {e}));
    d.(escuelas := d.escuelas.Drop({e}))
  }

  /** Whether some user refers to role `r`, so that RESTRICT refuses its deletion. */
  function RoleInUse(db: Db, r: int): bool
  {
    Referencing(db.usuarios.rows, UsuarioToRol, {r}) != {}
  }

  function RemoveRole(db: Db, r: int): Db
  {
    db.(roles := db.roles.Drop({r}))
  }
}
