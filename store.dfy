/** The database the controllers talk to: one table per model, updated in
    place. Deletes carry out the association rules row by row, children
    before parents, as the database does for `ON DELETE CASCADE` and
    `ON DELETE SET NULL`. */
module Store {
  import opened Tables
  import opened Models
  import opened Associations
  import opened DeleteRules

  class Database {
    var roles: Table<Role>
    var usuarios: Table<Usuario>
    var perfiles: Table<Perfil>
    var instituciones: Table<Institucion>
    var encargados: Table<Encargado>
    var proyectos: Table<Proyecto>
    var aplicaciones: Table<Aplicacion>
    var habilidades: Table<Habilidad>
    var usuariosHabilidades: Table<UsuarioHabilidad>
    var proyectosHabilidades: Table<ProyectoHabilidad>
    var escuelas: Table<Escuela>
    var carreras: Table<Carrera>
    var coordinadores: Table<Coordinador>
    var contactos: Table<Contacto>
    var actividades: Table<Actividad>
    var bitacoras: Table<Bitacora>
    var bitacoraPerfiles: Table<BitacoraPerfil>
    var bitacoraItems: Table<BitacoraItem>
    var bitacoraItemLinks: Table<BitacoraItemLink>

    /** The current contents of every table. */
    ghost function Snapshot(): Db
      reads this
    {
      Db(roles, usuarios, perfiles, instituciones, encargados, proyectos, aplicaciones, habilidades,
         usuariosHabilidades, proyectosHabilidades, escuelas, carreras, coordinadores, contactos,
         actividades, bitacoras, bitacoraPerfiles, bitacoraItems, bitacoraItemLinks)
    }

    /** Fresh keys, column constraints, unique indexes and referential integrity all hold. */
    ghost predicate Valid()
      reads this
    {
      Consistent(Snapshot())
    }

    /** A database with every table empty. */
    constructor ()
      ensures Snapshot() == EmptyDb() && Valid()
    {
      roles, usuarios, perfiles, instituciones, encargados := Table(map[], 1), Table(map[], 1), Table(map[], 1), Table(map[], 1), Table(map[], 1);
      proyectos, aplicaciones, habilidades, usuariosHabilidades := Table(map[], 1), Table(map[], 1), Table(map[], 1), Table(map[], 1);
      proyectosHabilidades, escuelas, carreras, coordinadores := Table(map[], 1), Table(map[], 1), Table(map[], 1), Table(map[], 1);
      contactos, actividades, bitacoras, bitacoraPerfiles := Table(map[], 1), Table(map[], 1), Table(map[], 1), Table(map[], 1);
      bitacoraItems, bitacoraItemLinks := Table(map[], 1), Table(map[], 1);
    }

    /** Deletes the logbooks `bs` with their profile and item links. */
    method DestroyBitacoras(bs: set<int>)
      requires Valid()
      modifies this`bitacoras, this`bitacoraPerfiles, this`bitacoraItemLinks
      ensures Snapshot() == RemoveBitacoras(old(Snapshot()), bs) && Valid()
    {
      RemoveBitacorasConsistent(Snapshot(), bs);
      var gone;
      bitacoraPerfiles, gone := SweepRefs(bitacoraPerfiles, BitacoraPerfilToBitacora, bs);
      bitacoraItemLinks, gone := SweepRefs(bitacoraItemLinks, ItemLinkToBitacora, bs);
      bitacoras := bitacoras.Drop(bs);
    }

    /** Deletes the projects `ps` with their logbooks, applications, skill rows
        and activities. */
    method DestroyProyectos(ps: set<int>)
      requires Valid()
      modifies this`proyectos, this`aplicaciones, this`proyectosHabilidades, this`actividades
      modifies this`bitacoras, this`bitacoraPerfiles, this`bitacoraItemLinks
      ensures Snapshot() == RemoveProyectos(old(Snapshot()), ps) && Valid()
    {
      RemoveProyectosConsistent(Snapshot(), ps);
      var _, bs := SweepRefs(bitacoras, BitacoraToProyecto, ps);
      DestroyBitacoras(bs);
      DropProyectos(ps);
    }

    /** Deletes the projects `ps` with their applications, skill rows and
        activities, once their logbooks are gone. */
    method DropProyectos(ps: set<int>)
      requires proyectos.Fresh() && aplicaciones.Fresh() && proyectosHabilidades.Fresh() && actividades.Fresh()
      modifies this`proyectos, this`aplicaciones, this`proyectosHabilidades, this`actividades
      ensures proyectos == old(proyectos).Drop(ps)
      ensures aplicaciones == DropRefs(old(aplicaciones), AplicacionToProyecto, ps)
      ensures proyectosHabilidades == DropRefs(old(proyectosHabilidades), ProyectoHabilidadToProyecto, ps)
      ensures actividades == DropRefs(old(actividades), ActividadToProyecto, ps)
    {
      var gone;
      aplicaciones, gone := SweepRefs(aplicaciones, AplicacionToProyecto, ps);
      proyectosHabilidades, gone := SweepRefs(proyectosHabilidades, ProyectoHabilidadToProyecto, ps);
      actividades, gone := SweepRefs(actividades, ActividadToProyecto, ps);
      proyectos := proyectos.Drop(ps);
    }

    /** Deletes institution `i` with its projects. */
    method DestroyInstitucion(i: int)
      requires Valid()
      modifies this`instituciones, this`proyectos, this`aplicaciones, this`proyectosHabilidades
      modifies this`actividades, this`bitacoras, this`bitacoraPerfiles, this`bitacoraItemLinks
      ensures Snapshot() == RemoveInstitucion(old(Snapshot()), i) && Valid()
    {
      RemoveInstitucionConsistent(Snapshot(), i);
      var _, ps := SweepRefs(proyectos, ProyectoToInstitucion, {i});
      DestroyProyectos(ps);
      instituciones := instituciones.Drop({i});
    }

    /** Deletes the profiles `ps` with their emergency contacts and logbook links. */
    method DestroyPerfiles(ps: set<int>)
      requires Valid()
      modifies this`perfiles, this`contactos, this`bitacoraPerfiles
      ensures Snapshot() == RemovePerfiles(old(Snapshot()), ps) && Valid()
    {
      RemovePerfilesConsistent(Snapshot(), ps);
      var gone;
      contactos, gone := SweepRefs(contactos, ContactoToPerfil, ps);
      bitacoraPerfiles, gone := SweepRefs(bitacoraPerfiles, BitacoraPerfilToPerfil, ps);
      perfiles := perfiles.Drop(ps);
    }

    /** Deletes user `u` with its profile, applications and skill rows. */
    method DestroyUsuario(u: int)
      requires Valid()
      modifies this`usuarios, this`perfiles, this`contactos, this`bitacoraPerfiles
      modifies this`aplicaciones, this`usuariosHabilidades
      ensures Snapshot() == RemoveUsuario(old(Snapshot()), u) && Valid()
    {
      RemoveUsuarioConsistent(Snapshot(), u);
      var _, ps := SweepRefs(perfiles, PerfilToUsuario, {u});
      DestroyPerfiles(ps);
      var gone;
      aplicaciones, gone := SweepRefs(aplicaciones, AplicacionToEstudiante, {u});
      usuariosHabilidades, gone := SweepRefs(usuariosHabilidades, UsuarioHabilidadToUsuario, {u});
      usuarios := usuarios.Drop({u});
    }

    /** Deletes skill `h` with the user and project rows that name it. */
    method DestroyHabilidad(h: int)
      requires Valid()
      modifies this`habilidades, this`usuariosHabilidades, this`proyectosHabilidades
      ensures Snapshot() == RemoveHabilidad(old(Snapshot()), h) && Valid()
    {
      RemoveHabilidadConsistent(Snapshot(), h);
      var gone;
      usuariosHabilidades, gone := SweepRefs(usuariosHabilidades, UsuarioHabilidadToHabilidad, {h});
      proyectosHabilidades, gone := SweepRefs(proyectosHabilidades, ProyectoHabilidadToHabilidad, {h});
      habilidades := habilidades.Drop({h});
    }

    /** Deletes the careers `cs`: removes their coordinators and clears them
        from the profiles that name them. */
    method DestroyCarreras(cs: set<int>)
      requires Valid()
      modifies this`carreras, this`coordinadores, this`perfiles
      ensures Snapshot() == RemoveCarreras(old(Snapshot()), cs) && Valid()
    {
      RemoveCarrerasConsistent(Snapshot(), cs);
      var gone;
      coordinadores, gone := SweepRefs(coordinadores, CoordinadorToCarrera, cs);
      perfiles := ClearRefs(perfiles, PerfilToCarrera, cs, WithoutCarrera);
      carreras := carreras.Drop(cs);
    }

    /** Deletes school `e` with its careers. */
    method DestroyEscuela(e: int)
      requires Valid()
      modifies this`escuelas, this`carreras, this`coordinadores, this`perfiles
      ensures Snapshot() == RemoveEscuela(old(Snapshot()), e) && Valid()
    {
      RemoveEscuelaConsistent(Snapshot(), e);
      var _, cs := SweepRefs(carreras, CarreraToEscuela, {e});
      DestroyCarreras(cs);
      escuelas := escuelas.Drop({e});
    }

    /** Deletes role `r`, or refuses when a user refers to it (RESTRICT). */
    method DestroyRole(r: int) returns (refused: bool)
      requires Valid()
      modifies this`roles
      ensures refused <==> RoleInUse(old(Snapshot()), r)
      ensures Snapshot() == if refused then old(Snapshot()) else RemoveRole(old(Snapshot()), r)
      ensures Valid()
    {
      var _, users := SweepRefs(usuarios, UsuarioToRol, {r});
      refused := users != {};
      if !refused {
        RemoveRoleConsistent(Snapshot(), r);
        roles := roles.Drop({r});
      }
    }
  }
}
