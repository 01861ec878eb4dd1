/** The records of the store's tables, with the column constraints the model
    files declare: required columns (plain, non-`Option` fields), column
    lengths, enumerations with their defaults, and the unique columns and
    indexes. A nullable column is an `Option`; dates are opaque strings. */
module Models {
  import opened Tables

  type Date = string

  /** The `estado` enumeration shared by projects and applications. */
  datatype Estado = Pendiente | Aprobado | Rechazado

  /** The `genero` enumeration of a user profile. */
  datatype Genero = Masculino | Femenino | Otro

  /** The `estado` enumeration of a project logbook. */
  datatype EstadoBitacora = EnProceso | Aprobado | Rechazado

  function EstadoText(e: Estado): string
  {
    match e
    case Pendiente => "Pendiente"
    case Aprobado => "Aprobado"
    case Rechazado => "Rechazado"
  }

  /** The value the database accepts for an `estado` column, if `s` names one. */
  function ParseEstado(s: string): (e: Option<Estado>)
    ensures e.Some? <==> s in {"Pendiente", "Aprobado", "Rechazado"}
    ensures e.Some? ==> EstadoText(e.value) == s
  {
    if s == "Pendiente" then Some(Pendiente)
    else if s == "Aprobado" then Some(Estado.Aprobado)
    else if s == "Rechazado" then Some(Estado.Rechazado)
    else None
  }

  function GeneroText(g: Genero): string
  {
    match g
    case Masculino => "Masculino"
    case Femenino => "Femenino"
    case Otro => "Otro"
  }

  /** The value the database accepts for a `genero` column, if `s` names one. */
  function ParseGenero(s: string): (g: Option<Genero>)
    ensures g.Some? <==> s in {"Masculino", "Femenino", "Otro"}
    ensures g.Some? ==> GeneroText(g.value) == s
  {
    if s == "Masculino" then Some(Masculino)
    else if s == "Femenino" then Some(Femenino)
    else if s == "Otro" then Some(Otro)
    else None
  }

  /** Every enumeration value is accepted back from its own text. */
  lemma EnumTextsRoundTrip(e: Estado, g: Genero)
    ensures ParseEstado(EstadoText(e)) == Some(e)
    ensures ParseGenero(GeneroText(g)) == Some(g)
  {
  }

  // ---------------------------------------------------------------------
  // Records
  // ---------------------------------------------------------------------

  datatype Role = Role(nombre: string, descripcion: Option<string>)

  datatype Usuario = Usuario(nombre: string, apellido: string, email: string,
                             password_hash: string, telefono: Option<string>, rol_id: int)

  /** `id_carrera` is the column that the career association adds. */
  datatype Perfil = Perfil(usuario_id: int, direccion: Option<string>, fecha_nacimiento: Option<Date>,
                           genero: Option<Genero>, foto_perfil: Option<string>, id_carrera: Option<int>)

  datatype Institucion = Institucion(nombre: string, direccion: Option<string>, telefono: Option<string>,
                                     email: Option<string>, fecha_fundacion: Option<Date>, nit: Option<string>)

  datatype Encargado = Encargado(nombres: Option<string>, apellidos: Option<string>,
                                 correo: Option<string>, telefono: Option<string>)

  datatype Proyecto = Proyecto(institucion_id: int, nombre: string, descripcion: string,
                               sitio_web: Option<string>, fecha_inicio: Option<Date>, fecha_fin: Option<Date>,
                               modalidad: Option<string>, direccion: Option<string>,
                               actividad_principal: Option<string>, horario_requerido: Option<string>,
                               disponibilidad: Option<bool>, id_encargado: Option<int>, estado: Estado)

  datatype Aplicacion = Aplicacion(estudiante_id: int, proyecto_id: int, estado: Estado)

  datatype Habilidad = Habilidad(descripcion: Option<string>)

  datatype UsuarioHabilidad = UsuarioHabilidad(usuario_id: int, habilidad_id: int)

  datatype ProyectoHabilidad = ProyectoHabilidad(proyecto_id: int, habilidad_id: int)

  datatype Escuela = Escuela(nombre: Option<string>)

  datatype Carrera = Carrera(nombre: Option<string>, id_escuela: Option<int>)

  datatype Coordinador = Coordinador(nombres: Option<string>, apellidos: Option<string>,
                                     correo_institucional: Option<string>, telefono: Option<string>,
                                     id_carrera: Option<int>)

  datatype Contacto = Contacto(nombres: Option<string>, apellidos: Option<string>, telefono: Option<string>,
                               direccion: Option<string>, id_perfil_usuario: Option<int>)

  datatype Actividad = Actividad(actividad_a_realizar: Option<string>, objetivo: Option<string>,
                                 meta: Option<string>, duracion: Option<string>, id_proyecto: Option<int>)

  datatype Bitacora = Bitacora(fecha_inicio: Option<Date>, fecha_fin: Option<Date>, estado: EstadoBitacora,
                               observaciones: Option<string>, id_proyecto: Option<int>)

  datatype BitacoraPerfil = BitacoraPerfil(id_bitacora: int, id_perfil_usuario: int)

  datatype BitacoraItem = BitacoraItem(detalle_actividades: Option<string>, total_horas: Option<int>,
                                       punch_in: Date, punch_out: Date)

  datatype BitacoraItemLink = BitacoraItemLink(id_bitacora: int, id_bitacora_item: int)

  // ---------------------------------------------------------------------
  // Column lengths
  // ---------------------------------------------------------------------

  /** A nullable VARCHAR(n) column accepts null or a string of at most n characters. */
  predicate FitsIn(x: Option<string>, n: nat)
  {
    x.None? || |x.value| <= n
  }

  predicate RoleOk(r: Role)
  {
    |r.nombre| <= 50 && FitsIn(r.descripcion, 50)
  }

  predicate UsuarioOk(u: Usuario)
  {
    |u.nombre| <= 100 && |u.apellido| <= 100 && |u.email| <= 150
    && |u.password_hash| <= 255 && FitsIn(u.telefono, 20)
  }

  predicate PerfilOk(p: Perfil)
  {
    FitsIn(p.foto_perfil, 255)
  }

  predicate InstitucionOk(i: Institucion)
  {
    |i.nombre| <= 255 && FitsIn(i.telefono, 20) && FitsIn(i.email, 150) && FitsIn(i.nit, 25)
  }

  predicate ProyectoOk(p: Proyecto)
  {
    |p.nombre| <= 255 && FitsIn(p.sitio_web, 100) && FitsIn(p.modalidad, 25)
    && FitsIn(p.horario_requerido, 100)
  }

  predicate EscuelaOk(e: Escuela)
  {
    FitsIn(e.nombre, 300)
  }

  predicate HabilidadOk(h: Habilidad)
  {
    FitsIn(h.descripcion, 50)
  }

  predicate EncargadoOk(e: Encargado)
  {
    FitsIn(e.nombres, 100) && FitsIn(e.apellidos, 100) && FitsIn(e.correo, 100) && FitsIn(e.telefono, 15)
  }

  predicate CoordinadorOk(c: Coordinador)
  {
    FitsIn(c.nombres, 100) && FitsIn(c.apellidos, 100) && FitsIn(c.correo_institucional, 100)
    && FitsIn(c.telefono, 15)
  }

  predicate ContactoOk(c: Contacto)
  {
    FitsIn(c.nombres, 200) && FitsIn(c.apellidos, 200) && FitsIn(c.telefono, 14)
  }

  // ---------------------------------------------------------------------
  // Unique columns and indexes. A unique index lets any number of rows hold
  // null in it, so a nullable unique column only separates non-null values.
  // ---------------------------------------------------------------------

  /** Two nullable column values that a unique index treats as a clash. */
  predicate SameValue<V(==)>(x: Option<V>, y: Option<V>)
  {
    x.Some? && x == y
  }

  predicate RoleClash(a: Role, b: Role) { a.nombre == b.nombre }

  predicate UsuarioClash(a: Usuario, b: Usuario) { a.email == b.email }

  predicate InstitucionClash(a: Institucion, b: Institucion)
  {
    a.nombre == b.nombre || SameValue(a.email, b.email)
  }

  predicate EscuelaClash(a: Escuela, b: Escuela) { SameValue(a.nombre, b.nombre) }

  /** A career's name is unique within its school. */
  predicate CarreraClash(a: Carrera, b: Carrera)
  {
    SameValue(a.nombre, b.nombre) && SameValue(a.id_escuela, b.id_escuela)
  }

  /** A manager's email is unique. */
  predicate EncargadoClash(a: Encargado, b: Encargado) { SameValue(a.correo, b.correo) }

  /** A coordinator's institutional email is unique. */
  predicate CoordinadorClash(a: Coordinador, b: Coordinador)
  {
    SameValue(a.correo_institucional, b.correo_institucional)
  }

  /** A user holds a skill at most once. */
  predicate UsuarioHabilidadClash(a: UsuarioHabilidad, b: UsuarioHabilidad) { a == b }

  /** A project asks for a skill at most once. */
  predicate ProyectoHabilidadClash(a: ProyectoHabilidad, b: ProyectoHabilidad) { a == b }

  /** A logbook lists an item at most once. */
  predicate BitacoraItemLinkClash(a: BitacoraItemLink, b: BitacoraItemLink) { a == b }

  // ---------------------------------------------------------------------
  // Table-wide constraints: every row fits its columns, no two rows clash.
  // ---------------------------------------------------------------------

  ghost predicate RolesOk(rs: map<int, Role>)
  {
    Every(rs, RoleOk)
    && Distinct(rs, RoleClash)
  }

  ghost predicate UsuariosOk(us: map<int, Usuario>)
  {
    Every(us, UsuarioOk)
    && Distinct(us, UsuarioClash)
  }

  ghost predicate PerfilesOk(ps: map<int, Perfil>)
  {
    Every(ps, PerfilOk)
  }

  ghost predicate InstitucionesOk(ins: map<int, Institucion>)
  {
    Every(ins, InstitucionOk)
    && Distinct(ins, InstitucionClash)
  }

  ghost predicate ProyectosOk(ps: map<int, Proyecto>)
  {
    Every(ps, ProyectoOk)
  }

  ghost predicate EscuelasOk(es: map<int, Escuela>)
  {
    Every(es, EscuelaOk)
    && Distinct(es, EscuelaClash)
  }

  ghost predicate CarrerasOk(cs: map<int, Carrera>)
  {
    Distinct(cs, CarreraClash)
  }

  ghost predicate HabilidadesOk(hs: map<int, Habilidad>)
  {
    Every(hs, HabilidadOk)
  }

  ghost predicate EncargadosOk(es: map<int, Encargado>)
  {
    Every(es, EncargadoOk)
    && Distinct(es, EncargadoClash)
  }

  ghost predicate CoordinadoresOk(cs: map<int, Coordinador>)
  {
    Every(cs, CoordinadorOk)
    && Distinct(cs, CoordinadorClash)
  }

  ghost predicate ContactosOk(cs: map<int, Contacto>)
  {
    Every(cs, ContactoOk)
  }

  ghost predicate UsuariosHabilidadesOk(us: map<int, UsuarioHabilidad>)
  {
    Distinct(us, UsuarioHabilidadClash)
  }

  ghost predicate ProyectosHabilidadesOk(ps: map<int, ProyectoHabilidad>)
  {
    Distinct(ps, ProyectoHabilidadClash)
  }

  ghost predicate BitacoraItemLinksOk(ls: map<int, BitacoraItemLink>)
  {
    Distinct(ls, BitacoraItemLinkClash)
  }

  // ---------------------------------------------------------------------
  // The checks the database makes when it writes row `r` under key `at`:
  // each answers exactly whether the table still meets its constraints.
  // ---------------------------------------------------------------------

  function RoleAccepted(rs: map<int, Role>, at: int, r: Role): (ok: bool)
    requires RolesOk(rs)
    ensures ok <==> RolesOk(rs[at := r])
  {
    EveryPut(rs, at, r, RoleOk);
    DistinctPut(rs, at, r, RoleClash);
    RoleOk(r) && !Clashes(rs, at, r, RoleClash)
  }

  function UsuarioAccepted(us: map<int, Usuario>, at: int, u: Usuario): (ok: bool)
    requires UsuariosOk(us)
    ensures ok <==> UsuariosOk(us[at := u])
  {
    EveryPut(us, at, u, UsuarioOk);
    DistinctPut(us, at, u, UsuarioClash);
    UsuarioOk(u) && !Clashes(us, at, u, UsuarioClash)
  }

  function InstitucionAccepted(ins: map<int, Institucion>, at: int, i: Institucion): (ok: bool)
    requires InstitucionesOk(ins)
    ensures ok <==> InstitucionesOk(ins[at := i])
  {
    EveryPut(ins, at, i, InstitucionOk);
    DistinctPut(ins, at, i, InstitucionClash);
    InstitucionOk(i) && !Clashes(ins, at, i, InstitucionClash)
  }

  function EscuelaAccepted(es: map<int, Escuela>, at: int, e: Escuela): (ok: bool)
    requires EscuelasOk(es)
    ensures ok <==> EscuelasOk(es[at := e])
  {
    EveryPut(es, at, e, EscuelaOk);
    DistinctPut(es, at, e, EscuelaClash);
    EscuelaOk(e) && !Clashes(es, at, e, EscuelaClash)
  }

  function CarreraAccepted(cs: map<int, Carrera>, at: int, c: Carrera): (ok: bool)
    requires CarrerasOk(cs)
    ensures ok <==> CarrerasOk(cs[at := c])
  {
    DistinctPut(cs, at, c, CarreraClash);
    !Clashes(cs, at, c, CarreraClash)
  }

  function EncargadoAccepted(es: map<int, Encargado>, at: int, e: Encargado): (ok: bool)
    requires EncargadosOk(es)
    ensures ok <==> EncargadosOk(es[at := e])
  {
    EveryPut(es, at, e, EncargadoOk);
    DistinctPut(es, at, e, EncargadoClash);
    EncargadoOk(e) && !Clashes(es, at, e, EncargadoClash)
  }

  function UsuarioHabilidadAccepted(us: map<int, UsuarioHabilidad>, at: int, u: UsuarioHabilidad): (ok: bool)
    requires UsuariosHabilidadesOk(us)
    ensures ok <==> UsuariosHabilidadesOk(us[at := u])
  {
    DistinctPut(us, at, u, UsuarioHabilidadClash);
    !Clashes(us, at, u, UsuarioHabilidadClash)
  }

  function ProyectoHabilidadAccepted(ps: map<int, ProyectoHabilidad>, at: int, p: ProyectoHabilidad): (ok: bool)
    requires ProyectosHabilidadesOk(ps)
    ensures ok <==> ProyectosHabilidadesOk(ps[at := p])
  {
    DistinctPut(ps, at, p, ProyectoHabilidadClash);
    !Clashes(ps, at, p, ProyectoHabilidadClash)
  }

  /** Whether some coordinator already holds the institutional email `e`: the
      lookup the coordinator handlers make before they write. */
  function CorreoTaken(cs: map<int, Coordinador>, e: string): bool
  {
    exists k :: k in cs && cs[k].correo_institucional == Some(e)
  }

  /** The coordinator handlers' email lookup is enough to keep institutional
      emails unique: writing `c` under `at` keeps them unique when `c` has no
      email, an email no coordinator holds, or the email the row under `at`
      already has, and `c` fits its columns. */
  lemma CorreoCheckKeepsUnique(cs: map<int, Coordinador>, at: int, c: Coordinador)
    requires CoordinadoresOk(cs) && CoordinadorOk(c)
    requires c.correo_institucional.None? || !CorreoTaken(cs, c.correo_institucional.value)
             || (at in cs && cs[at].correo_institucional == c.correo_institucional)
    ensures CoordinadoresOk(cs[at := c])
  {
    forall k | k in cs && k != at
      ensures !CoordinadorClash(cs[k], c)
    {
      if at in cs && cs[at].correo_institucional == c.correo_institucional {
        assert !CoordinadorClash(cs[k], cs[at]);
      }
    }
    EveryPut(cs, at, c, CoordinadorOk);
    DistinctPut(cs, at, c, CoordinadorClash);
  }

  /** Whether some user already holds the email `e`. */
  function EmailTaken(us: map<int, Usuario>, e: string): bool
  {
    exists k :: k in us && us[k].email == e
  }
}
