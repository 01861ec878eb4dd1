# Student-placement admin backend: the store and its handlers

This project models the REST administration backend of a student-placement
service. The backend keeps users, roles, profiles, institutions and their
managers, projects, applications, skills, schools, careers, coordinators,
emergency contacts and project logbooks in a relational database. Each
controller handler reads the database or changes it, and answers with a status
code and, on failure, an error code.

What the model holds:

- **The store.** `Store.Database` is a class with one field per table. Each
  table (`Tables.Table`) maps an integer primary key to a record, and keeps the
  next value of the table's auto-increment counter.
- **The database invariant.** `Database.Valid()` holds between requests. It
  means that every key came from its table's counter, that every row of a
  table the handlers write fits its columns, that no unique column or index holds a duplicate, and that no row
  refers to a row that is missing (`Associations.Consistent`).
- **The records** (`Models`). Required columns, column lengths, the `estado` and
  `genero` enumerations with their defaults, and unique columns and indexes are
  taken from the model files. The handlers also rely on uniqueness rules that no
  model file declares:
  - a career name within a school;
  - a manager's email;
  - a coordinator's institutional email;
  - a (user, skill) pair;
  - a (project, skill) pair.

  These are named predicates too.
- **The delete rules** of the association file. Deleting a role is refused
  while a user has it (RESTRICT). Deleting a career clears the career of the
  profiles that name it (SET NULL). Every other delete removes the referring
  rows, transitively (CASCADE). Two layers model this:
  - `Associations` defines the rules as functions on a whole-database value (`Remove*`);
  - `Store.Database` carries them out with methods (`Destroy*`). Each method
    scans the child tables in key order, deleting or clearing the rows that
    refer to the removed parents.

  `DeleteRules` proves that every permitted delete keeps the invariant, and
  states exactly which rows each delete removes.
- **One module per controller file.** Each handler is modelled as follows:
  - listings are read-only methods;
  - lookups by key are functions;
  - creates, updates and deletes are methods that change only the tables they
    name.

  Each answer is a `Requests.Reply`:
  - a row with its status (200 or 201);
  - 204 with no content;
  - a confirmation message;
  - or a failure status with its error code.

  Where a handler relies on the database to refuse a write, the model makes
  the refusal explicit as a check before the write. This covers unique
  indexes, foreign keys, NOT NULL, column lengths and enumeration values. The
  check answers the way the handler's `catch` maps that error: 409 where the
  handler maps the unique-constraint error, and 500 otherwise.

The ORM behaviour the model reproduces:

- **Omitted fields.** An update skips fields that are undefined (`Given`,
  `GivenOpt`).
- **`x || old` updates.** These keep the old value for a falsy field: an empty
  string, or an id of 0 (`Or`, `OrId`).
- **Dates.** `x ? new Date(x) : null` writes null for a falsy date (`DateOrNull`).
- **Static updates.** An update by `where` drops omitted values and body keys
  that are not columns. When nothing is left to set, it reports no changed row
  without querying, so the handler answers 404 even for an existing id. An
  update that matches no row also answers 404, before any database error can
  arise.
- **Listings.** A listing without an order is modelled in primary-key order.
- **Lookups by column.** `findOne` by a column answers the first match in key order.

## Model

| member | source | states |
|---|---|---|
| Tables.Table.Insert | src/models/Role.js:6-10 | a new row gets the counter's value, a key no row had; every other row keeps its key and value; keys stay fresh |
| Tables.SweepRefs | src/models/index.js:35-36 | the cascade scan removes exactly the child rows whose foreign key names a removed parent, and keeps keys fresh |
| Tables.ClearRefs | src/models/index.js:69-70 | the SET NULL scan clears exactly the rows that name a removed parent; every other row, and every key, is kept |
| Tables.Scan | src/controllers/roleController.js:7 | an unordered listing holds each row of the table with its key, exactly once, in increasing key order |
| Tables.FirstRef | src/controllers/perfilUsuarioController.js:57 | the answer is a row whose foreign key is the given value, and no earlier key has one; no answer means no row has it |
| Ordering.OrderBy | src/controllers/carrerasController.js:9-15 | an ordered listing is sorted by the sort key and holds each row of the table exactly once (multiset count 1), nothing else |
| Requests.FindByPk | src/controllers/roleController.js:18-23 | a lookup by key answers the stored row (200) exactly when the key exists, and 404 with the handler's code otherwise |
| Models.ParseEstado | src/models/ProyectosInstitucion.js:59-63 | a status text is accepted exactly when it is Pendiente, Aprobado or Rechazado, and maps back to that text |
| Models.ParseGenero | src/models/PerfilUsuario.js:22-25 | a gender text is accepted exactly when it is Masculino, Femenino or Otro, and maps back to that text |
| Models.EnumTextsRoundTrip | src/models/AplicacionesEstudiantes.js:18-22 | every enumeration value parses back from its own text |
| Models.RoleAccepted | src/models/Role.js:11-19 | the write is accepted exactly when the roles table keeps a required name of at most 50 characters, a description of at most 50, and no shared name |
| Models.UsuarioAccepted | src/models/Usuarios.js:10-34 | the write is accepted exactly when the users table keeps every length bound and no two users share an email |
| Models.InstitucionAccepted | src/models/Institucion.js:14-39 | the write is accepted exactly when the institutions table keeps its length bounds, unique names and unique non-null emails |
| Models.EscuelaAccepted | src/models/Escuelas.js:10-25 | the write is accepted exactly when every school name fits 300 characters and no two given names are equal |
| Models.CarreraAccepted | src/controllers/carrerasController.js:90-97 | the write is accepted exactly when no two careers share a name within one school |
| Models.EncargadoAccepted | src/controllers/encargadoInstitucionController.js:64-69 | the write is accepted exactly when the row fits its columns and no two managers share an email |
| Models.UsuarioHabilidadAccepted | src/controllers/usuariosHabilidadesController.js:48-55 | the write is accepted exactly when no (user, skill) pair is held twice |
| Models.ProyectoHabilidadAccepted | src/controllers/proyectosInstitucionesHabilidadesController.js:60-65 | the write is accepted exactly when no (project, skill) pair is held twice |
| Models.CorreoCheckKeepsUnique | src/controllers/coordinadorCarreraController.js:154-163 | the coordinator email lookup is enough: a row that fits its columns and has no email, a free email, or its own email keeps the table valid |
| Associations.EmptyDb | src/models/index.js:23-90 | an empty database meets the invariant |
| DeleteRules.RemoveBitacorasConsistent | src/models/index.js:85-90 | deleting logbooks with their profile and item links keeps the invariant |
| DeleteRules.RemoveProyectosConsistent | src/models/index.js:38-90 | deleting projects with their applications, skill rows, activities and logbooks keeps the invariant |
| DeleteRules.RemoveInstitucionConsistent | src/models/index.js:34-36 | deleting an institution with its projects, transitively, keeps the invariant |
| DeleteRules.RemovePerfilesConsistent | src/models/index.js:73-86 | deleting profiles with their contacts and logbook memberships keeps the invariant |
| DeleteRules.RemoveUsuarioConsistent | src/models/index.js:29-46 | deleting a user with its profile, applications and skill rows keeps the invariant |
| DeleteRules.RemoveHabilidadConsistent | src/models/index.js:44-57 | deleting a skill with every user and project row naming it keeps the invariant |
| DeleteRules.ClearedPerfiles | src/models/index.js:68-70 | SET NULL keeps each profile valid and its user, and leaves it naming only careers that remain |
| DeleteRules.RemoveCarrerasConsistent | src/models/index.js:60-70 | deleting careers with their coordinators, clearing the career of profiles, keeps the invariant |
| DeleteRules.RemoveEscuelaConsistent | src/models/index.js:64-70 | deleting a school with its careers, transitively, keeps the invariant |
| DeleteRules.RemoveRoleConsistent | src/models/index.js:25-27 | deleting a role no user has keeps the invariant |
| DeleteRules.RoleRestrictNeeded | src/models/index.js:25-27 | deleting a role some user has would break referential integrity, which is why RESTRICT refuses it |
| DeleteRules.RemoveUsuarioEffect | src/models/index.js:29-42 | after deleting a user, the surviving profiles, contacts, memberships, applications and skill rows are exactly those not owned by that user |
| DeleteRules.RemoveInstitucionEffect | src/models/index.js:34-42 | after deleting an institution, the surviving projects, applications, skill rows, activities and logbooks are exactly those not of it |
| DeleteRules.RemoveHabilidadEffect | src/models/index.js:44-57 | after deleting a skill, the surviving user and project skill rows are exactly those naming another skill |
| DeleteRules.RemoveEscuelaEffect | src/models/index.js:60-70 | after deleting a school, its careers and their coordinators are gone and exactly the profiles of its careers lose their career |
| Store.Database.constructor | src/models/index.js:23-90 | a new database is empty and valid |
| Store.Database.DestroyBitacoras | src/models/index.js:85-90 | the delete loop leaves the database the logbook delete rule specifies, and valid |
| Store.Database.DestroyProyectos | src/models/index.js:38-90 | the delete loop leaves the database the project delete rule specifies, and valid |
| Store.Database.DropProyectos | src/models/index.js:40-42 | projects go with exactly the applications, skill rows and activities that name them |
| Store.Database.DestroyInstitucion | src/models/index.js:34-36 | the delete loop leaves the database the institution delete rule specifies, and valid |
| Store.Database.DestroyPerfiles | src/models/index.js:73-86 | the delete loop leaves the database the profile delete rule specifies, and valid |
| Store.Database.DestroyUsuario | src/models/index.js:29-46 | the delete loop leaves the database the user delete rule specifies, and valid |
| Store.Database.DestroyHabilidad | src/models/index.js:44-57 | the delete loop leaves the database the skill delete rule specifies, and valid |
| Store.Database.DestroyCarreras | src/models/index.js:60-70 | the delete loop leaves the database the career delete rule specifies, SET NULL included, and valid |
| Store.Database.DestroyEscuela | src/models/index.js:64-70 | the delete loop leaves the database the school delete rule specifies, and valid |
| Store.Database.DestroyRole | src/models/index.js:25-27 | the delete is refused exactly when a user has the role, and then nothing changes |
| CoordinadorCarreraController.GetCoordinadores | src/controllers/coordinadorCarreraController.js:9-20 | every coordinator exactly once, sorted by surnames then names |
| CoordinadorCarreraController.GetCoordinadorById | src/controllers/coordinadorCarreraController.js:39-55 | the coordinator under the id, or 404 COORDINADOR_NOT_FOUND exactly when there is none |
| CoordinadorCarreraController.CreateCoordinador | src/controllers/coordinadorCarreraController.js:72-114 | exactly one answer per case, in the handler's order: 400 iff the career is missing; 409 iff it exists and the email is taken; 500 iff the email is omitted or a value is too long; otherwise (iff) exactly one row with the five fields is added (201); a failure adds nothing |
| CoordinadorCarreraController.UpdateCoordinador | src/controllers/coordinadorCarreraController.js:128-171 | 404 iff the id is unknown; 400 iff a given career is missing; 409 iff a new email is taken; 500 iff the merged row has a value too long; written (200) iff none of these, with falsy fields keeping their old value |
| CoordinadorCarreraController.DeleteCoordinador | src/controllers/coordinadorCarreraController.js:203-212 | 404 for an unknown id; otherwise only that row goes (204) |
| CarrerasController.GetCarreras | src/controllers/carrerasController.js:9-15 | every career exactly once, sorted by name |
| CarrerasController.GetCarreraById | src/controllers/carrerasController.js:34-45 | the career under the id, or 404 exactly when there is none |
| CarrerasController.CreateCarrera | src/controllers/carrerasController.js:62-97 | 400 iff the school is missing; 409 iff the name is already used in that school; added (201) iff neither; a failure adds nothing |
| CarrerasController.UpdateCarrera | src/controllers/carrerasController.js:111-157 | 404 iff the id is unknown; 400 iff a given school is missing; 409 iff the merged row duplicates another career; written (200) iff none of these, with falsy fields keeping their old value |
| CarrerasController.DeleteCarrera | src/controllers/carrerasController.js:175-190 | 404 for an unknown id; otherwise the career delete rule is applied (204) and the invariant holds |
| UsuariosController.ViewHidesPassword | src/controllers/usuariosController.js:9-11 | two users are answered alike exactly when they differ at most in the password hash |
| UsuariosController.GetUsuarios | src/controllers/usuariosController.js:9-11 | every user exactly once, in key order, without the password hash |
| UsuariosController.GetUsuarioById | src/controllers/usuariosController.js:30-41 | the user without its password hash, or 404 USUARIO_NOT_FOUND exactly when there is none |
| UsuariosController.UpdateUsuario | src/controllers/usuariosController.js:55-104 | 409 iff a given email is held by any user, checked before the id; 404 iff otherwise the id is unknown or the body sets no column; 500 iff the database refuses the row; written (200) iff none of these; the password hash is never changed |
| UsuariosController.OwnEmailConflicts | src/controllers/usuariosController.js:68-79 | resubmitting a user's own non-empty email always meets the 409 branch |
| UsuariosController.UpdateUsuarioCorrected | src/controllers/usuariosController.js:67-79 | the same answers, with the email lookup leaving the updated user out |
| UsuariosController.OwnEmailAccepted | src/controllers/usuariosController.js:67-79 | with the corrected lookup, a user's own email is not taken by another user, and writing it keeps the table valid |
| UsuariosController.DeleteUsuario | src/controllers/usuariosController.js:121-130 | 404 for an unknown id; otherwise the user delete rule is applied (204) |
| EncargadoInstitucionController.GetEncargadosInstitucion | src/controllers/encargadoInstitucionController.js:9-10 | every manager exactly once, sorted by surnames then names |
| EncargadoInstitucionController.GetEncargadoInstitucionById | src/controllers/encargadoInstitucionController.js:29-36 | the manager under the id, or 404 exactly when there is none |
| EncargadoInstitucionController.CreateEncargadoInstitucion | src/controllers/encargadoInstitucionController.js:51-70 | 500 iff a value is too long; 409 iff otherwise another manager has the email; added (201) iff the table stays valid; a failure adds nothing |
| EncargadoInstitucionController.UpdateEncargadoInstitucion | src/controllers/encargadoInstitucionController.js:84-112 | 404 iff the id is unknown; 500 iff the merged row has a value too long; 409 iff otherwise its email is another manager's; written (200) iff none of these, with falsy fields keeping their old value |
| EncargadoInstitucionController.OwnCorreoNeverConflicts | src/controllers/encargadoInstitucionController.js:97-102 | an update that omits the email or resubmits the manager's own never breaks email uniqueness |
| EncargadoInstitucionController.DeleteEncargadoInstitucion | src/controllers/encargadoInstitucionController.js:130-139 | 404 for an unknown id; otherwise only that row goes (204) |
| UsuariosHabilidadesController.GetUsuariosHabilidades | src/controllers/usuariosHabilidadesController.js:7 | every user–skill row exactly once, in key order |
| UsuariosHabilidadesController.GetUsuariosHabilidadById | src/controllers/usuariosHabilidadesController.js:23-31 | the row under the id, or 404 exactly when there is none |
| UsuariosHabilidadesController.CreateUsuariosHabilidad | src/controllers/usuariosHabilidadesController.js:45-65 | 409 iff both keys are given and the pair is held; 500 iff a key is missing, or the pair is free but names a missing user or skill; otherwise (iff) one row is added (201) |
| UsuariosHabilidadesController.UpdateUsuariosHabilidad | src/controllers/usuariosHabilidadesController.js:73-104 | 404 iff no row matches or the body sets no column; 409 iff the merged pair is held elsewhere; 500 iff it names a missing user or skill; written (200) iff none of these |
| UsuariosHabilidadesController.PairHeldOnce | src/controllers/usuariosHabilidadesController.js:87-94 | writing a held pair under a second key always breaks uniqueness |
| UsuariosHabilidadesController.DeleteUsuariosHabilidad | src/controllers/usuariosHabilidadesController.js:112-120 | 404 for no matching row, otherwise 204; only that row goes |
| ProyectosInstitucionesHabilidadesController.GetProyectosInstitucionesHabilidades | src/controllers/proyectosInstitucionesHabilidadesController.js:11 | every project–skill row exactly once, in key order |
| ProyectosInstitucionesHabilidadesController.GetProyectosInstitucionesHabilidadById | src/controllers/proyectosInstitucionesHabilidadesController.js:31-39 | the row under the id, or 404 RELACION_NOT_FOUND_ERROR exactly when there is none |
| ProyectosInstitucionesHabilidadesController.CreateProyectosInstitucionesHabilidad | src/controllers/proyectosInstitucionesHabilidadesController.js:57-74 | 409 iff both keys are given and the pair is held; 500 iff a key is missing, or the pair is free but names a missing project or skill; otherwise (iff) one row is added (201) |
| ProyectosInstitucionesHabilidadesController.UpdateProyectosInstitucionesHabilidad | src/controllers/proyectosInstitucionesHabilidadesController.js:85-114 | 404 iff no row matches or the body sets no column; 409 iff the merged pair is held elsewhere; 500 iff it names a missing project or skill; written (200) iff none of these |
| ProyectosInstitucionesHabilidadesController.PairHeldOnce | src/controllers/proyectosInstitucionesHabilidadesController.js:100-105 | writing a held pair under a second key always breaks uniqueness |
| ProyectosInstitucionesHabilidadesController.DeleteProyectosInstitucionesHabilidad | src/controllers/proyectosInstitucionesHabilidadesController.js:125-133 | 404 for no matching row, otherwise 204; only that row goes |
| AplicacionesEstudiantesController.GetAplicacionesEstudiantes | src/controllers/aplicacionesEstudiantesController.js:11 | every application exactly once, in key order |
| AplicacionesEstudiantesController.GetAplicacionEstudianteById | src/controllers/aplicacionesEstudiantesController.js:31-44 | the application under the id, or 404 exactly when there is none |
| AplicacionesEstudiantesController.NewAplicacion | src/models/AplicacionesEstudiantes.js:10-22 | a new application keeps both keys, and its status is the given one or Pendiente |
| AplicacionesEstudiantesController.CreateAplicacionEstudiante | src/controllers/aplicacionesEstudiantesController.js:62-70 | added (201) exactly when both keys are given, the status is valid and the student and project exist; otherwise 500 and nothing added |
| AplicacionesEstudiantesController.UpdateAplicacionEstudiante | src/controllers/aplicacionesEstudiantesController.js:82-101 | 404 iff the id is unknown or the body sets no column; written (200) iff the status is valid and the merged keys resolve; 500 iff not |
| AplicacionesEstudiantesController.EstadoOnlyChangesEstado | src/controllers/aplicacionesEstudiantesController.js:82-85 | a status-only update changes the status and nothing else |
| AplicacionesEstudiantesController.DeleteAplicacionEstudiante | src/controllers/aplicacionesEstudiantesController.js:112-119 | 404 for an unknown id; otherwise the row goes and a message is answered, not 204 |
| ContactoEmergenciaController.GetContactosEmergencia | src/controllers/contactoEmergenciaController.js:6-12 | every contact exactly once, in key order |
| ContactoEmergenciaController.GetContactoEmergenciaById | src/controllers/contactoEmergenciaController.js:26-39 | the contact under the id, or 404 CONTACTO_NOT_FOUND exactly when there is none |
| ContactoEmergenciaController.CreateContactoEmergencia | src/controllers/contactoEmergenciaController.js:54-79 | 500 iff a value is too long; 400 PERFIL_NOT_FOUND iff otherwise the profile is missing; added (201) iff neither |
| ContactoEmergenciaController.UpdateContactoEmergencia | src/controllers/contactoEmergenciaController.js:85-119 | 404 iff the id is unknown; 500 iff the merged row has a value too long; 400 iff otherwise the profile is missing; written (200) iff none of these |
| ContactoEmergenciaController.MergeContactoKeeps | src/controllers/contactoEmergenciaController.js:94 | resubmitting the row, or sending nothing, leaves it unchanged |
| ContactoEmergenciaController.DeleteContactoEmergencia | src/controllers/contactoEmergenciaController.js:160-170 | 404 for an unknown id; otherwise only that row goes (204) |
| ProyectoInstitucionController.GetProyectosInstitucion | src/controllers/proyectoInstitucionController.js:12-14 | every project exactly once, in key order |
| ProyectoInstitucionController.GetProyectoInstitucionById | src/controllers/proyectoInstitucionController.js:30-38 | the project under the id, or 404 exactly when there is none |
| ProyectoInstitucionController.NewProyecto | src/controllers/proyectoInstitucionController.js:54-63 | a falsy date is stored as null; availability defaults to true and the status to Pendiente; the columns not read are null |
| ProyectoInstitucionController.CreateProyectoInstitucion | src/controllers/proyectoInstitucionController.js:51-77 | added (201) exactly when the required columns are given, every value fits and the institution exists; otherwise 500 |
| ProyectoInstitucionController.OmittedDatesCleared | src/controllers/proyectoInstitucionController.js:93-102 | an update that omits a date clears it |
| ProyectoInstitucionController.UnreadColumnsKept | src/controllers/proyectoInstitucionController.js:93-102 | an update never changes the web site, main activity, schedule, manager or status |
| ProyectoInstitucionController.UpdateProyectoInstitucion | src/controllers/proyectoInstitucionController.js:85-113 | 404 for an unknown id; written (200) exactly when the merged row fits and its institution exists; otherwise 500 |
| ProyectoInstitucionController.DeleteProyectoInstitucion | src/controllers/proyectoInstitucionController.js:124-134 | 404 for an unknown id; otherwise the project delete rule is applied (204) |
| InstitucionController.GetInstituciones | src/controllers/institucionController.js:11 | every institution exactly once, in key order |
| InstitucionController.GetInstitucionById | src/controllers/institucionController.js:31-37 | the institution under the id, or 404 exactly when there is none |
| InstitucionController.NewInstitucion | src/controllers/institucionController.js:53-61 | the given name and email are stored; a falsy founding date is null |
| InstitucionController.CreateInstitucion | src/controllers/institucionController.js:51-65 | added (201) exactly when a name is given and the table stays valid; a duplicate answers 500, not 409 |
| InstitucionController.UpdateInstitucion | src/controllers/institucionController.js:75-93 | 404 for an unknown id; written (200) exactly when the merged row keeps the table valid; otherwise 500 |
| InstitucionController.OwnValuesNeverClash | src/controllers/institucionController.js:81-88 | resubmitting or omitting the institution's own name and email never clashes |
| InstitucionController.TakenNameRefused | src/models/Institucion.js:14-18 | taking another institution's name always breaks uniqueness |
| InstitucionController.DeleteInstitucion | src/controllers/institucionController.js:104-109 | 404 for an unknown id; otherwise the institution delete rule is applied (204) |
| EscuelasController.GetEscuelas | src/controllers/escuelasController.js:6 | every school exactly once, in key order |
| EscuelasController.GetEscuelaById | src/controllers/escuelasController.js:21-27 | the school under the id, or 404 exactly when there is none |
| EscuelasController.CreateEscuela | src/controllers/escuelasController.js:40-50 | added (201) exactly when the table stays valid; otherwise 500 and nothing added |
| EscuelasController.NamelessSchoolsAccepted | src/models/Escuelas.js:10-25 | any number of schools may have no name |
| EscuelasController.UpdateEscuela | src/controllers/escuelasController.js:56-74 | 404 for an unknown id; only the name changes, and only when given; a clash or an overlong name answers 500 |
| EscuelasController.DeleteEscuela | src/controllers/escuelasController.js:80-88 | 404 for an unknown id; otherwise the school delete rule is applied (204) |
| RoleController.GetRoles | src/controllers/roleController.js:7 | every role exactly once, in key order |
| RoleController.GetRoleById | src/controllers/roleController.js:18-23 | the role under the id, or 404 ROLE_NOT_FOUND exactly when there is none |
| RoleController.CreateRole | src/controllers/roleController.js:31-37 | added (201) exactly when a name is given and the table stays valid; otherwise 500 |
| RoleController.UpdateRole | src/controllers/roleController.js:43-56 | 404 for an unknown id; both columns are assigned, so an omitted name fails (500) and an omitted description becomes null |
| RoleController.OwnNameNeverClashes | src/controllers/roleController.js:47-49 | keeping a role's own name with any fitting description never clashes |
| RoleController.DeleteRole | src/controllers/roleController.js:63-72 | 404 for an unknown id; 500 exactly when a user has the role, changing nothing; otherwise the role goes (204) |
| HabilidadesController.GetHabilidades | src/controllers/habilidadesController.js:11 | every skill exactly once, in key order |
| HabilidadesController.GetHabilidadById | src/controllers/habilidadesController.js:31-39 | the skill under the id, or 404 exactly when there is none |
| HabilidadesController.CreateHabilidad | src/controllers/habilidadesController.js:57-65 | added (201) exactly when the description fits 50 characters; otherwise 500 |
| HabilidadesController.UpdateHabilidad | src/controllers/habilidadesController.js:77-93 | 404 iff no row matches or no description is given; 500 iff the description is longer than 50; otherwise (iff) the description is written (200) |
| HabilidadesController.DeleteHabilidad | src/controllers/habilidadesController.js:105-112 | 404 for an unknown id; otherwise the skill delete rule is applied and a message is answered, not 204 |
| PerfilUsuarioController.GeneroOf | src/models/PerfilUsuario.js:22-25 | a valid gender text is stored as the value it names, and an omitted one as null |
| PerfilUsuarioController.GetPerfilesUsuario | src/controllers/perfilUsuarioController.js:11 | every profile exactly once, in key order |
| PerfilUsuarioController.GetPerfilUsuarioById | src/controllers/perfilUsuarioController.js:31-37 | the profile under the id, or 404 exactly when there is none |
| PerfilUsuarioController.GetPerfilUsuarioByUsuarioId | src/controllers/perfilUsuarioController.js:57-63 | a profile of the user, the first in key order, exactly when the user has one; otherwise 404 |
| PerfilUsuarioController.CreatePerfilUsuario | src/controllers/perfilUsuarioController.js:80-101 | as written: every body answers 500 |
| PerfilUsuarioController.NewPerfil | src/models/PerfilUsuario.js:10-29 | a new profile keeps its user, has no career, and stores a falsy birth date as null |
| PerfilUsuarioController.CreatePerfilUsuarioCorrected | src/controllers/perfilUsuarioController.js:80-101 | as intended: added (201) exactly when the user is given and exists, the gender is valid and the photo fits; otherwise 500 |
| PerfilUsuarioController.CreateRefusesAcceptableProfile | src/controllers/perfilUsuarioController.js:84-86 | a body naming an existing user is one the intended create adds |
| PerfilUsuarioController.UpdatePerfilUsuario | src/controllers/perfilUsuarioController.js:108-137 | as written: 404 for an unknown id, otherwise 500 |
| PerfilUsuarioController.MergePerfil | src/controllers/perfilUsuarioController.js:120-127 | an update keeps the user and career; the birth date is null exactly when a falsy one is sent |
| PerfilUsuarioController.UpdatePerfilUsuarioCorrected | src/controllers/perfilUsuarioController.js:108-137 | as intended: 404, else written (200) exactly when the gender is valid and the merged row fits; otherwise 500 |
| PerfilUsuarioController.UpdateRefusesAcceptableChange | src/controllers/perfilUsuarioController.js:121-123 | an empty update of an existing profile is one the intended update writes |
| PerfilUsuarioController.DeletePerfilUsuario | src/controllers/perfilUsuarioController.js:148-156 | 404 for an unknown id; otherwise the profile delete rule is applied (204) |

## Left out

- Route registration and request-schema validation (src/routes): they run before a handler. Each handler is modelled for every body made of the fields it models, including bodies a schema would reject.
- Server start-up, documentation UI and static files (src/app.js), and the greeting handlers of src/controllers/homeController.js.
- src/models/ProyectoInstitucion.js: it is an older definition of the projects table. src/models/ProyectosInstitucion.js supersedes it.
- getContactoEmergenciaByPerfilUsuarioId: its route declares a parameter named differently from the one the handler reads. It is not modelled as a feature.
- Eager-loaded associations and column projections in replies: a reply carries the stored row. The one projection the model keeps is the hidden password hash.
- Logging, timestamps (`created_at`, `updated_at`), date parsing, string collation and concurrency: handlers are atomic, sequential transitions, and dates are opaque strings.
- JSON `null` in a body: it is treated like an omitted field.
- The order of an unordered listing is the database's choice. The model uses primary-key order.
- Which database error comes first when a write breaks several constraints: the model picks one order per handler. The answered status is the same either way, except where the handler maps only the unique-constraint error.
- Column lengths of project activities (src/models/ActividadesProyecto.js:15-26) are not modelled: no handler writes that table. Every table a handler writes has its lengths checked (`Models.*Ok`).
- Bitacoras, their items and activities: no handler writes or deletes them directly. They change only through the delete rules.
- The uniqueness of a (student, project) application and of one profile per user: no model file or handler declares either rule.
- Enumeration values: the ORM does not check them, and the database refuses an unknown one when the row is written. The model answers that refusal as 500 at the write.
- UsuariosController.UpdateUsuario: of the six fields the handler passes, only `email` and `rol_id` are columns of the users table. The name fields are dropped by the ORM, so the model writes only those two.
- UsuariosController.UpdateUsuario: the 409 answer passes the status where the error code goes, so the model's error code is "409".
- Updates by `where` (users, skills, applications and the two skill join tables) answer 404 when the affected-row count is 0. The model answers 404 exactly when no row matches or the body sets no column: it counts matched rows. Of these tables, only the skill, application and two join-table models carry `updated_at`. The users table has no timestamps.
- UsuariosController.UpdateUsuario: the model counts matched rows, so a body equal to the stored values (say, only the user's current `rol_id`) answers 200. A driver that counts only changed rows reports 0 for it, and the handler answers 404. The same holds on the timestamped tables when `updated_at` keeps its value within one second.
- HabilidadesController.CreateHabilidad, HabilidadesController.UpdateHabilidad, UsuariosHabilidadesController.CreateUsuariosHabilidad, UsuariosHabilidadesController.UpdateUsuariosHabilidad, ProyectosInstitucionesHabilidadesController.CreateProyectosInstitucionesHabilidad, ProyectosInstitucionesHabilidadesController.UpdateProyectosInstitucionesHabilidad, AplicacionesEstudiantesController.CreateAplicacionEstudiante, AplicacionesEstudiantesController.UpdateAplicacionEstudiante, ContactoEmergenciaController.CreateContactoEmergencia, ContactoEmergenciaController.UpdateContactoEmergencia: these handlers pass the whole request body to the ORM. The model ignores body keys for the primary key and the timestamps. With such a key, the source writes it: for example, `{ id: 9 }` sent to update skill 3 moves the row, then answers 200 with the now-missing row. The model answers 404 for that body.
- Module loading: src/models/index.js:3-4 and src/models/ContactoEmergencia.js:3 default-import Usuarios.js and PerfilUsuario.js, which export only named bindings (Usuarios.js:55, PerfilUsuario.js:47). index.js:2 and :5 also import Roles.js and Instituciones.js, whose definitions are in Role.js and Institucion.js. As written, the ES modules fail to link and the server does not start. The model assumes these imports resolve to the model each file defines.
- CoordinadorCarreraController.GetCoordinadores, CarrerasController.GetCarreras, EncargadoInstitucionController.GetEncargadosInstitucion: under ASC the database decides where NULL sorts (first in MySQL and SQLite, last in PostgreSQL). The model puts NULL first (`Ordering.FieldLe`), and its text order compares characters by code point, without the database's collation.
- CarrerasController.DeleteCarrera: the handler's 400 CARRERA_HAS_RELATIONS branch cannot be taken. Every reference to a career either cascades or is set to null.
- ProyectoInstitucionController.UpdateProyectoInstitucion and InstitucionController.UpdateInstitucion: an omitted non-date field keeps its value, because the ORM skips undefined values. Only the dates are always replaced.

## Findings

| source | as written | input that shows it | evidently intended | confidence | as-written member | corrected member |
|---|---|---|---|---|---|---|
| src/controllers/perfilUsuarioController.js:80-101 | the row built for the insert names `telefono` and `anio_academico`, which are declared nowhere, so the handler throws and answers 500 for every body | a body with only the `usuario_id` of an existing user | the profile is inserted (201) when its user exists and its values fit | high (not executed) | PerfilUsuarioController.CreatePerfilUsuario, PerfilUsuarioController.CreateRefusesAcceptableProfile | PerfilUsuarioController.CreatePerfilUsuarioCorrected |
| src/controllers/perfilUsuarioController.js:108-137 | the update names the same two undeclared variables, so every update of an existing profile answers 500 | an empty body for an existing profile id | the merged profile is written (200) | high (not executed) | PerfilUsuarioController.UpdatePerfilUsuario, PerfilUsuarioController.UpdateRefusesAcceptableChange | PerfilUsuarioController.UpdatePerfilUsuarioCorrected |
| src/controllers/usuariosController.js:67-79 | the email lookup finds any user with the email, the user being updated included, so resubmitting one's own email answers 409 | user 1 with email `a@x` sends `{ email: "a@x" }` | only an email held by another user is a conflict | medium (not executed) | UsuariosController.UpdateUsuario, UsuariosController.OwnEmailConflicts | UsuariosController.UpdateUsuarioCorrected, UsuariosController.OwnEmailAccepted |
