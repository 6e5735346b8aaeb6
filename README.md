# A verified model of the course-platform service layer

The system is a Go REST service for an online course platform. It keeps
three stores:

- a key/value store (Redis) holding one whole user profile per key
  `"usuario:" + email + ":" + password`;
- a document store (MongoDB) holding the catalog: courses, units and
  classes;
- a graph database (Neo4j) holding users, courses, ratings and comments.

The project models the service layer over these stores:

- profiles, enrollment and per-course progress;
- ratings and the mean rating written back to the catalog;
- the two migrations into the graph;
- comments on classes and on courses;
- creation and lookup of the catalog hierarchy;
- the JSON response projections.

Each store is a Dafny class whose fields are the store's contents:

- `ProfileStore.Redis`: a map from key to record;
- `Catalog.Mongo`: one map per collection, keyed by `_id`;
- `Graph.Neo4j`: node maps keyed by natural key, plus edge sequences.

Each service operation is a method over those objects. Its postcondition
ties the new state to a pure function of the old state, and the lemmas
prove properties of that function. Everything else is written out in the
model:

- ObjectIds (`ObjectIDFromHex`, `Hex`): 24 hex digits, the driver's two parse errors (wrong byte length, first non-hex byte), lowercase output, round trip and injectivity.
- Go's `strings.Split` and `len` of a string, which counts UTF-8 bytes.
- The mean that Cypher's `avg` computes.
- The check-then-create fold that both migrations perform.

Module layout:

- Infrastructure: `common.dfy`, `object_ids.dfy`, `strings.dfy`, `models.dfy`.
- The stores: `profile_store.dfy`, `catalog.dfy`, `graph.dfy`.
- The shared migration fold: `create_if_absent.dfy`.
- One module per service file of the system, plus `response.dfy`.

Where the code behaves differently from what its documentation suggests, the model follows the code:

- A second rating of the same course by the same user is refused with "el usuario ya ha puntuado este
  course". It is not an update of the first rating.
- `VerClase` looks a class up in the course's list of **unit** ids (`curso.Unidades`), and it measures
  completion against the length of that list. The model does the same, so "EN CURSO"/"COMPLETADO"
  count units.
- The rating transaction has two "create the node if it is absent" branches. Each tests whether a
  `COUNT(*) > 0` query returned a row, and an aggregate query always returns one. Those branches never
  run, so they are not modelled. A rating whose `User` or `Course` node is missing creates no edge,
  and the call still succeeds.
- `NewComentarioResponse` calls `.Hex()` on comment ids. In `models/Comentario.go` those ids are
  strings, so the model copies them unchanged.
- Keys are not injective in the credentials. The migration in `MigrationService.go` also cuts a
  password short at its first `:`. `MigrationService.ColonInPasswordTruncates` shows an input for which
  this happens. The key decoding is the inverse of the key encoding only for colon-free credentials
  (`MigrationService.CandidateInvertsKey`).

## Model

| member | source | states |
|---|---|---|
| ObjectIds.ObjectIDFromHex | services/Usuario_service.go:102-105 | a string parses exactly when it is 24 hex digits; a string whose UTF-8 length is not 24 bytes is ErrInvalidHex; a 24-byte string with a non-hex character is an invalid-byte error carrying the first byte of the first such character |
| ObjectIds.HexDigit | response/response.go:24 | a nibble prints as a lowercase digit whose value is that nibble |
| ObjectIds.HexBytes | response/response.go:24 | two lowercase hex digits per byte |
| ObjectIds.DecodeBytes | services/Usuario_service.go:102 | an even-length string decodes exactly when every character is a hex digit of either case, into half as many bytes |
| ObjectIds.Hex | response/response.go:24 | the hex text of an id is always a valid, lowercase id string |
| ObjectIds.ParseHexRoundTrip | response/response.go:24 | parsing the hex text of an id gives back that id |
| ObjectIds.HexInjective | response/response.go:24 | two ids with the same hex text are the same id |
| ObjectIds.DecodeHexBytes | response/response.go:24 | decoding the hex of any byte string gives back those bytes |
| Strings.Split | services/MigrationService.go:50 | strings.Split yields one more piece than there are separators, and no piece holds the separator |
| Strings.SplitAfter | services/MigrationService.go:50-56 | splitting a+sep+b, with a free of sep, gives a followed by the pieces of b |
| Strings.SplitAbsent | services/MigrationService.go:50-56 | a string without the separator splits into itself alone |
| Strings.CountAbsent | services/MigrationService.go:50 | a string without the separator holds none of it |
| Strings.CountPositive | services/MigrationService.go:50 | a string holding the separator counts it at least once |
| Strings.CountConcat | services/MigrationService.go:50-51 | the separators in a concatenation are those of both halves |
| Strings.Utf8LenBounds | services/ComentarioCurso_service.go:22 | a string takes between one and four bytes per character, and exactly one byte per character iff it is all ASCII |
| Common.Enumerate | services/Usuario_service.go:31 | a scan lists exactly the elements that satisfy the filter, each once |
| ProfileStore.UserKeyMatches | services/Usuario_service.go:54 | every key built from credentials is listed by both the "usuario:*" and the "usuario:*:*" patterns |
| ProfileStore.Redis.Set | services/Usuario_service.go:61 | SET overwrites the key with the whole record and changes nothing else |
| ProfileStore.Redis.Keys | services/Usuario_service.go:31 | KEYS lists every matching key exactly once |
| Catalog.Select | services/Curso_service.go:31-38 | a Find lists exactly the documents that satisfy the filter, each once |
| Catalog.Mongo.InsertCurso | services/Curso_service.go:51 | an insert under a taken _id is a duplicate-key error and changes nothing; otherwise the document is added |
| Catalog.Mongo.SetValoracion | services/Curso_service.go:82-86 | $set of valoracion changes that field of that course only, and nothing when no course matches |
| Catalog.Mongo.InsertUnidad | services/Unidad_service.go:85 | InsertOne of a unit under a fresh _id adds exactly that document |
| Catalog.Mongo.PushUnidad | services/Unidad_service.go:91-95 | $push appends the unit id to the end of the course's list and changes nothing else |
| Catalog.Mongo.InsertClase | services/Clase_service.go:93 | InsertOne of a class under a fresh _id adds exactly that document |
| Catalog.Mongo.PushClase | services/Clase_service.go:99-103 | $push appends the class id to the end of the unit's list and changes nothing else |
| Graph.Neo4j.CreateUsuario | services/MigrationService.go:97-106 | CREATE of a Usuario node stores it under its email and changes no other label or edge |
| Graph.Neo4j.CreateCurso | services/MigrationService.go:160-165 | CREATE of a Curso node stores it under its id and changes no other label or edge |
| Graph.Neo4j.CreateRating | services/Puntuacion_service.go:152-171 | CREATE of a rating between existing User and Course nodes appends exactly that edge, keeping every edge's ends present |
| CreateIfAbsent.Step | services/MigrationService.go:76-79 | one check-then-create adds the candidate's key and never alters an existing node |
| CreateIfAbsent.RunSnoc | services/MigrationService.go:48 | a pass over one more item is one more step |
| CreateIfAbsent.KeysOfSnoc | services/MigrationService.go:48 | the keys of one more candidate are the old keys plus its key |
| MigrationService.UsuarioCandidatesSnoc | services/MigrationService.go:48 | the candidates of one more profile record are the old candidates plus that record's candidate |
| MigrationService.CursoCandidatesSnoc | services/MigrationService.go:126 | the candidates of one more course document are the old candidates plus that course's candidate |
| CreateIfAbsent.KeysOfCovered | services/MigrationService.go:48 | candidates drawn from another pass bring no new keys |
| CreateIfAbsent.RunKeys | services/MigrationService.go:48-110 | a pass adds exactly the keys of the candidates it could build |
| CreateIfAbsent.RunPreservesExisting | services/MigrationService.go:76-79 | a pass never alters a node that was already there |
| CreateIfAbsent.RunNoop | services/MigrationService.go:76-79 | a pass whose candidate keys are all present changes nothing |
| CreateIfAbsent.RunIdempotent | services/MigrationService.go:48-110 | a second pass over already-covered candidates leaves the nodes exactly as the first pass left them |
| CreateIfAbsent.RunKeyed | services/MigrationService.go:96-106 | nodes stay stored under their own key across a pass |
| UsuarioService.Enrolled | services/Usuario_service.go:114-124 | enrollment appends exactly one id, one date and one progress record {course, [], "INICIADO"}, and changes nothing else |
| UsuarioService.Inscripcion | services/Usuario_service.go:87-131 | a missing key is "usuario no encontrado"; an undecodable record is the JSON error; a bad hex id is the driver's parse error, passed through; a found user and a parsed id not yet listed always succeed; an enrolled course is "ya está inscrito" exactly when the id is already listed; success writes the enrolled record |
| UsuarioService.EnrolledWellFormed | services/Usuario_service.go:114-124 | enrollment keeps the id, date and progress lists parallel and the ids duplicate-free |
| UsuarioService.EnrollTwice | services/Usuario_service.go:107-112 | a second enrollment in the same course is refused, and the written record lists the course exactly once |
| UsuarioService.FindCourseOf | services/Usuario_service.go:206-229 | the result is the first progress record whose course's unit list holds the class; "no pertenece" iff every record passes over it; a course missing from the catalog stops the search |
| UsuarioService.FindCourseOfSameCourses | services/Usuario_service.go:208-225 | the search depends only on the records' course ids |
| UsuarioService.View | services/Usuario_service.go:232-256 | "clase ya vista" iff already seen; otherwise only that record changes: the class is appended and the status becomes EN CURSO below the total, COMPLETADO at it, and stays unchanged above it |
| UsuarioService.ViewWellFormed | services/Usuario_service.go:237 | marking a class seen keeps every seen-list duplicate-free |
| UsuarioService.VerClaseTwice | services/Usuario_service.go:234-236 | viewing the same class again after a successful view is "clase ya vista" |
| UsuarioService.ThreeViews | services/Usuario_service.go:245-252 | with three entries listed, three views go INICIADO, EN CURSO, EN CURSO, COMPLETADO |
| UsuarioService.Contains | services/Usuario_service.go:285-292 | contains is true iff the item occurs in the slice |
| UsuarioService.CrearUsuario | services/Usuario_service.go:53-67 | the record overwrites its key, and that key is returned |
| UsuarioService.ObtenerUsuarios | services/Usuario_service.go:28-51 | the records under every "usuario:*" key in listing order; a record that does not decode aborts the listing with the decode error |
| UsuarioService.ObtenerUsuarioPorCorreoYContrasena | services/Usuario_service.go:69-85 | the record under the credentials' key; "usuario no encontrado" when the key is missing; the decode error when it does not decode |
| UsuarioService.InscribirseACurso | services/Usuario_service.go:87-137 | the store ends as Inscripcion decides: the enrolled record is written back, or the error is returned and nothing is written |
| UsuarioService.ObtenerCursosInscritos | services/Usuario_service.go:139-189 | no enrollments give an empty list; otherwise exactly the catalog courses whose id is enrolled, each once |
| UsuarioService.VerClase | services/Usuario_service.go:192-272 | the store ends as the course search followed by View decides, and nothing is written on any error |
| UsuarioService.ObtenerTotalClasesPorCurso | services/Usuario_service.go:275-282 | the course's list of unit ids, or the no-documents error for a missing course |
| UsuarioService.ObtenerProgresoCursos | services/Usuario_service.go:295-303 | the stored progress records, or the lookup's error |
| PuntuacionService.SumBounds | services/Puntuacion_service.go:213-217 | with every value in [0, 5], the sum over a course lies in [0, 5 × count] |
| PuntuacionService.CountSumConcat | services/Puntuacion_service.go:215-216 | the count and the sum of a course's ratings split over a concatenation of edge lists |
| PuntuacionService.CountSumPermutation | services/Puntuacion_service.go:215-216 | the count and the sum of a course's ratings are the same for any two edge lists holding the same ratings |
| PuntuacionService.PromedioPermutation | services/Puntuacion_service.go:213-247 | the mean does not depend on the order in which the graph returns the CALIFICÓ edges |
| PuntuacionService.MeanInRange | services/Puntuacion_service.go:213-247 | with every value in [0, 5], the mean lies in [0, 5] |
| PuntuacionService.DivAtMost | services/Puntuacion_service.go:216 | the arithmetic step of the mean bound |
| PuntuacionService.MeanIgnoresOtherCourses | services/Puntuacion_service.go:215 | ratings of other courses do not move a course's mean |
| PuntuacionService.MeanAfterRating | services/Puntuacion_service.go:215-216 | a new rating makes the mean the old sum plus the new value over the old count plus one |
| PuntuacionService.MeanOfFirstRating | services/Puntuacion_service.go:215-216 | the first rating of a course is its mean |
| PuntuacionService.SumZero | services/Puntuacion_service.go:228-229 | a course without ratings has sum 0 |
| PuntuacionService.RatingKeepsAtMostOne | services/Puntuacion_service.go:133-171 | adding a rating for an unrated pair keeps at most one rating per (user, course), and the pair is then rated |
| PuntuacionService.ParseObjectID | services/Puntuacion_service.go:249-250 | parses exactly the valid hex ids, and the parsed id prints back to an id that parses to the same value |
| PuntuacionService.Precheck | services/Puntuacion_service.go:35-76 | the checks in order: an out-of-range value is refused first, then missing credentials, then an undecodable record; a found user with an invalid hex id is "cursoID inválido"; a pass needs a valid hex id; all checks passing is a pass; "no está inscrito" iff the user is found but not enrolled; "curso no encontrado en MongoDB" iff enrolled but the course is absent |
| PuntuacionService.CrearPuntuacionParaCurso | services/Puntuacion_service.go:34-195 | a failed check changes nothing; an existing rating is "ya ha puntuado" and changes nothing; otherwise the rating edge is added and the course's valoracion becomes the mean over the new ratings; at most one rating per (user, course) is preserved |
| PuntuacionService.ObtenerPromedioPuntuacionesCurso | services/Puntuacion_service.go:198-210 | the value is the mean of the course's ratings, which lies in [0, 5] when every rating does, and is 0 with no ratings |
| MigrationService.UsuarioCandidates | services/MigrationService.go:48-56 | one candidate per listed key, in order |
| MigrationService.KeySplitRoundTrip | services/MigrationService.go:50-56 | a key built from colon-free credentials splits into the prefix, the email and the password |
| MigrationService.CandidateInvertsKey | services/MigrationService.go:50-106 | the migration reads back the credentials the profile was stored under, when they are colon-free |
| MigrationService.SplitColonKey | services/MigrationService.go:50-56 | a key whose password holds one ':' splits into four pieces, with the password's two halves as pieces 2 and 3 |
| MigrationService.ColonInPasswordTruncates | services/MigrationService.go:55-56 | for the key of ("a", "b:c") the migrated password is "b" |
| MigrationService.ListedKeySplits | services/MigrationService.go:40-54 | every key the "usuario:*:*" pattern lists has at least three pieces |
| MigrationService.CursoCandidates | services/MigrationService.go:126-134 | one candidate per course document, in order |
| MigrationService.CursoCandidateInjective | services/MigrationService.go:137-157 | two courses give the same Curso key only if they share their id |
| MigrationService.UsuariosIdempotent | services/MigrationService.go:48-110 | a second user pass over keys already seen creates nothing |
| MigrationService.CursosIdempotent | services/MigrationService.go:126-169 | a second course pass over documents already seen creates nothing |
| MigrationService.MigrateUsuarios | services/MigrationService.go:38-112 | a failing KEYS is returned wrapped; otherwise the Usuario nodes are the fold over the listed keys and no other label changes |
| MigrationService.MigrateCursos | services/MigrationService.go:115-171 | a failing Find is returned wrapped; otherwise the Curso nodes are the fold over the documents and no other label changes |
| MigrationService.MigrateUsuariosYCursos | services/MigrationService.go:27-36 | users first; a user-pass error is wrapped and stops the course pass; then the course pass's error is wrapped in turn |
| MigracionService.UserCandidates | services/migracion_service.go:44-57 | one candidate per listed key, from the record's own email and name |
| MigracionService.MigrarIdempotent | services/migracion_service.go:79-115 | a second run, at any later time, leaves the User nodes exactly as they were |
| MigracionService.CrearUsuarioEnNeo4j | services/migracion_service.go:73-120 | an existing User email changes nothing; otherwise exactly one User {email, nombre, fecha_creacion} is added |
| MigracionService.MigrarUsuarios | services/migracion_service.go:33-70 | a failing KEYS is returned wrapped; otherwise the User nodes are the fold over the listed keys, skipping unreadable records |
| ComentarioService.Matching | services/Comentario_service.go:29 | exactly the comments on a chain ending at the class |
| ComentarioService.Insert | services/Comentario_service.go:31 | inserting adds the element to the contents |
| ComentarioService.InsertMembers | services/Comentario_service.go:31 | inserting brings in no element other than the new one |
| ComentarioService.InsertSorted | services/Comentario_service.go:31 | insertion keeps a list sorted newest first |
| ComentarioService.SortDesc | services/Comentario_service.go:31 | the listing is a permutation of its rows, sorted by date descending |
| ComentarioService.ToComentario | services/Comentario_service.go:43-51 | a row becomes a comment with the returned fields copied, and the class id and password left empty |
| ComentarioService.NoChainNoComments | services/Comentario_service.go:40-59 | a class with no matching chain lists nothing |
| ComentarioService.NewChainListed | services/Comentario_service.go:100-110 | a new chain adds its comment to its class's listing and to no other class's |
| ComentarioService.ToComentarios | services/Comentario_service.go:40-53 | the append loop gives one comment per row, in row order |
| ComentarioService.ToComentariosSorted | services/Comentario_service.go:31-53 | rows sorted newest first give comments sorted newest first |
| ComentarioService.ObtenerComentariosPorClase | services/Comentario_service.go:23-67 | the class's comments, one per row, newest first |
| ComentarioService.CrearComentarioParaClase | services/Comentario_service.go:70-141 | a missing class is "clase no encontrada" and writes nothing; otherwise the comment comes back with the fresh id and date, and one chain is added when the author's User exists |
| ComentarioCursoService.Commented | services/ComentarioCurso_service.go:21-45 | under 15 bytes is refused; with both end nodes present exactly one edge is appended; with either missing nothing changes and no error is returned |
| ComentarioCursoService.CrearComentarioCurso | services/ComentarioCurso_service.go:21-45 | the graph ends as Commented decides, and no other label changes |
| ComentarioCursoService.EdgesOf | services/ComentarioCurso_service.go:54 | exactly the user's edges |
| ComentarioCursoService.RowOf | services/ComentarioCurso_service.go:55 | a row is the commented course's name and the edge's text |
| ComentarioCursoService.ObtenerComentariosCursoPorUsuario | services/ComentarioCurso_service.go:48-88 | one (course name, text) row per edge from the user |
| ComentarioCursoService.CommentListed | services/ComentarioCurso_service.go:30-41 | a new comment adds exactly one row to its author's listing and none to anyone else's |
| ComentarioCursoService.RepeatedCommentListedTwice | services/ComentarioCurso_service.go:30-41 | the same comment made twice is stored and listed twice |
| ComentarioCursoService.WideCharactersCountTwice | services/ComentarioCurso_service.go:22 | eight characters that take fifteen bytes pass the minimum-length check |
| CursoService.ObtenerCursos | services/Curso_service.go:29-39 | every course in the collection, each once |
| CursoService.Filled | services/Curso_service.go:42-51 | nil Unidades/Comentarios become empty; other fields are as given; a zero _id is replaced by a fresh one |
| CursoService.CrearCurso | services/Curso_service.go:42-52 | the filled course is inserted, or a duplicate _id is refused, and the hierarchy stays consistent |
| CursoService.ObtenerCursoPorID | services/Curso_service.go:55-71 | an invalid hex id is "ID inválido" before any lookup; a missing course is "curso no encontrado"; otherwise the result is the course stored under the parsed id, whose own id is that id when ids match keys |
| CursoService.CreatedCourseFound | services/Curso_service.go:42-71 | a created course is found again under the hex of its id |
| CursoService.Revalued | services/Curso_service.go:82-86 | only the matching course's valoracion changes |
| CursoService.RevaluedConsistent | services/Curso_service.go:82-86 | changing a rating keeps every unit listed by its course and every class by its unit |
| CursoService.RevaluedFound | services/Curso_service.go:74-91 | the rating written is the rating read back |
| CursoService.ActualizarValoracion | services/Curso_service.go:74-92 | an invalid id is "ID inválido" and changes nothing; otherwise only that course's valoracion changes |
| UnidadService.ObtenerUnidadesPorCurso | services/Unidad_service.go:28-56 | the id checks, then exactly the units whose id is in the course's list, each once |
| UnidadService.AddUnidad | services/Unidad_service.go:77-98 | the new unit names the course and has no classes, and the course's list gains its id at the end; nothing else changes |
| UnidadService.AddUnidadConsistent | services/Unidad_service.go:77-98 | creating a unit keeps every unit listed by its course and every class by its unit |
| UnidadService.AddUnidadListed | services/Unidad_service.go:36-98 | the course's listing gains exactly the new unit, and other courses' listings are unchanged |
| UnidadService.CrearUnidad | services/Unidad_service.go:59-101 | an invalid id is "ID inválido" and a missing course "curso no encontrado", both writing nothing; otherwise the unit is created as AddUnidad says and consistency is kept |
| ClaseService.ObtenerClasesPorUnidad | services/Clase_service.go:31-60 | the id checks, then exactly the classes whose unidad_id is the unit, each once |
| ClaseService.ClassesOfListed | services/Clase_service.go:49-102 | in a consistent catalog, the classes found by unidad_id are listed by their unit |
| ClaseService.Filled | services/Clase_service.go:81-90 | nil lists become empty; the class names its unit and gets the fresh id; other fields are as given |
| ClaseService.Assigned | services/Clase_service.go:81-90 | the caller's class carries the filled lists, the unit id and the fresh id |
| ClaseService.AddClase | services/Clase_service.go:93-103 | the class is stored and the unit's list gains its id at the end; nothing else changes |
| ClaseService.AddClaseConsistent | services/Clase_service.go:89-103 | creating a class under an existing unit keeps the hierarchy consistent |
| ClaseService.AddClaseListed | services/Clase_service.go:49-103 | the unit's classes gain exactly the new class, and other units' classes are unchanged |
| ClaseService.CrearClaseParaUnidad | services/Clase_service.go:63-109 | an invalid id is "ID de unidad inválido" and a missing unit "unidad no encontrada", both writing nothing; otherwise the class is created as AddClase says |
| Response.HexList | response/response.go:22-30 | same length, element i is the hex of id i and parses back to it, equal entries iff equal ids |
| Response.NewCursoResponse | response/response.go:21-42 | the id and each listed unit and comment id become their lower-case hex text, in order, which parses back to the id; the scalars are copied |
| Response.NewUnidadResponse | response/response.go:69-81 | the id and the course id become their lower-case hex text, as does each class id in order; each parses back to its id |
| Response.NewClaseResponse | response/response.go:102-119 | the id, the unit id and each comment id in order become their lower-case hex text, which parses back; the attachment URLs pass through unchanged |
| Response.NewComentarioResponse | response/response.go:139-150 | a field-for-field copy |

## Left out

- Transport and driver failures are not modelled: Redis GET/SET, Mongo FindOne/Find/InsertOne/UpdateOne and Cypher `tx.Run` can fail, and a model call never does. The exceptions are the KEYS and Find listing failures of the migrations, which are parameters.
- JSON and BSON decoding is reduced to a record that decodes or does not (`ProfileStore.Blob`). Decode errors of catalog documents and of Mongo cursors are not modelled.
- Three values come from the environment and are parameters: `uuid.New`, `time.Now` and the graph server's `datetime()`. `primitive.NewObjectID`, and the driver's `_id` for a document without one, is a fresh-id parameter that is required to be unused.
- MigracionService.MigrarUsuarios: every node of one run gets the same `now`, whereas the server evaluates `datetime()` once per node.
- Error logging of per-item graph failures in the migrations is not modelled. The graph calls of the model do not fail, so the "log and continue" branches at services/MigrationService.go:71-74, 107-109, 149-152, 166-168 and services/migracion_service.go:60-64 have nothing to skip.
- The order of Cypher results and of Mongo cursors is not specified by the stores. Listings over the catalog and KEYS use an unspecified order. The graph listings use creation order, and ties in `ORDER BY c.fecha DESC` keep creation order.
- Automatic retries of graph write transactions, concurrent requests, and the lost update between two read-modify-write calls on the same profile are concurrency concerns and are not modelled.
- The internal layout of a generated ObjectId (timestamp, process and counter bytes) is not modelled: a fresh id is any id not yet in the collection.
- `float32` rounding of ratings and averages is not modelled; values are reals.
- The controllers, `main.go`, the Neo4j driver setup, the request binding structs and the generated API docs are wiring that holds no service logic.
- The `Course` node that each class comment creates carries no properties and is private to its chain, so it is folded into `Graph.CommentChain`.
