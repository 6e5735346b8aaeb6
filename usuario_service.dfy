/** The user service: profiles in the key/value store, enrollment in
    catalog courses, and per-course progress through classes. Every
    operation addresses the one key UserKey(email, password), reads the
    whole record, and on success writes the whole record back. */
module UsuarioService {
  import opened Common
  import opened ObjectIds
  import opened Models
  import opened ProfileStore
  import opened Catalog

  const NotFound := Msg("usuario no encontrado")
  const AlreadyEnrolled := Msg("el usuario ya está inscrito en este curso")
  const InvalidClassId := Msg("ID de clase inválido")
  const NotInEnrolledCourse := Msg("la clase no pertenece a ningún curso inscrito por el usuario")
  const AlreadySeen := Msg("clase ya vista")

  // ---------------------------------------------------------------------
  // The specification of a profile's shape and of the two updates
  // ---------------------------------------------------------------------

  /** The shape enrollment keeps: one date and one progress record per
      enrolled course, in the same order, no course twice, and no class
      counted twice within a course's progress. */
  ghost predicate WellFormed(u: Usuario) {
    && |u.fechaInscripcion| == |u.inscritos|
    && |u.progresos| == |u.inscritos|
    && NoDup(u.inscritos)
    && (forall i :: 0 <= i < |u.inscritos| ==> u.progresos[i].cursoId == u.inscritos[i])
    && (forall i :: 0 <= i < |u.progresos| ==> NoDup(u.progresos[i].clasesVistas))
  }

  /** The record after enrolling in `curso` at time `now`. */
  function Enrolled(u: Usuario, curso: ObjectId, now: Time): (v: Usuario)
    ensures v.inscritos == u.inscritos + [curso]
    ensures v.fechaInscripcion == u.fechaInscripcion + [now]
    ensures v.progresos == u.progresos + [ProgresoCurso(curso, [], INICIADO)]
    ensures v.id == u.id && v.nombre == u.nombre && v.email == u.email && v.password == u.password
  {
    u.(inscritos := u.inscritos + [curso],
       fechaInscripcion := u.fechaInscripcion + [now],
       progresos := u.progresos + [ProgresoCurso(curso, [], INICIADO)])
  }

  /** What InscribirseACurso decides on a snapshot of the store: the record
      to write back, or the error to report. */
  function Inscripcion(data: map<string, Blob>, email: string, password: string, cursoID: string, now: Time)
    : (r: Result<Usuario>)
    ensures UserKey(email, password) !in data ==> r == Err(NotFound)
    ensures UserKey(email, password) in data && data[UserKey(email, password)].Undecodable? ==> r == Err(DecodeError)
    ensures !IsValidHex(cursoID) && UserKey(email, password) in data && data[UserKey(email, password)].Record?
            ==> r == Err(ObjectIDFromHex(cursoID).error)
    ensures r.Ok? ==>
              && Lookup(data, UserKey(email, password), NotFound).Ok?
              && ObjectIDFromHex(cursoID).Ok?
              && ObjectIDFromHex(cursoID).value !in Lookup(data, UserKey(email, password), NotFound).value.inscritos
              && r.value == Enrolled(Lookup(data, UserKey(email, password), NotFound).value, ObjectIDFromHex(cursoID).value, now)
    ensures r == Err(AlreadyEnrolled) <==>
              && Lookup(data, UserKey(email, password), NotFound).Ok?
              && ObjectIDFromHex(cursoID).Ok?
              && ObjectIDFromHex(cursoID).value in Lookup(data, UserKey(email, password), NotFound).value.inscritos
    ensures Lookup(data, UserKey(email, password), NotFound).Ok? && ObjectIDFromHex(cursoID).Ok?
            && ObjectIDFromHex(cursoID).value !in Lookup(data, UserKey(email, password), NotFound).value.inscritos
            ==> r.Ok?
  {
    match Lookup(data, UserKey(email, password), NotFound)
    case Err(e) => Err(e)
    case Ok(u) =>
      match ObjectIDFromHex(cursoID)
      case Err(e) => Err(e)
      case Ok(id) => if id in u.inscritos then Err(AlreadyEnrolled) else Ok(Enrolled(u, id, now))
  }

  /** Enrollment keeps the profile well formed. */
  lemma EnrolledWellFormed(u: Usuario, curso: ObjectId, now: Time)
    requires WellFormed(u)
    requires curso !in u.inscritos
    ensures WellFormed(Enrolled(u, curso, now))
  {
    var v := Enrolled(u, curso, now);
    forall i | 0 <= i < |v.inscritos|
      ensures v.progresos[i].cursoId == v.inscritos[i]
    {
      if i < |u.inscritos| {
        assert v.progresos[i] == u.progresos[i] && v.inscritos[i] == u.inscritos[i];
      }
    }
  }

  /** Enrolling twice in the same course: the second attempt is refused, and
      the record written by the first lists the course exactly once. */
  lemma EnrollTwice(data: map<string, Blob>, email: string, password: string, cursoID: string, t1: Time, t2: Time)
    requires Inscripcion(data, email, password, cursoID, t1).Ok?
    ensures var v := Inscripcion(data, email, password, cursoID, t1).value;
            var id := ObjectIDFromHex(cursoID).value;
            && Inscripcion(data[UserKey(email, password) := Record(v)], email, password, cursoID, t2) == Err(AlreadyEnrolled)
            && multiset(v.inscritos)[id] == 1
  {
    var key := UserKey(email, password);
    var u := Lookup(data, key, NotFound).value;
    var id := ObjectIDFromHex(cursoID).value;
    var v := Inscripcion(data, email, password, cursoID, t1).value;
    assert Lookup(data[key := Record(v)], key, NotFound) == Ok(v);
    assert id in v.inscritos by {
      assert v.inscritos[|u.inscritos|] == id;
    }
    assert multiset(v.inscritos) == multiset(u.inscritos) + multiset{id};
  }

  /** The status a progress record takes once it counts `count` seen
      classes out of `total`: unchanged when the count exceeds the total. */
  function NextEstado(count: nat, total: nat, current: string): string {
    if count == 0 then INICIADO
    else if count < total then EN_CURSO
    else if count == total then COMPLETADO
    else current
  }

  /** The progress record at `k` belongs to a course in the catalog whose
      list does not hold `clase`: the search passes over it. */
  ghost predicate Passes(ps: seq<ProgresoCurso>, cursos: map<ObjectId, Curso>, clase: ObjectId, k: int)
    requires 0 <= k < |ps|
  {
    ps[k].cursoId in cursos && clase !in cursos[ps[k].cursoId].unidades
  }

  /** The search for the course a class belongs to, over the progress records
      from index `from` on, measured (as the catalog lookup returns it)
      against each course's list of unit ids: the first record whose list
      holds the class; a course missing from the catalog stops the search
      with the driver's no-documents error. */
  function FindCourseOf(ps: seq<ProgresoCurso>, cursos: map<ObjectId, Curso>, clase: ObjectId, from: nat)
    : (r: Result<nat>)
    requires from <= |ps|
    ensures r.Ok? || r == Err(NoDocuments) || r == Err(NotInEnrolledCourse)
    ensures r.Ok? ==>
              && from <= r.value < |ps|
              && ps[r.value].cursoId in cursos && clase in cursos[ps[r.value].cursoId].unidades
              && (forall k :: from <= k < r.value ==> Passes(ps, cursos, clase, k))
    ensures r == Err(NotInEnrolledCourse) <==> forall k :: from <= k < |ps| ==> Passes(ps, cursos, clase, k)
    ensures r == Err(NoDocuments) ==>
              exists m :: from <= m < |ps| && ps[m].cursoId !in cursos
                          && forall k :: from <= k < m ==> Passes(ps, cursos, clase, k)
    decreases |ps| - from
  {
    if from == |ps| then Err(NotInEnrolledCourse)
    else if ps[from].cursoId !in cursos then
      assert !Passes(ps, cursos, clase, from);
      Err(NoDocuments)
    else if clase in cursos[ps[from].cursoId].unidades then
      assert !Passes(ps, cursos, clase, from);
      Ok(from)
    else
      var r := FindCourseOf(ps, cursos, clase, from + 1);
      assert Passes(ps, cursos, clase, from);
      assert r == Err(NoDocuments) ==>
               exists m :: from <= m < |ps| && ps[m].cursoId !in cursos
                           && forall k :: from <= k < m ==> Passes(ps, cursos, clase, k);
      r
  }

  /** The search looks only at the records' course ids. */
  lemma {:induction false} FindCourseOfSameCourses(
    ps: seq<ProgresoCurso>, qs: seq<ProgresoCurso>, cursos: map<ObjectId, Curso>, clase: ObjectId, from: nat)
    requires from <= |ps| == |qs|
    requires forall k :: 0 <= k < |ps| ==> ps[k].cursoId == qs[k].cursoId
    ensures FindCourseOf(ps, cursos, clase, from) == FindCourseOf(qs, cursos, clase, from)
    decreases |ps| - from
  {
    if from < |ps| {
      FindCourseOfSameCourses(ps, qs, cursos, clase, from + 1);
    }
  }

  /** Marking `clase` seen in the progress record at `j`, whose course has
      `total` entries in its list. */
  function View(u: Usuario, j: nat, clase: ObjectId, total: nat): (r: Result<Usuario>)
    requires j < |u.progresos|
    ensures clase in u.progresos[j].clasesVistas <==> r == Err(AlreadySeen)
    ensures r.Err? ==> r == Err(AlreadySeen)
    ensures r.Ok? ==> |r.value.progresos| == |u.progresos|
    ensures r.Ok? ==>
              var p := u.progresos[j];
              var q := r.value.progresos[j];
              && (forall k :: 0 <= k < |u.progresos| && k != j ==> r.value.progresos[k] == u.progresos[k])
              && q.cursoId == p.cursoId
              && q.clasesVistas == p.clasesVistas + [clase]
              && (|q.clasesVistas| < total ==> q.estado == EN_CURSO)
              && (|q.clasesVistas| == total ==> q.estado == COMPLETADO)
              && (|q.clasesVistas| > total ==> q.estado == p.estado)
              && r.value == u.(progresos := r.value.progresos)
  {
    var p := u.progresos[j];
    if clase in p.clasesVistas then Err(AlreadySeen)
    else
      var vistas := p.clasesVistas + [clase];
      Ok(u.(progresos := u.progresos[j := p.(clasesVistas := vistas, estado := NextEstado(|vistas|, total, p.estado))]))
  }

  /** What VerClase decides on a snapshot of the store and the catalog. */
  function VerClaseSpec(data: map<string, Blob>, cursos: map<ObjectId, Curso>, email: string, password: string,
                        claseID: string): Result<Usuario>
  {
    match Lookup(data, UserKey(email, password), NotFound)
    case Err(e) => Err(e)
    case Ok(u) =>
      match ObjectIDFromHex(claseID)
      case Err(_) => Err(InvalidClassId)
      case Ok(clase) =>
        match FindCourseOf(u.progresos, cursos, clase, 0)
        case Err(e) => Err(e)
        case Ok(j) => View(u, j, clase, |cursos[u.progresos[j].cursoId].unidades|)
  }

  /** Marking a class seen keeps the profile well formed. */
  lemma ViewWellFormed(u: Usuario, j: nat, clase: ObjectId, total: nat)
    requires WellFormed(u)
    requires j < |u.progresos|
    requires View(u, j, clase, total).Ok?
    ensures WellFormed(View(u, j, clase, total).value)
  {
    var v := View(u, j, clase, total).value;
    forall i | 0 <= i < |v.progresos|
      ensures NoDup(v.progresos[i].clasesVistas)
    {
      if i == j {
        var vistas := u.progresos[j].clasesVistas;
        assert clase !in vistas;
        assert v.progresos[j].clasesVistas == vistas + [clase];
      }
    }
  }

  /** Viewing the same class a second time, right after a successful view,
      is refused with "clase ya vista". */
  lemma VerClaseTwice(data: map<string, Blob>, cursos: map<ObjectId, Curso>, email: string, password: string,
                      claseID: string)
    requires VerClaseSpec(data, cursos, email, password, claseID).Ok?
    ensures var v := VerClaseSpec(data, cursos, email, password, claseID).value;
            VerClaseSpec(data[UserKey(email, password) := Record(v)], cursos, email, password, claseID)
              == Err(AlreadySeen)
  {
    var key := UserKey(email, password);
    var u := Lookup(data, key, NotFound).value;
    var clase := ObjectIDFromHex(claseID).value;
    var j := FindCourseOf(u.progresos, cursos, clase, 0).value;
    var v := VerClaseSpec(data, cursos, email, password, claseID).value;
    assert Lookup(data[key := Record(v)], key, NotFound) == Ok(v);
    FindCourseOfSameCourses(u.progresos, v.progresos, cursos, clase, 0);
    assert clase in v.progresos[j].clasesVistas by {
      var vistas := v.progresos[j].clasesVistas;
      assert vistas[|vistas| - 1] == clase;
    }
  }

  /** Identifiers used by the worked example below. */
  function Oid(n: byte): ObjectId {
    [n, 0, 0, 0, 0, 0, 0, 0, 0, 0, 0, 0]
  }

  /** Worked example: a course whose list holds three entries moves from
      "INICIADO" through "EN CURSO" to "COMPLETADO" as the three are seen. */
  lemma ThreeViews(u: Usuario)
    requires u.progresos == [ProgresoCurso(Oid(0), [], INICIADO)]
    ensures View(u, 0, Oid(1), 3).Ok?
    ensures View(u, 0, Oid(1), 3).value.progresos == [ProgresoCurso(Oid(0), [Oid(1)], EN_CURSO)]
    ensures View(View(u, 0, Oid(1), 3).value, 0, Oid(2), 3).Ok?
    ensures View(View(u, 0, Oid(1), 3).value, 0, Oid(2), 3).value.progresos
            == [ProgresoCurso(Oid(0), [Oid(1), Oid(2)], EN_CURSO)]
    ensures View(View(View(u, 0, Oid(1), 3).value, 0, Oid(2), 3).value, 0, Oid(3), 3).Ok?
    ensures View(View(View(u, 0, Oid(1), 3).value, 0, Oid(2), 3).value, 0, Oid(3), 3).value.progresos
            == [ProgresoCurso(Oid(0), [Oid(1), Oid(2), Oid(3)], COMPLETADO)]
  {
    var p0 := u.progresos[0];
    assert [] + [Oid(1)] == [Oid(1)];
    assert NextEstado(1, 3, INICIADO) == EN_CURSO;
    var u1 := View(u, 0, Oid(1), 3).value;
    assert u1.progresos == [p0][0 := p0.(clasesVistas := [Oid(1)], estado := EN_CURSO)];
    assert Oid(2) != Oid(1) by { assert Oid(2)[0] != Oid(1)[0]; }
    assert Oid(2) !in u1.progresos[0].clasesVistas;
    var p1 := u1.progresos[0];
    assert [Oid(1)] + [Oid(2)] == [Oid(1), Oid(2)];
    var u2 := View(u1, 0, Oid(2), 3).value;
    assert u2.progresos == [p1][0 := p1.(clasesVistas := [Oid(1), Oid(2)], estado := EN_CURSO)];
    assert Oid(3) != Oid(1) by { assert Oid(3)[0] != Oid(1)[0]; }
    assert Oid(3) != Oid(2) by { assert Oid(3)[0] != Oid(2)[0]; }
    assert Oid(3) !in u2.progresos[0].clasesVistas;
    var p2 := u2.progresos[0];
    assert [Oid(1), Oid(2)] + [Oid(3)] == [Oid(1), Oid(2), Oid(3)];
    var u3 := View(u2, 0, Oid(3), 3).value;
    assert u3.progresos == [p2][0 := p2.(clasesVistas := [Oid(1), Oid(2), Oid(3)], estado := COMPLETADO)];
  }

  // ---------------------------------------------------------------------
  // The service operations
  // ---------------------------------------------------------------------

  /** contains: a linear scan for `item`. */
  method Contains(slice: seq<ObjectId>, item: ObjectId) returns (found: bool)
    ensures found <==> item in slice
  {
    var i := 0;
    while i < |slice|
      invariant 0 <= i <= |slice|
      invariant forall k :: 0 <= k < i ==> slice[k] != item
    {
      if slice[i] == item {
        return true;
      }
      i := i + 1;
    }
    return false;
  }

  /** CrearUsuario: the record is written, whole, under its key, replacing
      whatever was there; the key is returned. */
  method CrearUsuario(redis: Redis, u: Usuario) returns (key: string)
    modifies redis
    ensures key == UserKey(u.email, u.password)
    ensures redis.data == old(redis.data)[key := Record(u)]
  {
    key := UserPrefix + u.email + ":" + u.password;
    redis.Set(key, u);
  }

  /** ObtenerUsuarios: the records under every "usuario:*" key, in the order
      KEYS lists them (returned as the ghost `keys`); a record that does not
      decode aborts the listing. */
  method ObtenerUsuarios(redis: Redis) returns (r: Result<seq<Usuario>>, ghost keys: seq<string>)
    ensures forall k :: k in keys <==> k in redis.data && Matches(AnyUser, k)
    ensures NoDup(keys)
    ensures r.Ok? <==> forall i :: 0 <= i < |keys| ==> redis.data[keys[i]].Record?
    ensures r.Err? ==> r.error == DecodeError
    ensures r.Ok? ==> |r.value| == |keys| && forall i :: 0 <= i < |keys| ==> r.value[i] == redis.data[keys[i]].usuario
  {
    var ks := redis.Keys(AnyUser);
    keys := ks;
    var usuarios: seq<Usuario> := [];
    var i := 0;
    while i < |ks|
      invariant 0 <= i <= |ks|
      invariant |usuarios| == i
      invariant forall k :: 0 <= k < i ==> redis.data[ks[k]].Record? && usuarios[k] == redis.data[ks[k]].usuario
    {
      var loaded := redis.Load(ks[i], NotFound);
      if loaded.Err? {
        return Err(loaded.error), keys;
      }
      usuarios := usuarios + [loaded.value];
      i := i + 1;
    }
    r := Ok(usuarios);
  }

  /** ObtenerUsuarioPorCorreoYContrasena: the record under the credentials' key. */
  function ObtenerUsuarioPorCorreoYContrasena(redis: Redis, email: string, password: string): (r: Result<Usuario>)
    reads redis
    ensures r.Ok? <==> UserKey(email, password) in redis.data && redis.data[UserKey(email, password)].Record?
    ensures r.Ok? ==> r.value == redis.data[UserKey(email, password)].usuario
    ensures UserKey(email, password) !in redis.data ==> r == Err(NotFound)
    ensures r.Err? && UserKey(email, password) in redis.data ==> r == Err(DecodeError)
  {
    redis.Load(UserPrefix + email + ":" + password, NotFound)
  }

  /** InscribirseACurso: enroll the user in a course, recording the time of
      enrollment and a fresh progress record. */
  method InscribirseACurso(redis: Redis, email: string, password: string, cursoID: string, now: Time)
    returns (err: Option<Error>)
    modifies redis
    ensures Commits(old(redis.data), redis.data, UserKey(email, password),
                    Inscripcion(old(redis.data), email, password, cursoID, now), err)
  {
    var key := UserPrefix + email + ":" + password;
    var loaded := redis.Load(key, NotFound);
    if loaded.Err? {
      return Some(loaded.error);
    }
    var usuario := loaded.value;
    var parsed := ObjectIDFromHex(cursoID);
    if parsed.Err? {
      return Some(parsed.error);
    }
    var cursoObjectID := parsed.value;
    var inscrito := Contains(usuario.inscritos, cursoObjectID);
    if inscrito {
      return Some(AlreadyEnrolled);
    }
    usuario := usuario.(inscritos := usuario.inscritos + [cursoObjectID]);
    usuario := usuario.(fechaInscripcion := usuario.fechaInscripcion + [now]);
    var nuevoProgreso := ProgresoCurso(cursoObjectID, [], INICIADO);
    usuario := usuario.(progresos := usuario.progresos + [nuevoProgreso]);
    redis.Set(key, usuario);
    err := None;
  }

  /** ObtenerCursosInscritos: the catalog courses whose id the user is
      enrolled in, in the catalog's order; none when the user has no
      enrollment. */
  method ObtenerCursosInscritos(redis: Redis, cat: Mongo, email: string, password: string)
    returns (r: Result<seq<Curso>>)
    requires cat.Valid()
    ensures var l := Lookup(redis.data, UserKey(email, password), NotFound);
            && (l.Err? ==> r == Err(l.error))
            && (l.Ok? ==> r.Ok? && NoDup(r.value)
                          && forall c :: c in r.value <==> c in cat.cursos.Values && c.id in l.value.inscritos)
            && (l.Ok? && l.value.inscritos == [] ==> r == Ok([]))
  {
    var loaded := redis.Load(UserPrefix + email + ":" + password, NotFound);
    if loaded.Err? {
      return Err(loaded.error);
    }
    var usuario := loaded.value;
    if |usuario.inscritos| == 0 {
      return Ok([]);
    }
    var objectIDs := usuario.inscritos;
    var cursos := Select(cat.cursos, (c: Curso) => c.id, (c: Curso) => c.id in objectIDs);
    r := Ok(cursos);
  }

  /** VerClase: mark a class seen in the progress of the first enrolled
      course whose list holds it, and recompute that course's status. */
  method VerClase(redis: Redis, cat: Mongo, email: string, password: string, claseID: string)
    returns (err: Option<Error>)
    modifies redis
    ensures Commits(old(redis.data), redis.data, UserKey(email, password),
                    VerClaseSpec(old(redis.data), cat.cursos, email, password, claseID), err)
  {
    var loaded := ObtenerUsuarioPorCorreoYContrasena(redis, email, password);
    if loaded.Err? {
      return Some(loaded.error);
    }
    assert loaded == Lookup(redis.data, UserKey(email, password), NotFound);
    var usuario := loaded.value;
    var parsed := ObjectIDFromHex(claseID);
    if parsed.Err? {
      return Some(InvalidClassId);
    }
    var claseObjectID := parsed.value;
    ghost var ps := usuario.progresos;

    // Find the course: the first progress record whose course lists the class.
    var cursoID: ObjectId := NilObjectID;
    var claseEncontrada := false;
    ghost var j: nat := 0;
    var i := 0;
    while i < |usuario.progresos|
      invariant 0 <= i <= |ps|
      invariant usuario.progresos == ps
      invariant redis.data == old(redis.data)
      invariant !claseEncontrada
      invariant FindCourseOf(ps, cat.cursos, claseObjectID, 0) == FindCourseOf(ps, cat.cursos, claseObjectID, i)
    {
      var progreso := usuario.progresos[i];
      var totalClases := ObtenerTotalClasesPorCurso(cat, progreso.cursoId);
      if totalClases.Err? {
        assert FindCourseOf(ps, cat.cursos, claseObjectID, i) == Err(NoDocuments);
        return Some(totalClases.error);
      }
      var hit := Contains(totalClases.value, claseObjectID);
      if hit {
        cursoID := progreso.cursoId;
        claseEncontrada := true;
        j := i;
        break;
      }
      i := i + 1;
    }
    if !claseEncontrada {
      assert FindCourseOf(ps, cat.cursos, claseObjectID, |ps|) == Err(NotInEnrolledCourse);
      return Some(NotInEnrolledCourse);
    }

    // The first record with that course id is the one the search found.
    assert forall k :: 0 <= k < j ==> ps[k].cursoId != cursoID by {
      forall k | 0 <= k < j
        ensures ps[k].cursoId != cursoID
      {
        assert Passes(ps, cat.cursos, claseObjectID, k);
      }
    }
    i := 0;
    while usuario.progresos[i].cursoId != cursoID
      invariant 0 <= i <= j
      invariant redis.data == old(redis.data)
      decreases j - i
    {
      i := i + 1;
    }

    var progreso := usuario.progresos[i];
    ghost var total := |cat.cursos[ps[j].cursoId].unidades|;
    assert VerClaseSpec(old(redis.data), cat.cursos, email, password, claseID) == View(usuario, j, claseObjectID, total);
    var visto := Contains(progreso.clasesVistas, claseObjectID);
    if visto {
      return Some(AlreadySeen);
    }
    progreso := progreso.(clasesVistas := progreso.clasesVistas + [claseObjectID]);
    var totalClases := ObtenerTotalClasesPorCurso(cat, progreso.cursoId);
    progreso := progreso.(estado := NextEstado(|progreso.clasesVistas|, |totalClases.value|, progreso.estado));
    usuario := usuario.(progresos := usuario.progresos[i := progreso]);
    redis.Set(UserPrefix + email + ":" + password, usuario);
    err := None;
  }

  /** obtenerTotalClasesPorCurso: the course's list of unit ids, which
      VerClase treats as its list of classes. */
  function ObtenerTotalClasesPorCurso(cat: Mongo, cursoID: ObjectId): (r: Result<seq<ObjectId>>)
    reads cat
    ensures r.Ok? <==> cursoID in cat.cursos
    ensures r.Ok? ==> r.value == cat.cursos[cursoID].unidades
    ensures r.Err? ==> r.error == NoDocuments
  {
    if cursoID in cat.cursos then Ok(cat.cursos[cursoID].unidades) else Err(NoDocuments)
  }

  /** ObtenerProgresoCursos: the user's progress records, as stored. */
  function ObtenerProgresoCursos(redis: Redis, email: string, password: string): (r: Result<seq<ProgresoCurso>>)
    reads redis
    ensures r.Ok? <==> Lookup(redis.data, UserKey(email, password), NotFound).Ok?
    ensures r.Ok? ==> r.value == redis.data[UserKey(email, password)].usuario.progresos
    ensures r.Err? ==> r.error == Lookup(redis.data, UserKey(email, password), NotFound).error
  {
    match ObtenerUsuarioPorCorreoYContrasena(redis, email, password)
    case Err(e) => Err(e)
    case Ok(u) => Ok(u.progresos)
  }
}
