/** The rating service: a user enrolled in a course rates it once, the
    rating becomes a CALIFICÓ edge in the graph, and the mean of the
    course's ratings is written to the catalog course's `valoracion`. */
module PuntuacionService {
  import opened Common
  import opened ObjectIds
  import opened Models
  import opened ProfileStore
  import opened Catalog
  import opened Graph

  const OutOfRange := Msg("la puntuación debe estar entre 0 y 5")
  const BadCredentials := Msg("usuario no encontrado o credenciales inválidas")
  const InvalidCursoId := Msg("cursoID inválido")
  const NotEnrolled := Msg("el usuario no está inscrito en este curso")
  const CourseMissing := Msg("curso no encontrado en MongoDB")
  const AlreadyRated := Msg("el usuario ya ha puntuado este curso")

  // ---------------------------------------------------------------------
  // The mean of a course's ratings (avg over the course's CALIFICÓ edges)
  // ---------------------------------------------------------------------

  /** Number of ratings of course `c`. */
  function CountOf(rs: seq<Rating>, c: string): nat
    decreases |rs|
  {
    if rs == [] then 0 else CountOf(rs[..|rs| - 1], c) + (if rs[|rs| - 1].cursoId == c then 1 else 0)
  }

  /** Sum of the values of the ratings of course `c`. */
  function SumOf(rs: seq<Rating>, c: string): real
    decreases |rs|
  {
    if rs == [] then 0.0 else SumOf(rs[..|rs| - 1], c) + (if rs[|rs| - 1].cursoId == c then rs[|rs| - 1].valor else 0.0)
  }

  /** calcularPromedioNeo4j: avg(r.valor), with the null of an empty match read as 0. */
  function Promedio(rs: seq<Rating>, c: string): real {
    if CountOf(rs, c) == 0 then 0.0 else SumOf(rs, c) / (CountOf(rs, c) as real)
  }

  /** Count and sum split over a concatenation. */
  lemma {:induction false} CountSumConcat(a: seq<Rating>, b: seq<Rating>, c: string)
    ensures CountOf(a + b, c) == CountOf(a, c) + CountOf(b, c)
    ensures SumOf(a + b, c) == SumOf(a, c) + SumOf(b, c)
    decreases |b|
  {
    if b == [] {
      assert a + b == a;
    } else {
      var b' := b[..|b| - 1];
      assert (a + b)[..|a + b| - 1] == a + b';
      assert (a + b)[|a + b| - 1] == b[|b| - 1];
      CountSumConcat(a, b', c);
    }
  }

  /** Count and sum depend only on which ratings there are, not on the order
      in which the graph hands them back. */
  lemma {:induction false} CountSumPermutation(rs: seq<Rating>, qs: seq<Rating>, c: string)
    requires multiset(rs) == multiset(qs)
    ensures CountOf(rs, c) == CountOf(qs, c)
    ensures SumOf(rs, c) == SumOf(qs, c)
    decreases |rs|
  {
    if rs == [] {
      assert |qs| == |multiset(qs)| == 0;
    } else {
      var x := rs[|rs| - 1];
      var rs' := rs[..|rs| - 1];
      assert rs == rs' + [x];
      assert x in multiset(qs);
      var j :| 0 <= j < |qs| && qs[j] == x;
      var qs' := qs[..j] + qs[j + 1..];
      assert qs == qs[..j] + [x] + qs[j + 1..];
      assert multiset(qs) == multiset(qs[..j]) + multiset{x} + multiset(qs[j + 1..]);
      assert multiset(rs) == multiset(rs') + multiset{x};
      assert multiset(qs') == multiset(qs[..j]) + multiset(qs[j + 1..]);
      forall y ensures multiset(qs')[y] == multiset(rs')[y] {
        assert multiset(qs)[y] == multiset(qs[..j])[y] + multiset{x}[y] + multiset(qs[j + 1..])[y];
        assert multiset(rs)[y] == multiset(rs')[y] + multiset{x}[y];
      }
      assert multiset(qs') == multiset(rs');
      CountSumPermutation(rs', qs', c);
      CountSumConcat(qs[..j] + [x], qs[j + 1..], c);
      CountSumConcat(qs[..j], [x], c);
      CountSumConcat(qs[..j], qs[j + 1..], c);
      assert [x][..0] == [];
    }
  }

  /** calcularPromedioNeo4j's mean does not depend on the order of the
      course's CALIFICÓ edges. */
  lemma PromedioPermutation(rs: seq<Rating>, qs: seq<Rating>, c: string)
    requires multiset(rs) == multiset(qs)
    ensures Promedio(rs, c) == Promedio(qs, c)
  {
    CountSumPermutation(rs, qs, c);
  }

  lemma {:induction false} SumBounds(rs: seq<Rating>, c: string)
    requires forall r :: r in rs ==> 0.0 <= r.valor <= 5.0
    ensures 0.0 <= SumOf(rs, c) <= 5.0 * (CountOf(rs, c) as real)
    decreases |rs|
  {
    if rs != [] {
      var init := rs[..|rs| - 1];
      assert forall r :: r in init ==> r in rs;
      assert rs[|rs| - 1] in rs;
      SumBounds(init, c);
    }
  }

  /** With every value in [0, 5], so is the mean. */
  lemma MeanInRange(rs: seq<Rating>, c: string)
    requires forall r :: r in rs ==> 0.0 <= r.valor <= 5.0
    ensures 0.0 <= Promedio(rs, c) <= 5.0
  {
    SumBounds(rs, c);
    if CountOf(rs, c) != 0 {
      var n := CountOf(rs, c) as real;
      var s := SumOf(rs, c);
      DivAtMost(s, n, 5.0);
    }
  }

  lemma DivAtMost(s: real, n: real, b: real)
    requires n > 0.0 && s <= b * n
    ensures s / n <= b
  {
    assert (b * n - s) / n >= 0.0;
    assert (b * n - s) / n == b - s / n;
  }

  /** Ratings of other courses are not counted. */
  lemma MeanIgnoresOtherCourses(rs: seq<Rating>, r: Rating, c: string)
    requires r.cursoId != c
    ensures Promedio(rs + [r], c) == Promedio(rs, c)
  {
    assert (rs + [r])[..|rs|] == rs;
  }

  /** A new rating of the course moves the mean to the mean of the old
      values and the new one. */
  lemma MeanAfterRating(rs: seq<Rating>, r: Rating)
    ensures Promedio(rs + [r], r.cursoId)
            == (SumOf(rs, r.cursoId) + r.valor) / ((CountOf(rs, r.cursoId) + 1) as real)
  {
    assert (rs + [r])[..|rs|] == rs;
  }

  /** The first rating of a course is its mean. */
  lemma MeanOfFirstRating(rs: seq<Rating>, r: Rating)
    requires CountOf(rs, r.cursoId) == 0
    ensures Promedio(rs + [r], r.cursoId) == r.valor
  {
    MeanAfterRating(rs, r);
    SumZero(rs, r.cursoId);
  }

  lemma {:induction false} SumZero(rs: seq<Rating>, c: string)
    requires CountOf(rs, c) == 0
    ensures SumOf(rs, c) == 0.0
    decreases |rs|
  {
    if rs != [] {
      SumZero(rs[..|rs| - 1], c);
    }
  }

  // ---------------------------------------------------------------------
  // One rating per (user, course)
  // ---------------------------------------------------------------------

  /** The user has a CALIFICÓ edge to the course. */
  predicate HasRated(rs: seq<Rating>, email: string, c: string) {
    exists r :: r in rs && r.email == email && r.cursoId == c
  }

  ghost predicate AtMostOneRating(rs: seq<Rating>) {
    forall i, j :: 0 <= i < j < |rs| ==> rs[i].email != rs[j].email || rs[i].cursoId != rs[j].cursoId
  }

  /** Adding a rating for a pair that has none keeps one rating per pair,
      and afterwards the pair counts as rated. */
  lemma RatingKeepsAtMostOne(rs: seq<Rating>, r: Rating)
    requires !HasRated(rs, r.email, r.cursoId)
    ensures AtMostOneRating(rs) ==> AtMostOneRating(rs + [r])
    ensures HasRated(rs + [r], r.email, r.cursoId)
  {
    var s := rs + [r];
    if AtMostOneRating(rs) {
      forall i, j | 0 <= i < j < |s|
        ensures s[i].email != s[j].email || s[i].cursoId != s[j].cursoId
      {
        if j == |rs| {
          assert s[i] in rs;
        }
      }
    }
    assert s[|rs|] == r;
  }

  // ---------------------------------------------------------------------
  // The checks before the graph transaction
  // ---------------------------------------------------------------------

  /** parseObjectID: the hex id parse, whose result prints back to an id
      that parses to the same value. */
  function ParseObjectID(id: string): (r: Result<ObjectId>)
    ensures r.Ok? <==> IsValidHex(id)
    ensures r.Ok? ==> ObjectIDFromHex(Hex(r.value)) == r
  {
    var r := ObjectIDFromHex(id);
    if r.Ok? then ParseHexRoundTrip(r.value); r else r
  }

  /** The checks CrearPuntuacionParaCurso makes, in their order, on a
      snapshot of the profile store and the catalog: the user record when
      all pass. */
  function Precheck(data: map<string, Blob>, cursos: map<ObjectId, Curso>, cursoID: string, email: string,
                    password: string, valor: real): (r: Result<Usuario>)
    ensures !(0.0 <= valor <= 5.0) ==> r == Err(OutOfRange)
    ensures 0.0 <= valor <= 5.0 && UserKey(email, password) !in data ==> r == Err(BadCredentials)
    ensures 0.0 <= valor <= 5.0 && UserKey(email, password) in data && data[UserKey(email, password)].Undecodable?
            ==> r == Err(DecodeError)
    ensures 0.0 <= valor <= 5.0 && Lookup(data, UserKey(email, password), BadCredentials).Ok? && !IsValidHex(cursoID)
            ==> r == Err(InvalidCursoId)
    ensures r.Ok? ==>
              && 0.0 <= valor <= 5.0
              && Lookup(data, UserKey(email, password), BadCredentials) == Ok(r.value)
              && IsValidHex(cursoID)
              && ObjectIDFromHex(cursoID).value in r.value.inscritos
              && ObjectIDFromHex(cursoID).value in cursos
    ensures r == Err(NotEnrolled) <==>
              && 0.0 <= valor <= 5.0
              && Lookup(data, UserKey(email, password), BadCredentials).Ok?
              && IsValidHex(cursoID)
              && ObjectIDFromHex(cursoID).value !in Lookup(data, UserKey(email, password), BadCredentials).value.inscritos
    ensures r == Err(CourseMissing) <==>
              && 0.0 <= valor <= 5.0
              && Lookup(data, UserKey(email, password), BadCredentials).Ok?
              && IsValidHex(cursoID)
              && ObjectIDFromHex(cursoID).value in Lookup(data, UserKey(email, password), BadCredentials).value.inscritos
              && ObjectIDFromHex(cursoID).value !in cursos
    ensures 0.0 <= valor <= 5.0 && Lookup(data, UserKey(email, password), BadCredentials).Ok? && IsValidHex(cursoID)
            && ObjectIDFromHex(cursoID).value in Lookup(data, UserKey(email, password), BadCredentials).value.inscritos
            && ObjectIDFromHex(cursoID).value in cursos
            ==> r.Ok?
  {
    if valor < 0.0 || valor > 5.0 then Err(OutOfRange)
    else
      match Lookup(data, UserKey(email, password), BadCredentials)
      case Err(e) => Err(e)
      case Ok(u) =>
        match ParseObjectID(cursoID)
        case Err(_) => Err(InvalidCursoId)
        case Ok(id) =>
          if id !in u.inscritos then Err(NotEnrolled)
          else if id !in cursos then Err(CourseMissing)
          else Ok(u)
  }

  /** The edges after the transaction's CREATE, given that no rating of the
      pair exists: one new edge when both end nodes exist, none otherwise. */
  function AddRating(g: Neo4j, email: string, cursoID: string, valor: real, now: Time, nombre: string): seq<Rating>
    reads g
  {
    if email in g.users && cursoID in g.courses then g.ratings + [Rating(email, cursoID, valor, now, nombre)]
    else g.ratings
  }

  // ---------------------------------------------------------------------
  // The service operations
  // ---------------------------------------------------------------------

  /** CrearPuntuacionParaCurso: rate a course, record the rating in the
      graph and store the course's new mean rating in the catalog. `now`
      stands for the graph's datetime(). */
  method CrearPuntuacionParaCurso(redis: Redis, cat: Mongo, graph: Neo4j, cursoID: string, email: string,
                                  password: string, valor: real, now: Time)
    returns (err: Option<Error>)
    requires cat.Valid() && graph.Valid()
    modifies cat, graph
    ensures cat.Valid() && graph.Valid()
    ensures graph.users == old(graph.users) && graph.usuarios == old(graph.usuarios)
    ensures graph.courses == old(graph.courses) && graph.cursos == old(graph.cursos) && graph.clases == old(graph.clases)
    ensures graph.courseComments == old(graph.courseComments) && graph.chains == old(graph.chains)
    ensures cat.unidades == old(cat.unidades) && cat.clases == old(cat.clases)
    ensures var pre := Precheck(redis.data, old(cat.cursos), cursoID, email, password, valor);
            && (pre.Err? ==> err == Some(pre.error) && graph.ratings == old(graph.ratings) && cat.cursos == old(cat.cursos))
            && (pre.Ok? && HasRated(old(graph.ratings), email, cursoID) ==>
                  err == Some(AlreadyRated) && graph.ratings == old(graph.ratings) && cat.cursos == old(cat.cursos))
            && (pre.Ok? && !HasRated(old(graph.ratings), email, cursoID) ==>
                  var id := ObjectIDFromHex(cursoID).value;
                  && err == None
                  && graph.ratings == old(AddRating(graph, email, cursoID, valor, now, pre.value.nombre))
                  && cat.cursos == old(cat.cursos)[id := old(cat.cursos)[id].(valoracion := Promedio(graph.ratings, cursoID))])
    ensures AtMostOneRating(old(graph.ratings)) ==> AtMostOneRating(graph.ratings)
  {
    if valor < 0.0 || valor > 5.0 {
      return Some(OutOfRange);
    }
    var loaded := redis.Load(UserPrefix + email + ":" + password, BadCredentials);
    if loaded.Err? {
      return Some(loaded.error);
    }
    var u := loaded.value;
    var parsed := ParseObjectID(cursoID);
    if parsed.Err? {
      return Some(InvalidCursoId);
    }
    var objCursoID := parsed.value;

    var inscrito := false;
    var i := 0;
    while i < |u.inscritos|
      invariant 0 <= i <= |u.inscritos|
      invariant !inscrito
      invariant forall k :: 0 <= k < i ==> u.inscritos[k] != objCursoID
    {
      if u.inscritos[i] == objCursoID {
        inscrito := true;
        break;
      }
      i := i + 1;
    }
    if !inscrito {
      assert Precheck(redis.data, cat.cursos, cursoID, email, password, valor) == Err(NotEnrolled);
      return Some(NotEnrolled);
    }
    assert objCursoID in u.inscritos;

    if objCursoID !in cat.cursos {
      assert Precheck(redis.data, cat.cursos, cursoID, email, password, valor) == Err(CourseMissing);
      return Some(CourseMissing);
    }
    assert Precheck(redis.data, cat.cursos, cursoID, email, password, valor) == Ok(u);

    // The graph transaction. Its two "create the node if absent" steps
    // test only whether the COUNT(*) query returned a row, which an
    // aggregate always does, so they never create anything.
    if HasRated(graph.ratings, email, cursoID) {
      return Some(AlreadyRated);
    }
    ghost var before := graph.ratings;
    if email in graph.users && cursoID in graph.courses {
      graph.CreateRating(Rating(email, cursoID, valor, now, u.nombre));
      RatingKeepsAtMostOne(before, Rating(email, cursoID, valor, now, u.nombre));
    }
    var nuevoPromedio := Promedio(graph.ratings, cursoID);
    cat.SetValoracion(objCursoID, nuevoPromedio);
    err := None;
  }

  /** ObtenerPromedioPuntuacionesCurso: the course's mean rating, which lies
      in [0, 5] whenever every stored rating does. */
  function ObtenerPromedioPuntuacionesCurso(graph: Neo4j, cursoID: string): (avg: real)
    reads graph
    ensures avg == Promedio(graph.ratings, cursoID)
    ensures (forall r :: r in graph.ratings ==> 0.0 <= r.valor <= 5.0) ==> 0.0 <= avg <= 5.0
    ensures CountOf(graph.ratings, cursoID) == 0 ==> avg == 0.0
  {
    assert (forall r :: r in graph.ratings ==> 0.0 <= r.valor <= 5.0) ==> 0.0 <= Promedio(graph.ratings, cursoID) <= 5.0 by {
      if forall r :: r in graph.ratings ==> 0.0 <= r.valor <= 5.0 {
        MeanInRange(graph.ratings, cursoID);
      }
    }
    Promedio(graph.ratings, cursoID)
  }
}
