/** The migration from the profile store and the catalog into the graph's
    `Usuario` and `Curso` nodes (MigrationService.go). Each pass reads every
    item, works out the node it stands for, and creates that node unless a
    node with the same key exists; an item it cannot read is skipped. Both
    passes are therefore folds of CreateIfAbsent.Step. */
module MigrationService {
  import opened Common
  import opened ObjectIds
  import opened Models
  import opened ProfileStore
  import opened Catalog
  import opened Graph
  import opened Strings
  import opened CreateIfAbsent

  const KeysPrefix := "error al obtener claves de usuarios en Redis"
  const FindPrefix := "error al obtener cursos de MongoDB"
  const UsuariosPrefix := "error al migrar usuarios"
  const CursosPrefix := "error al migrar cursos"

  // ---------------------------------------------------------------------
  // From a profile key to a Usuario node
  // ---------------------------------------------------------------------

  /** The node migrateUsuarios derives from one listed key: email and
      password are the second and third ':'-separated pieces of the key,
      the name comes from the stored record; a key with fewer than three
      pieces, or whose record cannot be read, yields none. */
  function UsuarioCandidate(data: map<string, Blob>, key: string): Option<(string, UsuarioNode)> {
    var parts := Split(key, ':');
    if |parts| < 3 then None
    else if key !in data || data[key].Undecodable? then None
    else Some((parts[1], UsuarioNode(parts[1], data[key].usuario.nombre, parts[2])))
  }

  function UsuarioCandidates(data: map<string, Blob>, keys: seq<string>): (cs: seq<Option<(string, UsuarioNode)>>)
    ensures |cs| == |keys|
    ensures forall i :: 0 <= i < |keys| ==> cs[i] == UsuarioCandidate(data, keys[i])
  {
    seq(|keys|, i requires 0 <= i < |keys| => UsuarioCandidate(data, keys[i]))
  }

  /** The candidates of one more key are the old ones plus its own. */
  lemma UsuarioCandidatesSnoc(data: map<string, Blob>, keys: seq<string>, i: nat)
    requires i < |keys|
    ensures UsuarioCandidates(data, keys[..i + 1]) == UsuarioCandidates(data, keys[..i]) + [UsuarioCandidate(data, keys[i])]
  {
  }

  /** Splitting a key built from a colon-free email and password gives back
      the prefix, the email and the password. */
  lemma KeySplitRoundTrip(email: string, password: string)
    requires ':' !in email && ':' !in password
    ensures Split(UserKey(email, password), ':') == ["usuario", email, password]
  {
    var tail := email + [':'] + password;
    assert UserKey(email, password) == "usuario" + [':'] + tail;
    SplitAfter("usuario", tail, ':');
    SplitAfter(email, password, ':');
    SplitAbsent(password, ':');
  }

  /** The migration reads back the credentials the profile was stored under,
      when neither contains ':'. */
  lemma CandidateInvertsKey(data: map<string, Blob>, email: string, password: string)
    requires ':' !in email && ':' !in password
    requires UserKey(email, password) in data && data[UserKey(email, password)].Record?
    ensures UsuarioCandidate(data, UserKey(email, password))
            == Some((email, UsuarioNode(email, data[UserKey(email, password)].usuario.nombre, password)))
  {
    KeySplitRoundTrip(email, password);
  }

  /** A key whose password holds one ':' splits into four pieces: the
      password is split too. */
  lemma SplitColonKey(email: string, p1: string, p2: string)
    requires ':' !in email && ':' !in p1 && ':' !in p2
    ensures Split(UserKey(email, p1 + [':'] + p2), ':') == ["usuario", email, p1, p2]
  {
    var password := p1 + [':'] + p2;
    SplitAfter(p1, p2, ':');
    SplitAbsent(p2, ':');
    var tail := email + [':'] + password;
    SplitAfter(email, password, ':');
    assert UserKey(email, password) == "usuario" + [':'] + tail;
    SplitAfter("usuario", tail, ':');
  }

  /** A password containing ':' is cut short at its first ':' by the
      migration: the key of ("a", "b:c") yields the password "b". */
  lemma ColonInPasswordTruncates(data: map<string, Blob>, nombre: string)
    requires UserKey("a", "b:c") in data && data[UserKey("a", "b:c")] == Record(Usuario(NilObjectID, nombre, "a", "b:c", [], [], []))
    ensures UsuarioCandidate(data, UserKey("a", "b:c")) == Some(("a", UsuarioNode("a", nombre, "b")))
  {
    assert "b:c" == "b" + [':'] + "c";
    SplitColonKey("a", "b", "c");
  }

  /** Every key the "usuario:*:*" pattern lists splits into at least three
      pieces, so the short-key guard never skips a listed key. */
  lemma ListedKeySplits(key: string)
    requires Matches(AnyUserWithPassword, key)
    ensures |Split(key, ':')| >= 3
  {
    var rest := key[|UserPrefix|..];
    assert key == "usuario" + ":" + rest;
    CountConcat("usuario" + ":", rest, ':');
    CountConcat("usuario", ":", ':');
    CountAbsent("usuario", ':');
    CountPositive(rest, ':');
  }

  // ---------------------------------------------------------------------
  // From a catalog course to a Curso node
  // ---------------------------------------------------------------------

  /** The node migrateCursos derives from one course document: its `_id`,
      read into a string field, is the id's hex text. */
  function CursoCandidate(c: Curso): Option<(string, CursoNode)> {
    Some((Hex(c.id), CursoNode(Hex(c.id), c.nombre)))
  }

  function CursoCandidates(docs: seq<Curso>): (cs: seq<Option<(string, CursoNode)>>)
    ensures |cs| == |docs|
    ensures forall i :: 0 <= i < |docs| ==> cs[i] == CursoCandidate(docs[i])
  {
    seq(|docs|, i requires 0 <= i < |docs| => CursoCandidate(docs[i]))
  }

  /** The candidates of one more document are the old ones plus its own. */
  lemma CursoCandidatesSnoc(docs: seq<Curso>, i: nat)
    requires i < |docs|
    ensures CursoCandidates(docs[..i + 1]) == CursoCandidates(docs[..i]) + [CursoCandidate(docs[i])]
  {
  }

  /** Distinct courses give distinct Curso nodes. */
  lemma CursoCandidateInjective(a: Curso, b: Curso)
    requires CursoCandidate(a).value.0 == CursoCandidate(b).value.0
    ensures a.id == b.id
  {
    HexInjective(a.id, b.id);
  }

  // ---------------------------------------------------------------------
  // Idempotence
  // ---------------------------------------------------------------------

  /** A second user pass over keys the first pass saw creates nothing. */
  lemma UsuariosIdempotent(g: map<string, UsuarioNode>, data: map<string, Blob>, ks1: seq<string>, ks2: seq<string>)
    requires forall k :: k in ks2 ==> k in ks1
    ensures Run(Run(g, UsuarioCandidates(data, ks1)), UsuarioCandidates(data, ks2)) == Run(g, UsuarioCandidates(data, ks1))
  {
    var cs1 := UsuarioCandidates(data, ks1);
    var cs2 := UsuarioCandidates(data, ks2);
    forall i | 0 <= i < |cs2|
      ensures cs2[i] in cs1
    {
      assert ks2[i] in ks2;
      var j :| 0 <= j < |ks1| && ks1[j] == ks2[i];
      assert cs1[j] == cs2[i];
    }
    KeysOfCovered(cs1, cs2);
    RunIdempotent(g, cs1, cs2);
  }

  /** A second course pass over documents the first pass saw creates nothing. */
  lemma CursosIdempotent(g: map<string, CursoNode>, docs1: seq<Curso>, docs2: seq<Curso>)
    requires forall c :: c in docs2 ==> c in docs1
    ensures Run(Run(g, CursoCandidates(docs1)), CursoCandidates(docs2)) == Run(g, CursoCandidates(docs1))
  {
    var cs1 := CursoCandidates(docs1);
    var cs2 := CursoCandidates(docs2);
    forall i | 0 <= i < |cs2|
      ensures cs2[i] in cs1
    {
      assert docs2[i] in docs2;
      var j :| 0 <= j < |docs1| && docs1[j] == docs2[i];
      assert cs1[j] == cs2[i];
    }
    KeysOfCovered(cs1, cs2);
    RunIdempotent(g, cs1, cs2);
  }

  // ---------------------------------------------------------------------
  // The service operations. `keysFailure` and `findFailure` stand for a
  // KEYS or Find call that fails; everything after a listing is modelled.
  // ---------------------------------------------------------------------

  /** migrateUsuarios: one Usuario node per listed key whose email has none
      yet, in the order KEYS lists the keys (returned as the ghost `keys`). */
  method MigrateUsuarios(redis: Redis, graph: Neo4j, keysFailure: Option<Error>)
    returns (err: Option<Error>, ghost keys: seq<string>)
    requires graph.Valid()
    modifies graph
    ensures graph.Valid()
    ensures keysFailure.Some? ==> err == Some(Wrapped(KeysPrefix, keysFailure.value)) && graph.usuarios == old(graph.usuarios)
    ensures keysFailure.None? ==>
              && err == None
              && (forall k :: k in keys <==> k in redis.data && Matches(AnyUserWithPassword, k))
              && NoDup(keys)
              && graph.usuarios == Run(old(graph.usuarios), UsuarioCandidates(redis.data, keys))
    ensures graph.users == old(graph.users) && graph.courses == old(graph.courses) && graph.cursos == old(graph.cursos)
    ensures graph.clases == old(graph.clases) && graph.ratings == old(graph.ratings)
    ensures graph.courseComments == old(graph.courseComments) && graph.chains == old(graph.chains)
  {
    if keysFailure.Some? {
      return Some(Wrapped(KeysPrefix, keysFailure.value)), [];
    }
    var ks := redis.Keys(AnyUserWithPassword);
    keys := ks;
    var i := 0;
    while i < |ks|
      invariant 0 <= i <= |ks|
      invariant graph.Valid()
      invariant graph.usuarios == Run(old(graph.usuarios), UsuarioCandidates(redis.data, ks[..i]))
      invariant graph.users == old(graph.users) && graph.courses == old(graph.courses) && graph.cursos == old(graph.cursos)
      invariant graph.clases == old(graph.clases) && graph.ratings == old(graph.ratings)
      invariant graph.courseComments == old(graph.courseComments) && graph.chains == old(graph.chains)
    {
      var key := ks[i];
      UsuarioCandidatesSnoc(redis.data, ks, i);
      RunSnoc(old(graph.usuarios), UsuarioCandidates(redis.data, ks[..i]), UsuarioCandidate(redis.data, key));
      i := i + 1;

      var parts := Split(key, ':');
      if |parts| >= 3 {
        var email := parts[1];
        var password := parts[2];
        if email !in graph.usuarios {
          var loaded := redis.Load(key, Failure);
          if loaded.Ok? {
            graph.CreateUsuario(UsuarioNode(email, loaded.value.nombre, password));
          }
        }
      }
    }
    assert ks[..|ks|] == ks;
    err := None;
  }

  /** migrateCursos: one Curso node per catalog course whose id has none yet,
      in the cursor's order (returned as the ghost `docs`). */
  method MigrateCursos(cat: Mongo, graph: Neo4j, findFailure: Option<Error>)
    returns (err: Option<Error>, ghost docs: seq<Curso>)
    requires cat.Valid() && graph.Valid()
    modifies graph
    ensures graph.Valid()
    ensures findFailure.Some? ==> err == Some(Wrapped(FindPrefix, findFailure.value)) && graph.cursos == old(graph.cursos)
    ensures findFailure.None? ==>
              && err == None
              && (forall c :: c in docs <==> c in cat.cursos.Values)
              && NoDup(docs)
              && graph.cursos == Run(old(graph.cursos), CursoCandidates(docs))
    ensures graph.users == old(graph.users) && graph.usuarios == old(graph.usuarios) && graph.courses == old(graph.courses)
    ensures graph.clases == old(graph.clases) && graph.ratings == old(graph.ratings)
    ensures graph.courseComments == old(graph.courseComments) && graph.chains == old(graph.chains)
  {
    if findFailure.Some? {
      return Some(Wrapped(FindPrefix, findFailure.value)), [];
    }
    var cursor := Select(cat.cursos, (c: Curso) => c.id, (c: Curso) => true);
    docs := cursor;
    var i := 0;
    while i < |cursor|
      invariant 0 <= i <= |cursor|
      invariant graph.Valid()
      invariant graph.cursos == Run(old(graph.cursos), CursoCandidates(cursor[..i]))
      invariant graph.users == old(graph.users) && graph.usuarios == old(graph.usuarios) && graph.courses == old(graph.courses)
      invariant graph.clases == old(graph.clases) && graph.ratings == old(graph.ratings)
      invariant graph.courseComments == old(graph.courseComments) && graph.chains == old(graph.chains)
    {
      var curso := cursor[i];
      CursoCandidatesSnoc(cursor, i);
      RunSnoc(old(graph.cursos), CursoCandidates(cursor[..i]), CursoCandidate(curso));
      i := i + 1;

      var id := Hex(curso.id);
      if id !in graph.cursos {
        graph.CreateCurso(CursoNode(id, curso.nombre));
      }
    }
    assert cursor[..|cursor|] == cursor;
    err := None;
  }

  /** MigrateUsuariosYCursos: the user pass, then (only if it succeeded) the
      course pass; a failure is reported with the pass it came from. */
  method MigrateUsuariosYCursos(redis: Redis, cat: Mongo, graph: Neo4j, keysFailure: Option<Error>,
                                findFailure: Option<Error>)
    returns (err: Option<Error>, ghost keys: seq<string>, ghost docs: seq<Curso>)
    requires cat.Valid() && graph.Valid()
    modifies graph
    ensures graph.Valid()
    ensures keysFailure.Some? ==>
              && err == Some(Wrapped(UsuariosPrefix, Wrapped(KeysPrefix, keysFailure.value)))
              && graph.usuarios == old(graph.usuarios) && graph.cursos == old(graph.cursos)
    ensures keysFailure.None? ==>
              && (forall k :: k in keys <==> k in redis.data && Matches(AnyUserWithPassword, k))
              && graph.usuarios == Run(old(graph.usuarios), UsuarioCandidates(redis.data, keys))
    ensures keysFailure.None? && findFailure.Some? ==>
              err == Some(Wrapped(CursosPrefix, Wrapped(FindPrefix, findFailure.value))) && graph.cursos == old(graph.cursos)
    ensures keysFailure.None? && findFailure.None? ==>
              && err == None
              && (forall c :: c in docs <==> c in cat.cursos.Values)
              && graph.cursos == Run(old(graph.cursos), CursoCandidates(docs))
    ensures graph.users == old(graph.users) && graph.courses == old(graph.courses)
    ensures graph.clases == old(graph.clases) && graph.ratings == old(graph.ratings)
    ensures graph.courseComments == old(graph.courseComments) && graph.chains == old(graph.chains)
  {
    docs := [];
    var e1;
    e1, keys := MigrateUsuarios(redis, graph, keysFailure);
    if e1.Some? {
      return Some(Wrapped(UsuariosPrefix, e1.value)), keys, docs;
    }
    var e2;
    e2, docs := MigrateCursos(cat, graph, findFailure);
    if e2.Some? {
      return Some(Wrapped(CursosPrefix, e2.value)), keys, docs;
    }
    err := None;
  }
}
