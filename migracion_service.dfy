/** The second migration (migracion_service.go): one graph `User` node per
    stored profile, keyed by the email inside the record, created only when
    no `User` with that email exists. */
module MigracionService {
  import opened Common
  import opened Models
  import opened ProfileStore
  import opened Graph
  import opened CreateIfAbsent

  const KeysPrefix := "error al obtener claves de Redis"

  /** The node MigrarUsuarios derives from one listed key: none when the
      record cannot be read, else the record's email and name, stamped
      with the server time `now`. */
  function UserCandidate(data: map<string, Blob>, key: string, now: Time): Option<(string, UserNode)> {
    if key !in data || data[key].Undecodable? then None
    else Some((data[key].usuario.email, UserNode(data[key].usuario.email, data[key].usuario.nombre, Some(now))))
  }

  function UserCandidates(data: map<string, Blob>, keys: seq<string>, now: Time): (cs: seq<Option<(string, UserNode)>>)
    ensures |cs| == |keys|
    ensures forall i :: 0 <= i < |keys| ==> cs[i] == UserCandidate(data, keys[i], now)
  {
    seq(|keys|, i requires 0 <= i < |keys| => UserCandidate(data, keys[i], now))
  }

  /** Running the migration again over keys it already saw, at any later
      time, leaves the User nodes exactly as they were: same emails, and
      each node keeps its first creation time. */
  lemma MigrarIdempotent(g: map<string, UserNode>, data: map<string, Blob>, ks1: seq<string>, ks2: seq<string>,
                         t1: Time, t2: Time)
    requires forall k :: k in ks2 ==> k in ks1
    ensures Run(Run(g, UserCandidates(data, ks1, t1)), UserCandidates(data, ks2, t2)) == Run(g, UserCandidates(data, ks1, t1))
  {
    var cs1 := UserCandidates(data, ks1, t1);
    var cs2 := UserCandidates(data, ks2, t2);
    forall e | e in KeysOf(cs2)
      ensures e in KeysOf(cs1)
    {
      var i :| 0 <= i < |cs2| && cs2[i].Some? && cs2[i].value.0 == e;
      assert ks2[i] in ks2;
      var j :| 0 <= j < |ks1| && ks1[j] == ks2[i];
      assert cs1[j].Some? && cs1[j].value.0 == e;
    }
    RunIdempotent(g, cs1, cs2);
  }

  /** crearUsuarioEnNeo4j: create the User node unless one with the same
      email exists. */
  method CrearUsuarioEnNeo4j(graph: Neo4j, u: Usuario, now: Time)
    requires graph.Valid()
    modifies graph
    ensures graph.Valid()
    ensures graph.users == Step(old(graph.users), Some((u.email, UserNode(u.email, u.nombre, Some(now)))))
    ensures u.email in old(graph.users) ==> graph.users == old(graph.users)
    ensures u.email !in old(graph.users) ==> graph.users == old(graph.users)[u.email := UserNode(u.email, u.nombre, Some(now))]
    ensures graph.usuarios == old(graph.usuarios) && graph.courses == old(graph.courses) && graph.cursos == old(graph.cursos)
    ensures graph.clases == old(graph.clases) && graph.ratings == old(graph.ratings)
    ensures graph.courseComments == old(graph.courseComments) && graph.chains == old(graph.chains)
  {
    if u.email in graph.users {
      return;
    }
    graph.users := graph.users[u.email := UserNode(u.email, u.nombre, Some(now))];
  }

  /** MigrarUsuarios: the fold of crearUsuarioEnNeo4j over every
      "usuario:*" key, in the order KEYS lists them (the ghost `keys`);
      unreadable records are skipped. `keysFailure` stands for a failing
      KEYS call; `now` for the graph server's datetime(). */
  method MigrarUsuarios(redis: Redis, graph: Neo4j, keysFailure: Option<Error>, now: Time)
    returns (err: Option<Error>, ghost keys: seq<string>)
    requires graph.Valid()
    modifies graph
    ensures graph.Valid()
    ensures keysFailure.Some? ==> err == Some(Wrapped(KeysPrefix, keysFailure.value)) && graph.users == old(graph.users)
    ensures keysFailure.None? ==>
              && err == None
              && (forall k :: k in keys <==> k in redis.data && Matches(AnyUser, k))
              && NoDup(keys)
              && graph.users == Run(old(graph.users), UserCandidates(redis.data, keys, now))
    ensures graph.usuarios == old(graph.usuarios) && graph.courses == old(graph.courses) && graph.cursos == old(graph.cursos)
    ensures graph.clases == old(graph.clases) && graph.ratings == old(graph.ratings)
    ensures graph.courseComments == old(graph.courseComments) && graph.chains == old(graph.chains)
  {
    if keysFailure.Some? {
      return Some(Wrapped(KeysPrefix, keysFailure.value)), [];
    }
    var ks := redis.Keys(AnyUser);
    keys := ks;
    var i := 0;
    while i < |ks|
      invariant 0 <= i <= |ks|
      invariant graph.Valid()
      invariant graph.users == Run(old(graph.users), UserCandidates(redis.data, ks[..i], now))
      invariant graph.usuarios == old(graph.usuarios) && graph.courses == old(graph.courses) && graph.cursos == old(graph.cursos)
      invariant graph.clases == old(graph.clases) && graph.ratings == old(graph.ratings)
      invariant graph.courseComments == old(graph.courseComments) && graph.chains == old(graph.chains)
    {
      var key := ks[i];
      assert UserCandidates(redis.data, ks[..i + 1], now)
             == UserCandidates(redis.data, ks[..i], now) + [UserCandidate(redis.data, key, now)];
      RunSnoc(old(graph.users), UserCandidates(redis.data, ks[..i], now), UserCandidate(redis.data, key, now));
      i := i + 1;

      var loaded := redis.Load(key, Failure);
      if loaded.Err? {
        continue;
      }
      CrearUsuarioEnNeo4j(graph, loaded.value, now);
    }
    assert ks[..|ks|] == ks;
    err := None;
  }
}
