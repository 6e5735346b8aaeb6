/** The key/value profile store (Redis): one serialized user record per key,
    with the key built from the user's credentials. */
module ProfileStore {
  import opened Common
  import opened Models

  /** What a key holds: a record that decodes, or bytes that json.Unmarshal rejects. */
  datatype Blob = Record(usuario: Usuario) | Undecodable

  const UserPrefix: string := "usuario:"

  /** The key every user operation addresses. */
  function UserKey(email: string, password: string): string {
    UserPrefix + email + ":" + password
  }

  /** The two KEYS patterns in use: "usuario:*" and "usuario:*:*". */
  datatype KeyPattern = AnyUser | AnyUserWithPassword

  predicate Matches(p: KeyPattern, k: string) {
    match p
    case AnyUser => UserPrefix <= k
    case AnyUserWithPassword => UserPrefix <= k && ':' in k[|UserPrefix|..]
  }

  /** Every key built by UserKey is listed under both patterns. */
  lemma UserKeyMatches(email: string, password: string)
    ensures Matches(AnyUser, UserKey(email, password))
    ensures Matches(AnyUserWithPassword, UserKey(email, password))
  {
    var k := UserKey(email, password);
    assert k[|UserPrefix|..] == email + ":" + password;
    assert (email + ":" + password)[|email|] == ':';
  }

  /** GET key followed by json.Unmarshal on a snapshot of the store; `missing`
      is the error the caller reports for redis.Nil. */
  function Lookup(data: map<string, Blob>, key: string, missing: Error): Result<Usuario> {
    if key !in data then Err(missing)
    else if data[key].Undecodable? then Err(DecodeError)
    else Ok(data[key].usuario)
  }

  /** How a read-modify-write service call ends, given the decision `s` its
      specification takes on the store's old contents: a new record is
      written back under `key` and no error is reported, or the error is
      reported and nothing is written. */
  ghost predicate Commits(before: map<string, Blob>, after: map<string, Blob>, key: string,
                          s: Result<Usuario>, err: Option<Error>) {
    if s.Ok? then err == None && after == before[key := Record(s.value)]
    else err == Some(s.error) && after == before
  }

  class Redis {
    var data: map<string, Blob>

    constructor ()
      ensures data == map[]
    {
      data := map[];
    }

    function Load(key: string, missing: Error): Result<Usuario>
      reads this
    {
      Lookup(data, key, missing)
    }

    /** SET key value: the whole record is overwritten. */
    method Set(key: string, u: Usuario)
      modifies this
      ensures data == old(data)[key := Record(u)]
    {
      data := data[key := Record(u)];
    }

    /** KEYS pattern: every matching key once, in no particular order. */
    method Keys(p: KeyPattern) returns (ks: seq<string>)
      ensures forall k :: k in ks <==> k in data && Matches(p, k)
      ensures NoDup(ks)
    {
      ks := Enumerate(data.Keys, k => Matches(p, k));
    }
  }
}
