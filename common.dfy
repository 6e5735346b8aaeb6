/** Shared vocabulary: optional values, results carrying the service's errors,
    timestamps, and enumeration of a finite set in an unspecified order (the
    order in which a store's scan hands back keys or documents). */
module Common {

  datatype Option<+T> = None | Some(value: T)

  /** The errors the services return. `Msg` is an `errors.New` with the given
      literal text; the others stand for errors raised by a driver. */
  datatype Error =
    | Msg(text: string)
    | InvalidHex      // primitive.ErrInvalidHex: an id that is not 24 bytes long
    | InvalidByte(b: int)   // hex.InvalidByteError: the first byte that is not a hex digit
    | NoDocuments     // mongo.ErrNoDocuments from FindOne(...).Decode
    | DecodeError     // json.Unmarshal failed on a stored profile record
    | DuplicateKey    // InsertOne with an _id that is already taken
    | Failure         // a store that could not be reached or queried
    | Wrapped(prefix: string, cause: Error)   // fmt.Errorf("<prefix>: %v", cause)

  datatype Result<+T> = Ok(value: T) | Err(error: Error)

  /** A point in time (time.Now() on the service, datetime() on the graph server). */
  type Time = int

  ghost predicate NoDup<T>(s: seq<T>) {
    forall i, j :: 0 <= i < j < |s| ==> s[i] != s[j]
  }

  /** Lists every element of `s` that satisfies `keep`, each exactly once, in
      whatever order the underlying store chooses. */
  method Enumerate<T>(s: set<T>, keep: T -> bool) returns (r: seq<T>)
    ensures forall x :: x in r <==> x in s && keep(x)
    ensures NoDup(r)
  {
    var rest := s;
    r := [];
    while rest != {}
      invariant rest <= s
      invariant forall x :: x in r <==> x in s - rest && keep(x)
      invariant NoDup(r)
      decreases rest
    {
      var x :| x in rest;
      if keep(x) {
        r := r + [x];
      }
      rest := rest - {x};
    }
  }
}
