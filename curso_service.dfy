/** The courses collection (Curso_service.go): listing, creation, lookup by
    hex id, and the update of a course's rating. */
module CursoService {
  import opened Common
  import opened ObjectIds
  import opened Models
  import opened Catalog

  const InvalidId := Msg("ID inválido")
  const CourseNotFound := Msg("curso no encontrado")

  /** ObtenerCursos: every course in the collection, each once. */
  method ObtenerCursos(cat: Mongo) returns (r: seq<Curso>)
    requires cat.Valid()
    ensures forall c :: c in r <==> c in cat.cursos.Values
    ensures NoDup(r)
  {
    r := Select(cat.cursos, (c: Curso) => c.id, (c: Curso) => true);
  }

  /** The document CrearCurso inserts: nil lists become empty, every other
      field is as given; a zero `_id` is left out of the document
      (`omitempty`), so the driver gives it the fresh id `freshId`. */
  function Filled(d: CursoDraft, freshId: ObjectId): (c: Curso)
    ensures c.id == (if d.id == NilObjectID then freshId else d.id)
    ensures c.unidades == NonNil(d.unidades) && c.comentarios == NonNil(d.comentarios)
    ensures d.unidades.None? ==> c.unidades == []
    ensures d.comentarios.None? ==> c.comentarios == []
    ensures c.nombre == d.nombre && c.descripcion == d.descripcion && c.imagen == d.imagen
    ensures c.valoracion == d.valoracion && c.usuarios == d.usuarios && c.clases == d.clases
  {
    Curso(if d.id == NilObjectID then freshId else d.id, d.nombre, d.descripcion, d.imagen, d.valoracion,
          NonNil(d.unidades), d.usuarios, NonNil(d.comentarios), d.clases)
  }

  /** CrearCurso: insert the filled-in course; the result is its `_id`. A
      caller-chosen `_id` that is taken is a duplicate-key error. */
  method CrearCurso(cat: Mongo, curso: CursoDraft, freshId: ObjectId) returns (r: Result<ObjectId>)
    requires cat.Valid()
    requires freshId !in cat.cursos
    modifies cat
    ensures cat.Valid()
    ensures var c := Filled(curso, freshId);
            if c.id in old(cat.cursos) then r == Err(DuplicateKey) && cat.cursos == old(cat.cursos)
            else r == Ok(c.id) && cat.cursos == old(cat.cursos)[c.id := c]
    ensures cat.unidades == old(cat.unidades) && cat.clases == old(cat.clases)
    ensures Consistent(old(cat.cursos), old(cat.unidades), old(cat.clases)) ==> Consistent(cat.cursos, cat.unidades, cat.clases)
  {
    var c := Filled(curso, freshId);
    r := cat.InsertCurso(c);
  }

  /** ObtenerCursoPorID, on the course collection: the hex id is parsed
      first, and only a valid one is looked up. */
  function ObtenerCursoPorID(cursos: map<ObjectId, Curso>, id: string): (r: Result<Curso>)
    ensures !IsValidHex(id) ==> r == Err(InvalidId)
    ensures IsValidHex(id) ==>
              var oid := ObjectIDFromHex(id).value;
              if oid in cursos then r == Ok(cursos[oid]) else r == Err(CourseNotFound)
    ensures r.Ok? ==> r.value in cursos.Values
    ensures r.Ok? && (forall k :: k in cursos ==> cursos[k].id == k) ==> ObjectIDFromHex(id) == Ok(r.value.id)
  {
    var parsed := ObjectIDFromHex(id);
    if parsed.Err? then Err(InvalidId)
    else if parsed.value !in cursos then Err(CourseNotFound)
    else Ok(cursos[parsed.value])
  }

  /** A created course is found again under the hex of its id. */
  lemma CreatedCourseFound(cursos: map<ObjectId, Curso>, d: CursoDraft, freshId: ObjectId)
    ensures var c := Filled(d, freshId);
            ObtenerCursoPorID(cursos[c.id := c], Hex(c.id)) == Ok(c)
  {
    ParseHexRoundTrip(Filled(d, freshId).id);
  }

  /** The courses after $set of `valoracion` on course `id`: that course's
      rating is `v` and all its other fields are as before; other courses,
      and a missing `id`, are untouched. */
  function Revalued(cursos: map<ObjectId, Curso>, id: ObjectId, v: real): (r: map<ObjectId, Curso>)
    ensures r.Keys == cursos.Keys
    ensures id in cursos ==> r[id] == cursos[id].(valoracion := v) && r[id].valoracion == v
    ensures forall k :: k in cursos && k != id ==> r[k] == cursos[k]
  {
    if id in cursos then cursos[id := cursos[id].(valoracion := v)] else cursos
  }

  /** Changing a rating keeps the hierarchy consistent. */
  lemma RevaluedConsistent(cursos: map<ObjectId, Curso>, unidades: map<ObjectId, Unidad>, clases: map<ObjectId, Clase>,
                           id: ObjectId, v: real)
    requires Consistent(cursos, unidades, clases)
    ensures Consistent(Revalued(cursos, id, v), unidades, clases)
  {
  }

  /** A rating written is the rating read back. */
  lemma RevaluedFound(cursos: map<ObjectId, Curso>, id: ObjectId, v: real)
    requires id in cursos
    ensures ObtenerCursoPorID(Revalued(cursos, id, v), Hex(id)) == Ok(cursos[id].(valoracion := v))
  {
    ParseHexRoundTrip(id);
  }

  /** ActualizarValoracion: an invalid hex id is refused; a valid one
      updates that course's rating, and no course at all when none has that
      id. */
  method ActualizarValoracion(cat: Mongo, id: string, valoracion: real) returns (err: Option<Error>)
    requires cat.Valid()
    modifies cat
    ensures cat.Valid()
    ensures !IsValidHex(id) ==> err == Some(InvalidId) && cat.cursos == old(cat.cursos)
    ensures IsValidHex(id) ==> err == None && cat.cursos == Revalued(old(cat.cursos), ObjectIDFromHex(id).value, valoracion)
    ensures cat.unidades == old(cat.unidades) && cat.clases == old(cat.clases)
  {
    var parsed := ObjectIDFromHex(id);
    if parsed.Err? {
      return Some(InvalidId);
    }
    cat.SetValoracion(parsed.value, valoracion);
    err := None;
  }
}
