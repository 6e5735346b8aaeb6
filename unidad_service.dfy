/** The units collection (Unidad_service.go): a course's units, and the
    creation of a unit under a course. */
module UnidadService {
  import opened Common
  import opened ObjectIds
  import opened Models
  import opened Catalog
  import CursoService

  /** The units a course lists by id; an id with no unit behind it
      contributes nothing. */
  ghost function UnitsListed(unidades: map<ObjectId, Unidad>, ids: seq<ObjectId>): set<Unidad> {
    set k | k in unidades && k in ids :: unidades[k]
  }

  /** ObtenerUnidadesPorCurso: the course id is parsed, the course looked
      up, and then the units whose `_id` is `$in` its `unidades` list are
      returned, each once. */
  method ObtenerUnidadesPorCurso(cat: Mongo, id: string) returns (r: Result<seq<Unidad>>)
    requires cat.Valid()
    ensures !IsValidHex(id) ==> r == Err(CursoService.InvalidId)
    ensures IsValidHex(id) && ObjectIDFromHex(id).value !in cat.cursos ==> r == Err(CursoService.CourseNotFound)
    ensures IsValidHex(id) && ObjectIDFromHex(id).value in cat.cursos ==>
              && r.Ok?
              && (forall u :: u in r.value <==> u in UnitsListed(cat.unidades, cat.cursos[ObjectIDFromHex(id).value].unidades))
              && NoDup(r.value)
  {
    var parsed := ObjectIDFromHex(id);
    if parsed.Err? {
      return Err(CursoService.InvalidId);
    }
    var objectID := parsed.value;
    if objectID !in cat.cursos {
      return Err(CursoService.CourseNotFound);
    }
    var curso := cat.cursos[objectID];
    var unidades := Select(cat.unidades, (u: Unidad) => u.id, (u: Unidad) => u.id in curso.unidades);
    forall u
      ensures u in unidades <==> u in UnitsListed(cat.unidades, curso.unidades)
    {
      if u in unidades {
        assert cat.unidades[u.id] == u;
      }
    }
    r := Ok(unidades);
  }

  /** The courses and units after a unit named `nombre` is created under
      course `cursoID` with the fresh id `freshId`: the new unit names the
      course and has no classes, and the course's list gains its id at the
      end. Nothing else changes. */
  function AddUnidad(cursos: map<ObjectId, Curso>, unidades: map<ObjectId, Unidad>, cursoID: ObjectId,
                     nombre: string, freshId: ObjectId)
    : (r: (map<ObjectId, Curso>, map<ObjectId, Unidad>))
    requires cursoID in cursos
    ensures r.1.Keys == unidades.Keys + {freshId}
    ensures r.1[freshId] == Unidad(freshId, cursoID, nombre, [])
    ensures forall k :: k in unidades && k != freshId ==> r.1[k] == unidades[k]
    ensures r.0.Keys == cursos.Keys
    ensures r.0[cursoID] == cursos[cursoID].(unidades := cursos[cursoID].unidades + [freshId])
    ensures forall k :: k in cursos && k != cursoID ==> r.0[k] == cursos[k]
  {
    var curso := cursos[cursoID];
    (cursos[cursoID := curso.(unidades := curso.unidades + [freshId])],
     unidades[freshId := Unidad(freshId, cursoID, nombre, [])])
  }

  /** Creating a unit keeps every unit listed by the course it names, and
      every class listed by its unit. */
  lemma AddUnidadConsistent(cursos: map<ObjectId, Curso>, unidades: map<ObjectId, Unidad>, clases: map<ObjectId, Clase>,
                            cursoID: ObjectId, nombre: string, freshId: ObjectId)
    requires cursoID in cursos && freshId !in unidades
    requires Consistent(cursos, unidades, clases)
    ensures var after := AddUnidad(cursos, unidades, cursoID, nombre, freshId);
            Consistent(after.0, after.1, clases)
  {
    var after := AddUnidad(cursos, unidades, cursoID, nombre, freshId);
    forall u | u in after.1
      ensures after.1[u].idCurso in after.0 && u in after.0[after.1[u].idCurso].unidades
    {
      if u != freshId {
        var c := unidades[u].idCurso;
        assert u in cursos[c].unidades;
        if c == cursoID {
          assert after.0[c].unidades == cursos[c].unidades + [freshId];
        }
      }
    }
    forall c | c in clases
      ensures clases[c].unidadId in after.1 && c in after.1[clases[c].unidadId].clases
    {
      assert clases[c].unidadId != freshId;
    }
  }

  /** The course's listing gains exactly the new unit, and every other
      course's listing is unchanged. */
  lemma AddUnidadListed(cursos: map<ObjectId, Curso>, unidades: map<ObjectId, Unidad>,
                        cursoID: ObjectId, nombre: string, freshId: ObjectId)
    requires cursoID in cursos && freshId !in unidades
    requires forall k :: k in cursos ==> freshId !in cursos[k].unidades
    ensures var after := AddUnidad(cursos, unidades, cursoID, nombre, freshId);
            && UnitsListed(after.1, after.0[cursoID].unidades)
               == UnitsListed(unidades, cursos[cursoID].unidades) + {Unidad(freshId, cursoID, nombre, [])}
            && forall k :: k in cursos && k != cursoID ==>
                 UnitsListed(after.1, after.0[k].unidades) == UnitsListed(unidades, cursos[k].unidades)
  {
    var after := AddUnidad(cursos, unidades, cursoID, nombre, freshId);
    var ids := cursos[cursoID].unidades;
    assert after.0[cursoID].unidades == ids + [freshId];
    assert freshId in after.0[cursoID].unidades;
    forall k | k in cursos && k != cursoID
      ensures UnitsListed(after.1, after.0[k].unidades) == UnitsListed(unidades, cursos[k].unidades)
    {
      assert after.0[k] == cursos[k];
    }
  }

  /** CrearUnidad: parse the course id, check the course exists, insert the
      unit with the fresh id `freshId` (primitive.NewObjectID) and push that id
      onto the course's `unidades`. Only the name of `unidad` is used. */
  method CrearUnidad(cat: Mongo, id: string, unidad: Unidad, freshId: ObjectId) returns (r: Result<ObjectId>)
    requires cat.Valid()
    requires freshId !in cat.unidades
    modifies cat
    ensures cat.Valid()
    ensures !IsValidHex(id) ==>
              r == Err(CursoService.InvalidId) && cat.cursos == old(cat.cursos) && cat.unidades == old(cat.unidades)
    ensures IsValidHex(id) && ObjectIDFromHex(id).value !in old(cat.cursos) ==>
              r == Err(CursoService.CourseNotFound) && cat.cursos == old(cat.cursos) && cat.unidades == old(cat.unidades)
    ensures IsValidHex(id) && ObjectIDFromHex(id).value in old(cat.cursos) ==>
              && r == Ok(freshId)
              && (cat.cursos, cat.unidades)
                 == AddUnidad(old(cat.cursos), old(cat.unidades), ObjectIDFromHex(id).value, unidad.nombre, freshId)
    ensures cat.clases == old(cat.clases)
    ensures Consistent(old(cat.cursos), old(cat.unidades), old(cat.clases)) ==> Consistent(cat.cursos, cat.unidades, cat.clases)
  {
    var parsed := ObjectIDFromHex(id);
    if parsed.Err? {
      return Err(CursoService.InvalidId);
    }
    var objectID := parsed.value;
    if objectID !in cat.cursos {
      return Err(CursoService.CourseNotFound);
    }
    if Consistent(cat.cursos, cat.unidades, cat.clases) {
      AddUnidadConsistent(cat.cursos, cat.unidades, cat.clases, objectID, unidad.nombre, freshId);
    }
    var nuevaUnidad := Unidad(freshId, objectID, unidad.nombre, []);
    cat.InsertUnidad(nuevaUnidad);
    cat.PushUnidad(objectID, freshId);
    r := Ok(freshId);
  }
}
