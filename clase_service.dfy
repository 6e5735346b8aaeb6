/** The classes collection (Clase_service.go): a unit's classes, and the
    creation of a class under a unit. */
module ClaseService {
  import opened Common
  import opened ObjectIds
  import opened Models
  import opened Catalog
  import CursoService

  const InvalidUnitId := Msg("ID de unidad inválido")
  const UnitNotFound := Msg("unidad no encontrada")

  /** The classes whose `unidad_id` is `unidadID`. */
  ghost function ClassesOf(clases: map<ObjectId, Clase>, unidadID: ObjectId): set<Clase> {
    set k | k in clases && clases[k].unidadId == unidadID :: clases[k]
  }

  /** ObtenerClasesPorUnidad: the unit id is parsed (an invalid one is "ID
      inválido"), the unit looked up, and then the classes whose `unidad_id`
      is that unit are returned, each once. */
  method ObtenerClasesPorUnidad(cat: Mongo, id: string) returns (r: Result<seq<Clase>>)
    requires cat.Valid()
    ensures !IsValidHex(id) ==> r == Err(CursoService.InvalidId)
    ensures IsValidHex(id) && ObjectIDFromHex(id).value !in cat.unidades ==> r == Err(UnitNotFound)
    ensures IsValidHex(id) && ObjectIDFromHex(id).value in cat.unidades ==>
              && r.Ok?
              && (forall c :: c in r.value <==> c in ClassesOf(cat.clases, ObjectIDFromHex(id).value))
              && NoDup(r.value)
  {
    var parsed := ObjectIDFromHex(id);
    if parsed.Err? {
      return Err(CursoService.InvalidId);
    }
    var objectID := parsed.value;
    if objectID !in cat.unidades {
      return Err(UnitNotFound);
    }
    var clases := Select(cat.clases, (c: Clase) => c.id, (c: Clase) => c.unidadId == objectID);
    forall c
      ensures c in clases <==> c in ClassesOf(cat.clases, objectID)
    {
      if c in clases {
        assert cat.clases[c.id] == c;
      }
    }
    r := Ok(clases);
  }

  /** In a consistent catalog, the classes found by their `unidad_id` are
      among those the unit lists. */
  lemma ClassesOfListed(unidades: map<ObjectId, Unidad>, clases: map<ObjectId, Clase>, cursos: map<ObjectId, Curso>,
                        unidadID: ObjectId)
    requires Consistent(cursos, unidades, clases)
    requires forall k :: k in clases ==> clases[k].id == k
    requires unidadID in unidades
    ensures forall c :: c in ClassesOf(clases, unidadID) ==> c.id in unidades[unidadID].clases
  {
    forall c | c in ClassesOf(clases, unidadID)
      ensures c.id in unidades[unidadID].clases
    {
      var k :| k in clases && clases[k].unidadId == unidadID && clases[k] == c;
      assert k in unidades[clases[k].unidadId].clases;
    }
  }

  /** The document CrearClaseParaUnidad inserts: nil lists become empty,
      the class names its unit and gets the fresh id, and every other
      field is as given. */
  function Filled(d: ClaseDraft, unidadID: ObjectId, freshId: ObjectId): (c: Clase)
    ensures c.id == freshId && c.unidadId == unidadID
    ensures c.adjuntosUrl == NonNil(d.adjuntosUrl) && c.comentarios == NonNil(d.comentarios)
    ensures d.adjuntosUrl.None? ==> c.adjuntosUrl == []
    ensures d.comentarios.None? ==> c.comentarios == []
    ensures c.nombre == d.nombre && c.descripcion == d.descripcion && c.videoUrl == d.videoUrl
    ensures c.meGusta == d.meGusta && c.noMeGusta == d.noMeGusta
  {
    Clase(freshId, unidadID, d.nombre, d.descripcion, d.videoUrl, NonNil(d.adjuntosUrl), NonNil(d.comentarios),
          d.meGusta, d.noMeGusta)
  }

  /** The caller's class after the call: the fields CrearClaseParaUnidad
      assigns through its `clase` argument, which it receives by reference. */
  function Assigned(d: ClaseDraft, unidadID: ObjectId, freshId: ObjectId): (r: ClaseDraft)
    ensures r.id == freshId && r.unidadId == unidadID
    ensures r.adjuntosUrl == Some(NonNil(d.adjuntosUrl)) && r.comentarios == Some(NonNil(d.comentarios))
    ensures r.nombre == d.nombre && r.descripcion == d.descripcion && r.videoUrl == d.videoUrl
    ensures r.meGusta == d.meGusta && r.noMeGusta == d.noMeGusta
  {
    d.(adjuntosUrl := Some(NonNil(d.adjuntosUrl)), comentarios := Some(NonNil(d.comentarios)),
       unidadId := unidadID, id := freshId)
  }

  /** The units and classes after class `c` is created under unit
      `unidadID`: the class is stored and the unit's list gains its id at
      the end. Nothing else changes. */
  function AddClase(unidades: map<ObjectId, Unidad>, clases: map<ObjectId, Clase>, unidadID: ObjectId, c: Clase)
    : (r: (map<ObjectId, Unidad>, map<ObjectId, Clase>))
    requires unidadID in unidades
    ensures r.1.Keys == clases.Keys + {c.id} && r.1[c.id] == c
    ensures forall k :: k in clases && k != c.id ==> r.1[k] == clases[k]
    ensures r.0.Keys == unidades.Keys
    ensures r.0[unidadID] == unidades[unidadID].(clases := unidades[unidadID].clases + [c.id])
    ensures forall k :: k in unidades && k != unidadID ==> r.0[k] == unidades[k]
  {
    var unidad := unidades[unidadID];
    (unidades[unidadID := unidad.(clases := unidad.clases + [c.id])], clases[c.id := c])
  }

  /** Creating a class under an existing unit keeps the hierarchy consistent. */
  lemma AddClaseConsistent(cursos: map<ObjectId, Curso>, unidades: map<ObjectId, Unidad>, clases: map<ObjectId, Clase>,
                           unidadID: ObjectId, c: Clase)
    requires unidadID in unidades && c.unidadId == unidadID && c.id !in clases
    requires Consistent(cursos, unidades, clases)
    ensures var after := AddClase(unidades, clases, unidadID, c);
            Consistent(cursos, after.0, after.1)
  {
    var after := AddClase(unidades, clases, unidadID, c);
    forall u | u in after.0
      ensures after.0[u].idCurso in cursos && u in cursos[after.0[u].idCurso].unidades
    {
      assert after.0[u].idCurso == unidades[u].idCurso;
    }
    forall k | k in after.1
      ensures after.1[k].unidadId in after.0 && k in after.0[after.1[k].unidadId].clases
    {
      if k != c.id {
        var u := clases[k].unidadId;
        assert k in unidades[u].clases;
        if u == unidadID {
          assert after.0[u].clases == unidades[u].clases + [c.id];
        }
      } else {
        assert after.0[unidadID].clases == unidades[unidadID].clases + [c.id];
      }
    }
  }

  /** The unit's classes gain exactly the new class; other units' classes
      are unchanged. */
  lemma AddClaseListed(unidades: map<ObjectId, Unidad>, clases: map<ObjectId, Clase>, unidadID: ObjectId, c: Clase)
    requires unidadID in unidades && c.unidadId == unidadID && c.id !in clases
    ensures var after := AddClase(unidades, clases, unidadID, c);
            && ClassesOf(after.1, unidadID) == ClassesOf(clases, unidadID) + {c}
            && forall u :: u != unidadID ==> ClassesOf(after.1, u) == ClassesOf(clases, u)
  {
    var after := AddClase(unidades, clases, unidadID, c);
    assert after.1 == clases[c.id := c];
  }

  /** CrearClaseParaUnidad: parse the unit id, check the unit exists, fill
      in the class and give it the fresh id `freshId`
      (primitive.NewObjectID), insert it and push its id onto the unit's
      `clases`. `updated` is the caller's class as the call leaves it. */
  method CrearClaseParaUnidad(cat: Mongo, unidadID: string, clase: ClaseDraft, freshId: ObjectId)
    returns (r: Result<ObjectId>, updated: ClaseDraft)
    requires cat.Valid()
    requires freshId !in cat.clases
    modifies cat
    ensures cat.Valid()
    ensures !IsValidHex(unidadID) ==>
              r == Err(InvalidUnitId) && updated == clase
              && cat.unidades == old(cat.unidades) && cat.clases == old(cat.clases)
    ensures IsValidHex(unidadID) && ObjectIDFromHex(unidadID).value !in old(cat.unidades) ==>
              r == Err(UnitNotFound) && updated == clase
              && cat.unidades == old(cat.unidades) && cat.clases == old(cat.clases)
    ensures IsValidHex(unidadID) && ObjectIDFromHex(unidadID).value in old(cat.unidades) ==>
              var oid := ObjectIDFromHex(unidadID).value;
              && r == Ok(freshId)
              && updated == Assigned(clase, oid, freshId)
              && (cat.unidades, cat.clases) == AddClase(old(cat.unidades), old(cat.clases), oid, Filled(clase, oid, freshId))
    ensures cat.cursos == old(cat.cursos)
    ensures Consistent(old(cat.cursos), old(cat.unidades), old(cat.clases)) ==> Consistent(cat.cursos, cat.unidades, cat.clases)
  {
    updated := clase;
    var parsed := ObjectIDFromHex(unidadID);
    if parsed.Err? {
      return Err(InvalidUnitId), updated;
    }
    var objectID := parsed.value;
    if objectID !in cat.unidades {
      return Err(UnitNotFound), updated;
    }
    if updated.adjuntosUrl.None? {
      updated := updated.(adjuntosUrl := Some([]));
    }
    if updated.comentarios.None? {
      updated := updated.(comentarios := Some([]));
    }
    updated := updated.(unidadId := objectID);
    updated := updated.(id := freshId);
    var stored := Clase(updated.id, updated.unidadId, updated.nombre, updated.descripcion, updated.videoUrl,
                        updated.adjuntosUrl.value, updated.comentarios.value, updated.meGusta, updated.noMeGusta);
    if Consistent(cat.cursos, cat.unidades, cat.clases) {
      AddClaseConsistent(cat.cursos, cat.unidades, cat.clases, objectID, stored);
    }
    cat.InsertClase(stored);
    cat.PushClase(objectID, freshId);
    r := Ok(freshId);
  }
}
