/** The document catalog (MongoDB): the courses, units and classes
    collections, each a map from `_id` to document. */
module Catalog {
  import opened Common
  import opened ObjectIds
  import opened Models

  /** A Find over a collection: the documents that satisfy `keep`, each once,
      in the collection's natural (unspecified) order. `idOf` reads a
      document's `_id`, which is its key in the map. */
  method Select<T(==)>(m: map<ObjectId, T>, idOf: T -> ObjectId, keep: T -> bool) returns (r: seq<T>)
    requires forall k :: k in m ==> idOf(m[k]) == k
    ensures forall x :: x in r <==> x in m.Values && keep(x)
    ensures NoDup(r)
  {
    var rest := m.Keys;
    r := [];
    while rest != {}
      invariant rest <= m.Keys
      invariant forall x :: x in r <==> x in m.Values && keep(x) && idOf(x) !in rest
      invariant NoDup(r)
      decreases rest
    {
      var k :| k in rest;
      assert forall x :: x in m.Values && idOf(x) == k ==> x == m[k];
      if keep(m[k]) {
        r := r + [m[k]];
      }
      rest := rest - {k};
    }
  }

  /** Parent/child consistency of the hierarchy: every unit names an existing
      course that lists it, and every class names an existing unit that lists it. */
  ghost predicate Consistent(cursos: map<ObjectId, Curso>, unidades: map<ObjectId, Unidad>, clases: map<ObjectId, Clase>) {
    && (forall u :: u in unidades ==>
          unidades[u].idCurso in cursos && u in cursos[unidades[u].idCurso].unidades)
    && (forall c :: c in clases ==>
          clases[c].unidadId in unidades && c in unidades[clases[c].unidadId].clases)
  }

  class Mongo {
    var cursos: map<ObjectId, Curso>
    var unidades: map<ObjectId, Unidad>
    var clases: map<ObjectId, Clase>

    /** Each document is stored under its own `_id`. */
    ghost predicate Valid()
      reads this
    {
      && (forall k :: k in cursos ==> cursos[k].id == k)
      && (forall k :: k in unidades ==> unidades[k].id == k)
      && (forall k :: k in clases ==> clases[k].id == k)
    }

    constructor ()
      ensures Valid()
      ensures cursos == map[] && unidades == map[] && clases == map[]
    {
      cursos, unidades, clases := map[], map[], map[];
    }

    /** UpdateOne({_id: id}, {$set: {valoracion: v}}): a missing course matches
        nothing and is not an error. */
    method SetValoracion(id: ObjectId, v: real)
      requires Valid()
      modifies this
      ensures Valid()
      ensures cursos == if id in old(cursos) then old(cursos)[id := old(cursos)[id].(valoracion := v)] else old(cursos)
      ensures unidades == old(unidades) && clases == old(clases)
    {
      if id in cursos {
        cursos := cursos[id := cursos[id].(valoracion := v)];
      }
    }

    /** UpdateOne({_id: curso}, {$push: {unidades: unidad}}). */
    method PushUnidad(curso: ObjectId, unidad: ObjectId)
      requires Valid()
      modifies this
      ensures Valid()
      ensures cursos == if curso in old(cursos) then old(cursos)[curso := old(cursos)[curso].(unidades := old(cursos)[curso].unidades + [unidad])] else old(cursos)
      ensures unidades == old(unidades) && clases == old(clases)
    {
      if curso in cursos {
        cursos := cursos[curso := cursos[curso].(unidades := cursos[curso].unidades + [unidad])];
      }
    }

    /** UpdateOne({_id: unidad}, {$push: {clases: clase}}). */
    method PushClase(unidad: ObjectId, clase: ObjectId)
      requires Valid()
      modifies this
      ensures Valid()
      ensures unidades == if unidad in old(unidades) then old(unidades)[unidad := old(unidades)[unidad].(clases := old(unidades)[unidad].clases + [clase])] else old(unidades)
      ensures cursos == old(cursos) && clases == old(clases)
    {
      if unidad in unidades {
        unidades := unidades[unidad := unidades[unidad].(clases := unidades[unidad].clases + [clase])];
      }
    }

    /** InsertOne into the courses collection; an `_id` already present is a
        duplicate-key error. */
    method InsertCurso(c: Curso) returns (r: Result<ObjectId>)
      requires Valid()
      modifies this
      ensures Valid()
      ensures c.id in old(cursos) ==> r == Err(DuplicateKey) && cursos == old(cursos)
      ensures c.id !in old(cursos) ==> r == Ok(c.id) && cursos == old(cursos)[c.id := c]
      ensures unidades == old(unidades) && clases == old(clases)
    {
      if c.id in cursos {
        r := Err(DuplicateKey);
      } else {
        cursos := cursos[c.id := c];
        r := Ok(c.id);
      }
    }

    /** InsertOne into the units collection, with a freshly generated `_id`. */
    method InsertUnidad(u: Unidad)
      requires Valid()
      requires u.id !in unidades
      modifies this
      ensures Valid()
      ensures unidades == old(unidades)[u.id := u]
      ensures cursos == old(cursos) && clases == old(clases)
    {
      unidades := unidades[u.id := u];
    }

    /** InsertOne into the classes collection, with a freshly generated `_id`. */
    method InsertClase(c: Clase)
      requires Valid()
      requires c.id !in clases
      modifies this
      ensures Valid()
      ensures clases == old(clases)[c.id := c]
      ensures cursos == old(cursos) && unidades == old(unidades)
    {
      clases := clases[c.id := c];
    }
  }
}
