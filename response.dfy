/** The JSON response shapes (response.go): catalog documents with every
    ObjectId written as its hex string, and comments as returned. */
module Response {
  import opened Common
  import opened ObjectIds
  import opened Models

  datatype CursoResponse = CursoResponse(
    id: string,
    nombre: string,
    descripcion: string,
    imagen: string,
    valoracion: real,
    unidades: seq<string>,
    usuarios: int,
    comentarios: seq<string>)

  datatype UnidadResponse = UnidadResponse(
    id: string,
    idCurso: string,
    nombre: string,
    clases: seq<string>)

  datatype ClaseResponse = ClaseResponse(
    id: string,
    unidadId: string,
    nombre: string,
    descripcion: string,
    videoUrl: string,
    adjuntosUrl: seq<string>,
    meGusta: int,
    noMeGusta: int,
    comentarios: seq<string>)

  datatype ComentarioResponse = ComentarioResponse(
    id: string,
    claseId: string,
    autor: string,
    fecha: Time,
    titulo: string,
    detalle: string,
    meGusta: int,
    noMeGusta: int)

  /** The index loop the constructors share: a slice of the same length
      whose i-th string is the hex of the i-th id. Each string parses back
      to its id, so two entries are equal exactly when their ids are. */
  method HexList(ids: seq<ObjectId>) returns (r: seq<string>)
    ensures |r| == |ids|
    ensures forall i :: 0 <= i < |ids| ==> r[i] == Hex(ids[i])
    ensures forall i :: 0 <= i < |ids| ==> ObjectIDFromHex(r[i]) == Ok(ids[i])
    ensures forall i, j :: 0 <= i < |ids| && 0 <= j < |ids| ==> (r[i] == r[j] <==> ids[i] == ids[j])
  {
    r := [];
    var i := 0;
    while i < |ids|
      invariant 0 <= i <= |ids|
      invariant |r| == i
      invariant forall k :: 0 <= k < i ==> r[k] == Hex(ids[k]) && ObjectIDFromHex(r[k]) == Ok(ids[k])
    {
      ParseHexRoundTrip(ids[i]);
      r := r + [Hex(ids[i])];
      i := i + 1;
    }
    forall i, j | 0 <= i < |ids| && 0 <= j < |ids|
      ensures r[i] == r[j] <==> ids[i] == ids[j]
    {
      HexInjective(ids[i], ids[j]);
    }
  }

  /** NewCursoResponse: the ids in hex, the unit and comment lists mapped
      element by element, the other fields copied; the class count is not
      part of the response. */
  method NewCursoResponse(curso: Curso) returns (resp: CursoResponse)
    ensures resp.id == Hex(curso.id) && ObjectIDFromHex(resp.id) == Ok(curso.id)
    ensures |resp.unidades| == |curso.unidades|
    ensures forall i :: 0 <= i < |curso.unidades| ==>
              resp.unidades[i] == Hex(curso.unidades[i]) && ObjectIDFromHex(resp.unidades[i]) == Ok(curso.unidades[i])
    ensures |resp.comentarios| == |curso.comentarios|
    ensures forall i :: 0 <= i < |curso.comentarios| ==>
              resp.comentarios[i] == Hex(curso.comentarios[i]) && ObjectIDFromHex(resp.comentarios[i]) == Ok(curso.comentarios[i])
    ensures resp.nombre == curso.nombre && resp.descripcion == curso.descripcion && resp.imagen == curso.imagen
    ensures resp.valoracion == curso.valoracion && resp.usuarios == curso.usuarios
  {
    var unidades := HexList(curso.unidades);
    var comentarios := HexList(curso.comentarios);
    ParseHexRoundTrip(curso.id);
    resp := CursoResponse(Hex(curso.id), curso.nombre, curso.descripcion, curso.imagen, curso.valoracion,
                          unidades, curso.usuarios, comentarios);
  }

  /** NewUnidadResponse: the ids in hex and the class list mapped element
      by element. */
  method NewUnidadResponse(unidad: Unidad) returns (resp: UnidadResponse)
    ensures resp.id == Hex(unidad.id) && ObjectIDFromHex(resp.id) == Ok(unidad.id)
    ensures resp.idCurso == Hex(unidad.idCurso) && ObjectIDFromHex(resp.idCurso) == Ok(unidad.idCurso)
    ensures resp.nombre == unidad.nombre
    ensures |resp.clases| == |unidad.clases|
    ensures forall i :: 0 <= i < |unidad.clases| ==>
              resp.clases[i] == Hex(unidad.clases[i]) && ObjectIDFromHex(resp.clases[i]) == Ok(unidad.clases[i])
  {
    var clases := HexList(unidad.clases);
    ParseHexRoundTrip(unidad.id);
    ParseHexRoundTrip(unidad.idCurso);
    resp := UnidadResponse(Hex(unidad.id), Hex(unidad.idCurso), unidad.nombre, clases);
  }

  /** NewClaseResponse: the ids in hex, the attachment URLs passed through
      unchanged and the comment list mapped element by element. */
  method NewClaseResponse(clase: Clase) returns (resp: ClaseResponse)
    ensures resp.id == Hex(clase.id) && ObjectIDFromHex(resp.id) == Ok(clase.id)
    ensures resp.unidadId == Hex(clase.unidadId) && ObjectIDFromHex(resp.unidadId) == Ok(clase.unidadId)
    ensures resp.nombre == clase.nombre && resp.descripcion == clase.descripcion && resp.videoUrl == clase.videoUrl
    ensures resp.adjuntosUrl == clase.adjuntosUrl
    ensures resp.meGusta == clase.meGusta && resp.noMeGusta == clase.noMeGusta
    ensures |resp.comentarios| == |clase.comentarios|
    ensures forall i :: 0 <= i < |clase.comentarios| ==>
              resp.comentarios[i] == Hex(clase.comentarios[i]) && ObjectIDFromHex(resp.comentarios[i]) == Ok(clase.comentarios[i])
  {
    var comentarios := HexList(clase.comentarios);
    ParseHexRoundTrip(clase.id);
    ParseHexRoundTrip(clase.unidadId);
    resp := ClaseResponse(Hex(clase.id), Hex(clase.unidadId), clase.nombre, clase.descripcion, clase.videoUrl,
                          clase.adjuntosUrl, clase.meGusta, clase.noMeGusta, comentarios);
  }

  /** NewComentarioResponse: a field-for-field copy. A comment's ids are
      already strings here, so they are copied as they are; the password
      is not part of the response. */
  function NewComentarioResponse(c: Comentario): (r: ComentarioResponse)
    ensures r.id == c.id && r.claseId == c.claseId && r.autor == c.autor && r.fecha == c.fecha
    ensures r.titulo == c.titulo && r.detalle == c.detalle && r.meGusta == c.meGusta && r.noMeGusta == c.noMeGusta
  {
    ComentarioResponse(c.id, c.claseId, c.autor, c.fecha, c.titulo, c.detalle, c.meGusta, c.noMeGusta)
  }
}
