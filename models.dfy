/** The records the services read and write, one per Go struct in models/.
    Go slices become sequences; a slice that may arrive nil (it matters only
    where a service replaces nil by an empty list) is an `Option` in the
    request-side "draft" records. Floating-point fields are reals. */
module Models {
  import opened Common
  import opened ObjectIds

  /** Progress of one user through one course. */
  datatype ProgresoCurso = ProgresoCurso(
    cursoId: ObjectId,
    clasesVistas: seq<ObjectId>,
    estado: string)

  const INICIADO: string := "INICIADO"
  const EN_CURSO: string := "EN CURSO"
  const COMPLETADO: string := "COMPLETADO"

  /** A user profile as stored, whole, in the profile store. The password,
      the enrollment dates and the progress list are the fields the services
      use beyond those declared in models/Usuario.go. */
  datatype Usuario = Usuario(
    id: ObjectId,
    nombre: string,
    email: string,
    password: string,
    inscritos: seq<ObjectId>,
    fechaInscripcion: seq<Time>,
    progresos: seq<ProgresoCurso>)

  datatype Curso = Curso(
    id: ObjectId,
    nombre: string,
    descripcion: string,
    imagen: string,
    valoracion: real,
    unidades: seq<ObjectId>,
    usuarios: int,
    comentarios: seq<ObjectId>,
    clases: int)

  /** A course as handed to CrearCurso, before its nil lists are filled in. */
  datatype CursoDraft = CursoDraft(
    id: ObjectId,
    nombre: string,
    descripcion: string,
    imagen: string,
    valoracion: real,
    unidades: Option<seq<ObjectId>>,
    usuarios: int,
    comentarios: Option<seq<ObjectId>>,
    clases: int)

  datatype Unidad = Unidad(
    id: ObjectId,
    idCurso: ObjectId,
    nombre: string,
    clases: seq<ObjectId>)

  datatype Clase = Clase(
    id: ObjectId,
    unidadId: ObjectId,
    nombre: string,
    descripcion: string,
    videoUrl: string,
    adjuntosUrl: seq<string>,
    comentarios: seq<ObjectId>,
    meGusta: int,
    noMeGusta: int)

  /** A class as handed to CrearClaseParaUnidad, before its nil lists are filled in. */
  datatype ClaseDraft = ClaseDraft(
    id: ObjectId,
    unidadId: ObjectId,
    nombre: string,
    descripcion: string,
    videoUrl: string,
    adjuntosUrl: Option<seq<string>>,
    comentarios: Option<seq<ObjectId>>,
    meGusta: int,
    noMeGusta: int)

  /** A comment on a class; its id is a generated UUID string. */
  datatype Comentario = Comentario(
    id: string,
    claseId: string,
    autor: string,
    password: string,
    fecha: Time,
    titulo: string,
    detalle: string,
    meGusta: int,
    noMeGusta: int)

  /** A nil slice is replaced by an empty one; any other is kept. */
  function NonNil<T>(s: Option<seq<T>>): seq<T> {
    match s
    case None => []
    case Some(xs) => xs
  }
}
