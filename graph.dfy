/** The relationship graph (Neo4j), reduced to what the services' Cypher
    queries observe. Nodes are held per label, keyed by their natural key
    (email or catalog id), so a label holds at most one node per key. Edges
    are sequences, so that a relationship created twice is present twice.
    The labels the services use differ between files and are kept apart:
    `User`/`Course` (ratings, class comments, the second migration) and
    `Usuario`/`Curso` (the first migration, course comments). */
module Graph {
  import opened Common

  /** (:User {email, nombre, fecha_creacion?}) */
  datatype UserNode = UserNode(email: string, nombre: string, fechaCreacion: Option<Time>)

  /** (:Usuario {email, nombre, password}) */
  datatype UsuarioNode = UsuarioNode(email: string, nombre: string, password: string)

  /** (:Course {id, nombre, descripcion}) */
  datatype CourseNode = CourseNode(id: string, nombre: string, descripcion: string)

  /** (:Curso {id, nombre}) */
  datatype CursoNode = CursoNode(id: string, nombre: string)

  /** (:User {email})-[:CALIFICÓ {valor, fecha, nombre}]->(:Course {id}) */
  datatype Rating = Rating(email: string, cursoId: string, valor: real, fecha: Time, nombre: string)

  /** (:Usuario {email})-[:REALIZO_COMENTARIO {texto}]->(:Curso {id}) */
  datatype CourseComment = CourseComment(email: string, cursoId: string, texto: string)

  /** (:Comment {id, autor, fecha, titulo, detalle, meGusta, noMeGusta}) */
  datatype CommentNode = CommentNode(
    id: string, autor: string, fecha: Time, titulo: string, detalle: string, meGusta: int, noMeGusta: int)

  /** The chain (:User {email: author})-[:COMENTÓ]->(comment)-[:PERTENECE_A]->(:Course)-[:CONTENEDOR_DE]->(:Clase {id: claseId}).
      Each chain has its own anonymous Course node, which carries no
      properties and belongs to no other chain, so it is not stored apart. */
  datatype CommentChain = CommentChain(author: string, comment: CommentNode, claseId: string)

  class Neo4j {
    var users: map<string, UserNode>
    var usuarios: map<string, UsuarioNode>
    var courses: map<string, CourseNode>
    var cursos: map<string, CursoNode>
    var clases: set<string>
    var ratings: seq<Rating>
    var courseComments: seq<CourseComment>
    var chains: seq<CommentChain>

    /** Nodes sit under their own natural key, and every edge joins nodes that
        exist (edges are only ever created by MATCHing both ends). */
    ghost predicate Valid()
      reads this
    {
      && (forall e :: e in users ==> users[e].email == e)
      && (forall e :: e in usuarios ==> usuarios[e].email == e)
      && (forall i :: i in courses ==> courses[i].id == i)
      && (forall i :: i in cursos ==> cursos[i].id == i)
      && (forall r :: r in ratings ==> r.email in users && r.cursoId in courses)
      && (forall c :: c in courseComments ==> c.email in usuarios && c.cursoId in cursos)
      && (forall c :: c in chains ==> c.author in users && c.claseId in clases && c.comment.autor == c.author)
    }

    /** CREATE (:Usuario {email, nombre, password}): the node is stored under
        its email; nothing else changes. */
    method CreateUsuario(n: UsuarioNode)
      requires Valid()
      modifies this
      ensures Valid()
      ensures usuarios == old(usuarios)[n.email := n]
      ensures users == old(users) && courses == old(courses) && cursos == old(cursos) && clases == old(clases)
      ensures ratings == old(ratings) && courseComments == old(courseComments) && chains == old(chains)
    {
      usuarios := usuarios[n.email := n];
    }

    /** CREATE (:Curso {id, nombre}): the node is stored under its id;
        nothing else changes. */
    method CreateCurso(n: CursoNode)
      requires Valid()
      modifies this
      ensures Valid()
      ensures cursos == old(cursos)[n.id := n]
      ensures users == old(users) && usuarios == old(usuarios) && courses == old(courses) && clases == old(clases)
      ensures ratings == old(ratings) && courseComments == old(courseComments) && chains == old(chains)
    {
      cursos := cursos[n.id := n];
    }

    /** CREATE (u)-[:CALIFICÓ {...}]->(c) between existing User and Course
        nodes: the edge is appended; nothing else changes. */
    method CreateRating(r: Rating)
      requires Valid()
      requires r.email in users && r.cursoId in courses
      modifies this
      ensures Valid()
      ensures ratings == old(ratings) + [r]
      ensures users == old(users) && usuarios == old(usuarios) && courses == old(courses) && cursos == old(cursos)
      ensures clases == old(clases) && courseComments == old(courseComments) && chains == old(chains)
    {
      ratings := ratings + [r];
    }

    constructor ()
      ensures Valid()
      ensures users == map[] && usuarios == map[] && courses == map[] && cursos == map[]
      ensures clases == {} && ratings == [] && courseComments == [] && chains == []
    {
      users, usuarios, courses, cursos := map[], map[], map[], map[];
      clases, ratings, courseComments, chains := {}, [], [], [];
    }
  }
}
