/** Comments on courses (ComentarioCurso_service.go): a REALIZO_COMENTARIO
    edge from a `Usuario` node to a `Curso` node carrying the text, and the
    listing of one user's comments with the commented course's name. */
module ComentarioCursoService {
  import opened Common
  import opened Strings
  import opened Graph

  const MinLength := 15
  const TooShort := Msg("el comentario debe tener al menos 15 caracteres")

  /** The edges after one CrearComentarioCurso: a text of fewer than 15
      bytes is refused; otherwise the MATCH of both end nodes creates one
      edge when both exist, and nothing (and no error) when either is
      missing. */
  function Commented(usuarios: map<string, UsuarioNode>, cursos: map<string, CursoNode>,
                     edges: seq<CourseComment>, email: string, cursoID: string, texto: string)
    : (r: Result<seq<CourseComment>>)
    ensures r.Err? <==> Utf8Len(texto) < MinLength
    ensures r.Err? ==> r.error == TooShort
    ensures r.Ok? && email in usuarios && cursoID in cursos ==>
              |r.value| == |edges| + 1 && r.value[..|edges|] == edges
              && r.value[|edges|] == CourseComment(email, cursoID, texto)
    ensures r.Ok? && (email !in usuarios || cursoID !in cursos) ==> r.value == edges
  {
    if Utf8Len(texto) < MinLength then Err(TooShort)
    else if email in usuarios && cursoID in cursos then Ok(edges + [CourseComment(email, cursoID, texto)])
    else Ok(edges)
  }

  /** CrearComentarioCurso. */
  method CrearComentarioCurso(graph: Neo4j, email: string, cursoID: string, texto: string)
    returns (err: Option<Error>)
    requires graph.Valid()
    modifies graph
    ensures graph.Valid()
    ensures var s := Commented(old(graph.usuarios), old(graph.cursos), old(graph.courseComments), email, cursoID, texto);
            if s.Ok? then err == None && graph.courseComments == s.value
            else err == Some(s.error) && graph.courseComments == old(graph.courseComments)
    ensures graph.users == old(graph.users) && graph.usuarios == old(graph.usuarios) && graph.courses == old(graph.courses)
    ensures graph.cursos == old(graph.cursos) && graph.clases == old(graph.clases)
    ensures graph.ratings == old(graph.ratings) && graph.chains == old(graph.chains)
  {
    if Utf8Len(texto) < MinLength {
      return Some(TooShort);
    }
    if email in graph.usuarios && cursoID in graph.cursos {
      graph.courseComments := graph.courseComments + [CourseComment(email, cursoID, texto)];
    }
    err := None;
  }

  /** One listed row: the commented course's name and the text. */
  datatype CursoComentario = CursoComentario(curso: string, comentario: string)

  /** The edges leaving the user's node, in creation order. */
  function EdgesOf(edges: seq<CourseComment>, email: string): (r: seq<CourseComment>)
    ensures forall c :: c in r <==> c in edges && c.email == email
    ensures |r| <= |edges|
    decreases |edges|
  {
    if edges == [] then []
    else
      var init := edges[..|edges| - 1];
      var last := edges[|edges| - 1];
      assert forall c :: c in edges <==> c in init || c == last by {
        assert edges == init + [last];
      }
      EdgesOf(init, email) + (if last.email == email then [last] else [])
  }

  /** RETURN c.nombre AS curso, r.texto AS comentario. */
  function RowOf(cursos: map<string, CursoNode>, c: CourseComment): (r: CursoComentario)
    requires c.cursoId in cursos
    ensures r.curso == cursos[c.cursoId].nombre && r.comentario == c.texto
  {
    CursoComentario(cursos[c.cursoId].nombre, c.texto)
  }

  /** ObtenerComentariosCursoPorUsuario: one row per edge from the user, in
      creation order (the query leaves the order open). */
  method ObtenerComentariosCursoPorUsuario(graph: Neo4j, email: string) returns (rows: seq<CursoComentario>)
    requires graph.Valid()
    ensures |rows| == |EdgesOf(graph.courseComments, email)|
    ensures forall i :: 0 <= i < |rows| ==>
              var e := EdgesOf(graph.courseComments, email)[i];
              e.cursoId in graph.cursos && rows[i] == RowOf(graph.cursos, e)
  {
    var edges := EdgesOf(graph.courseComments, email);
    assert forall c :: c in edges ==> c.cursoId in graph.cursos;
    rows := [];
    var i := 0;
    while i < |edges|
      invariant 0 <= i <= |edges|
      invariant |rows| == i
      invariant forall k :: 0 <= k < i ==> edges[k].cursoId in graph.cursos && rows[k] == RowOf(graph.cursos, edges[k])
    {
      assert edges[i] in edges;
      rows := rows + [RowOf(graph.cursos, edges[i])];
      i := i + 1;
    }
  }

  /** A new edge from the user adds exactly one row at the end of that
      user's listing, and none to anyone else's. */
  lemma CommentListed(usuarios: map<string, UsuarioNode>, cursos: map<string, CursoNode>,
                      edges: seq<CourseComment>, email: string, cursoID: string, texto: string)
    requires Commented(usuarios, cursos, edges, email, cursoID, texto).Ok?
    requires email in usuarios && cursoID in cursos
    ensures var after := Commented(usuarios, cursos, edges, email, cursoID, texto).value;
            && EdgesOf(after, email) == EdgesOf(edges, email) + [CourseComment(email, cursoID, texto)]
            && forall other :: other != email ==> EdgesOf(after, other) == EdgesOf(edges, other)
  {
    var after := edges + [CourseComment(email, cursoID, texto)];
    assert after[..|after| - 1] == edges;
  }

  /** No deduplication: the same comment made twice is listed twice. */
  lemma RepeatedCommentListedTwice(usuarios: map<string, UsuarioNode>, cursos: map<string, CursoNode>,
                                   edges: seq<CourseComment>, email: string, cursoID: string, texto: string)
    requires Utf8Len(texto) >= MinLength
    requires email in usuarios && cursoID in cursos
    ensures var once := Commented(usuarios, cursos, edges, email, cursoID, texto).value;
            var twice := Commented(usuarios, cursos, once, email, cursoID, texto).value;
            && twice == edges + [CourseComment(email, cursoID, texto), CourseComment(email, cursoID, texto)]
            && |EdgesOf(twice, email)| == |EdgesOf(edges, email)| + 2
  {
    var e := CourseComment(email, cursoID, texto);
    CommentListed(usuarios, cursos, edges, email, cursoID, texto);
    CommentListed(usuarios, cursos, edges + [e], email, cursoID, texto);
    assert edges + [e] + [e] == edges + [e, e];
  }

  /** The minimum counts bytes, not characters: eight characters, seven of
      them two bytes wide, make fifteen bytes and are accepted. */
  lemma WideCharactersCountTwice(usuarios: map<string, UsuarioNode>, cursos: map<string, CursoNode>,
                                 edges: seq<CourseComment>, email: string, cursoID: string)
    ensures var texto := "ñññññññn";
            |texto| == 8 && Commented(usuarios, cursos, edges, email, cursoID, texto).Ok?
  {
    var s0 := "n";
    assert Utf8Len(s0) == 1 by { assert s0[1..] == []; }
    var s1 := ['ñ'] + s0;
    assert Utf8Len(s1) == 3 by { assert s1[1..] == s0; }
    var s2 := ['ñ'] + s1;
    assert Utf8Len(s2) == 5 by { assert s2[1..] == s1; }
    var s3 := ['ñ'] + s2;
    assert Utf8Len(s3) == 7 by { assert s3[1..] == s2; }
    var s4 := ['ñ'] + s3;
    assert Utf8Len(s4) == 9 by { assert s4[1..] == s3; }
    var s5 := ['ñ'] + s4;
    assert Utf8Len(s5) == 11 by { assert s5[1..] == s4; }
    var s6 := ['ñ'] + s5;
    assert Utf8Len(s6) == 13 by { assert s6[1..] == s5; }
    var s7 := ['ñ'] + s6;
    assert Utf8Len(s7) == 15 by { assert s7[1..] == s6; }
    assert s7 == "ñññññññn";
  }
}
