/** Comments on classes (Comentario_service.go). A comment is stored as the
    chain (User)-[:COMENTÓ]->(Comment)-[:PERTENECE_A]->(Course)-[:CONTENEDOR_DE]->(Clase),
    and a class's comments are listed newest first. */
module ComentarioService {
  import opened Common
  import opened Models
  import opened Graph

  const ClassMissing := Msg("clase no encontrada")

  // ---------------------------------------------------------------------
  // The listing query: the comments chained to a class, by date descending
  // ---------------------------------------------------------------------

  /** The comments whose chain ends at class `claseID`, in creation order. */
  function Matching(chains: seq<CommentChain>, claseID: string): (r: seq<CommentNode>)
    ensures forall c :: c in r <==> exists i :: 0 <= i < |chains| && chains[i].claseId == claseID && chains[i].comment == c
    ensures |r| <= |chains|
    decreases |chains|
  {
    if chains == [] then []
    else
      var init := chains[..|chains| - 1];
      var last := chains[|chains| - 1];
      assert forall i :: 0 <= i < |init| ==> init[i] == chains[i];
      Matching(init, claseID) + (if last.claseId == claseID then [last.comment] else [])
  }

  /** Newest first. */
  ghost predicate SortedDesc(s: seq<CommentNode>) {
    forall i, j :: 0 <= i < j < |s| ==> s[i].fecha >= s[j].fecha
  }

  /** Places `x` ahead of the first element that is not newer than it. */
  function Insert(x: CommentNode, s: seq<CommentNode>): (r: seq<CommentNode>)
    ensures multiset(r) == multiset(s) + multiset{x}
    decreases |s|
  {
    if s == [] || x.fecha >= s[0].fecha then [x] + s
    else
      assert s == [s[0]] + s[1..];
      [s[0]] + Insert(x, s[1..])
  }

  lemma {:induction false} InsertMembers(x: CommentNode, s: seq<CommentNode>)
    ensures forall y :: y in Insert(x, s) ==> y in s || y == x
    decreases |s|
  {
    if s != [] && x.fecha < s[0].fecha {
      InsertMembers(x, s[1..]);
    }
  }

  lemma {:induction false} InsertSorted(x: CommentNode, s: seq<CommentNode>)
    requires SortedDesc(s)
    ensures SortedDesc(Insert(x, s))
    decreases |s|
  {
    if s != [] && x.fecha < s[0].fecha {
      var tail := s[1..];
      assert SortedDesc(tail) by {
        forall i, j | 0 <= i < j < |tail|
          ensures tail[i].fecha >= tail[j].fecha
        {
          assert tail[i] == s[i + 1] && tail[j] == s[j + 1];
        }
      }
      InsertSorted(x, tail);
      InsertMembers(x, tail);
      var rest := Insert(x, tail);
      assert forall y :: y in tail ==> y.fecha <= s[0].fecha;
      var r := [s[0]] + rest;
      assert r == Insert(x, s);
      forall i, j | 0 <= i < j < |r|
        ensures r[i].fecha >= r[j].fecha
      {
        if i == 0 {
          assert r[j] == rest[j - 1];
          assert rest[j - 1] in rest;
        } else {
          assert r[i] == rest[i - 1] && r[j] == rest[j - 1];
        }
      }
    }
  }

  /** ORDER BY c.fecha DESC, as an insertion sort (comments of equal date
      keep their creation order; the query leaves that order open). */
  function SortDesc(s: seq<CommentNode>): (r: seq<CommentNode>)
    ensures multiset(r) == multiset(s)
    ensures SortedDesc(r)
    decreases |s|
  {
    if s == [] then []
    else
      assert s == [s[0]] + s[1..];
      var rest := SortDesc(s[1..]);
      InsertSorted(s[0], rest);
      Insert(s[0], rest)
  }

  /** A listed row as a Comentario; the class id and password are not
      returned by the query and stay empty. */
  function ToComentario(c: CommentNode): (r: Comentario)
    ensures r.id == c.id && r.autor == c.autor && r.fecha == c.fecha && r.titulo == c.titulo
    ensures r.detalle == c.detalle && r.meGusta == c.meGusta && r.noMeGusta == c.noMeGusta
    ensures r.claseId == "" && r.password == ""
  {
    Comentario(c.id, "", c.autor, "", c.fecha, c.titulo, c.detalle, c.meGusta, c.noMeGusta)
  }

  /** A class no chain ends at has no comments listed. */
  lemma NoChainNoComments(chains: seq<CommentChain>, claseID: string)
    requires forall i :: 0 <= i < |chains| ==> chains[i].claseId != claseID
    ensures SortDesc(Matching(chains, claseID)) == []
  {
  }

  /** A new chain to the class adds its comment to the class's comments,
      and to the listing; chains to other classes change neither. */
  lemma NewChainListed(chains: seq<CommentChain>, ch: CommentChain)
    ensures Matching(chains + [ch], ch.claseId) == Matching(chains, ch.claseId) + [ch.comment]
    ensures multiset(SortDesc(Matching(chains + [ch], ch.claseId)))
            == multiset(SortDesc(Matching(chains, ch.claseId))) + multiset{ch.comment}
    ensures forall other :: other != ch.claseId ==> Matching(chains + [ch], other) == Matching(chains, other)
  {
    assert (chains + [ch])[..|chains|] == chains;
  }

  // ---------------------------------------------------------------------
  // The service operations
  // ---------------------------------------------------------------------

  /** The listing's append loop: one comment per row, in row order. */
  method ToComentarios(records: seq<CommentNode>) returns (comentarios: seq<Comentario>)
    ensures |comentarios| == |records|
    ensures forall k :: 0 <= k < |records| ==> comentarios[k] == ToComentario(records[k])
  {
    comentarios := [];
    var i := 0;
    while i < |records|
      invariant 0 <= i <= |records|
      invariant |comentarios| == i
      invariant forall k :: 0 <= k < i ==> comentarios[k] == ToComentario(records[k])
    {
      comentarios := comentarios + [ToComentario(records[i])];
      i := i + 1;
    }
  }

  /** Rows sorted newest first give comments sorted newest first. */
  lemma ToComentariosSorted(records: seq<CommentNode>, comentarios: seq<Comentario>)
    requires SortedDesc(records)
    requires |comentarios| == |records|
    requires forall k :: 0 <= k < |records| ==> comentarios[k] == ToComentario(records[k])
    ensures forall i, j :: 0 <= i < j < |comentarios| ==> comentarios[i].fecha >= comentarios[j].fecha
  {
    forall i, j | 0 <= i < j < |comentarios|
      ensures comentarios[i].fecha >= comentarios[j].fecha
    {
      assert comentarios[i] == ToComentario(records[i]) && comentarios[j] == ToComentario(records[j]);
    }
  }

  /** ObtenerComentariosPorClase: the class's comments, newest first. The
      rows the query returns are the ghost `rows`: the class's comments,
      sorted by date descending. */
  method ObtenerComentariosPorClase(graph: Neo4j, claseID: string)
    returns (comentarios: seq<Comentario>, ghost rows: seq<CommentNode>)
    ensures multiset(rows) == multiset(Matching(graph.chains, claseID))
    ensures SortedDesc(rows)
    ensures |comentarios| == |rows|
    ensures forall i :: 0 <= i < |rows| ==> comentarios[i] == ToComentario(rows[i])
    ensures forall i, j :: 0 <= i < j < |comentarios| ==> comentarios[i].fecha >= comentarios[j].fecha
  {
    var records := SortDesc(Matching(graph.chains, claseID));
    rows := records;
    comentarios := ToComentarios(records);
    ToComentariosSorted(records, comentarios);
  }

  /** CrearComentarioParaClase: when the class node exists, give the comment
      a fresh id (`freshId`, from uuid.New) and date (`now`, from
      time.Now), and create its chain from the author's User node; the
      Comment node's date is the server's own `dbNow`. With no User node
      for the author nothing is created, yet the comment is returned. */
  method CrearComentarioParaClase(graph: Neo4j, claseID: string, comentario: Comentario, freshId: string,
                                  now: Time, dbNow: Time)
    returns (r: Result<Comentario>)
    requires graph.Valid()
    modifies graph
    ensures graph.Valid()
    ensures claseID !in old(graph.clases) ==> r == Err(ClassMissing) && graph.chains == old(graph.chains)
    ensures claseID in old(graph.clases) ==>
              && r == Ok(comentario.(id := freshId, fecha := now))
              && graph.chains == old(graph.chains) +
                   (if comentario.autor in old(graph.users)
                    then [CommentChain(comentario.autor,
                            CommentNode(freshId, comentario.autor, dbNow, comentario.titulo, comentario.detalle,
                                        comentario.meGusta, comentario.noMeGusta),
                            claseID)]
                    else [])
    ensures graph.users == old(graph.users) && graph.usuarios == old(graph.usuarios) && graph.courses == old(graph.courses)
    ensures graph.cursos == old(graph.cursos) && graph.clases == old(graph.clases)
    ensures graph.ratings == old(graph.ratings) && graph.courseComments == old(graph.courseComments)
  {
    if claseID !in graph.clases {
      return Err(ClassMissing);
    }
    var c := comentario;
    c := c.(id := freshId);
    c := c.(fecha := now);
    if c.autor in graph.users {
      var node := CommentNode(c.id, c.autor, dbNow, c.titulo, c.detalle, c.meGusta, c.noMeGusta);
      graph.chains := graph.chains + [CommentChain(c.autor, node, claseID)];
    }
    r := Ok(c);
  }
}
