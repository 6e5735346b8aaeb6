/** The check-then-create step that both migrations repeat for every item
    they read: a candidate node whose key is already present is skipped, a
    candidate that could not be built from its source item (`None`) is
    skipped, and any other is added. A label's nodes are a map from natural
    key to node, so a whole pass is a left fold of this step. */
module CreateIfAbsent {
  import opened Common

  function Step<K, V>(g: map<K, V>, c: Option<(K, V)>): (r: map<K, V>)
    ensures r.Keys == g.Keys + (if c.Some? then {c.value.0} else {})
    ensures forall k :: k in g ==> r[k] == g[k]
  {
    match c
    case None => g
    case Some((k, v)) => if k in g then g else g[k := v]
  }

  /** The candidates fed through Step in order. */
  function Run<K, V>(g: map<K, V>, cs: seq<Option<(K, V)>>): map<K, V>
    decreases |cs|
  {
    if cs == [] then g else Step(Run(g, cs[..|cs| - 1]), cs[|cs| - 1])
  }

  lemma RunSnoc<K, V>(g: map<K, V>, cs: seq<Option<(K, V)>>, c: Option<(K, V)>)
    ensures Run(g, cs + [c]) == Step(Run(g, cs), c)
  {
    assert (cs + [c])[..|cs|] == cs;
  }

  /** The keys of the candidates that could be built. */
  function KeysOf<K, V>(cs: seq<Option<(K, V)>>): set<K> {
    set i | 0 <= i < |cs| && cs[i].Some? :: cs[i].value.0
  }

  lemma KeysOfSnoc<K, V>(cs: seq<Option<(K, V)>>, c: Option<(K, V)>)
    ensures KeysOf(cs + [c]) == KeysOf(cs) + (if c.Some? then {c.value.0} else {})
  {
    var s := cs + [c];
    forall k | k in KeysOf(s)
      ensures k in KeysOf(cs) + (if c.Some? then {c.value.0} else {})
    {
      var i :| 0 <= i < |s| && s[i].Some? && s[i].value.0 == k;
      if i < |cs| {
        assert cs[i] == s[i];
      }
    }
    forall k | k in KeysOf(cs)
      ensures k in KeysOf(s)
    {
      var i :| 0 <= i < |cs| && cs[i].Some? && cs[i].value.0 == k;
      assert s[i] == cs[i];
    }
    if c.Some? {
      assert s[|cs|] == c;
    }
  }

  /** Candidates drawn from among those of another pass bring no new key. */
  lemma KeysOfCovered<K, V>(cs1: seq<Option<(K, V)>>, cs2: seq<Option<(K, V)>>)
    requires forall i :: 0 <= i < |cs2| ==> cs2[i] in cs1
    ensures KeysOf(cs2) <= KeysOf(cs1)
  {
    forall k | k in KeysOf(cs2)
      ensures k in KeysOf(cs1)
    {
      var i :| 0 <= i < |cs2| && cs2[i].Some? && cs2[i].value.0 == k;
      var j :| 0 <= j < |cs1| && cs1[j] == cs2[i];
    }
  }

  /** A pass adds exactly the keys of the candidates it could build. */
  lemma {:induction false} RunKeys<K, V>(g: map<K, V>, cs: seq<Option<(K, V)>>)
    ensures Run(g, cs).Keys == g.Keys + KeysOf(cs)
    decreases |cs|
  {
    if cs != [] {
      var init := cs[..|cs| - 1];
      RunKeys(g, init);
      assert cs == init + [cs[|cs| - 1]];
      KeysOfSnoc(init, cs[|cs| - 1]);
    }
  }

  /** A pass never alters a node that was already there. */
  lemma {:induction false} RunPreservesExisting<K, V>(g: map<K, V>, cs: seq<Option<(K, V)>>)
    ensures forall k :: k in g ==> k in Run(g, cs) && Run(g, cs)[k] == g[k]
    decreases |cs|
  {
    if cs != [] {
      RunPreservesExisting(g, cs[..|cs| - 1]);
    }
  }

  /** A pass whose every candidate key is already present changes nothing. */
  lemma {:induction false} RunNoop<K, V>(g: map<K, V>, cs: seq<Option<(K, V)>>)
    requires KeysOf(cs) <= g.Keys
    ensures Run(g, cs) == g
    decreases |cs|
  {
    if cs != [] {
      var init := cs[..|cs| - 1];
      assert cs == init + [cs[|cs| - 1]];
      KeysOfSnoc(init, cs[|cs| - 1]);
      RunNoop(g, init);
    }
  }

  /** Idempotence: a second pass over candidates whose keys the first pass
      already covered leaves the nodes exactly as the first pass did. */
  lemma RunIdempotent<K, V>(g: map<K, V>, cs1: seq<Option<(K, V)>>, cs2: seq<Option<(K, V)>>)
    requires KeysOf(cs2) <= g.Keys + KeysOf(cs1)
    ensures Run(Run(g, cs1), cs2) == Run(g, cs1)
  {
    RunKeys(g, cs1);
    RunNoop(Run(g, cs1), cs2);
  }

  /** When every node sits under its own key before the pass and every
      candidate is keyed by its node's key, the same holds afterwards. */
  lemma {:induction false} RunKeyed<K, V>(g: map<K, V>, cs: seq<Option<(K, V)>>, key: V -> K)
    requires forall k :: k in g ==> key(g[k]) == k
    requires forall i :: 0 <= i < |cs| && cs[i].Some? ==> key(cs[i].value.1) == cs[i].value.0
    ensures forall k :: k in Run(g, cs) ==> key(Run(g, cs)[k]) == k
    decreases |cs|
  {
    if cs != [] {
      var init := cs[..|cs| - 1];
      assert forall i :: 0 <= i < |init| ==> init[i] == cs[i];
      RunKeyed(g, init, key);
    }
  }
}
