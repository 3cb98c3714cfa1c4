/** `ReferencesData`: the reference graph, kept as two multimaps that are
    meant to be inverses of each other.

    - `refs` maps a reference declaration up to its context (a multimap: one
      reference may occur in several contexts, or several times in one);
    - `deps` maps a context to the references it contains.

    Each multimap is a multiset of (key, value) pairs. The collector code that
    inserts edges is not part of this model; `AddReference` is the mirrored
    insert the "inverse of refs" comment requires of it. */
module References {
  import opened Clang

  datatype ReferencesData = ReferencesData(
    refs: multiset<(Decl, Decl)>,
    deps: multiset<(Decl, Decl)>)

  /** `deps` is the inverse of `refs`: the edge (a, b) occurs in `refs`
      exactly as often as (b, a) occurs in `deps`. */
  ghost predicate Inverse(g: ReferencesData)
  {
    forall a: Decl, b: Decl :: g.refs[(a, b)] == g.deps[(b, a)]
  }

  /** A default-constructed `ReferencesData`: both maps empty. */
  function Empty(): (g: ReferencesData)
    ensures |g.refs| == 0 && |g.deps| == 0
    ensures Inverse(g)
  {
    ReferencesData(multiset{}, multiset{})
  }

  /** Record that `reference` occurs in `context`, in both directions at once. */
  function AddReference(g: ReferencesData, reference: Decl, context: Decl): (r: ReferencesData)
    ensures r.refs[(reference, context)] == g.refs[(reference, context)] + 1
    ensures r.deps[(context, reference)] == g.deps[(context, reference)] + 1
    ensures forall a: Decl, b: Decl :: (a, b) != (reference, context) ==> r.refs[(a, b)] == g.refs[(a, b)]
    ensures forall a: Decl, b: Decl :: (a, b) != (context, reference) ==> r.deps[(a, b)] == g.deps[(a, b)]
    ensures Inverse(g) ==> Inverse(r)
  {
    ReferencesData(g.refs + multiset{(reference, context)}, g.deps + multiset{(context, reference)})
  }

  /** The two multimaps of an inverse pair have the same size. */
  lemma {:induction false} InverseSameSize(g: ReferencesData)
    requires Inverse(g)
    ensures |g.refs| == |g.deps|
    decreases |g.refs|
  {
    if |g.refs| == 0 {
      forall q: (Decl, Decl)
        ensures g.deps[q] == 0
      {
        assert g.refs[(q.1, q.0)] == g.deps[q];
      }
      assert g.deps == multiset{};
    } else {
      var p :| p in g.refs;
      var flipped := (p.1, p.0);
      assert g.deps[flipped] == g.refs[p];
      var smaller := ReferencesData(g.refs - multiset{p}, g.deps - multiset{flipped});
      forall a: Decl, b: Decl
        ensures smaller.refs[(a, b)] == smaller.deps[(b, a)]
      {
        assert g.refs[(a, b)] == g.deps[(b, a)];
      }
      InverseSameSize(smaller);
    }
  }

  /** Writing an edge into only one direction breaks the inverse relation. */
  lemma OneSidedInsertBreaksInverse(g: ReferencesData, reference: Decl, context: Decl)
    requires Inverse(g)
    ensures !Inverse(g.(refs := g.refs + multiset{(reference, context)}))
    ensures !Inverse(g.(deps := g.deps + multiset{(context, reference)}))
  {
  }

  /** The contexts a reference occurs in (`refs.equal_range(reference)`). */
  function ContextsOf(g: ReferencesData, reference: Decl): set<Decl>
  {
    set p | p in g.refs && p.0 == reference :: p.1
  }

  /** The references a context contains (`deps.equal_range(context)`). */
  function ReferencesIn(g: ReferencesData, context: Decl): set<Decl>
  {
    set p | p in g.deps && p.0 == context :: p.1
  }

  /** Lookups in the two directions agree: `b` is a context of `a` exactly
      when `a` is among the references in `b`. */
  lemma LookupsAgree(g: ReferencesData, a: Decl, b: Decl)
    requires Inverse(g)
    ensures b in ContextsOf(g, a) <==> a in ReferencesIn(g, b)
  {
  }

  /** A mirrored insert of "`reference` occurs in `context`" adds `context` to
      the contexts of `reference`; the contexts of every other declaration
      are unchanged. */
  lemma AddReferenceContexts(g: ReferencesData, reference: Decl, context: Decl, other: Decl)
    ensures ContextsOf(AddReference(g, reference, context), reference) == ContextsOf(g, reference) + {context}
    ensures other != reference ==>
              ContextsOf(AddReference(g, reference, context), other) == ContextsOf(g, other)
  {
  }

  /** The mirror image: the insert adds `reference` to the references in
      `context`; the references in every other declaration are unchanged. */
  lemma AddReferenceReferencesIn(g: ReferencesData, reference: Decl, context: Decl, other: Decl)
    ensures ReferencesIn(AddReference(g, reference, context), context) == ReferencesIn(g, context) + {reference}
    ensures other != context ==>
              ReferencesIn(AddReference(g, reference, context), other) == ReferencesIn(g, other)
  {
  }

  /** The graph built by inserting a sequence of (reference, context) edges
      from empty. */
  function Build(edges: seq<(Decl, Decl)>): ReferencesData
    decreases |edges|
  {
    if |edges| == 0 then Empty()
    else
      var last := edges[|edges| - 1];
      AddReference(Build(edges[..|edges| - 1]), last.0, last.1)
  }

  /** Whatever edges are inserted, the two maps stay inverse, `refs` holds
      exactly the edges inserted and `deps` exactly their mirror images. */
  lemma {:induction false} BuildInverse(edges: seq<(Decl, Decl)>)
    ensures Inverse(Build(edges))
    ensures Build(edges).refs == multiset(edges)
    ensures |Build(edges).deps| == |edges|
    decreases |edges|
  {
    if |edges| > 0 {
      var init := edges[..|edges| - 1];
      BuildInverse(init);
      BuildLastInverse(edges);
      BuildLastRefs(edges);
      InverseSameSize(Build(edges));
    }
  }

  /** A non-empty sequence is its prefix followed by its last element. */
  lemma SplitLast<X>(s: seq<X>)
    requires |s| > 0
    ensures s == s[..|s| - 1] + [s[|s| - 1]]
  {
  }

  /** The last insert of a non-empty build keeps the inverse relation. */
  lemma BuildLastInverse(edges: seq<(Decl, Decl)>)
    requires |edges| > 0
    requires Inverse(Build(edges[..|edges| - 1]))
    ensures Inverse(Build(edges))
  {
  }

  /** The last insert of a non-empty build adds the last edge to `refs`. */
  lemma BuildLastRefs(edges: seq<(Decl, Decl)>)
    requires |edges| > 0
    requires Build(edges[..|edges| - 1]).refs == multiset(edges[..|edges| - 1])
    ensures Build(edges).refs == multiset(edges)
  {
    SplitLast(edges);
  }
}
