/** The definitions collector: a file-keyed multi-valued index of the
    function, global-variable and record definitions seen during traversal.

    The index (`DefinitionsData::defs`, an unordered multimap from file UID to
    declaration) is a multiset of pairs. Ending the process with `exit(-1)` is
    the `Exit(-1)` outcome: no index comes out of it. */
module Definitions {
  import opened Base
  import opened Clang

  /** `DefinitionsData`: every definition seen, keyed by the UID of its file. */
  datatype DefinitionsData = DefinitionsData(defs: multiset<(FileUID, Decl)>)

  /** How an accumulation step ends: the process goes on with state `state`,
      or it ended with `exit(status)`. */
  datatype Outcome<S> = Continue(state: S) | Exit(status: int)

  /** Identity consistency: every entry is keyed by the file its declaration
      resolves to. */
  predicate IdentityConsistent(data: DefinitionsData, sm: SourceManager, ast: Ast)
  {
    forall p | p in data.defs :: ResolvesTo(sm, ast, p.1, p.0)
  }

  /** `DefinitionsDataAppender::run`. No `"def"` node: nothing happens. The
      node's location does not resolve to a valid file entry: the process
      exits with -1. Otherwise exactly one pair is added, keyed by the UID of
      the file the node resolves to; nothing already there is removed. */
  function Run(data: DefinitionsData, ast: Ast, r: MatchResult): (out: Outcome<DefinitionsData>)
    ensures GetNodeAs(r, "def").None? ==> out == Continue(data)
    ensures out.Exit? <==>
              GetNodeAs(r, "def").Some? && !Resolvable(r.sourceManager, ast, r.nodes["def"])
    ensures out.Exit? ==> out.status == -1
    ensures out.Continue? ==> data.defs <= out.state.defs
    ensures out.Continue? && GetNodeAs(r, "def").Some? ==>
              && |out.state.defs| == |data.defs| + 1
              && forall p | p in out.state.defs - data.defs ::
                   p.1 == r.nodes["def"] && ResolvesTo(r.sourceManager, ast, p.1, p.0)
  {
    match GetNodeAs(r, "def")
    case None => Continue(data)
    case Some(e) =>
      var entry := FileEntryOf(r.sourceManager, ast, e);
      if !(entry.Some? && entry.value.valid) then Exit(-1)
      else
        var fuid := entry.value.uid;
        Continue(DefinitionsData(data.defs + multiset{(fuid, e)}))
  }

  /** One accumulation step keeps identity consistency. */
  lemma RunKeepsConsistent(data: DefinitionsData, ast: Ast, r: MatchResult)
    requires IdentityConsistent(data, r.sourceManager, ast)
    ensures Run(data, ast, r).Continue? ==>
              IdentityConsistent(Run(data, ast, r).state, r.sourceManager, ast)
  {
  }


  /** Number of match results that bind a `"def"` node. */
  function BoundDefs(results: seq<MatchResult>): nat
  {
    if |results| == 0 then 0
    else (if GetNodeAs(results[0], "def").Some? then 1 else 0) + BoundDefs(results[1..])
  }

  /** The callback invoked on a sequence of match results, in order, stopping
      at the first exit. Append-only: on success the result holds every
      earlier entry plus one per result that bound a `"def"` node. */
  function Collect(data: DefinitionsData, ast: Ast, results: seq<MatchResult>)
    : (out: Outcome<DefinitionsData>)
    ensures out.Exit? ==> out.status == -1
    ensures out.Continue? ==> data.defs <= out.state.defs
    ensures out.Continue? ==> |out.state.defs| == |data.defs| + BoundDefs(results)
    decreases |results|
  {
    if |results| == 0 then Continue(data)
    else match Run(data, ast, results[0])
      case Exit(status) => Exit(status)
      case Continue(next) => Collect(next, ast, results[1..])
  }

  /** Every results run under one source manager keeps identity consistency. */
  lemma {:induction false} CollectKeepsConsistent(
    data: DefinitionsData, ast: Ast, sm: SourceManager, results: seq<MatchResult>)
    requires IdentityConsistent(data, sm, ast)
    requires forall i :: 0 <= i < |results| ==> results[i].sourceManager == sm
    ensures Collect(data, ast, results).Continue? ==>
              IdentityConsistent(Collect(data, ast, results).state, sm, ast)
    decreases |results|
  {
    if |results| > 0 {
      RunKeepsConsistent(data, ast, results[0]);
      var step := Run(data, ast, results[0]);
      if step.Continue? {
        CollectKeepsConsistent(step.state, ast, sm, results[1..]);
      }
    }
  }

  /** Collecting over two batches is collecting over the first and then,
      if the process is still running, over the second. */
  lemma {:induction false} CollectAppend(
    data: DefinitionsData, ast: Ast, a: seq<MatchResult>, b: seq<MatchResult>)
    ensures Collect(data, ast, a + b) ==
              match Collect(data, ast, a)
              case Exit(status) => Exit(status)
              case Continue(mid) => Collect(mid, ast, b)
    decreases |a|
  {
    if |a| == 0 {
      assert a + b == b;
    } else {
      assert (a + b)[1..] == a[1..] + b;
      var step := Run(data, ast, a[0]);
      if step.Continue? {
        CollectAppend(step.state, ast, a[1..], b);
      }
    }
  }

  /** The index is a multimap: two declarations resolving to the same file
      are both kept under that file's key, next to everything already there. */
  lemma SameFileKeepsBoth(data: DefinitionsData, ast: Ast, r1: MatchResult, r2: MatchResult, uid: FileUID)
    requires "def" in r1.nodes && "def" in r2.nodes
    requires ResolvesTo(r1.sourceManager, ast, r1.nodes["def"], uid)
    requires ResolvesTo(r2.sourceManager, ast, r2.nodes["def"], uid)
    ensures Collect(data, ast, [r1, r2]).Continue?
    ensures Collect(data, ast, [r1, r2]).state.defs
              == data.defs + multiset{(uid, r1.nodes["def"]), (uid, r2.nodes["def"])}
  {
    var e1, e2 := r1.nodes["def"], r2.nodes["def"];
    var mid := DefinitionsData(data.defs + multiset{(uid, e1)});
    assert Run(data, ast, r1) == Continue(mid);
    assert Run(mid, ast, r2) == Continue(DefinitionsData(mid.defs + multiset{(uid, e2)}));
    var last := DefinitionsData(mid.defs + multiset{(uid, e2)});
    assert [r2][1..] == [];
    assert Collect(last, ast, []) == Continue(last);
    assert Collect(mid, ast, [r2]) == Continue(last);
    assert [r1, r2][1..] == [r2];
    assert Collect(data, ast, [r1, r2]) == Continue(last);
  }

  // ---------------------------------------------------------------------------
  // Matcher registration

  /** The three declaration matchers `DefinitionsImpl` holds. */
  datatype DeclarationMatcher = FuncDefMatcher | VarDefMatcher | ClassDefMatcher

  /** What each matcher accepts: `functionDecl(isDefinition())`,
      `varDecl(allOf(isDefinition(), hasGlobalStorage()))`,
      `recordDecl(isDefinition())`. */
  predicate Matches(ast: Ast, m: DeclarationMatcher, d: Decl)
  {
    match m
    case FuncDefMatcher => ast.kind(d) == FunctionKind && ast.isDefinition(d)
    case VarDefMatcher => ast.kind(d) == VarKind && ast.isDefinition(d) && ast.hasGlobalStorage(d)
    case ClassDefMatcher => ast.kind(d) == RecordKind && ast.isDefinition(d)
  }

  /** The one `DefinitionsDataAppender` all three matchers report to. */
  datatype Callback = DefinitionsDataAppender

  /** `f->addMatcher(matcher.bind(name), &callback)`. */
  datatype Registration = Registration(matcher: DeclarationMatcher, bindsAs: string, callback: Callback)

  /** The registrations the `DefinitionsImpl` constructor adds, in order. */
  const Registrations: seq<Registration> := [
    Registration(FuncDefMatcher, "def", DefinitionsDataAppender),
    Registration(VarDefMatcher, "def", DefinitionsDataAppender),
    Registration(ClassDefMatcher, "def", DefinitionsDataAppender)
  ]

  /** Which declarations the collector is meant to record: function
      definitions, definitions of variables with global storage, and record
      definitions. */
  predicate Recorded(ast: Ast, d: Decl)
  {
    ast.isDefinition(d) &&
    (ast.kind(d) == FunctionKind || (ast.kind(d) == VarKind && ast.hasGlobalStorage(d)) || ast.kind(d) == RecordKind)
  }

  /** The traversal engine's reaction to one declaration node: one match
      result per registration (in registration order) whose matcher accepts
      it, with the node bound under the registration's name. */
  function MatchNode(finder: seq<Registration>, ast: Ast, sm: SourceManager, d: Decl): (rs: seq<MatchResult>)
    ensures forall i :: 0 <= i < |rs| ==> rs[i].sourceManager == sm
    decreases |finder|
  {
    if |finder| == 0 then []
    else
      (if Matches(ast, finder[0].matcher, d) then [MatchResult(map[finder[0].bindsAs := d], sm)] else [])
      + MatchNode(finder[1..], ast, sm, d)
  }

  /** The traversal engine over a sequence of declaration nodes. */
  function MatchAll(finder: seq<Registration>, ast: Ast, sm: SourceManager, decls: seq<Decl>)
    : (rs: seq<MatchResult>)
    ensures forall i :: 0 <= i < |rs| ==> rs[i].sourceManager == sm
    decreases |decls|
  {
    if |decls| == 0 then []
    else MatchNode(finder, ast, sm, decls[0]) + MatchAll(finder, ast, sm, decls[1..])
  }

  /** The three registrations together fire exactly once, binding `"def"`, on
      a recorded declaration and not at all on any other. */
  lemma RegistrationsMatchRecorded(ast: Ast, sm: SourceManager, d: Decl)
    ensures Recorded(ast, d) ==> MatchNode(Registrations, ast, sm, d) == [MatchResult(map["def" := d], sm)]
    ensures !Recorded(ast, d) ==> MatchNode(Registrations, ast, sm, d) == []
  {
  }

  /** The index entries a traversal of `decls` should produce: one per
      recorded declaration, keyed by its file. */
  function Expected(ast: Ast, sm: SourceManager, decls: seq<Decl>): multiset<(FileUID, Decl)>
    requires forall d | d in decls && Recorded(ast, d) :: Resolvable(sm, ast, d)
    decreases |decls|
  {
    if |decls| == 0 then multiset{}
    else
      var d := decls[0];
      assert d in decls;
      (if Recorded(ast, d) then
         assert Resolvable(sm, ast, d);
         multiset{(FileEntryOf(sm, ast, d).value.uid, d)}
       else multiset{})
      + Expected(ast, sm, decls[1..])
  }

  /** Completeness under the pattern union: running the collector over a
      traversal of `decls` exits exactly when some recorded declaration does
      not resolve to a valid file; otherwise it adds exactly one entry per
      recorded declaration, keyed by that declaration's file, whatever the
      order of the declarations. */
  lemma {:induction false} CollectTraversal(
    data: DefinitionsData, ast: Ast, sm: SourceManager, decls: seq<Decl>)
    ensures var out := Collect(data, ast, MatchAll(Registrations, ast, sm, decls));
            && (out.Exit? <==> exists d | d in decls :: Recorded(ast, d) && !Resolvable(sm, ast, d))
            && (out.Continue? ==>
                  && (forall d | d in decls && Recorded(ast, d) :: Resolvable(sm, ast, d))
                  && out.state.defs == data.defs + Expected(ast, sm, decls))
    decreases |decls|
  {
    if |decls| > 0 {
      var d := decls[0];
      var head := MatchNode(Registrations, ast, sm, d);
      var tail := MatchAll(Registrations, ast, sm, decls[1..]);
      CollectAppend(data, ast, head, tail);
      CollectNode(data, ast, sm, d);
      var mid := Collect(data, ast, head);
      if mid.Continue? {
        CollectTraversal(mid.state, ast, sm, decls[1..]);
      }
    }
  }

  /** The results the three registrations produce for one node: the collector
      exits exactly when the node is recorded but unresolvable, and otherwise
      adds the node's entry if it is recorded and nothing if it is not. */
  lemma CollectNode(data: DefinitionsData, ast: Ast, sm: SourceManager, d: Decl)
    ensures var mid := Collect(data, ast, MatchNode(Registrations, ast, sm, d));
            && (mid.Exit? <==> Recorded(ast, d) && !Resolvable(sm, ast, d))
            && (mid.Continue? ==>
                  mid.state.defs == data.defs +
                    if Recorded(ast, d) then multiset{(FileEntryOf(sm, ast, d).value.uid, d)}
                    else multiset{})
  {
  }

  // ---------------------------------------------------------------------------
  // DefinitionsImpl and the Definitions pimpl

  /** `DefinitionsImpl`: owns the data; its appender writes into that data. */
  datatype DefinitionsImpl = DefinitionsImpl(data: DefinitionsData)

  /** `Definitions`: forwards everything to its impl. */
  datatype Definitions = Definitions(impl: DefinitionsImpl)

  /** The `Definitions` constructor: the data starts empty, and the three
      matchers are added to the finder, after whatever was there, all bound
      to the one appender under the name `"def"`. */
  function NewDefinitions(finder: seq<Registration>): (res: (Definitions, seq<Registration>))
    ensures GetData(res.0).defs == multiset{}
    ensures |res.1| == |finder| + 3 && res.1[..|finder|] == finder
    ensures forall i :: |finder| <= i < |res.1| ==>
              res.1[i].bindsAs == "def" && res.1[i].callback == DefinitionsDataAppender
    ensures var n := |finder|;
            {res.1[n].matcher, res.1[n + 1].matcher, res.1[n + 2].matcher}
              == {FuncDefMatcher, VarDefMatcher, ClassDefMatcher}
  {
    var added := finder + Registrations;
    assert added[|finder|].matcher == FuncDefMatcher;
    assert added[|finder| + 1].matcher == VarDefMatcher;
    assert added[|finder| + 2].matcher == ClassDefMatcher;
    (Definitions(DefinitionsImpl(DefinitionsData(multiset{}))), added)
  }

  /** `Definitions::getData`, forwarding to `DefinitionsImpl::getData`. */
  function GetData(d: Definitions): DefinitionsData
  {
    d.impl.data
  }

  /** A match result delivered to the collector's appender, which writes into
      the impl's data. */
  function OnMatch(d: Definitions, ast: Ast, r: MatchResult): Outcome<Definitions>
  {
    match Run(d.impl.data, ast, r)
    case Exit(status) => Exit(status)
    case Continue(data) => Continue(Definitions(DefinitionsImpl(data)))
  }

  /** A sequence of match results delivered to the collector. */
  function Feed(d: Definitions, ast: Ast, results: seq<MatchResult>): Outcome<Definitions>
    decreases |results|
  {
    if |results| == 0 then Continue(d)
    else match OnMatch(d, ast, results[0])
      case Exit(status) => Exit(status)
      case Continue(next) => Feed(next, ast, results[1..])
  }

  /** `getData` through the pimpl sees exactly what the appender accumulated:
      feeding results to a fresh collector and reading its data is collecting
      them into an empty index. */
  lemma {:induction false} FeedThenGetData(d: Definitions, ast: Ast, results: seq<MatchResult>)
    ensures Feed(d, ast, results).Exit? <==> Collect(GetData(d), ast, results).Exit?
    ensures Feed(d, ast, results).Continue? ==>
              GetData(Feed(d, ast, results).state) == Collect(GetData(d), ast, results).state
    decreases |results|
  {
    if |results| > 0 {
      var step := OnMatch(d, ast, results[0]);
      if step.Continue? {
        FeedThenGetData(step.state, ast, results[1..]);
      }
    }
  }
}
