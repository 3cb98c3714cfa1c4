/** One compilation unit through the whole lifecycle: a `MetaTool` wrapping
    a tool built on the definitions collector, and the two-file example of a
    function `g` in one file calling a function `f` defined in another. */
module Pipeline {
  import opened Base
  import opened Clang
  import opened MetaTools
  import opened Definitions
  import opened References

  /** A wrapped tool whose state is one definitions collector, as tools hold
      their collectors as members. What its `postProcessing` writes into the
      replacements map is left abstract. */
  datatype DefinitionsTool = DefinitionsTool(definitions: Definitions)

  /** The wrapped tool's constructor: it builds the collector, which
      registers its matchers on the owned finder. */
  function MakeDefinitionsTool(ci: CompilerInstance, f: seq<Registration>): Constructed<DefinitionsTool, Registration>
  {
    Constructed(DefinitionsTool(NewDefinitions(f).0), NewDefinitions(f).1)
  }

  /** One compilation unit from construction to destruction: begin the action
      on a fresh instance, create the AST consumer, run it over `decls` (its
      callbacks fill the collector in place), end the action and destroy the
      instance. The pass exits exactly when a recorded declaration has no
      valid file. Otherwise `postProcessing` is called once, with the
      caller's map and a tool whose `getData` holds exactly one consistently
      keyed entry per recorded declaration; the one tool created is then
      deleted once. */
  lemma {:induction false} SinglePass<M>(m: M, ci: CompilerInstance, ast: Ast, decls: seq<Decl>)
    ensures var begun := BeginSourceFileAction(New<DefinitionsTool, M, Registration>(m), ci, MakeDefinitionsTool).0;
            var consumer := CreateASTConsumer(begun, ci, "");
            var results := MatchAll(consumer.matchers, ast, ci.sourceManager, decls);
            var out := Feed(begun.tool.value.definitions, ast, results);
            && consumer.matchers == Registrations
            && (out.Exit? <==> exists d | d in decls :: Recorded(ast, d) && !Resolvable(ci.sourceManager, ast, d))
            && (out.Continue? ==>
                  var ended := EndSourceFileAction(Traversed(begun, DefinitionsTool(out.state)));
                  var log := Destroy(ended);
                  && |log| == 3
                  && log[1].PostProcessed? && log[1].replacementsMap == m
                  && (forall d | d in decls && Recorded(ast, d) :: Resolvable(ci.sourceManager, ast, d))
                  && GetData(log[1].tool.definitions).defs == Expected(ast, ci.sourceManager, decls)
                  && IdentityConsistent(GetData(log[1].tool.definitions), ci.sourceManager, ast)
                  && Creations(log) == 1 && Deletions(log) == 1)
  {
    var sm := ci.sourceManager;
    var initial := New<DefinitionsTool, M, Registration>(m);
    var begun := BeginSourceFileAction(initial, ci, MakeDefinitionsTool).0;
    var collector := begun.tool.value.definitions;
    assert [] + Registrations == Registrations;
    var results := MatchAll(Registrations, ast, sm, decls);
    FeedThenGetData(collector, ast, results);
    CollectTraversal(GetData(collector), ast, sm, decls);
    CollectKeepsConsistent(GetData(collector), ast, sm, results);
    var out := Feed(collector, ast, results);
    if out.Continue? {
      var traversed := Traversed(begun, DefinitionsTool(out.state));
      var ended := EndSourceFileAction(traversed);
      assert |ended.events| == 2;
      var log := Destroy(ended);
      assert log[1] == ended.events[1];
      assert log[1] == PostProcessed(DefinitionsTool(out.state), m);
    }
  }

  /** The index of a traversal in which nothing matches is empty. */
  lemma {:induction false} NothingRecordedNothingCollected(ast: Ast, sm: SourceManager, decls: seq<Decl>)
    requires forall d | d in decls :: !Recorded(ast, d)
    ensures Collect(DefinitionsData(multiset{}), ast, MatchAll(Registrations, ast, sm, decls))
              == Continue(DefinitionsData(multiset{}))
  {
    CollectTraversal(DefinitionsData(multiset{}), ast, sm, decls);
    ExpectedNone(ast, sm, decls);
  }

  lemma {:induction false} ExpectedNone(ast: Ast, sm: SourceManager, decls: seq<Decl>)
    requires forall d | d in decls :: !Recorded(ast, d)
    ensures Expected(ast, sm, decls) == multiset{}
    decreases |decls|
  {
    if |decls| > 0 {
      assert decls[0] in decls;
      ExpectedNone(ast, sm, decls[1..]);
    }
  }

  // ---------------------------------------------------------------------------
  // Two files: A (UID 10) defines `f`; B (UID 20) defines `g`, which calls `f`.

  const F := Decl(1)
  const G := Decl(2)

  /** Both are function definitions; `f` sits at location 100 in A and `g` at
      location 200 in B. */
  function ExampleAst(): Ast
  {
    Ast(
      d => if d == F || d == G then FunctionKind else OtherKind,
      d => d == F || d == G,
      d => false,
      d => if d == F then 100 else if d == G then 200 else 0)
  }

  function ExampleSourceManager(): SourceManager
  {
    SourceManager(
      loc => loc,
      fid => if fid == 100 then Some(FileEntry(10, true))
             else if fid == 200 then Some(FileEntry(20, true))
             else None)
  }

  lemma ExampleExpected()
    ensures forall d | d in [F, G] :: Recorded(ExampleAst(), d) && Resolvable(ExampleSourceManager(), ExampleAst(), d)
    ensures Expected(ExampleAst(), ExampleSourceManager(), [F, G]) == multiset{(10, F), (20, G)}
  {
    var ast, sm := ExampleAst(), ExampleSourceManager();
    assert FileEntryOf(sm, ast, F) == Some(FileEntry(10, true));
    assert FileEntryOf(sm, ast, G) == Some(FileEntry(20, true));
    assert Recorded(ast, F) && Recorded(ast, G);
    assert [F, G][1..] == [G];
    assert [G][1..] == [];
    assert Expected(ast, sm, []) == multiset{};
    assert Expected(ast, sm, [G]) == multiset{(20, G)};
    assert Expected(ast, sm, [F, G]) == multiset{(10, F)} + multiset{(20, G)};
  }

  /** The definition index of the two-file example is {A: [f], B: [g]}. */
  lemma ExampleDefinitions()
    ensures Collect(DefinitionsData(multiset{}), ExampleAst(),
                    MatchAll(Registrations, ExampleAst(), ExampleSourceManager(), [F, G]))
            == Continue(DefinitionsData(multiset{(10, F), (20, G)}))
  {
    var ast, sm, decls := ExampleAst(), ExampleSourceManager(), [F, G];
    ExampleExpected();
    CollectTraversal(DefinitionsData(multiset{}), ast, sm, decls);
    var out := Collect(DefinitionsData(multiset{}), ast, MatchAll(Registrations, ast, sm, decls));
    assert !(exists d | d in decls :: Recorded(ast, d) && !Resolvable(sm, ast, d));
    assert out.Continue?;
    assert out.state.defs == multiset{} + multiset{(10, F), (20, G)};
    assert out.state == DefinitionsData(multiset{(10, F), (20, G)});
  }

  /** The reference graph of the two-file example, `f` referenced in `g`:
      refs = {f -> g} and deps = {g -> f}. */
  lemma ExampleReferences()
    ensures Build([(F, G)]) == ReferencesData(multiset{(F, G)}, multiset{(G, F)})
  {
  }
}
