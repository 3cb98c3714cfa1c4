# clangmetatool core, modelled in Dafny

This project models the core of clangmetatool, a framework for writing clang
tools. It covers three pieces:

- **`MetaTool<WrappedTool>`** (`meta_tool.dfy`, module `MetaTools`). This is the
  front-end action that owns one `MatchFinder` and one wrapped-tool pointer.
  It creates the wrapped tool once, in `BeginSourceFileAction`. It hands the
  caller's replacements map to the tool's `postProcessing` in
  `EndSourceFileAction`. Its destructor deletes the tool if one was created.
  The C++ template is generic over the wrapped tool only. The model also
  takes the compiler instance, the map reference and the matcher
  registration as type parameters, to keep them opaque. An event
  log (tool created, map handed to `postProcessing`, tool deleted) stands in
  for heap allocation. The lifecycle rules are stated over that log.
- **The definitions collector** (`definitions.dfy`, module `Definitions`).
  `DefinitionsDataAppender::run` adds one `(file UID, declaration)` pair to a
  multiset of pairs, or ends the process (`Exit(-1)`). The module also has
  the three matchers `DefinitionsImpl` registers, a simple traversal engine
  that fires them, and the `Definitions` → `DefinitionsImpl` forwarding.
- **`ReferencesData`** (`references_data.dfy`, module `References`). This is
  the `refs` / `deps` pair of multimaps, each a multiset of pairs. It comes
  with the documented "inverse of refs" relation and a mirrored edge insert.

Clang itself is opaque (`clang.dfy`, module `Clang`). A declaration is a
handle. The AST queries (`kind`, `isDefinition`, `hasGlobalStorage`,
`location`) are uninterpreted function fields, and so are the source-manager
queries (`getFileID`, `getFileEntryForID`). A compiler instance is
represented by its source manager. `pipeline.dfy` (module `Pipeline`) takes
one compilation unit through the whole lifecycle. A `MetaTool` wraps a tool
built on the definitions collector. The model runs Begin, consumer creation,
the traversal that fills the collector in place, End and the destructor. The
module also states the outcome of a two-file example in which `g` in file B
calls `f` from file A.

Lifecycle facts taken from the code:

- `EndSourceFileAction` has no guard, so it may run again and call
  `postProcessing` again. The model allows this. `RunKeepsValid` counts one
  `postProcessing` call per `EndSourceFileAction`.
- The destructor deletes only when a tool exists. The model proves that the
  tool is deleted exactly as often as it was created, and at most once.
- `EndSourceFileAction` without a tool dereferences null. The single
  operation takes this as a `requires`. The trace runner `RunCalls` reports it as
  a `NullDereference` outcome.
- `assert(tool == NULL)` is active only in builds without `NDEBUG`.
  `UncheckedBeginSourceFileAction` models the action without it, and
  `UncheckedSecondBeginLeaks` shows the leak a second call then causes.

## Model

| member | source | states |
|---|---|---|
| MetaTools.New | include/clangmetatool/meta_tool.h:39-45 | A fresh instance holds no tool, keeps the caller's map reference, owns an empty match finder, has created nothing and satisfies the lifecycle invariant |
| MetaTools.BeginSourceFileAction | include/clangmetatool/meta_tool.h:52-60 | Only callable with no tool (the `tool == NULL` assertion); creates exactly one tool from the compiler instance and the owned finder and logs its creation after the earlier log, which is left as it was; returns true, leaves the map reference and the post-processing and deletion counts unchanged, and keeps the lifecycle invariant |
| MetaTools.EndSourceFileAction | include/clangmetatool/meta_tool.h:62-64 | Needs a tool; makes exactly one `postProcessing` call, with the held tool and the map the instance was built with, logged after the earlier log, which is left as it was; tool, finder and map are unchanged; keeps the lifecycle invariant |
| MetaTools.Destroy | include/clangmetatool/meta_tool.h:47-50 | Deletes once if a tool exists and not at all otherwise; on a valid instance deletions equal creations, at most one, and the last effect deletes the tool the pointer holds |
| MetaTools.UncheckedBeginSourceFileAction | include/clangmetatool/meta_tool.h:52-60 | With the assertion compiled out, the pointer is overwritten by one new tool whatever it held, and that tool's creation is appended to the log; the map is untouched; from the no-tool state it keeps the lifecycle invariant |
| MetaTools.Traversed | include/clangmetatool/meta_tool.h:41 | The callbacks update the pointed-to tool in place: the pointer reaches the updated tool, and the finder, the map and the log are unchanged |
| MetaTools.Step | include/clangmetatool/meta_tool.h:52-70 | A Begin fails exactly when a tool exists, an End fails exactly when none does, creating a consumer leaves the instance unchanged, and no successful call alters the map reference or, apart from Begin, the finder |
| MetaTools.RunKeepsValid | include/clangmetatool/meta_tool.h:52-64 | Any sequence of host calls that does not fail keeps the invariant and the map reference, and creates one tool per Begin and calls `postProcessing` once per End |
| MetaTools.SingleUse | include/clangmetatool/meta_tool.h:53-58 | From a fresh instance, any call sequence with two `BeginSourceFileAction`s fails before a second tool exists |
| MetaTools.ReleaseExactlyOnce | include/clangmetatool/meta_tool.h:43-64 | After any successful run from a fresh instance, the destructor's final log has at most one creation and exactly as many deletions as creations, and every `postProcessing` received the caller's map |
| MetaTools.UncheckedSecondBeginLeaks | include/clangmetatool/meta_tool.h:47-58 | Without the assertion, two Begins create two tools and the destructor deletes only the second |
| MetaTools.ConsumerRunsToolMatchers | include/clangmetatool/meta_tool.h:52-70 | A consumer created at any point of a successful run after its `BeginSourceFileAction` runs exactly the matchers the wrapped tool's constructor registered on the empty finder |
| Definitions.Run | src/definitions/definitions.cpp:24-39 | With no `"def"` node the data is unchanged; it exits with -1 exactly when the node has no valid file entry; otherwise it adds exactly one pair for that node, keyed by its file, and removes nothing |
| Definitions.RunKeepsConsistent | src/definitions/definitions.cpp:28-38 | One append keeps every entry keyed by the file its declaration resolves to |
| Definitions.Collect | src/definitions/definitions.cpp:24-39 | Over a sequence of match results the index only grows, by one entry per result that binds `"def"`; an exit has status -1 |
| Definitions.SameFileKeepsBoth | src/definitions/definitions.cpp:36-38 | Two declarations resolving to the same file are both filed under that file's UID, on top of every existing entry |
| Definitions.CollectKeepsConsistent | src/definitions/definitions.cpp:28-38 | Identity consistency holds after any sequence of appends under one source manager |
| Definitions.RegistrationsMatchRecorded | src/definitions/definitions.cpp:48-64 | The three matchers together fire exactly once, binding `"def"`, on a function definition, a global-storage variable definition or a record definition, and never on anything else |
| Definitions.CollectTraversal | src/definitions/definitions.cpp:48-76 | Over any traversal the collector exits exactly when a recorded declaration has no valid file; otherwise it adds exactly one correctly keyed entry per recorded declaration, in any order |
| Definitions.NewDefinitions | src/definitions/definitions.cpp:69-86 | The data starts empty; exactly three registrations are appended after the existing ones, with three distinct matchers, all bound as `"def"`; that all three report to the impl's one appender is built into the `Callback` type, which has a single value |
| Definitions.FeedThenGetData | src/definitions/definitions.cpp:78-94 | `getData` through the pimpl returns exactly what the appender accumulated, and the collector exits exactly when plain accumulation does |
| References.Empty | include/clangmetatool/collectors/references_data.h:16-28 | A default `ReferencesData` has both maps empty and satisfies the inverse relation |
| References.AddReference | include/clangmetatool/collectors/references_data.h:18-27 | The mirrored insert adds one (reference, context) edge to `refs` and one (context, reference) edge to `deps`, changes no other multiplicity, and keeps the inverse relation |
| References.AddReferenceContexts | include/clangmetatool/collectors/references_data.h:18-21 | After a mirrored insert of "`a` occurs in `b`", the contexts of `a` in `refs` gain exactly `b`, and the contexts of every other declaration are unchanged |
| References.AddReferenceReferencesIn | include/clangmetatool/collectors/references_data.h:23-27 | After the same insert, the references in `b` in `deps` gain exactly `a`, and the references in every other declaration are unchanged |
| References.InverseSameSize | include/clangmetatool/collectors/references_data.h:21-27 | Two multimaps that are inverses of each other have equal sizes |
| References.OneSidedInsertBreaksInverse | include/clangmetatool/collectors/references_data.h:23-27 | Inserting an edge into only one of the two maps breaks the inverse relation |
| References.LookupsAgree | include/clangmetatool/collectors/references_data.h:18-27 | Under the inverse relation, `b` is a context of `a` in `refs` exactly when `a` is a reference of `b` in `deps` |
| References.BuildInverse | include/clangmetatool/collectors/references_data.h:16-27 | Any sequence of mirrored inserts from empty gives inverse maps; `refs` holds exactly the inserted edges and `deps` has as many entries |
| Pipeline.SinglePass | include/clangmetatool/meta_tool.h:43-70 | A `MetaTool` wrapping a definitions-collector tool registers exactly the three matchers; the pass exits exactly when a recorded declaration has no valid file; otherwise `postProcessing` runs once with the caller's map and a tool whose `getData` holds exactly one consistently keyed entry per recorded declaration, and the one tool is deleted once |
| Pipeline.NothingRecordedNothingCollected | src/definitions/definitions.cpp:48-64 | A compilation unit with no function, global-variable or record definitions yields an empty index |
| Pipeline.ExampleDefinitions | src/definitions/definitions.cpp:24-39 | In the two-file example the index is {A: [f], B: [g]} |
| Pipeline.ExampleReferences | include/clangmetatool/collectors/references_data.h:18-27 | In the two-file example, inserting the edge "f referenced in g" gives refs = {f → g} and deps = {g → f} |

## Left out

- All clang and LLVM machinery: `CompilerInstance`, `SourceManager`, `FileEntry`, `MatchFinder` internals, the AST matchers' own semantics and `ASTConsumer` creation. They are opaque handles and uninterpreted function fields. `MatchNode` / `MatchAll` are a simple engine that visits the given nodes in order and tries the registrations in order. Clang's real traversal order is not modelled. Nothing depends on it, because the index is a multiset.
- The contents and application of `clang::tooling::Replacements`. The map is an opaque reference, and `postProcessing` is recorded as an event carrying the tool and that reference. What a tool writes into the map is not modelled.
- Process termination (`exit(-1)`) is the `Exit(-1)` outcome. No index comes out of it. Heap allocation and `delete` are the `ToolCreated` / `ToolDeleted` events.
- The unused `Mangle.h` and `raw_ostream.h` includes, and the compiler-instance pointer the appender stores but never reads.
- The references collector's matcher and callback code is not part of this model. Only the data invariant of `ReferencesData` and the mirrored insert it implies (`AddReference`) are modelled.
- `Definitions::~Definitions` (`delete impl`) is pure memory management and has no modelled effect.
- MetaTools.SingleUse: holds only when assertions are enabled. With `NDEBUG` a second `BeginSourceFileAction` overwrites and leaks the first tool, as `UncheckedSecondBeginLeaks` shows. `ReleaseExactlyOnce` makes the same assumption.
- MetaTools.CreateASTConsumer: the consumer holds the finder's registrations as they are when it is created, not a pointer to `f`. In the model only the wrapped tool's constructor can add registrations, so once `BeginSourceFileAction` has run the two agree (see the next line). A consumer created before `BeginSourceFileAction` would see later registrations in C++ but not in the model.
- MetaTools.ConsumerRunsToolMatchers: assumes the wrapped tool adds matchers only in its constructor, which is the protocol documented at `meta_tool.h:24-29`. The C++ tool receives `MatchFinder *f` and could keep it and call `addMatcher` later, for example from a preprocessor callback; the consumer would then run those matchers too. The model does not allow such later registrations.
- MetaTools.Traversed: the tool state after traversal comes from the host. Only the definitions collector's traversal is modelled, in `Pipeline.SinglePass`.
- MetaTools.BeginSourceFileAction: the wrapped tool's constructor is any function of the compiler instance and the finder. The contract does not constrain what that constructor registers beyond what it returns.
