/** Opaque stand-ins for the clang collaborators the core consumes.

    Nothing here models clang itself: declarations are handles, and every
    query the core makes of the AST or of the source manager is a field of
    function type, left uninterpreted. */
module Clang {
  import opened Base

  /** A non-owning handle to a declaration node (`const clang::NamedDecl *`). */
  datatype Decl = Decl(id: nat)

  type SourceLocation = nat
  type FileID = nat

  /** `types::FileUID`: the process-stable identity of a source file. */
  type FileUID = nat

  /** A `clang::FileEntry`: its UID and whether `isValid()` holds. */
  datatype FileEntry = FileEntry(uid: FileUID, valid: bool)

  /** The two source-manager queries the definitions collector makes:
      `getFileID(loc)` and `getFileEntryForID(fid)` (the latter may return null). */
  datatype SourceManager = SourceManager(
    fileIdOf: SourceLocation -> FileID,
    entryFor: FileID -> Option<FileEntry>)

  /** A `clang::CompilerInstance`, as far as the core uses it: through its
      source manager. */
  datatype CompilerInstance = CompilerInstance(sourceManager: SourceManager)

  /** The dynamic class of a declaration, as far as the matchers look at it. */
  datatype DeclKind = FunctionKind | VarKind | RecordKind | OtherKind

  /** The declaration introspection the matchers and callbacks use. */
  datatype Ast = Ast(
    kind: Decl -> DeclKind,
    isDefinition: Decl -> bool,
    hasGlobalStorage: Decl -> bool,
    location: Decl -> SourceLocation)

  /** A `MatchFinder::MatchResult`: the nodes bound by name, and the source manager. */
  datatype MatchResult = MatchResult(nodes: map<string, Decl>, sourceManager: SourceManager)

  /** `r.Nodes.getNodeAs<clang::NamedDecl>(id)`: null when nothing is bound under `id`. */
  function GetNodeAs(r: MatchResult, id: string): Option<Decl>
  {
    if id in r.nodes then Some(r.nodes[id]) else None
  }

  /** The file entry a declaration's location resolves to:
      `sm->getFileEntryForID(sm->getFileID(e->getLocation()))`. */
  function FileEntryOf(sm: SourceManager, ast: Ast, e: Decl): Option<FileEntry>
  {
    sm.entryFor(sm.fileIdOf(ast.location(e)))
  }

  /** The declaration resolves to a valid file entry (`entry && entry->isValid()`). */
  predicate Resolvable(sm: SourceManager, ast: Ast, e: Decl)
  {
    var entry := FileEntryOf(sm, ast, e);
    entry.Some? && entry.value.valid
  }

  /** The declaration resolves to a valid file entry whose UID is `uid`. */
  predicate ResolvesTo(sm: SourceManager, ast: Ast, e: Decl, uid: FileUID)
  {
    Resolvable(sm, ast, e) && FileEntryOf(sm, ast, e).value.uid == uid
  }
}
