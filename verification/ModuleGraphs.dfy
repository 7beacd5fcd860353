/** Module records as the linker sees them: requests already resolved to
    modules, bindings by slot. */
module ModuleGraphs {
  import opened Syntax
  import opened Cells

  datatype ExportEntry =
    | Local(exported: string, slot: nat)
    | Indirect(exported: string, request: string, imported: string)
    | Star(request: string)
    | Namespace(exported: string, request: string)

  datatype ImportedName = Named(name: string) | NamespaceObject | Source

  datatype ImportEntry = ImportEntry(request: string, imported: ImportedName, slot: nat)

  datatype Status = Unlinked | Linking | Linked | Evaluating | EvaluatingAsync | Evaluated | Errored

  datatype RuntimeModule = RuntimeModule(
    status: Status,
    requests: seq<string>,
    dependencies: map<string, nat>,
    imports: seq<ImportEntry>,
    exports: seq<ExportEntry>,
    bindings: seq<Cell>,
    namespaceCell: Cell,
    sourceCell: Cell)

  type Graph = seq<RuntimeModule>

  /** Every request has been loaded and every slot exists. */
  ghost predicate Loaded(g: Graph) {
    forall i :: 0 <= i < |g| ==> LoadedModule(g[i], |g|)
  }

  ghost predicate LoadedModule(m: RuntimeModule, n: nat) {
    && (forall r :: r in m.dependencies ==> m.dependencies[r] < n)
    && (forall r :: r in m.requests ==> r in m.dependencies)
    && (forall i :: 0 <= i < |m.exports| ==> LoadedExport(m.exports[i], m))
    && (forall i :: 0 <= i < |m.imports| ==> m.imports[i].request in m.dependencies && m.imports[i].slot < |m.bindings|)
  }

  ghost predicate LoadedExport(e: ExportEntry, m: RuntimeModule) {
    match e
    case Local(_, slot) => slot < |m.bindings|
    case Indirect(_, request, _) => request in m.dependencies
    case Star(request) => request in m.dependencies
    case Namespace(_, request) => request in m.dependencies
  }
}
