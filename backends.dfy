/**
 * The capability contract every build-system backend offers the resolver:
 * a stable name, marker files, and `resolveModulesIfNeeded`.
 */
module Backends {
  import opened Wrappers
  import opened PersistedState

  /** What a backend answers when it (re)computes: the modules and, when it can tell, a version. */
  datatype ResolveResult = ResolveResult(modules: seq<Module>, metadata: Option<string>)

  /**
   * A backend as the resolver sees it. `name` is the backend class's simple
   * name, which tags the version record; `respond` is its
   * `resolveModulesIfNeeded` as a function of the cached version it is handed
   * (`None` answers "unchanged since that version").
   */
  datatype Backend = Backend(name: string, markerFiles: seq<string>, respond: Option<string> -> Option<ResolveResult>)

  /**
   * `markerFiles.any { File(it).exists() }`: a backend applies exactly when
   * its marker files and the existing files have a path in common.
   */
  predicate Applicable(b: Backend, existing: set<string>)
    ensures Applicable(b, existing) <==> (set p | p in b.markerFiles) * existing != {}
  {
    assert forall p :: p in (set q | q in b.markerFiles) * existing <==> p in b.markerFiles && p in existing;
    exists p :: p in b.markerFiles && p in existing
  }

  /**
   * The contract the backends are meant to keep: "unchanged" is only an answer
   * to a cached version, so handed none they always compute.
   */
  predicate HonoursContract(b: Backend)
  {
    b.respond(None).Some?
  }

  const FileBasedName: string := "FileBasedBuildSystem"
  const GradleName: string := "GradleBuildSystem"
}
