/**
 * `BuildSystemResolver`: the object that owns the cache directory of one
 * project root and resolves the project's modules through the first suitable
 * backend (app/src/main/kotlin/org/kotlinlsp/buildsystem/Resolver.kt).
 */
module Resolver {
  import opened Wrappers
  import opened PersistedState
  import opened Backends
  import opened ResolverSpec

  class BuildSystemResolver {
    /** `BUILD_SYSTEMS`, in priority order. */
    const buildSystems: seq<Backend>
    /** `buildsystem-version.json` under the cache directory. */
    var versionFile: Slot<BuildSystemVersion>
    /** `buildsystem.json` under the cache directory. */
    var cachedModulesFile: Slot<seq<Module>>

    function Dir(): CacheDir
      reads this
    {
      CacheDir(versionFile, cachedModulesFile)
    }

    /**
     * A resolver over the fixed backend list: the file-based backend first,
     * then the Gradle backend; the cache directory holds what is on disk.
     */
    constructor (fileBased: Backend, gradle: Backend, versionFile: Slot<BuildSystemVersion>, cachedModulesFile: Slot<seq<Module>>)
      requires fileBased.name == FileBasedName && gradle.name == GradleName
      ensures buildSystems == [fileBased, gradle]
      ensures Dir() == CacheDir(versionFile, cachedModulesFile)
    {
      buildSystems := [fileBased, gradle];
      this.versionFile := versionFile;
      this.cachedModulesFile := cachedModulesFile;
    }

    /** One file operation on the cache directory (`deleteIfExists`, `writeText`). */
    method Perform(op: FileOp)
      modifies this
      ensures Dir() == ApplyOp(old(Dir()), op)
    {
      match op
      case DeleteModulesFile => cachedModulesFile := Absent;
      case DeleteVersionFile => versionFile := Absent;
      case WriteModulesFile(modules) => cachedModulesFile := Stored(modules);
      case WriteVersionFile(record) => versionFile := Stored(record);
    }

    /**
     * Replaces the cached result (lines 51-59): both files are deleted, the
     * module list first, then the module list and the record are written.
     * Afterwards the directory holds exactly the new module list and record.
     */
    method Persist(modules: seq<Module>, record: BuildSystemVersion)
      modifies this
      ensures Dir() == ApplyOps(old(Dir()), PersistOps(modules, record))
      ensures Dir() == CacheDir(Stored(record), Stored(modules))
    {
      Perform(DeleteModulesFile);
      Perform(DeleteVersionFile);
      Perform(WriteModulesFile(modules));
      Perform(WriteVersionFile(record));
      PersistThenRead(old(Dir()), modules, record);
    }

    /**
     * `resolveModules`, given the marker files that exist. It behaves as
     * `Resolve` says: same outcome, same backend calls with the same handed
     * versions, and the cache directory changed by exactly that run's writes.
     */
    method ResolveModules(existing: set<string>) returns (r: Outcome, ghost invoked: seq<Invocation>, ghost writes: seq<FileOp>)
      modifies this
      ensures var run := Resolve(buildSystems, existing, old(Dir()));
              r == run.outcome && invoked == run.invoked && writes == run.writes
      ensures Dir() == ApplyOps(old(Dir()), writes)
    {
      var version := ReadVersionFile(versionFile);
      ghost var dir0 := Dir();
      ghost var whole := Resolve(buildSystems, existing, dir0);
      invoked, writes := [], [];
      assert ApplyOps(dir0, []) == dir0;
      var i := 0;
      while i < |buildSystems|
        invariant i <= |buildSystems|
        invariant Dir() == dir0 && writes == []
        invariant whole.outcome == ResolveFrom(buildSystems, existing, version, dir0, i).outcome
        invariant whole.writes == ResolveFrom(buildSystems, existing, version, dir0, i).writes
        invariant whole.invoked == invoked + ResolveFrom(buildSystems, existing, version, dir0, i).invoked
      {
        ghost var here := ResolveFrom(buildSystems, existing, version, dir0, i);
        ghost var next := ResolveFrom(buildSystems, existing, version, dir0, i + 1);
        var b := buildSystems[i];
        if Applicable(b, existing) {
          var cachedVersion := GetCachedVersionForBuildSystem(b.name, version);
          var cachedModules := GetCachedModules(cachedModulesFile);
          var handed := if cachedModules.Some? then cachedVersion else None;
          var result := b.respond(handed);
          ghost var turn := Turn(b, i, version, cachedModules);
          assert handed == HandedVersion(b.name, version, cachedModules);
          invoked := invoked + [Invocation(i, handed)];
          if result.None? {
            if cachedModules.Some? {
              assert here == turn.value;
              r := Resolved(cachedModules.value);
              return;
            }
            assert turn.None?;
            assert here == next.(invoked := [Invocation(i, handed)] + next.invoked);
            assert whole.invoked == invoked + next.invoked;
          } else {
            assert here == turn.value;
            var newMetadata := result.value.metadata;
            if newMetadata.Some? {
              var record := BuildSystemVersion(newMetadata.value, b.name);
              Persist(result.value.modules, record);
              writes := PersistOps(result.value.modules, record);
            }
            r := Resolved(result.value.modules);
            return;
          }
        } else {
          assert here == next;
        }
        i := i + 1;
      }
      r := NoSuitableBuildSystem;
    }
  }
}
