# Build-system resolution controller of kotlin-lsp, modelled in Dafny

`BuildSystemResolver.resolveModules` turns a project root into the list of
build modules the language server analyses. It reads a version record from
the project's cache directory once. It then walks a fixed, priority-ordered
list of build-system backends (the file-based backend, then the Gradle
backend) and skips every backend none of whose marker files exist. It hands
each applicable backend it reaches the cached version, but only when the
record was written by that same backend and a cached module list can be read. Then it
does one of three things:

- it returns the cached module list (the backend answered "unchanged");
- it returns a fresh result, persisting it first when the result carries a
  version;
- it moves on to the next backend (the backend answered "unchanged" but there
  is no cache).

When no backend produces modules it fails with "Not suitable build system
found!". Both reads turn every failure (missing file, unreadable or
undecodable content) into "nothing cached".

The project is organised as follows:

- `wrappers.dfy`: the `Option` type.
- `persisted_state.dfy` (module `PersistedState`):
  - the version record and the two cache files, each a slot that is
    `Absent`, `Corrupt` or `Stored(value)`;
  - the three reads;
  - the file operations and the persist sequence.
- `backends.dfy` (module `Backends`): the backend contract. A backend has a
  name, marker files, and `respond`, its answer as a function of the cached
  version it is handed.
- `resolver_spec.dfy` (module `ResolverSpec`):
  - `Resolve`, the algorithm as a function. It gives the outcome, the backend
    calls made (with the version each was handed) and the file operations
    performed.
  - The lemmas that state what the resolver promises.
- `resolver.dfy` (module `Resolver`): the class `BuildSystemResolver`. Its
  two file fields are updated in place. `ResolveModules` is the imperative
  loop with its early returns. It is proved to behave exactly as `Resolve`
  says.

Some facts about the code that the model states explicitly:

- The file-based backend comes first in `BUILD_SYSTEMS` (Resolver.kt:29-32),
  ahead of the Gradle backend. `FileBasedPrecedesGradle` states this order.
- Records are tagged with the backend class's simple name
  (`FileBasedBuildSystem`, `GradleBuildSystem`), as lines 39 and 56 do.
- The persist sequence deletes the module list before the record (line 51).
  So between the two deletes a record exists without a module list. This is
  harmless, because line 41 ignores the version whenever no module list can
  be read. `InterruptedPersistHandsNoVersion` proves that no intermediate
  state of the persist sequence can hand any backend a version.
- "Unchanged" (a null result) is trusted whenever a module list can be read
  (lines 43-46), even when the backend was handed no version. A backend that
  answers "unchanged" to no version is served the module list another
  backend persisted (`UnchangedWithoutVersionServesForeignCache`).
  Per-backend isolation of the returned modules therefore rests on the
  backend contract: "unchanged" is only an answer to a version. When the
  first applicable backend keeps that contract, it always decides
  (`HonouringBackendsCallOnlyFirstApplicable`).

## Model

| member | source | states |
|---|---|---|
| `PersistedState.ReadVersionFile` | app/src/main/kotlin/org/kotlinlsp/buildsystem/Resolver.kt:68-78 | a record is returned exactly when the file holds a readable one; a missing file and corrupt content both give none |
| `PersistedState.GetCachedModules` | app/src/main/kotlin/org/kotlinlsp/buildsystem/Resolver.kt:86-94 | a module list is returned exactly when the file holds a decodable one; a missing file and corrupt content both give none |
| `PersistedState.GetCachedVersionForBuildSystem` | app/src/main/kotlin/org/kotlinlsp/buildsystem/Resolver.kt:80-84 | a version is returned iff there is a record and it names the queried backend, and it is then the recorded version |
| `PersistedState.PersistThenRead` | app/src/main/kotlin/org/kotlinlsp/buildsystem/Resolver.kt:51-59 | whatever the directory held, after the delete/delete/write/write sequence both reads return exactly the written module list and record |
| `PersistedState.InterruptedPersistHandsNoVersion` | app/src/main/kotlin/org/kotlinlsp/buildsystem/Resolver.kt:41-59 | after any proper non-empty prefix of the persist sequence, no backend would be handed a cached version |
| `PersistedState.ApplyOp` | app/src/main/kotlin/org/kotlinlsp/buildsystem/Resolver.kt:51-59 | a delete or write changes only the file it names; after a delete that file reads as nothing, after a write it reads back the written value; deleting an absent file changes nothing |
| `PersistedState.PersistOps` | app/src/main/kotlin/org/kotlinlsp/buildsystem/Resolver.kt:51-59 | four operations that write exactly the new module list and record, with no delete after a write and the record written after the module list |
| `Backends.Applicable` | app/src/main/kotlin/org/kotlinlsp/buildsystem/Resolver.kt:38 | a backend applies exactly when its marker files and the existing files have a path in common |
| `ResolverSpec.Resolve` | app/src/main/kotlin/org/kotlinlsp/buildsystem/Resolver.kt:34-66 | every call goes to a backend of the list and a failed resolution writes nothing; the lemmas below state the rest of its behaviour |
| `ResolverSpec.HandedVersion` | app/src/main/kotlin/org/kotlinlsp/buildsystem/Resolver.kt:39-41 | the version handed to a backend is present iff a module list can be read and the record names that backend, and is then the recorded version |
| `ResolverSpec.Turn` | app/src/main/kotlin/org/kotlinlsp/buildsystem/Resolver.kt:39-62 | an applicable backend falls through exactly when it answers "unchanged" while no module list can be read; otherwise resolution ends with modules, after one call with the handed version |
| `ResolverSpec.ResolveFrom` | app/src/main/kotlin/org/kotlinlsp/buildsystem/Resolver.kt:37-65 | the backend loop: a run that ends in "no suitable build system" performs no file operation |
| `ResolverSpec.CallsFrom` | app/src/main/kotlin/org/kotlinlsp/buildsystem/Resolver.kt:37-62 | every backend called has a marker file present and receives the line-41 version; a run writes nothing or exactly the persist sequence, with a record tagged with the last-called backend's name |
| `ResolverSpec.FirstDecisive` | app/src/main/kotlin/org/kotlinlsp/buildsystem/Resolver.kt:37-47 | the first backend that does not fall through: every backend before it falls through and it does not |
| `ResolverSpec.ApplicableInComplete` | app/src/main/kotlin/org/kotlinlsp/buildsystem/Resolver.kt:37-38 | the list of applicable positions misses none and is strictly increasing |
| `ResolverSpec.ProbesInPriorityOrder` | app/src/main/kotlin/org/kotlinlsp/buildsystem/Resolver.kt:29-65 | the backends called are exactly the applicable ones up to and including the first that ends resolution, in list order; resolution fails iff every backend falls through |
| `ResolverSpec.DecidingBackendDeterminesResult` | app/src/main/kotlin/org/kotlinlsp/buildsystem/Resolver.kt:43-61 | "unchanged" returns the cached modules with both files untouched; a fresh result is returned, and it replaces both files with its modules and `{metadata, backend name}` iff it has metadata, otherwise both files are untouched |
| `ResolverSpec.HandedVersionBelongsToBackend` | app/src/main/kotlin/org/kotlinlsp/buildsystem/Resolver.kt:35-41 | a backend receives a version iff a module list is readable and the record names that backend, and the version is then the record's |
| `ResolverSpec.FailureWritesNothing` | app/src/main/kotlin/org/kotlinlsp/buildsystem/Resolver.kt:65 | when resolution fails, no file operation was performed and both files are as before |
| `ResolverSpec.ResolveSeesOnlyReads` | app/src/main/kotlin/org/kotlinlsp/buildsystem/Resolver.kt:35-41 | two cache directories whose reads agree give identical runs (outcome, calls, writes) |
| `ResolverSpec.CorruptFileActsAsAbsent` | app/src/main/kotlin/org/kotlinlsp/buildsystem/Resolver.kt:68-94 | a corrupt version file or module file gives the same run as a missing one |
| `ResolverSpec.HonouringBackendsCallOnlyFirstApplicable` | app/src/main/kotlin/org/kotlinlsp/buildsystem/Resolver.kt:37-62 | when the first applicable backend never answers "unchanged" to no version, exactly one backend is called, that one, and resolution succeeds |
| `ResolverSpec.NextResolutionReusesPersistedResult` | app/src/main/kotlin/org/kotlinlsp/buildsystem/Resolver.kt:39-61 | when the deciding backend is the first applicable one: after a versioned fresh result, the next resolution hands the same backend that version; if it answers "unchanged" the persisted modules are returned and nothing is written |
| `ResolverSpec.FileBasedPrecedesGradle` | app/src/main/kotlin/org/kotlinlsp/buildsystem/Resolver.kt:29-32 | with the fixed list, an applicable file-based backend is called first; when it decides, the Gradle backend is never called |
| `ResolverSpec.UnchangedWithoutVersionServesForeignCache` | app/src/main/kotlin/org/kotlinlsp/buildsystem/Resolver.kt:43-46 | a backend answering "unchanged" to no version is served a module list recorded under another backend's name |
| `Resolver.BuildSystemResolver.constructor` | app/src/main/kotlin/org/kotlinlsp/buildsystem/Resolver.kt:19-32 | the backend list is the file-based backend followed by the Gradle backend; the files are as on disk |
| `Resolver.BuildSystemResolver.Perform` | app/src/main/kotlin/org/kotlinlsp/buildsystem/Resolver.kt:51-59 | one delete or write changes exactly the file it names |
| `Resolver.BuildSystemResolver.Persist` | app/src/main/kotlin/org/kotlinlsp/buildsystem/Resolver.kt:49-60 | delete module list, delete record, write module list, write record; afterwards the directory holds exactly the new pair |
| `Resolver.BuildSystemResolver.ResolveModules` | app/src/main/kotlin/org/kotlinlsp/buildsystem/Resolver.kt:34-66 | returns the outcome `Resolve` gives, makes the same backend calls with the same versions, and leaves the files as that run's writes make them |

## Left out

- Real file I/O is not modelled: `File.exists`, `readText`, `writeText`,
  `deleteIfExists` and `getCachePath`. Each cache file is a slot. Marker
  files are the set of existing paths passed to `ResolveModules`; that set
  does not change during a call.
- The Gson JSON encoding and the module codec (`serializeModules`,
  `deserializeModules`) are foreign library calls. Content that cannot be
  read back is the `Corrupt` slot. A write is assumed to read back as the
  value written, so the model assumes the codec round-trips.
- A record Gson builds with missing (null) fields is modelled as `Corrupt`.
  This gives the same behaviour: a null name never equals a backend's name,
  and a null version is handed as null, exactly like no record.
- The concrete backends `FileBasedBuildSystem` and `GradleBuildSystem` are
  not part of this model. Each backend is only its name, its marker files
  and its answer as a function of the handed version. A backend's own I/O
  and Gradle invocation are outside the model.
- Exceptions are not modelled. An exception thrown by a backend, or by
  serialising the record, aborts the whole call uncaught.
- Logging (`profile`, `info`), the `ProgressNotifier` and the
  `Project`/`KotlinCoreApplicationEnvironment` handles are not modelled.
  They are passed through without being examined.
- Crash atomicity and concurrent resolutions against one root are outside a
  sequential model. The order of the file operations is kept: module list
  deleted, then record; module list written, then record.
  `InterruptedPersistHandsNoVersion` covers the intermediate states.
