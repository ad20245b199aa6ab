/**
 * The two files a resolver keeps under its cache directory, the
 * `buildsystem-version.json` record and the `buildsystem.json` module list,
 * and the reads and writes the resolver performs on them
 * (app/src/main/kotlin/org/kotlinlsp/buildsystem/Resolver.kt).
 */
module PersistedState {
  import opened Wrappers

  /** One resolved build module. Its schema belongs to the module codec, so it is opaque here. */
  type Module(==)

  /** The version record `BuildSystemVersion(version, buildSystemName)`. */
  datatype BuildSystemVersion = BuildSystemVersion(version: string, buildSystemName: string)

  /**
   * What a file holds, as far as its reader can tell: nothing, content that
   * cannot be read back (unreadable, not JSON, not decodable), or a value.
   */
  datatype Slot<T> = Absent | Corrupt | Stored(value: T)

  /** The cache directory: the version record and the cached module list. */
  datatype CacheDir = CacheDir(versionFile: Slot<BuildSystemVersion>, cachedModulesFile: Slot<seq<Module>>)

  /** The file operations the resolver performs, in the order it performs them. */
  datatype FileOp =
    | DeleteModulesFile
    | DeleteVersionFile
    | WriteModulesFile(modules: seq<Module>)
    | WriteVersionFile(record: BuildSystemVersion)

  /** `readVersionFile`: a missing file and a failed read or parse both give no record. */
  function ReadVersionFile(file: Slot<BuildSystemVersion>): (r: Option<BuildSystemVersion>)
    ensures r.Some? <==> file.Stored?
    ensures file.Stored? ==> r == Some(file.value)
  {
    match file
    case Stored(v) => Some(v)
    case Absent => None
    case Corrupt => None
  }

  /** `getCachedModules`: a missing file and a failed read or decode both give no modules. */
  function GetCachedModules(file: Slot<seq<Module>>): (r: Option<seq<Module>>)
    ensures r.Some? <==> file.Stored?
    ensures file.Stored? ==> r == Some(file.value)
  {
    match file
    case Stored(ms) => Some(ms)
    case Absent => None
    case Corrupt => None
  }

  /**
   * `getCachedVersionForBuildSystem`: the stored version, but only for the
   * backend the record names.
   */
  function GetCachedVersionForBuildSystem(name: string, record: Option<BuildSystemVersion>): (r: Option<string>)
    ensures r.Some? <==> record.Some? && record.value.buildSystemName == name
    ensures r.Some? ==> r.value == record.value.version
  {
    if record.None? then None
    else if record.value.buildSystemName != name then None
    else Some(record.value.version)
  }

  /**
   * The effect of one file operation (`deleteIfExists`, `writeText`): it
   * changes only the file it names; after a delete that file reads as
   * nothing, after a write it reads back the value written. Deleting a
   * missing file changes nothing.
   */
  function ApplyOp(dir: CacheDir, op: FileOp): (d: CacheDir)
    ensures (op.DeleteModulesFile? || op.WriteModulesFile?) ==> d.versionFile == dir.versionFile
    ensures (op.DeleteVersionFile? || op.WriteVersionFile?) ==> d.cachedModulesFile == dir.cachedModulesFile
    ensures op.DeleteModulesFile? ==> GetCachedModules(d.cachedModulesFile) == None
    ensures op.DeleteVersionFile? ==> ReadVersionFile(d.versionFile) == None
    ensures op.WriteModulesFile? ==> GetCachedModules(d.cachedModulesFile) == Some(op.modules)
    ensures op.WriteVersionFile? ==> ReadVersionFile(d.versionFile) == Some(op.record)
    ensures dir.cachedModulesFile == Absent && op.DeleteModulesFile? ==> d == dir
    ensures dir.versionFile == Absent && op.DeleteVersionFile? ==> d == dir
  {
    match op
    case DeleteModulesFile => dir.(cachedModulesFile := Absent)
    case DeleteVersionFile => dir.(versionFile := Absent)
    case WriteModulesFile(ms) => dir.(cachedModulesFile := Stored(ms))
    case WriteVersionFile(rec) => dir.(versionFile := Stored(rec))
  }

  /** The effect of a sequence of file operations, applied first to last. */
  function ApplyOps(dir: CacheDir, ops: seq<FileOp>): (d: CacheDir)
    decreases |ops|
  {
    if ops == [] then dir else ApplyOps(ApplyOp(dir, ops[0]), ops[1..])
  }

  /**
   * The persist sequence: both files deleted (module list first), then the
   * module list written, then the version record. It writes exactly the new
   * pair, no delete follows a write, and the record is written last.
   */
  function PersistOps(modules: seq<Module>, record: BuildSystemVersion): (ops: seq<FileOp>)
    ensures |ops| == 4
    ensures WriteModulesFile(modules) in ops && WriteVersionFile(record) in ops
    ensures forall k, l :: 0 <= k < l < |ops| && ops[k].WriteVersionFile? ==> !ops[l].WriteModulesFile?
    ensures forall k, l :: 0 <= k < l < |ops| && (ops[k].WriteModulesFile? || ops[k].WriteVersionFile?) ==>
              !(ops[l].DeleteModulesFile? || ops[l].DeleteVersionFile?)
  {
    [DeleteModulesFile, DeleteVersionFile, WriteModulesFile(modules), WriteVersionFile(record)]
  }

  lemma {:induction false} ApplyOpsAppend(dir: CacheDir, ops: seq<FileOp>, op: FileOp)
    ensures ApplyOps(dir, ops + [op]) == ApplyOp(ApplyOps(dir, ops), op)
    decreases |ops|
  {
    if ops == [] {
      assert ops + [op] == [op];
    } else {
      assert (ops + [op])[1..] == ops[1..] + [op];
      ApplyOpsAppend(ApplyOp(dir, ops[0]), ops[1..], op);
    }
  }

  /**
   * Whatever the directory held before, after the persist sequence both
   * reads give back exactly what was written: the module list and the record.
   */
  lemma PersistThenRead(dir: CacheDir, modules: seq<Module>, record: BuildSystemVersion)
    ensures ApplyOps(dir, PersistOps(modules, record)) == CacheDir(Stored(record), Stored(modules))
    ensures ReadVersionFile(ApplyOps(dir, PersistOps(modules, record)).versionFile) == Some(record)
    ensures GetCachedModules(ApplyOps(dir, PersistOps(modules, record)).cachedModulesFile) == Some(modules)
  {
    var ops := PersistOps(modules, record);
    calc {
      ApplyOps(dir, ops);
      ApplyOps(dir.(cachedModulesFile := Absent), ops[1..]);
      ApplyOps(CacheDir(Absent, Absent), ops[2..]);
      ApplyOps(CacheDir(Absent, Stored(modules)), ops[3..]);
      ApplyOps(CacheDir(Stored(record), Stored(modules)), []);
    }
  }

  /**
   * An interrupted persist sequence never leaves a version record that a later
   * resolution could hand to a backend: after the first step and before the
   * last one, either the module list or the record is missing, so no backend
   * receives a cached version (line 41 drops the version when no module list
   * can be read).
   */
  lemma InterruptedPersistHandsNoVersion(dir: CacheDir, modules: seq<Module>, record: BuildSystemVersion, k: nat, name: string)
    requires 1 <= k < 4
    ensures var mid := ApplyOps(dir, PersistOps(modules, record)[..k]);
            var cache := GetCachedModules(mid.cachedModulesFile);
            (if cache.Some? then GetCachedVersionForBuildSystem(name, ReadVersionFile(mid.versionFile)) else None) == None
  {
    var ops := PersistOps(modules, record);
    var d1 := ApplyOp(dir, ops[0]);
    var d2 := ApplyOp(d1, ops[1]);
    var d3 := ApplyOp(d2, ops[2]);
    assert ops[..1] == [] + [ops[0]];
    assert ops[..2] == ops[..1] + [ops[1]];
    assert ops[..3] == ops[..2] + [ops[2]];
    ApplyOpsAppend(dir, [], ops[0]);
    ApplyOpsAppend(dir, ops[..1], ops[1]);
    ApplyOpsAppend(dir, ops[..2], ops[2]);
    assert ApplyOps(dir, ops[..1]) == d1 && d1.cachedModulesFile == Absent;
    assert ApplyOps(dir, ops[..2]) == d2 && d2.versionFile == Absent;
    assert ApplyOps(dir, ops[..3]) == d3 && d3.versionFile == Absent;
  }
}
