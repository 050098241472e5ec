/**
 * The files and the dependency cache that the script dependency loaders and
 * the script dependencies updater work on.
 */
module ScriptFiles {
  import opened Wrappers

  type FileId = nat

  /** The resolved dependencies of a script; `Empty` is `ScriptDependencies.Empty`. */
  datatype ScriptDependencies = Empty | Resolved(id: nat)

  /**
   * A virtual file as the updater sees it: its identity, the flags it is
   * checked for, whether the PSI manager finds a Kotlin file for it inside the
   * project sources, and the dependencies stored in its `scriptDependencies`
   * file attribute (null when none are stored).
   */
  datatype VirtualFile = VirtualFile(
    id: FileId,
    isValid: bool,
    isInLocalFileSystem: bool,
    isKotlinFileType: bool,
    hasKtFile: bool,
    isInProjectSource: bool,
    scriptDependencies: Option<ScriptDependencies>)

  /** A Kotlin PSI file, known by its virtual file. */
  datatype KtFile = KtFile(virtualFile: VirtualFile)
  {
    function Id(): FileId { virtualFile.id }
  }

  /** The script dependencies cache: the dependencies known for each file. */
  class ScriptDependenciesCache {
    var entries: map<FileId, ScriptDependencies>

    constructor ()
      ensures entries == map[]
    {
      entries := map[];
    }

    /** `cache[file]`: null when the file has no entry. */
    function Get(file: KtFile): (r: Option<ScriptDependencies>)
      reads this
      ensures r.Some? <==> file.Id() in entries
      ensures r.Some? ==> r.value == entries[file.Id()]
    {
      if file.Id() in entries then Some(entries[file.Id()]) else None
    }

    /** `saveToCache`: the entry of this file becomes `deps`, the others stay. */
    method Save(file: KtFile, deps: ScriptDependencies)
      modifies this
      ensures entries == old(entries)[file.Id() := deps]
    {
      entries := entries[file.Id() := deps];
    }

    /** `cache.delete(file)`: the file loses its entry, the others stay. */
    method Delete(file: FileId)
      modifies this
      ensures entries == old(entries) - {file}
    {
      entries := entries - {file};
    }
  }
}
