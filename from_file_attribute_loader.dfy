/**
 * The loader that takes a script's dependencies from the `scriptDependencies`
 * attribute stored with its virtual file.
 */
module FromFileAttributeLoader {
  import opened Wrappers
  import opened ScriptFiles

  /**
   * The loader applies exactly to the files that carry a stored attribute,
   * that is, to those that loading into an empty cache gives an entry.
   */
  predicate IsApplicable(file: KtFile): (r: bool)
    ensures r <==> file.Id() in Loaded(map[], file)
  {
    file.virtualFile.scriptDependencies.Some?
  }

  /**
   * The cache entries after `loadDependencies`: without a stored attribute
   * nothing changes; with one, exactly that value is saved for this file.
   */
  function Loaded(entries: map<FileId, ScriptDependencies>, file: KtFile): (r: map<FileId, ScriptDependencies>)
    ensures file.virtualFile.scriptDependencies.None? ==> r == entries
    ensures file.virtualFile.scriptDependencies.Some? ==>
              r.Keys == entries.Keys + {file.Id()} && r[file.Id()] == file.virtualFile.scriptDependencies.value
    ensures forall f :: f in entries && f != file.Id() ==> f in r && r[f] == entries[f]
  {
    match file.virtualFile.scriptDependencies
    case None => entries
    case Some(deserializedDependencies) => entries[file.Id() := deserializedDependencies]
  }

  method LoadDependencies(file: KtFile, cache: ScriptDependenciesCache)
    modifies cache
    ensures cache.entries == Loaded(old(cache.entries), file)
  {
    var deserializedDependencies := file.virtualFile.scriptDependencies;
    if deserializedDependencies.None? {
      return;
    }
    cache.Save(file, deserializedDependencies.value);
  }

  /** This loader never asks for a notification. */
  function ShouldShowNotification(): (r: bool)
    ensures !r
  {
    false
  }

  /**
   * Applicability and loading agree: the loader applies to a file exactly
   * when loading it leaves an entry for that file holding its stored
   * attribute, whatever the cache held before.
   */
  lemma ApplicableIffLoadStoresAttribute(file: KtFile)
    ensures IsApplicable(file) <==>
              forall entries: map<FileId, ScriptDependencies> {:trigger Loaded(entries, file)} ::
                file.Id() in Loaded(entries, file)
                && Some(Loaded(entries, file)[file.Id()]) == file.virtualFile.scriptDependencies
  {
    if !IsApplicable(file) {
      var empty: map<FileId, ScriptDependencies> := map[];
      assert file.Id() !in Loaded(empty, file);
    }
  }
}
