/**
 * The script dependencies updater: the cache decisions and the dispatch to an
 * ordered list of dependency loaders made when a script's dependencies are
 * asked for, when a batch of files is checked, and when a document changes.
 *
 * The loaders other than the file-attribute one are not part of this model:
 * each is represented by what it does (the files it applies to, the value it
 * saves for a file, and its answer to `notifyRootsChanged`). Every call the
 * updater makes on a loader is recorded, in order, in `log`.
 */
module ScriptDependenciesUpdater {
  import opened Wrappers
  import opened ScriptFiles
  import FromFileAttributeLoader

  // ---------------------------------------------------------------------------
  // Loaders
  // ---------------------------------------------------------------------------

  /** What an unseen loader does. */
  datatype LoaderBehaviour = LoaderBehaviour(
    applicable: set<FileId>,
    loads: map<FileId, ScriptDependencies>,
    rootsChanged: bool)

  datatype Loader =
    | FromFileAttributeScriptDependenciesLoader(rootsChangedAnswer: bool)
    | OutsiderFileDependenciesLoader(behaviour: LoaderBehaviour)
    | AsyncScriptDependenciesLoader(behaviour: LoaderBehaviour)
    | SyncScriptDependenciesLoader(behaviour: LoaderBehaviour)
  {
    predicate IsApplicable(file: KtFile) {
      if FromFileAttributeScriptDependenciesLoader? then FromFileAttributeLoader.IsApplicable(file)
      else file.Id() in behaviour.applicable
    }

    /** The cache entries after this loader's `updateDependencies(file)`. */
    function Update(entries: map<FileId, ScriptDependencies>, file: KtFile): map<FileId, ScriptDependencies> {
      if FromFileAttributeScriptDependenciesLoader? then FromFileAttributeLoader.Loaded(entries, file)
      else if file.Id() in behaviour.loads then entries[file.Id() := behaviour.loads[file.Id()]]
      else entries
    }

    function NotifyRootsChanged(): bool {
      if FromFileAttributeScriptDependenciesLoader? then rootsChangedAnswer else behaviour.rootsChanged
    }
  }

  /** A call made by the updater on the loader at position `loader` of its list. */
  datatype LoaderCall =
    | UpdateDependenciesCall(loader: nat, file: FileId)
    | NotifyRootsChangedCall(loader: nat)

  /** The state of the IDE the updater consults. */
  datatype IdeEnvironment = IdeEnvironment(
    projectDisposed: bool,
    unitTestMode: bool,
    updaterDisabled: bool,
    definitionsReady: bool)

  // ---------------------------------------------------------------------------
  // Specification functions
  // ---------------------------------------------------------------------------

  /** `loaders.filter { it.isApplicable(file) }`, as positions in the list. */
  function ApplicableLoaders(loaders: seq<Loader>, file: KtFile): (r: seq<nat>)
    ensures forall k :: 0 <= k < |r| ==> r[k] < |loaders|
  {
    if loaders == [] then []
    else
      var last := |loaders| - 1;
      ApplicableLoaders(loaders[..last], file) + (if loaders[last].IsApplicable(file) then [last] else [])
  }

  function UpdateCalls(indices: seq<nat>, file: KtFile): seq<LoaderCall> {
    if indices == [] then []
    else UpdateCalls(indices[..|indices| - 1], file) + [UpdateDependenciesCall(indices[|indices| - 1], file.Id())]
  }

  /** The cache entries after the loaders at `indices` have updated `file`, in that order. */
  function RunLoaders(loaders: seq<Loader>, indices: seq<nat>, file: KtFile, entries: map<FileId, ScriptDependencies>)
    : map<FileId, ScriptDependencies>
    requires forall k :: 0 <= k < |indices| ==> indices[k] < |loaders|
  {
    if indices == [] then entries
    else
      var last := |indices| - 1;
      loaders[indices[last]].Update(RunLoaders(loaders, indices[..last], file, entries), file)
  }

  /** The cache entries after `updateDependencies(file)`. */
  function AfterUpdate(loaders: seq<Loader>, file: KtFile, entries: map<FileId, ScriptDependencies>)
    : map<FileId, ScriptDependencies>
  {
    RunLoaders(loaders, ApplicableLoaders(loaders, file), file, entries)
  }

  /** The `notifyRootsChanged` calls of `makeRootsChangeIfNeeded`, from position `from` on. */
  function NotifyCalls(loaders: seq<Loader>, from: nat): seq<LoaderCall>
    decreases |loaders| - from
  {
    if from >= |loaders| then []
    else [NotifyRootsChangedCall(from)] + (if loaders[from].NotifyRootsChanged() then [] else NotifyCalls(loaders, from + 1))
  }

  /** `getKtFileToUpdateDependencies`. */
  function KtFileToUpdate(env: IdeEnvironment, file: VirtualFile): (r: Option<KtFile>)
    ensures env.projectDisposed || !file.isValid || !file.isKotlinFileType ==> r.None?
    ensures r.Some? ==> r.value.virtualFile == file
  {
    if env.projectDisposed || !file.isValid || !file.isKotlinFileType then None
    else if env.unitTestMode && env.updaterDisabled then None
    else if !file.hasKtFile || !file.isInProjectSource then None
    else Some(KtFile(file))
  }

  /**
   * `areDependenciesCached`: the file has an entry, or the file-attribute
   * loader would give it one.
   */
  predicate AreDependenciesCached(entries: map<FileId, ScriptDependencies>, file: KtFile) {
    file.Id() in entries || file.virtualFile.scriptDependencies.Some?
  }

  /** A file counts as cached exactly when it has an entry once the file-attribute loader has run. */
  lemma CachedIffAttributeLoaderGivesEntry(entries: map<FileId, ScriptDependencies>, file: KtFile)
    ensures AreDependenciesCached(entries, file) <==> file.Id() in FromFileAttributeLoader.Loaded(entries, file)
  {
  }

  /** What the loop of `updateDependenciesIfNeeded` has done after some of the files. */
  datatype BatchState = BatchState(entries: map<FileId, ScriptDependencies>, calls: seq<LoaderCall>, started: bool)

  /**
   * The loop of `updateDependenciesIfNeeded` over `files`: each file to
   * update that is not cached is updated, and the update is recorded as
   * started.
   */
  function UpdateLoop(env: IdeEnvironment, loaders: seq<Loader>, files: seq<VirtualFile>,
                      entries: map<FileId, ScriptDependencies>): BatchState
  {
    if files == [] then BatchState(entries, [], false)
    else
      var s := UpdateLoop(env, loaders, files[..|files| - 1], entries);
      match KtFileToUpdate(env, files[|files| - 1])
      case None => s
      case Some(file) =>
        if AreDependenciesCached(s.entries, file) then s
        else BatchState(AfterUpdate(loaders, file, s.entries),
                        s.calls + UpdateCalls(ApplicableLoaders(loaders, file), file), true)
  }

  /** One more file of the loop of `updateDependenciesIfNeeded`. */
  lemma UpdateLoopSnoc(env: IdeEnvironment, loaders: seq<Loader>, files: seq<VirtualFile>, i: nat,
                       entries: map<FileId, ScriptDependencies>)
    requires i < |files|
    ensures var s := UpdateLoop(env, loaders, files[..i], entries);
            var file := KtFileToUpdate(env, files[i]);
            UpdateLoop(env, loaders, files[..i + 1], entries)
            == if file.Some? && !AreDependenciesCached(s.entries, file.value)
               then BatchState(AfterUpdate(loaders, file.value, s.entries),
                               s.calls + UpdateCalls(ApplicableLoaders(loaders, file.value), file.value), true)
               else s
  {
    assert files[..i + 1][..i] == files[..i];
  }

  // ---------------------------------------------------------------------------
  // Properties of the dispatch
  // ---------------------------------------------------------------------------

  /**
   * `updateDependencies` calls exactly the applicable loaders, each once, in
   * list order.
   */
  lemma {:induction false} ApplicableLoadersInOrder(loaders: seq<Loader>, file: KtFile)
    ensures forall i: nat :: i in ApplicableLoaders(loaders, file) <==> i < |loaders| && loaders[i].IsApplicable(file)
    ensures forall k, l :: 0 <= k < l < |ApplicableLoaders(loaders, file)| ==>
              ApplicableLoaders(loaders, file)[k] < ApplicableLoaders(loaders, file)[l]
  {
    if loaders != [] {
      var last := |loaders| - 1;
      ApplicableLoadersInOrder(loaders[..last], file);
      assert forall i :: 0 <= i < last ==> loaders[..last][i] == loaders[i];
    }
  }

  lemma {:induction false} UpdateCallsAre(indices: seq<nat>, file: KtFile)
    ensures |UpdateCalls(indices, file)| == |indices|
    ensures forall k :: 0 <= k < |indices| ==> UpdateCalls(indices, file)[k] == UpdateDependenciesCall(indices[k], file.Id())
  {
    if indices != [] {
      UpdateCallsAre(indices[..|indices| - 1], file);
    }
  }

  /** Loaders only ever write the entry of the file being updated. */
  lemma {:induction false} RunLoadersTouchesOnlyFile(loaders: seq<Loader>, indices: seq<nat>, file: KtFile,
                                                     entries: map<FileId, ScriptDependencies>)
    requires forall k :: 0 <= k < |indices| ==> indices[k] < |loaders|
    ensures entries.Keys <= RunLoaders(loaders, indices, file, entries).Keys <= entries.Keys + {file.Id()}
    ensures forall f :: f in entries && f != file.Id() ==> RunLoaders(loaders, indices, file, entries)[f] == entries[f]
  {
    if indices != [] {
      RunLoadersTouchesOnlyFile(loaders, indices[..|indices| - 1], file, entries);
    }
  }

  /**
   * `makeRootsChangeIfNeeded` asks the loaders in order and stops after the
   * first that answers true: every loader asked before the last one asked
   * answered false, and if not all were asked the last one asked answered true.
   */
  lemma RootsNotificationStopsAtFirstTrue(loaders: seq<Loader>)
    ensures |NotifyCalls(loaders, 0)| <= |loaders|
    ensures forall j :: 0 <= j < |NotifyCalls(loaders, 0)| ==> NotifyCalls(loaders, 0)[j] == NotifyRootsChangedCall(j)
    ensures forall j :: 0 <= j < |NotifyCalls(loaders, 0)| - 1 ==> !loaders[j].NotifyRootsChanged()
    ensures |NotifyCalls(loaders, 0)| < |loaders| ==>
              |NotifyCalls(loaders, 0)| > 0 && loaders[|NotifyCalls(loaders, 0)| - 1].NotifyRootsChanged()
  {
    NotifyCallsFrom(loaders, 0);
  }

  lemma {:induction false} NotifyCallsFrom(loaders: seq<Loader>, from: nat)
    requires from <= |loaders|
    ensures |NotifyCalls(loaders, from)| <= |loaders| - from
    ensures forall j :: 0 <= j < |NotifyCalls(loaders, from)| ==>
              NotifyCalls(loaders, from)[j] == NotifyRootsChangedCall(from + j)
    ensures forall j :: from <= j < from + |NotifyCalls(loaders, from)| - 1 ==> !loaders[j].NotifyRootsChanged()
    ensures from + |NotifyCalls(loaders, from)| < |loaders| ==>
              |NotifyCalls(loaders, from)| > 0 && loaders[from + |NotifyCalls(loaders, from)| - 1].NotifyRootsChanged()
    decreases |loaders| - from
  {
    if from < |loaders| && !loaders[from].NotifyRootsChanged() {
      NotifyCallsFrom(loaders, from + 1);
    }
  }

  /**
   * `updateDependenciesIfNeeded` reports that an update started exactly when
   * some file of the batch that has a Kotlin file to update was not cached
   * when the batch began; when none was, no loader is called and the cache
   * is untouched. The cache only ever gains entries.
   */
  lemma {:induction false} UpdateStartedIffSomeFileUncached(env: IdeEnvironment, loaders: seq<Loader>,
                                                            files: seq<VirtualFile>, entries: map<FileId, ScriptDependencies>)
    ensures UpdateLoop(env, loaders, files, entries).started <==>
              exists j :: 0 <= j < |files| && KtFileToUpdate(env, files[j]).Some?
                          && !AreDependenciesCached(entries, KtFileToUpdate(env, files[j]).value)
    ensures !UpdateLoop(env, loaders, files, entries).started ==>
              UpdateLoop(env, loaders, files, entries).entries == entries && UpdateLoop(env, loaders, files, entries).calls == []
    ensures entries.Keys <= UpdateLoop(env, loaders, files, entries).entries.Keys
  {
    if files != [] {
      var init := files[..|files| - 1];
      var last := files[|files| - 1];
      UpdateStartedIffSomeFileUncached(env, loaders, init, entries);
      var s := UpdateLoop(env, loaders, init, entries);
      assert forall j :: 0 <= j < |init| ==> init[j] == files[j];
      match KtFileToUpdate(env, last)
      case None =>
      case Some(file) =>
        if !AreDependenciesCached(s.entries, file) {
          RunLoadersTouchesOnlyFile(loaders, ApplicableLoaders(loaders, file), file, s.entries);
          assert !AreDependenciesCached(entries, file);
        }
    }
  }

  /**
   * `updateDependenciesIfNeeded` updates only the files that were not cached:
   * every loader call of the batch is an `updateDependencies` of a file of
   * the batch that has a Kotlin file to update and had no cached
   * dependencies when the batch began.
   */
  lemma {:induction false} UpdatesOnlyUncachedFiles(env: IdeEnvironment, loaders: seq<Loader>,
                                                    files: seq<VirtualFile>, entries: map<FileId, ScriptDependencies>)
    ensures forall c :: c in UpdateLoop(env, loaders, files, entries).calls ==>
              && c.UpdateDependenciesCall?
              && exists j :: 0 <= j < |files| && KtFileToUpdate(env, files[j]).Some? && files[j].id == c.file
                             && !AreDependenciesCached(entries, KtFileToUpdate(env, files[j]).value)
  {
    if files != [] {
      var init := files[..|files| - 1];
      var last := files[|files| - 1];
      UpdatesOnlyUncachedFiles(env, loaders, init, entries);
      UpdateStartedIffSomeFileUncached(env, loaders, init, entries);
      var s := UpdateLoop(env, loaders, init, entries);
      match KtFileToUpdate(env, last)
      case None =>
        UpdatedFileOfInit(env, init, files, entries, s.calls);
      case Some(file) =>
        if AreDependenciesCached(s.entries, file) {
          UpdatedFileOfInit(env, init, files, entries, s.calls);
        } else {
          var indices := ApplicableLoaders(loaders, file);
          UpdateCallsAre(indices, file);
          assert !AreDependenciesCached(entries, file);
          var r := UpdateLoop(env, loaders, files, entries);
          assert r.calls == s.calls + UpdateCalls(indices, file);
          UpdatedFileOfInit(env, init, files, entries, s.calls);
          forall c | c in UpdateCalls(indices, file)
            ensures && c.UpdateDependenciesCall?
                    && exists j :: 0 <= j < |files| && KtFileToUpdate(env, files[j]).Some? && files[j].id == c.file
                                   && !AreDependenciesCached(entries, KtFileToUpdate(env, files[j]).value)
          {
            var k :| 0 <= k < |indices| && UpdateCalls(indices, file)[k] == c;
            assert files[|files| - 1] == last;
          }
        }
    }
  }

  /** A call about a file of `init` is about a file of `files` when `init` is a prefix of `files`. */
  lemma UpdatedFileOfInit(env: IdeEnvironment, init: seq<VirtualFile>, files: seq<VirtualFile>,
                          entries: map<FileId, ScriptDependencies>, calls: seq<LoaderCall>)
    requires |init| <= |files| && init == files[..|init|]
    requires forall c :: c in calls ==>
               && c.UpdateDependenciesCall?
               && exists j :: 0 <= j < |init| && KtFileToUpdate(env, init[j]).Some? && init[j].id == c.file
                              && !AreDependenciesCached(entries, KtFileToUpdate(env, init[j]).value)
    ensures forall c :: c in calls ==>
              && c.UpdateDependenciesCall?
              && exists j :: 0 <= j < |files| && KtFileToUpdate(env, files[j]).Some? && files[j].id == c.file
                             && !AreDependenciesCached(entries, KtFileToUpdate(env, files[j]).value)
  {
    forall c | c in calls
      ensures exists j :: 0 <= j < |files| && KtFileToUpdate(env, files[j]).Some? && files[j].id == c.file
                          && !AreDependenciesCached(entries, KtFileToUpdate(env, files[j]).value)
    {
      var j :| 0 <= j < |init| && KtFileToUpdate(env, init[j]).Some? && init[j].id == c.file
               && !AreDependenciesCached(entries, KtFileToUpdate(env, init[j]).value);
      assert files[j] == init[j];
    }
  }

  // ---------------------------------------------------------------------------
  // Document changes
  // ---------------------------------------------------------------------------

  /** What `documentChanged` decides for the file of the changed document. */
  datatype DocumentChange =
    | Ignored
    | Evicted(evicted: FileId)
    | UpdateScheduled(scheduled: KtFile)

  /**
   * The decision of `documentChanged` as the source writes it: the file is
   * resolved with `getKtFileToUpdateDependencies` before its validity is
   * checked.
   */
  function DocumentChangedAsWritten(env: IdeEnvironment, document: Option<VirtualFile>,
                                    entries: map<FileId, ScriptDependencies>): (d: DocumentChange)
    ensures d.UpdateScheduled? ==> document.Some? && d.scheduled.Id() in entries && d.scheduled.virtualFile == document.value
  {
    if document.None? || !document.value.isInLocalFileSystem then Ignored
    else
      match KtFileToUpdate(env, document.value)
      case None => Ignored
      case Some(file) =>
        if !document.value.isValid then Evicted(file.Id())
        else if file.Id() !in entries then Ignored
        else UpdateScheduled(file)
  }

  /**
   * The evident intent of `documentChanged`: a changed file that is no longer
   * valid loses its cache entry; a valid one is updated only if it has one.
   */
  function DocumentChangedDecision(env: IdeEnvironment, document: Option<VirtualFile>,
                                   entries: map<FileId, ScriptDependencies>): (d: DocumentChange)
    ensures d.UpdateScheduled? ==> document.Some? && d.scheduled.Id() in entries && d.scheduled.virtualFile == document.value
  {
    if document.None? || !document.value.isInLocalFileSystem then Ignored
    else if !document.value.isValid then Evicted(document.value.id)
    else
      match KtFileToUpdate(env, document.value)
      case None => Ignored
      case Some(file) =>
        if file.Id() !in entries then Ignored
        else UpdateScheduled(file)
  }

  /**
   * As written, the eviction branch is dead: `getKtFileToUpdateDependencies`
   * already yields nothing for an invalid file, so no document change ever
   * evicts a cache entry.
   */
  lemma AsWrittenNeverEvicts(env: IdeEnvironment, document: Option<VirtualFile>, entries: map<FileId, ScriptDependencies>)
    ensures !DocumentChangedAsWritten(env, document, entries).Evicted?
  {
  }

  /** A deleted script whose dependencies are cached keeps its stale entry as written. */
  lemma StaleEntryKeptAsWritten()
    ensures
      var script := VirtualFile(7, false, true, true, true, true, None);
      var env := IdeEnvironment(false, false, false, true);
      var entries := map[7 := Resolved(1)];
      DocumentChangedAsWritten(env, Some(script), entries) == Ignored
      && DocumentChangedDecision(env, Some(script), entries) == Evicted(7)
  {
  }

  /** The intended decision evicts every invalid local file and agrees with the source on valid files. */
  lemma DocumentChangedDecisionSpec(env: IdeEnvironment, document: Option<VirtualFile>, entries: map<FileId, ScriptDependencies>)
    ensures document.Some? && document.value.isInLocalFileSystem && !document.value.isValid ==>
              DocumentChangedDecision(env, document, entries) == Evicted(document.value.id)
    ensures document.Some? && document.value.isValid ==>
              DocumentChangedDecision(env, document, entries) == DocumentChangedAsWritten(env, document, entries)
    ensures document.Some? && document.value.isValid && KtFileToUpdate(env, document.value).Some?
            && document.value.id !in entries ==>
              DocumentChangedDecision(env, document, entries) == Ignored
    ensures document.Some? && document.value.isInLocalFileSystem && document.value.isValid
            && KtFileToUpdate(env, document.value).Some? && document.value.id in entries ==>
              DocumentChangedDecision(env, document, entries) == UpdateScheduled(KtFile(document.value))
  {
  }

  // ---------------------------------------------------------------------------
  // The updater
  // ---------------------------------------------------------------------------

  class ScriptDependenciesUpdater {
    const env: IdeEnvironment
    const cache: ScriptDependenciesCache
    const loaders: seq<Loader>
    /** The calls made on the loaders, in order. */
    var log: seq<LoaderCall>

    /**
     * The loaders in their fixed order: file attribute, outsider, asynchronous,
     * synchronous.
     */
    constructor (env: IdeEnvironment, cache: ScriptDependenciesCache, fromFileAttributeRootsChanged: bool,
                 outsider: LoaderBehaviour, async: LoaderBehaviour, sync: LoaderBehaviour)
      ensures this.env == env && this.cache == cache
      ensures loaders == [FromFileAttributeScriptDependenciesLoader(fromFileAttributeRootsChanged),
                          OutsiderFileDependenciesLoader(outsider),
                          AsyncScriptDependenciesLoader(async),
                          SyncScriptDependenciesLoader(sync)]
      ensures log == []
    {
      this.env := env;
      this.cache := cache;
      loaders := [FromFileAttributeScriptDependenciesLoader(fromFileAttributeRootsChanged),
                  OutsiderFileDependenciesLoader(outsider),
                  AsyncScriptDependenciesLoader(async),
                  SyncScriptDependenciesLoader(sync)];
      log := [];
    }

    /** `getCurrentDependencies`: a cache hit runs no loader. */
    method GetCurrentDependencies(file: KtFile) returns (deps: ScriptDependencies)
      modifies this, cache
      ensures file.Id() in old(cache.entries) ==>
                deps == old(cache.entries)[file.Id()] && log == old(log) && cache.entries == old(cache.entries)
      ensures file.Id() !in old(cache.entries) ==>
                && cache.entries == AfterUpdate(loaders, file, old(cache.entries))
                && log == old(log) + UpdateCalls(ApplicableLoaders(loaders, file), file) + NotifyCalls(loaders, 0)
                && deps == (if file.Id() in cache.entries then cache.entries[file.Id()] else Empty)
    {
      var cached := cache.Get(file);
      if cached.Some? {
        return cached.value;
      }
      UpdateDependencies(file);
      MakeRootsChangeIfNeeded();
      var now := cache.Get(file);
      deps := if now.Some? then now.value else Empty;
    }

    /**
     * `updateDependenciesIfNeeded`: nothing happens while the script
     * definitions are not ready; otherwise every file not yet cached is
     * updated and the roots are notified iff some update started.
     */
    method UpdateDependenciesIfNeeded(virtualFiles: seq<VirtualFile>) returns (wasDependenciesUpdateStarted: bool)
      modifies this, cache
      ensures !env.definitionsReady ==>
                !wasDependenciesUpdateStarted && log == old(log) && cache.entries == old(cache.entries)
      ensures env.definitionsReady ==>
                var b := UpdateLoop(env, loaders, virtualFiles, old(cache.entries));
                && wasDependenciesUpdateStarted == b.started
                && cache.entries == b.entries
                && log == old(log) + b.calls + (if b.started then NotifyCalls(loaders, 0) else [])
    {
      if !env.definitionsReady {
        return false;
      }
      wasDependenciesUpdateStarted := false;
      var i := 0;
      while i < |virtualFiles|
        invariant 0 <= i <= |virtualFiles|
        invariant |old(log)| <= |log| && log[..|old(log)|] == old(log)
        invariant UpdateLoop(env, loaders, virtualFiles[..i], old(cache.entries))
                  == BatchState(cache.entries, log[|old(log)|..], wasDependenciesUpdateStarted)
      {
        UpdateLoopSnoc(env, loaders, virtualFiles, i, old(cache.entries));
        var file := KtFileToUpdate(env, virtualFiles[i]);
        if file.Some? && !AreDependenciesCached(cache.entries, file.value) {
          wasDependenciesUpdateStarted := true;
          ghost var before := log;
          UpdateDependencies(file.value);
          assert log[|old(log)|..] == before[|old(log)|..] + UpdateCalls(ApplicableLoaders(loaders, file.value), file.value);
        }
        i := i + 1;
      }
      assert virtualFiles[..i] == virtualFiles;
      assert log == old(log) + log[|old(log)|..];
      if wasDependenciesUpdateStarted {
        MakeRootsChangeIfNeeded();
      }
    }

    /** `updateDependencies`: every applicable loader, in list order. */
    method UpdateDependencies(file: KtFile)
      modifies this, cache
      ensures log == old(log) + UpdateCalls(ApplicableLoaders(loaders, file), file)
      ensures cache.entries == AfterUpdate(loaders, file, old(cache.entries))
    {
      var applicable := ApplicableLoaders(loaders, file);
      var j := 0;
      while j < |applicable|
        invariant 0 <= j <= |applicable|
        invariant log == old(log) + UpdateCalls(applicable[..j], file)
        invariant cache.entries == RunLoaders(loaders, applicable[..j], file, old(cache.entries))
      {
        assert applicable[..j + 1][..j] == applicable[..j];
        RunLoader(applicable[j], file);
        j := j + 1;
      }
      assert applicable[..j] == applicable;
    }

    /** One loader's `updateDependencies(file)`. */
    method RunLoader(index: nat, file: KtFile)
      requires index < |loaders|
      modifies this, cache
      ensures log == old(log) + [UpdateDependenciesCall(index, file.Id())]
      ensures cache.entries == loaders[index].Update(old(cache.entries), file)
    {
      log := log + [UpdateDependenciesCall(index, file.Id())];
      var loader := loaders[index];
      if loader.FromFileAttributeScriptDependenciesLoader? {
        FromFileAttributeLoader.LoadDependencies(file, cache);
      } else if file.Id() in loader.behaviour.loads {
        cache.Save(file, loader.behaviour.loads[file.Id()]);
      }
    }

    /** `makeRootsChangeIfNeeded`: ask the loaders in order until one answers true. */
    method MakeRootsChangeIfNeeded()
      modifies this
      ensures log == old(log) + NotifyCalls(loaders, 0)
    {
      var i := 0;
      while i < |loaders|
        invariant 0 <= i <= |loaders|
        invariant log + NotifyCalls(loaders, i) == old(log) + NotifyCalls(loaders, 0)
        decreases |loaders| - i
      {
        var call := [NotifyRootsChangedCall(i)];
        var stop := loaders[i].NotifyRootsChanged();
        ghost var rest := if stop then [] else NotifyCalls(loaders, i + 1);
        assert NotifyCalls(loaders, i) == call + rest;
        assert log + NotifyCalls(loaders, i) == (log + call) + rest;
        log := log + call;
        if stop {
          return;
        }
        i := i + 1;
      }
      assert NotifyCalls(loaders, i) == [];
    }

    /**
     * The cache decision of `documentChanged`; a scheduled update is run
     * later by `RunScheduledUpdate`.
     */
    method DocumentChanged(document: Option<VirtualFile>) returns (decision: DocumentChange)
      modifies cache
      ensures decision == DocumentChangedDecision(env, document, old(cache.entries))
      ensures cache.entries == if decision.Evicted? then old(cache.entries) - {decision.evicted} else old(cache.entries)
    {
      decision := DocumentChangedDecision(env, document, cache.entries);
      if decision.Evicted? {
        cache.Delete(decision.evicted);
      }
    }

    /** The request scheduled by `documentChanged`, once the delay has passed. */
    method RunScheduledUpdate(file: KtFile)
      modifies this, cache
      ensures cache.entries == AfterUpdate(loaders, file, old(cache.entries))
      ensures log == old(log) + UpdateCalls(ApplicableLoaders(loaders, file), file) + NotifyCalls(loaders, 0)
    {
      UpdateDependencies(file);
      MakeRootsChangeIfNeeded();
    }

    /**
     * `runScriptDependenciesUpdateIfNeeded`, run when a file is opened or
     * selected: unlike a batch, it updates without consulting the cache.
     */
    method FileOpened(virtualFile: VirtualFile)
      modifies this, cache
      ensures KtFileToUpdate(env, virtualFile).None? ==> log == old(log) && cache.entries == old(cache.entries)
      ensures KtFileToUpdate(env, virtualFile).Some? ==>
                var file := KtFileToUpdate(env, virtualFile).value;
                && cache.entries == AfterUpdate(loaders, file, old(cache.entries))
                && log == old(log) + UpdateCalls(ApplicableLoaders(loaders, file), file) + NotifyCalls(loaders, 0)
    {
      var file := KtFileToUpdate(env, virtualFile);
      if file.None? {
        return;
      }
      UpdateDependencies(file.value);
      MakeRootsChangeIfNeeded();
    }
  }
}
