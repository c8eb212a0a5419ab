/**
 Zipped plugins: the loader registries and the directory cache
 (maubot/loader/zip.py, maubot/loader/abc.py, maubot/lib/zipimport.py) and the
 upload that replaces a plugin (maubot/management/api/plugin_upload.py).

 What foreign code makes of a file (the metadata, the preload checks, importing
 the modules) is a verdict passed to each operation, so that every statement
 holds however that code accepts, refuses or raises.
 */
module PluginLoader {
  import opened Wrappers
  import opened ByteCodec
  import opened ZipDirectory
  import opened UploadNames

  type Path = string

  type PluginId = string

  datatype Meta = Meta(id: PluginId, version: string)

  /** A zipimporter object. */
  datatype Importer = Importer(archive: Path, files: Directory)

  datatype Check = Good | Refused | Crashed

  /**
   What `_load_meta` finds.  Metadata that cannot be read may raise an exception of
   another kind; metadata that can be read may still be unusable (no modules, say),
   which raises after the loader has taken it over.
   */
  datatype Metadata = Unreadable(crash: bool) | Readable(meta: Meta, usable: bool)

  /** What one load finds: the metadata in the file, the preload checks, the modules. */
  datatype Verdict = Verdict(metadata: Metadata, preload: Check, modules: Check)
  {
    function Version(): string {
      if metadata.Readable? then metadata.meta.version else ""
    }
  }

  /** `ImportFailed` is a MaubotZipImportError; `Escaped` is any exception that is none. */
  datatype LoadError = ImportFailed | IdConflict | Escaped

  datatype Outcome = Done | Failed(error: LoadError)

  /** The answers of the upload endpoint; `Uncaught` is an exception it lets through, rolled back or not. */
  datatype UploadResult = Created | Updated | ImportError | ReloadError | Uncaught(rolledBack: bool)

  datatype Operation =
    | GetPlugin(path: Path, verdict: Verdict)
    | ReloadPlugin(id: PluginId, newPath: Option<Path>, verdict: Verdict)
    | DeletePlugin(id: PluginId)
    | NewPlugin(path: Path, content: Bytes, verdict: Verdict)
    | LoadFiles(files: seq<Path>, verdicts: seq<Verdict>)
    | ReplacePlugin(
        id: PluginId, content: Bytes, newFile: Path, first: Verdict, back: Verdict, starts: Check, restarts: Check)
    | OverwriteFile(path: Path, content: Bytes)
    | RemoveFile(path: Path)

  class ZippedPluginLoader {
    var path: Option<Path>
    var meta: Option<Meta>
    var importer: Option<Importer>
    var loaded: bool

    constructor (path: Path)
      ensures this.path == Some(path) && meta == None && importer == None && !loaded
    {
      this.path := Some(path);
      meta, importer, loaded := None, None, false;
    }
  }

  /** The class-level caches, the zip directory cache and the plugin files. */
  class Registry {
    var pathCache: map<Path, ZippedPluginLoader>
    var idCache: map<PluginId, ZippedPluginLoader>
    var zipCache: map<Path, Directory>
    var disk: map<Path, Bytes>
    const decode: Decoder

    constructor (disk: map<Path, Bytes>, decode: Decoder)
      ensures Valid() && pathCache == map[] && idCache == map[] && zipCache == map[]
      ensures this.disk == disk && this.decode == decode
    {
      this.disk, this.decode := disk, decode;
      pathCache, idCache, zipCache := map[], map[], map[];
    }

    ghost predicate PathsInverse()
      reads this`pathCache, pathCache.Values`path
    {
      forall p | p in pathCache :: pathCache[p].path == Some(p)
    }

    ghost predicate IdsInverse()
      reads this`idCache, idCache.Values`meta, idCache.Values`path
    {
      forall i | i in idCache :: idCache[i].path.Some? && idCache[i].meta.Some? && idCache[i].meta.value.id == i
    }

    /**
     What survives everything: the registries are inverse to the paths and ids of
     the loaders, and the paths know no loader that the ids do not know.
     */
    ghost predicate Coherent()
      reads this`pathCache, this`idCache, pathCache.Values`path, idCache.Values`meta, idCache.Values`path
    {
      PathsInverse() && IdsInverse() && pathCache.Values <= idCache.Values
    }

    /** Every loader is registered both ways. */
    ghost predicate Complete()
      reads this`pathCache, this`idCache
    {
      idCache.Values <= pathCache.Values
    }

    /** The two registries are inverse to the paths and ids of the loaders, and hold the same loaders. */
    ghost predicate Valid()
      reads this`pathCache, this`idCache, pathCache.Values`path, idCache.Values`meta, idCache.Values`path
    {
      Coherent() && Complete()
    }

    /** What the directory of the file now at `p` parses to. */
    ghost function Parsed(p: Path): Result<Directory, ZipError>
      reads this`disk
    {
      if p in disk then DirectoryOf(disk[p], decode) else Err(CannotOpen)
    }

    /** A file with this directory, and these verdicts, loads as the plugin of this id. */
    predicate LoadsAs(dir: Result<Directory, ZipError>, id: PluginId, verdict: Verdict) {
      && dir.Ok? && verdict.metadata.Readable? && verdict.metadata.usable && verdict.metadata.meta.id == id
      && verdict.preload.Good? && verdict.modules.Good?
    }

    /** Loading the file ends in an exception that is no MaubotZipImportError. */
    predicate BreaksAs(dir: Result<Directory, ZipError>, id: PluginId, verdict: Verdict) {
      match verdict.metadata
      case Unreadable(crash) => crash
      case Readable(meta, usable) =>
        && meta.id == id
        && (|| !usable
            || (dir.Err? && !dir.error.IsZipImportError())
            || (dir.Ok? && (verdict.preload.Crashed? || (verdict.preload.Good? && verdict.modules.Crashed?))))
    }

    lemma {:induction false} LoadsOrBreaks(dir: Result<Directory, ZipError>, id: PluginId, verdict: Verdict)
      ensures !(LoadsAs(dir, id, verdict) && BreaksAs(dir, id, verdict))
    {
    }

    /** No two registered loaders share an id or a path. */
    lemma {:induction false} NoSharing(a: ZippedPluginLoader, b: ZippedPluginLoader)
      requires Valid() && a in idCache.Values && b in idCache.Values
      ensures pathCache.Values == idCache.Values
      ensures a.path.Some? && a.meta.Some?
      ensures a.path == b.path ==> a == b
      ensures a.meta.Some? && b.meta.Some? && a.meta.value.id == b.meta.value.id ==> a == b
    {
    }

    /** The metadata in the loader's file can be read and has the id the loader had, if it had one. */
    predicate AcceptsMeta(l: ZippedPluginLoader, verdict: Verdict)
      reads this`disk, l
    {
      && l.path.Some? && l.path.value in disk && verdict.metadata.Readable?
      && (l.meta.Some? ==> verdict.metadata.meta.id == l.meta.value.id)
    }

    // `_load_meta`
    method LoadMeta(l: ZippedPluginLoader, verdict: Verdict) returns (r: Outcome)
      requires l.path.Some?
      modifies l`meta
      ensures r.Done? <==> old(AcceptsMeta(l, verdict)) && verdict.metadata.usable
      ensures l.meta == if old(AcceptsMeta(l, verdict)) then Some(verdict.metadata.meta) else old(l.meta)
      ensures r.Failed? ==>
                r.error == (if l.path.value in disk
                               && (if verdict.metadata.Readable? then old(AcceptsMeta(l, verdict)) else verdict.metadata.crash)
                            then Escaped else ImportFailed)
    {
      if l.path.value !in disk {
        return Failed(ImportFailed);
      }
      if verdict.metadata.Unreadable? {
        return Failed(if verdict.metadata.crash then Escaped else ImportFailed);
      }
      if l.meta.Some? && verdict.metadata.meta.id != l.meta.value.id {
        return Failed(ImportFailed);
      }
      l.meta := Some(verdict.metadata.meta);
      if !verdict.metadata.usable {
        return Failed(Escaped);
      }
      return Done;
    }

    // `_read_directory` on the file at `p`
    method ReadArchive(p: Path) returns (r: Result<Directory, ZipError>)
      ensures r == Parsed(p)
    {
      if p !in disk {
        return Err(CannotOpen);
      }
      r := ReadDirectory(disk[p], decode);
    }

    predicate HasImporter(l: ZippedPluginLoader)
      reads l
    {
      l.importer.Some? && l.path == Some(l.importer.value.archive)
    }

    // `_get_importer`: may start from a stale cache entry unless told to reset it
    method GetImporter(l: ZippedPluginLoader, reset: bool) returns (r: Outcome)
      requires l.path.Some?
      modifies this`zipCache, l`importer
      ensures r.Done? <==>
                && (old(HasImporter(l)) || (l.path.value in disk && (l.path.value in old(zipCache) || Parsed(l.path.value).Ok?)))
                && (reset ==> Parsed(l.path.value).Ok?)
      ensures r.Done? ==>
                && l.importer.Some? && l.importer.value.archive == l.path.value
                && (reset ==>
                      && Parsed(l.path.value) == Ok(l.importer.value.files)
                      && l.path.value in zipCache && zipCache[l.path.value] == l.importer.value.files)
      ensures r.Failed? ==> r.error != IdConflict
      ensures old(zipCache).Keys <= zipCache.Keys && (r.Failed? && !reset ==> zipCache == old(zipCache))
      ensures r.Failed? && l.path.value in disk ==>
                (r.error == Escaped <==> Parsed(l.path.value).Err? && !Parsed(l.path.value).error.IsZipImportError())
    {
      hide DirectoryOf, ZipError.IsZipImportError;
      var p := l.path.value;
      if l.importer.None? || l.importer.value.archive != p {
        if p !in disk {
          return Failed(ImportFailed);
        }
        if p !in zipCache {
          var first := ReadArchive(p);
          if first.Err? {
            return Failed(if first.error.IsZipImportError() then ImportFailed else Escaped);
          }
          zipCache := zipCache[p := first.value];
        }
        l.importer := Some(Importer(p, zipCache[p]));
      }
      if reset {
        var again := ReadArchive(p);
        if again.Err? {
          return Failed(if again.error.IsZipImportError() then ImportFailed else Escaped);
        }
        l.importer := Some(Importer(p, again.value));
        zipCache := zipCache[p := again.value];
      }
      return Done;
    }

    // A check that drops the cache entry when it refuses the file
    method RunCheck(l: ZippedPluginLoader, check: Check) returns (r: Outcome)
      requires l.importer.Some?
      modifies this`zipCache
      ensures r == match check case Good => Done case Refused => Failed(ImportFailed) case Crashed => Failed(Escaped)
      ensures zipCache == if check.Refused? then old(zipCache) - {l.importer.value.archive} else old(zipCache)
    {
      if check.Refused? {
        zipCache := zipCache - {l.importer.value.archive};
      }
      r := match check case Good => Done case Refused => Failed(ImportFailed) case Crashed => Failed(Escaped);
    }

    /** The importer and the directory cache hold a fresh parse of the loader's file. */
    ghost predicate Fresh(l: ZippedPluginLoader)
      reads this, l
    {
      && l.path.Some? && l.importer.Some? && l.importer.value.archive == l.path.value
      && Parsed(l.path.value) == Ok(l.importer.value.files)
      && l.path.value in zipCache && zipCache[l.path.value] == l.importer.value.files
    }

    // `load`
    method Load(l: ZippedPluginLoader, reset: bool, verdict: Verdict) returns (r: Outcome)
      requires l.path.Some?
      modifies this`zipCache, l`meta, l`importer, l`loaded
      ensures r.Done? ==> l.loaded
      ensures reset ==>
                (r.Done? <==> old(AcceptsMeta(l, verdict)) && verdict.metadata.usable && Parsed(l.path.value).Ok?
                              && verdict.preload.Good? && verdict.modules.Good?)
      ensures r.Done? && reset ==> Fresh(l) && l.meta == Some(verdict.metadata.meta)
      ensures old(l.meta).Some? ==> l.meta.Some? && l.meta.value.id == old(l.meta).value.id
      ensures !r.Done? ==> l.loaded == old(l.loaded) && r.error != IdConflict
      ensures r.Failed? && reset && old(l.meta).Some? ==>
                (r.error == Escaped <==>
                   l.path.value in disk && BreaksAs(Parsed(l.path.value), old(l.meta).value.id, verdict))
    {
      hide DirectoryOf;
      if l.loaded && !reset {
        return Done;
      }
      r := LoadMeta(l, verdict);
      if r.Failed? { return; }
      r := GetImporter(l, reset);
      if r.Failed? { return; }
      r := RunCheck(l, verdict.preload);
      if r.Failed? { return; }
      r := RunCheck(l, verdict.modules);
      if r.Failed? { return; }
      l.loaded := true;
    }

    /** A file that makes a loader: metadata, a directory (`cached`: perhaps an old one), the preload checks. */
    predicate PreloadsAs(cached: bool, dir: Result<Directory, ZipError>, verdict: Verdict) {
      && verdict.metadata.Readable? && verdict.metadata.usable
      && (cached || dir.Ok?) && verdict.preload.Good?
    }

    /** Preloading the file ends in an exception that is no MaubotZipImportError. */
    predicate PreloadBreaksAs(cached: bool, dir: Result<Directory, ZipError>, verdict: Verdict) {
      match verdict.metadata
      case Unreadable(crash) => crash
      case Readable(_, usable) =>
        || !usable
        || (!cached && dir.Err? && !dir.error.IsZipImportError())
        || ((cached || dir.Ok?) && verdict.preload.Crashed?)
    }

    ghost predicate Preloads(p: Path, verdict: Verdict)
      reads this
    {
      p in disk && PreloadsAs(p in zipCache, Parsed(p), verdict)
    }

    ghost predicate PreloadBreaks(p: Path, verdict: Verdict)
      reads this
    {
      p in disk && PreloadBreaksAs(p in zipCache, Parsed(p), verdict)
    }

    // The part of `__init__` before the registries are touched
    method Preload(p: Path, verdict: Verdict) returns (r: Result<ZippedPluginLoader, LoadError>)
      modifies this`zipCache
      ensures r.Ok? <==> old(Preloads(p, verdict))
      ensures r.Ok? ==> verdict.metadata.Readable? && fresh(r.value) && r.value.path == Some(p) && r.value.meta == Some(verdict.metadata.meta)
      ensures r.Err? ==> r.error == if old(PreloadBreaks(p, verdict)) then Escaped else ImportFailed
      ensures r.Err? && r.error == Escaped ==> PreloadBreaks(p, verdict)
    {
      hide DirectoryOf, ZipError.IsZipImportError;
      var l := new ZippedPluginLoader(p);
      var o := LoadMeta(l, verdict);
      if o.Failed? { return Err(o.error); }
      o := GetImporter(l, false);
      if o.Failed? { return Err(o.error); }
      o := RunCheck(l, verdict.preload);
      if o.Failed? { return Err(o.error); }
      return Ok(l);
    }

    // `get`: the registered loader of the path, or a new one
    method Get(p: Path, verdict: Verdict) returns (r: Result<ZippedPluginLoader, LoadError>)
      requires Coherent()
      modifies this`pathCache, this`idCache, this`zipCache
      ensures Coherent() && (Valid() <==> old(Valid())) && fresh(idCache.Values - old(idCache.Values))
      ensures r.Ok? <==>
                p in old(pathCache) || (old(Preloads(p, verdict)) && verdict.metadata.meta.id !in old(idCache))
      ensures p in old(pathCache) ==> r == Ok(old(pathCache)[p])
      ensures r.Ok? && p !in old(pathCache) ==>
                && fresh(r.value) && r.value.path == Some(p) && r.value.meta == Some(verdict.metadata.meta)
                && pathCache == old(pathCache)[p := r.value]
                && idCache == old(idCache)[verdict.metadata.meta.id := r.value]
      ensures r.Err? || p in old(pathCache) ==> pathCache == old(pathCache) && idCache == old(idCache)
      ensures r.Err? ==> r.error == (if old(Preloads(p, verdict)) then IdConflict
                                     else if old(PreloadBreaks(p, verdict)) then Escaped else ImportFailed)
      ensures r.Err? && r.error == Escaped ==> PreloadBreaks(p, verdict)
    {
      hide Parsed, Preloads, PreloadBreaks;
      if p in pathCache {
        return Ok(pathCache[p]);
      }
      r := Preload(p, verdict);
      if r.Err? {
        return;
      }
      var l := r.value;
      if l.meta.value.id in idCache {
        return Err(IdConflict);
      }
      Registers(p, l);
      pathCache := pathCache[p := l];
      idCache := idCache[l.meta.value.id := l];
    }

    /** Adding a new loader to both registries adds it to the values of both. */
    lemma {:induction false} Registers(p: Path, l: ZippedPluginLoader)
      requires p !in pathCache && l.meta.Some? && l.meta.value.id !in idCache
      ensures pathCache[p := l].Values == pathCache.Values + {l}
      ensures idCache[l.meta.value.id := l].Values == idCache.Values + {l}
    {
      ValuesAfterInsert(pathCache, p, l);
      ValuesAfterInsert(idCache, l.meta.value.id, l);
    }

    /** A loader sits under its own id, and if it is known by path at all, under its own path. */
    lemma {:induction false} RegisteredEntries(l: ZippedPluginLoader)
      requires Coherent() && l in idCache.Values
      ensures l.path.Some? && l.meta.Some? && l.meta.value.id in idCache && idCache[l.meta.value.id] == l
      ensures l in pathCache.Values <==> l.path.value in pathCache && pathCache[l.path.value] == l
    {
      var i :| i in idCache && idCache[i] == l;
      if l in pathCache.Values {
        var p :| p in pathCache && pathCache[p] == l;
      }
    }

    // The first half of `reload`: the loader moves to another path, whoever may own it
    method Move(l: ZippedPluginLoader, newPath: Path)
      requires Coherent() && l in idCache.Values
      modifies this`pathCache, l`path
      ensures Coherent() && l.path == Some(newPath)
      ensures old(l.path).Some?
      ensures pathCache == if l.path == old(l.path) then old(pathCache)
                           else (old(pathCache) - {old(l.path).value})[newPath := l]
      ensures pathCache.Values <= old(pathCache.Values) + {l}
      ensures l.path != old(l.path) && newPath in old(pathCache) ==> old(pathCache)[newPath] !in pathCache.Values
      ensures old(Valid()) ==> (Valid() <==> l.path == old(l.path) || newPath !in old(pathCache))
    {
      RegisteredEntries(l);
      if l.path != Some(newPath) {
        if Valid() {
          MovedValues(pathCache, l.path.value, newPath, l);
        }
        pathCache := pathCache - {l.path.value};
        l.path := Some(newPath);
        pathCache := pathCache[newPath := l];
      }
    }

    // The second half: the code is loaded afresh, and the id cannot change
    method LoadAgain(l: ZippedPluginLoader, verdict: Verdict) returns (r: Outcome)
      requires Coherent() && l in idCache.Values && l.path.Some? && l.meta.Some?
      modifies this`zipCache, l`meta, l`importer, l`loaded
      ensures Coherent() && (Valid() <==> old(Valid()))
      ensures l.meta.Some? && l.meta.value.id == old(l.meta).value.id
      ensures r.Done? <==> l.path.value in disk && LoadsAs(Parsed(l.path.value), old(l.meta).value.id, verdict)
      ensures r.Failed? ==>
                (r.error == Escaped <==>
                   l.path.value in disk && BreaksAs(Parsed(l.path.value), old(l.meta).value.id, verdict))
      ensures r.Done? ==> l.loaded && Fresh(l) && l.meta == Some(verdict.metadata.meta)
      ensures r.Failed? ==> !l.loaded && r.error != IdConflict
    {
      hide Fresh, Parsed, PathsInverse, Complete, BreaksAs;
      l.loaded := false;
      r := Load(l, true, verdict);
    }

    // `reload`
    method Reload(l: ZippedPluginLoader, newPath: Option<Path>, verdict: Verdict) returns (r: Outcome)
      requires Coherent() && l in idCache.Values
      modifies this`pathCache, this`zipCache, l
      ensures Coherent() && old(l.path).Some? && old(l.meta).Some?
      ensures l.path == (if newPath.None? then old(l.path) else newPath)
      ensures pathCache == if l.path == old(l.path) then old(pathCache)
                           else (old(pathCache) - {old(l.path).value})[l.path.value := l]
      ensures pathCache.Values <= old(pathCache.Values) + {l}
      ensures l.path != old(l.path) && l.path.value in old(pathCache) ==> old(pathCache)[l.path.value] !in pathCache.Values
      ensures l.meta.Some? && l.meta.value.id == old(l.meta).value.id
      ensures r.Done? <==> l.path.value in disk && LoadsAs(Parsed(l.path.value), old(l.meta).value.id, verdict)
      ensures r.Failed? ==>
                (r.error == Escaped <==>
                   l.path.value in disk && BreaksAs(Parsed(l.path.value), old(l.meta).value.id, verdict))
      ensures r.Done? ==> l.loaded && Fresh(l) && l.meta == Some(verdict.metadata.meta)
      ensures r.Failed? ==> !l.loaded && r.error != IdConflict
      ensures old(Valid()) ==> (Valid() <==> l.path == old(l.path) || l.path.value !in old(pathCache))
    {
      hide Fresh, Parsed, Coherent, Complete, BreaksAs, LoadsAs;
      RegisteredEntries(l);
      if newPath.Some? {
        Move(l, newPath.value);
      }
      r := LoadAgain(l, verdict);
    }

    // `trash`: the file is gone from its path
    method Trash(p: Path)
      modifies this`disk
      ensures disk == old(disk) - {p}
      ensures forall q | q != p :: Parsed(q) == old(Parsed(q))
    {
      hide DirectoryOf;
      disk := disk - {p};
    }

    method WriteFile(p: Path, content: Bytes)
      modifies this`disk
      ensures disk == old(disk)[p := content]
      ensures Parsed(p) == DirectoryOf(content, decode) && forall q | q != p :: Parsed(q) == old(Parsed(q))
    {
      hide DirectoryOf;
      disk := disk[p := content];
    }

    // The first half of `delete`: both entries go
    method Unregister(l: ZippedPluginLoader)
      requires Coherent() && l in idCache.Values
      modifies this`pathCache, this`idCache
      ensures Coherent() && (old(Valid()) ==> Valid()) && l.path.Some? && l.meta.Some?
      ensures pathCache == old(pathCache) - {l.path.value} && idCache == old(idCache) - {l.meta.value.id}
      ensures l !in pathCache.Values && idCache.Values == old(idCache.Values) - {l}
    {
      RegisteredEntries(l);
      DeletedValues(l);
      pathCache := pathCache - {l.path.value};
      idCache := idCache - {l.meta.value.id};
    }

    // `delete`
    method Delete(l: ZippedPluginLoader)
      requires Coherent() && l in idCache.Values
      modifies this, l
      ensures Coherent() && (old(Valid()) ==> Valid())
      ensures old(l.path).Some? && old(l.meta).Some?
      ensures pathCache == old(pathCache) - {old(l.path).value} && idCache == old(idCache) - {old(l.meta).value.id}
      ensures l !in pathCache.Values && idCache.Values == old(idCache.Values) - {l} && l.path == None && l.meta == None
      ensures disk == old(disk) - {old(l.path).value} && l.importer == None
      ensures zipCache == if old(l.importer).Some? then old(zipCache) - {old(l.importer).value.archive} else old(zipCache)
    {
      hide Coherent, Complete, Parsed;
      l.loaded := false;
      Unregister(l);
      if l.importer.Some? {
        zipCache := zipCache - {l.importer.value.archive};
        l.importer := None;
      }
      Trash(l.path.value);
      l.meta := None;
      l.path := None;
    }

    /** Which loaders are left when the entries of one go. */
    lemma {:induction false} DeletedValues(l: ZippedPluginLoader)
      requires Coherent() && l in idCache.Values && l.path.Some? && l.meta.Some?
      ensures (idCache - {l.meta.value.id}).Values == idCache.Values - {l}
      ensures (pathCache - {l.path.value}).Values <= pathCache.Values - {l}
      ensures Valid() ==> (pathCache - {l.path.value}).Values == pathCache.Values - {l}
    {
      RegisteredEntries(l);
      ValuesAfterRemove(idCache, l.meta.value.id);
      if Valid() {
        ValuesAfterRemove(pathCache, l.path.value);
      }
    }

    // One turn of `load_all`: a refused or duplicate plugin file is trashed
    method LoadFile(p: Path, verdict: Verdict) returns (escaped: bool)
      requires Coherent()
      modifies this
      ensures Coherent() && (Valid() <==> old(Valid()))
      ensures fresh(idCache.Values - old(idCache.Values))
      ensures pathCache == old(pathCache) ||
              (p !in old(pathCache) && p in pathCache && fresh(pathCache[p]) && pathCache == old(pathCache)[p := pathCache[p]])
      ensures disk == old(disk) || (p !in pathCache && disk == old(disk) - {p})
      ensures p in pathCache ==> p in old(pathCache) || p in disk
      ensures p in pathCache || p !in disk || escaped
      ensures escaped <==> p !in old(pathCache) && !old(Preloads(p, verdict)) && old(PreloadBreaks(p, verdict))
      ensures escaped ==> disk == old(disk) && pathCache == old(pathCache) && PreloadBreaks(p, verdict)
    {
      hide Coherent, Complete, Parsed;
      var r := Get(p, verdict);
      escaped := r.Err? && r.error == Escaped;
      if r.Err? && !escaped {
        Trash(p);
      }
    }

    // `load_all` over the files found
    method LoadAll(files: seq<Path>, verdicts: seq<Verdict>) returns (escaped: bool)
      requires Coherent() && |verdicts| == |files|
      modifies this
      ensures Coherent() && (Valid() <==> old(Valid())) && fresh(idCache.Values - old(idCache.Values))
      ensures forall p | p in old(pathCache) :: p in pathCache && pathCache[p] == old(pathCache)[p]
      // nothing that is registered loses its file
      ensures forall p | p in pathCache && p in old(disk) :: p in disk && disk[p] == old(disk)[p]
      ensures forall p | p in pathCache && p !in old(pathCache) :: p in disk
      ensures !escaped ==> forall p | p in files :: p in pathCache || p !in disk
      // an exception that is no import error gets through exactly when a file that raises it is left unregistered
      ensures escaped <==>
                exists k | 0 <= k < |files| :: files[k] !in pathCache && PreloadBreaks(files[k], verdicts[k])
    {
      hide Coherent, Complete, Preloads, PreloadBreaksAs;
      for k := 0 to |files|
        invariant Coherent() && (Valid() <==> old(Valid())) && fresh(idCache.Values - old(idCache.Values))
        invariant forall p | p in old(pathCache) :: p in pathCache && pathCache[p] == old(pathCache)[p]
        invariant forall p | p in disk :: p in old(disk) && disk[p] == old(disk)[p]
        invariant forall p | p in pathCache && (p in old(disk) || p !in old(pathCache)) :: p in disk
        invariant forall p | p in files[..k] :: p in pathCache || p !in disk
      {
        escaped := LoadFile(files[k], verdicts[k]);
        if escaped {
          return;
        }
      }
      assert files[..|files|] == files;
      return false;
    }

    /** How the upload of a new plugin ends, by what its content preloads as. */
    function NewAnswer(owned: bool, cached: bool, dir: Result<Directory, ZipError>, known: bool, verdict: Verdict): UploadResult {
      if owned then Created
      else if PreloadsAs(cached, dir, verdict) then (if known then Uncaught(false) else Created)
      else if PreloadBreaksAs(cached, dir, verdict) then Uncaught(false)
      else ImportError
    }

    /**
     `upload_new_plugin`.  On a path that a loader owns already it answers that the
     plugin was created, has overwritten that loader's file and registers nothing.
     */
    method UploadNew(p: Path, content: Bytes, verdict: Verdict) returns (r: UploadResult)
      requires Coherent()
      modifies this
      ensures Coherent() && (Valid() <==> old(Valid())) && fresh(idCache.Values - old(idCache.Values))
      ensures r == NewAnswer(p in old(pathCache), p in old(zipCache), DirectoryOf(content, decode),
                             verdict.metadata.Readable? && verdict.metadata.meta.id in old(idCache), verdict)
      ensures disk == if r.ImportError? then old(disk) - {p} else old(disk)[p := content]
      ensures r.Created? && p !in old(pathCache) ==>
                && verdict.metadata.Readable? && verdict.metadata.meta.id !in old(idCache)
                && p in pathCache && fresh(pathCache[p]) && pathCache == old(pathCache)[p := pathCache[p]]
                && idCache == old(idCache)[verdict.metadata.meta.id := pathCache[p]]
      ensures !r.Created? || p in old(pathCache) ==> pathCache == old(pathCache) && idCache == old(idCache)
    {
      hide Coherent, Complete, Parsed, DirectoryOf, PreloadsAs, PreloadBreaksAs;
      WriteFile(p, content);
      var got := Get(p, verdict);
      PreloadsMeansReadable(p in old(zipCache), DirectoryOf(content, decode), verdict);
      if got.Err? {
        if got.error != ImportFailed {
          return Uncaught(false);
        }
        Trash(p);
        return ImportError;
      }
      return Created;
    }

    lemma {:induction false} PreloadsMeansReadable(cached: bool, dir: Result<Directory, ZipError>, verdict: Verdict)
      ensures PreloadsAs(cached, dir, verdict) ==> verdict.metadata.Readable? && !PreloadBreaksAs(cached, dir, verdict)
    {
    }

    /** The loader's file is what a finished update promises: new on success, the old one otherwise. */
    ghost predicate Settled(l: ZippedPluginLoader, updated: bool, oldPath: Path, oldContent: Bytes, newPath: Path, content: Bytes)
      reads this, l
    {
      && l.path == Some(if updated then newPath else oldPath)
      && l.path.value in disk
      && disk[l.path.value] == if updated then content else oldContent
    }

    // Either rollback path: back to the old file, and the new one is trashed whatever happens
    method RollBack(l: ZippedPluginLoader, oldPath: Path, verdict: Verdict) returns (o: Outcome)
      requires Coherent() && l in idCache.Values
      modifies this`pathCache, this`zipCache, this`disk, l
      ensures Coherent() && l.path == Some(oldPath) && old(l.path).Some?
      ensures old(l.meta).Some? && l.meta.Some? && l.meta.value.id == old(l.meta).value.id
      ensures pathCache == if l.path == old(l.path) then old(pathCache)
                           else (old(pathCache) - {old(l.path).value})[oldPath := l]
      ensures pathCache.Values <= old(pathCache.Values) + {l}
      ensures old(Valid()) ==> (Valid() <==> l.path == old(l.path) || oldPath !in old(pathCache))
      ensures disk == old(disk) - {old(l.path).value}
      ensures o.Done? <==> oldPath in old(disk) && LoadsAs(old(Parsed(oldPath)), old(l.meta).value.id, verdict)
      ensures o == Failed(Escaped) <==> oldPath in old(disk) && BreaksAs(old(Parsed(oldPath)), old(l.meta).value.id, verdict)
    {
      hide Fresh, Parsed, Coherent, Complete, LoadsAs, BreaksAs;
      RegisteredEntries(l);
      LoadsOrBreaks(Parsed(oldPath), l.meta.value.id, verdict);
      var newPath := l.path.value;
      o := Reload(l, Some(oldPath), verdict);
      Trash(newPath);
    }

    // The end of a successful update: the old file goes, and what was read from the new one stays true
    method TrashOld(l: ZippedPluginLoader, oldPath: Path)
      modifies this`disk
      ensures disk == old(disk) - {oldPath}
      ensures l.path != Some(oldPath) && old(Fresh(l)) ==> Fresh(l)
    {
      hide Parsed;
      Trash(oldPath);
    }

    /** The directory of the file at `p` once the upload has been written, if there is a file. */
    ghost function DirAfter(newPath: Path, content: Bytes, p: Path): Option<Result<Directory, ZipError>>
      reads this`disk
    {
      if p == newPath then Some(DirectoryOf(content, decode)) else if p in disk then Some(Parsed(p)) else None
    }

    /** How a replacement ends: by the new file, the file to roll back to, and how the instances start after each. */
    function Answer(
      dir: Result<Directory, ZipError>, back: Option<Result<Directory, ZipError>>, id: PluginId,
      first: Verdict, second: Verdict, starts: Check, restarts: Check): UploadResult
    {
      if BreaksAs(dir, id, first) then Uncaught(false)
      else if LoadsAs(dir, id, first) then (if starts.Good? then Updated else ReloadError)
      else if back.None? then ImportError
      else if LoadsAs(back.value, id, second) then (if restarts.Crashed? then Uncaught(true) else ImportError)
      else if BreaksAs(back.value, id, second) then Uncaught(true)
      else ImportError
    }

    /**
     The answers, one by one, over what the two loads find.  A new file loads if its
     directory can be read, its metadata is usable and has the id of the plugin, and
     checks and modules are good; it breaks if one of these steps, with all before it
     good, raises something that is no import error (an unexpected end of file and an
     undecodable name are such errors of the directory).
     */
    lemma {:induction false} ReplacementAnswers(
      dir: Result<Directory, ZipError>, back: Option<Result<Directory, ZipError>>, id: PluginId,
      first: Verdict, second: Verdict, starts: Check, restarts: Check)
      ensures var r := Answer(dir, back, id, first, second, starts, restarts);
              && (r == Updated || r == ReloadError <==>
                    dir.Ok? && first == Verdict(Readable(Meta(id, first.Version()), true), Good, Good))
              && (r == Updated ==> starts == Good) && (r == ReloadError ==> starts != Good)
              && (r == Uncaught(false) <==>
                    || first.metadata == Unreadable(true)
                    || (first.metadata.Readable? && first.metadata.meta.id == id &&
                        (|| !first.metadata.usable
                         || dir in {Err(UnexpectedEof), Err(UndecodableName), Err(ShortData)}
                         || (dir.Ok? && (first.preload == Crashed || (first.preload == Good && first.modules == Crashed))))))
              && (r == Uncaught(true) ==> back.Some?)
              && (r == ImportError && back.Some? ==>
                    // the old file loads and its instances start, or it is refused as well
                    || (back.value.Ok? && second == Verdict(Readable(Meta(id, second.Version()), true), Good, Good) && restarts != Crashed)
                    || second.metadata == Unreadable(false)
                    || (second.metadata.Readable? && second.metadata.meta.id != id)
                    || (back.value.Err? && back.value.error !in {UnexpectedEof, UndecodableName, ShortData})
                    || second.preload == Refused || second.modules == Refused)
    {
    }

    /** The same for the upload of a new plugin. */
    lemma {:induction false} NewAnswers(owned: bool, cached: bool, dir: Result<Directory, ZipError>, known: bool, verdict: Verdict)
      ensures var r := NewAnswer(owned, cached, dir, known, verdict);
              var found := verdict.metadata.Readable? && verdict.metadata.usable && (cached || dir.Ok?);
              && (r == Created <==> owned || (found && verdict.preload == Good && !known))
              && (r == ImportError <==>
                    !owned && (|| verdict.metadata == Unreadable(false)
                               || (found && verdict.preload == Refused)
                               || (verdict.metadata.Readable? && verdict.metadata.usable && !cached && dir.Err?
                                   && dir.error !in {UnexpectedEof, UndecodableName, ShortData})))
              && (r == Created || r == ImportError || r == Uncaught(false))
    {
    }

    /**
     `upload_replacement_plugin`.  `first` and `back` are what the new file and the
     rollback load come to, `starts` and `restarts` how starting the instances ends
     after each; `Refused` is a MaubotZipImportError, `Crashed` any other exception.
     */
    method UploadReplacement(
      l: ZippedPluginLoader, content: Bytes, newPath: Path, first: Verdict, back: Verdict, starts: Check, restarts: Check)
      returns (r: UploadResult)
      requires Coherent() && l in idCache.Values
      modifies this, l
      ensures Coherent() && old(l.path).Some? && old(l.meta).Some?
      ensures r == Answer(DirectoryOf(content, decode), old(DirAfter(newPath, content, l.path.value)),
                          old(l.meta).value.id, first, back, starts, restarts)
      ensures idCache == old(idCache) && l.meta.Some? && l.meta.value.id == old(l.meta).value.id
      // the registries stay whole exactly when the new path is no other loader's, on every outcome
      ensures old(Valid()) ==> (Valid() <==> newPath == old(l.path).value || newPath !in old(pathCache))
      ensures newPath in old(pathCache) && newPath != old(l.path).value ==>
                old(pathCache)[newPath] in idCache.Values && old(pathCache)[newPath] !in pathCache.Values
      // update atomicity for the plugin itself, on every path that gets as far as the rollback code
      ensures r != Uncaught(false) && old(l.path).value in old(disk) ==>
                (Settled(l, r.Updated?, old(l.path).value, old(disk)[old(l.path).value], newPath, content)
                 <==> newPath != old(l.path).value)
      ensures r.Updated? ==> l.loaded && (newPath != old(l.path).value ==> Fresh(l))
      // the files: one written and at most one gone, whoever owned them
      ensures disk == (var written := old(disk)[newPath := content];
                       if r == Uncaught(false) then written
                       else if r.Updated? then written - {old(l.path).value} else written - {newPath})
    {
      hide Fresh, Parsed, DirectoryOf, Coherent, Complete, LoadsAs, BreaksAs, Settled, Answer, DirAfter;
      RegisteredEntries(l);
      TakenOver(l, newPath);
      var oldPath := l.path.value;
      ghost var id, dir, before := l.meta.value.id, DirectoryOf(content, decode), DirAfter(newPath, content, oldPath);
      AnswerByLoads(dir, before, id, first, back, starts, restarts);
      DirAfterWriting(newPath, content, oldPath);
      WriteFile(newPath, content);
      LoadsOrBreaks(DirectoryOf(content, decode), l.meta.value.id, first);
      var o := Reload(l, Some(newPath), first);
      if o == Failed(Escaped) {
        r := Uncaught(false);
      } else if o.Failed? {
        o := RollBack(l, oldPath, back);
        var uncaught := if o.Done? then restarts.Crashed? else o.error == Escaped;
        r := if uncaught then Uncaught(true) else ImportError;
      } else if !starts.Good? {
        o := RollBack(l, oldPath, back);
        r := ReloadError;
      } else {
        TrashOld(l, oldPath);
        r := Updated;
      }
      LostByPath(old(pathCache), newPath);
      FilesSettle(l, r.Updated?, oldPath, old(disk), newPath, content);
    }

    lemma {:induction false} AnswerByLoads(
      dir: Result<Directory, ZipError>, back: Option<Result<Directory, ZipError>>, id: PluginId,
      first: Verdict, second: Verdict, starts: Check, restarts: Check)
      ensures var r := Answer(dir, back, id, first, second, starts, restarts);
              && (BreaksAs(dir, id, first) ==> r == Uncaught(false))
              && (LoadsAs(dir, id, first) ==> r == if starts.Good? then Updated else ReloadError)
              && (!BreaksAs(dir, id, first) && !LoadsAs(dir, id, first) ==>
                    r == if back.Some? && (if LoadsAs(back.value, id, second) then restarts.Crashed? else BreaksAs(back.value, id, second))
                         then Uncaught(true) else ImportError)
    {
    }

    lemma {:induction false} DirAfterWriting(newPath: Path, content: Bytes, p: Path)
      ensures var r := DirAfter(newPath, content, p);
              && (r.Some? <==> p == newPath || p in disk)
              && (r.Some? ==> r.value == if p == newPath then DirectoryOf(content, decode) else Parsed(p))
    {
    }

    /** From where the loader is and which files there are to what the update promises. */
    lemma {:induction false} FilesSettle(
      l: ZippedPluginLoader, updated: bool, oldPath: Path, before: map<Path, Bytes>, newPath: Path, content: Bytes)
      ensures l.path == Some(if updated then newPath else oldPath) && oldPath in before
              && disk == before[newPath := content] - {if updated then oldPath else newPath} ==>
                (Settled(l, updated, oldPath, before[oldPath], newPath, content) <==> newPath != oldPath)
    {
    }

    /**
     A replacement saved under the name the source derives for it.  The plugin gets
     what the upload promises exactly unless the same version is uploaded again
     within the millisecond that the name already carries.
     */
    method UploadVersion(
      l: ZippedPluginLoader, content: Bytes, dir: string, name: string, newVersion: string, same: bool, now: string,
      first: Verdict, back: Verdict, starts: Check, restarts: Check)
      returns (newPath: Path, r: UploadResult)
      requires Coherent() && l in idCache.Values && l.path == Some(dir + "/" + name)
      requires l.meta.Some? && IsVersion(l.meta.value.version) && IsVersion(newVersion) && now != "" && AllDigits(now)
      requires l.meta.value.version == newVersion ==> same
      modifies this, l
      ensures newPath == dir + "/" + NewName(name, old(l.meta).value.version, newVersion, same, now)
      ensures Coherent() && idCache == old(idCache)
      ensures r == Answer(DirectoryOf(content, decode), old(DirAfter(newPath, content, l.path.value)),
                          old(l.meta).value.id, first, back, starts, restarts)
      ensures r != Uncaught(false) && old(l.path).value in old(disk) ==>
                (Settled(l, r.Updated?, old(l.path).value, old(disk)[old(l.path).value], newPath, content) <==>
                 !(var version := old(l.meta).value.version;
                   version == newVersion && Contains(name, version) && AllCarry(name, version, "-ts" + now)))
      ensures old(Valid()) ==> (Valid() <==> newPath == old(l.path).value || newPath !in old(pathCache))
      ensures newPath in old(pathCache) && newPath != old(l.path).value ==>
                && old(pathCache)[newPath] in idCache.Values && old(pathCache)[newPath] !in pathCache.Values
                && (r != Uncaught(false) && !r.Updated? ==> newPath !in disk)
    {
      hide Coherent, Complete, Fresh, DirectoryOf, Answer, DirAfter, NewName, AllCarry, Contains, Settled;
      var version := l.meta.value.version;
      var newName := NewName(name, version, newVersion, same, now);
      NameKept(name, version, newVersion, same, now);
      newPath := dir + "/" + newName;
      SameDirectory(dir + "/", newName, name);
      r := UploadReplacement(l, content, newPath, first, back, starts, restarts);
    }

    /** A reload or a replacement that lands on a path another loader owns. */
    predicate Lands(op: Operation)
      reads this`pathCache, this`idCache, idCache.Values`path
    {
      match op
      case ReloadPlugin(i, newPath, _) =>
        i in idCache && newPath.Some? && newPath != idCache[i].path && newPath.value in pathCache
      case ReplacePlugin(i, _, newFile, _, _, _, _) =>
        i in idCache && Some(newFile) != idCache[i].path && newFile in pathCache
      case _ => false
    }

    /** One operation: from whole registries it leads to whole registries exactly when it does not land. */
    method Perform(op: Operation)
      requires Coherent()
      modifies this, idCache.Values
      ensures Coherent() && fresh(idCache.Values - old(idCache.Values))
      ensures old(Valid()) ==> (Valid() <==> !old(Lands(op)))
    {
      hide Fresh, Parsed, Complete, Preloads, Settled;
      match op
      case GetPlugin(p, verdict) =>
        var _ := Get(p, verdict);
      case ReloadPlugin(i, newPath, verdict) =>
        if i in idCache {
          var _ := Reload(idCache[i], newPath, verdict);
        }
      case DeletePlugin(i) =>
        if i in idCache {
          Delete(idCache[i]);
        }
      case NewPlugin(p, content, verdict) => var _ := UploadNew(p, content, verdict);
      case LoadFiles(files, verdicts) =>
        if |files| == |verdicts| {
          var escaped := LoadAll(files, verdicts);
        }
      case ReplacePlugin(i, content, newFile, first, back, starts, restarts) =>
        if i in idCache {
          var _ := UploadReplacement(idCache[i], content, newFile, first, back, starts, restarts);
        }
      case OverwriteFile(p, content) => WriteFile(p, content);
      case RemoveFile(p) => Trash(p);
    }

    /**
     Registry inverse: operations are performed in turn, failed reloads included, up
     to the first that would land on another loader's path.  The registries are whole
     then, so whole after all of them if none lands.
     */
    method Run(ops: seq<Operation>) returns (n: nat)
      requires Valid()
      modifies this, idCache.Values
      ensures n <= |ops| && Valid() && fresh(idCache.Values - old(idCache.Values))
      ensures n < |ops| ==> Lands(ops[n])
    {
      hide Coherent, Complete;
      n := 0;
      while n < |ops| && !Lands(ops[n])
        invariant n <= |ops| && Valid() && fresh(idCache.Values - old(idCache.Values))
      {
        Perform(ops[n]);
        n := n + 1;
      }
    }

    /** Whatever lands where, the registries stay coherent. */
    method RunAll(ops: seq<Operation>)
      requires Coherent()
      modifies this, idCache.Values
      ensures Coherent() && fresh(idCache.Values - old(idCache.Values))
    {
      hide Coherent, Complete;
      for k := 0 to |ops|
        invariant Coherent() && fresh(idCache.Values - old(idCache.Values))
      {
        Perform(ops[k]);
      }
    }

    /** A loader that is known by id and no longer by path. */
    lemma {:induction false} LostByPath(before: map<Path, ZippedPluginLoader>, q: Path)
      ensures q in before && before[q] in idCache.Values && before[q] !in pathCache.Values ==> !Valid()
    {
    }

    /** The other loader whose path is taken: it is known by id, and not the one that takes it. */
    lemma {:induction false} TakenOver(l: ZippedPluginLoader, q: Path)
      requires Coherent() && l in idCache.Values && l.path.Some?
      ensures q in pathCache && q != l.path.value ==>
                pathCache[q] in idCache.Values && pathCache[q] != l && pathCache[q].path == Some(q)
    {
    }
  }

  lemma {:induction false} SameDirectory(dir: string, a: string, b: string)
    ensures dir + a == dir + b <==> a == b
  {
    assert (dir + a)[|dir|..] == a && (dir + b)[|dir|..] == b;
  }

  lemma {:induction false} ValuesAfterInsert<K, V>(m: map<K, V>, k: K, v: V)
    requires k !in m
    ensures m[k := v].Values == m.Values + {v}
  {
    var m' := m[k := v];
    forall x | x in m.Values + {v}
      ensures x in m'.Values
    {
      if x == v {
        assert m'[k] == v;
      } else {
        var j :| j in m && m[j] == x;
        assert m'[j] == x;
      }
    }
  }

  lemma {:induction false} ValuesAfterRemove<K, V>(m: map<K, V>, k: K)
    requires k in m && forall j | j in m && m[j] == m[k] :: j == k
    ensures (m - {k}).Values == m.Values - {m[k]}
  {
    var m' := m - {k};
    forall x | x in m.Values - {m[k]}
      ensures x in m'.Values
    {
      var j :| j in m && m[j] == x;
      assert m'[j] == x;
    }
  }

  /** Moving the one entry of a loader keeps the values, unless it lands on someone else's. */
  lemma {:induction false} MovedValues(m: map<Path, ZippedPluginLoader>, p: Path, q: Path, l: ZippedPluginLoader)
    requires p in m && m[p] == l && q != p
    requires forall x | x in m && m[x] == l :: x == p
    requires q in m ==> forall x | x in m && m[x] == m[q] :: x == q
    ensures (m - {p})[q := l].Values == m.Values <==> q !in m
  {
    var m' := (m - {p})[q := l];
    assert m'[q] == l;
    if q in m {
      assert m[q] in m.Values;
      forall x | x in m'
        ensures m'[x] != m[q]
      {
      }
    } else {
      forall v | v in m.Values
        ensures v in m'.Values
      {
        var x :| x in m && m[x] == v;
        if x != p {
          assert m'[x] == v;
        }
      }
    }
  }
}
