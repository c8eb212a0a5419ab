/**
 Concrete inputs for what can go wrong when a plugin moves to a path that another
 plugin owns (maubot/loader/zip.py, maubot/management/api/plugin_upload.py).
 */
module Collisions {
  import opened Wrappers
  import opened ByteCodec
  import opened ZipDirectory
  import opened ZipArchive
  import opened PluginLoader
  import opened UploadNames

  /** An archive without members, which every check below accepts or refuses by its verdict alone. */
  const EMPTY_ARCHIVE: Bytes := Archive([], [])

  const FIRST: Path := "p" + "/" + ("x-v" + ("1.0" + ".mbp"))
  const SECOND: Path := "p" + "/" + ("x-v" + ("2.0" + ".mbp"))

  function Accepted(id: PluginId, version: string): Verdict {
    Verdict(Readable(Meta(id, version), true), Good, Good)
  }

  lemma {:induction false} EmptyArchiveIsReadable(decode: Decoder)
    ensures DirectoryOf(EMPTY_ARCHIVE, decode).Ok?
  {
    hide DirectoryOf;
    ReadsItsDirectory([], [], decode);
  }

  /** Plugin a in x-v1.0.mbp and plugin b in x-v2.0.mbp. */
  method TwoPlugins(decode: Decoder) returns (r: Registry, a: ZippedPluginLoader, b: ZippedPluginLoader)
    ensures fresh(r) && fresh(a) && fresh(b) && a != b && r.Valid()
    ensures a in r.idCache.Values && a.path == Some(FIRST) && a.meta == Some(Meta("a", "1.0"))
    ensures b in r.idCache.Values && b.path == Some(SECOND) && SECOND in r.pathCache && r.pathCache[SECOND] == b
    ensures r.idCache.Keys == {"a", "b"} && r.decode == decode && r.disk == map[FIRST := EMPTY_ARCHIVE, SECOND := EMPTY_ARCHIVE]
  {
    hide DirectoryOf, Archive;
    EmptyArchiveIsReadable(decode);
    DistinctPaths();
    r := new Registry(map[FIRST := EMPTY_ARCHIVE, SECOND := EMPTY_ARCHIVE], decode);
    var ra := r.Get(FIRST, Accepted("a", "1.0"));
    a := ra.value;
    var rb := r.Get(SECOND, Accepted("b", "2.0"));
    b := rb.value;
    assert r.idCache["a"] == a && r.idCache["b"] == b;
  }

  lemma {:induction false} DistinctPaths()
    ensures FIRST != SECOND
  {
    assert FIRST[5] == '1' && SECOND[5] == '2';
  }

  /** A reload onto the other's path succeeds and leaves the registries holding different loaders. */
  method ReloadOntoAnother(decode: Decoder) returns (r: Registry, o: Outcome)
    ensures fresh(r) && o.Done? && r.Coherent() && !r.Valid()
  {
    hide DirectoryOf, Archive, Registry.Coherent, Registry.Complete;
    EmptyArchiveIsReadable(decode);
    DistinctPaths();
    var a, b;
    r, a, b := TwoPlugins(decode);
    o := r.Reload(a, Some(SECOND), Accepted("a", "2.0"));
  }

  /**
   Version 2.0 of plugin a is uploaded and refused.  The rollback restores plugin a
   and trashes the file of plugin b, which is then known by id and not by path.
   */
  method UploadOntoAnother(decode: Decoder, content: Bytes) returns (r: Registry, b: ZippedPluginLoader, result: UploadResult)
    ensures fresh(r) && result == ImportError && r.Coherent() && !r.Valid()
    ensures b in r.idCache.Values && b !in r.pathCache.Values && SECOND !in r.disk
  {
    hide DirectoryOf, Archive, Registry.Coherent, Registry.Complete, NewName;
    DistinctPaths();
    NextVersion("x-v", "1.0", "2.0", "0");
    EmptyArchiveIsReadable(decode);
    var a, path;
    r, a, b := TwoPlugins(decode);
    var refused := Verdict(Unreadable(false), Good, Good);
    path, result := r.UploadVersion(
      a, content, "p", "x-v" + ("1.0" + ".mbp"), "2.0", false, "0", refused, Accepted("a", "1.0"), Good, Good);
  }

  /**
   A new plugin c is uploaded to the path of plugin b: the answer is that it was
   created, no plugin c is known, and the file of plugin b has the new content.
   */
  method NewOntoAnother(decode: Decoder, content: Bytes) returns (r: Registry, b: ZippedPluginLoader, result: UploadResult)
    ensures fresh(r) && result == Created && r.Valid() && "c" !in r.idCache
    ensures SECOND in r.pathCache && r.pathCache[SECOND] == b && SECOND in r.disk && r.disk[SECOND] == content
  {
    hide DirectoryOf, Archive, Registry.Coherent, Registry.Complete;
    var a;
    r, a, b := TwoPlugins(decode);
    result := r.UploadNew(SECOND, content, Accepted("c", "2.0"));
  }
}
