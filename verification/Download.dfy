// writeLocalAtomic: a download lands in a temporary file beside its
// destination and is renamed into place once it is complete.
module Download {
  import opened Options

  type Bytes = seq<nat>

  datatype File = File(data: Bytes, mode: nat, mtime: int)

  // Irregular: a symlink, which a rename replaces, or a directory, which stops it.
  datatype Place = Absent | Regular(file: File) | Irregular(isDir: bool)

  const DEFAULT_MODE: nat := 0x1A4    // 0644

  // How each call would come out. copied: how many bytes get through before
  // the stream fails, or all of them.
  datatype Script = Script(created: bool, copied: Option<nat>, finished: bool, closed: bool, chmod: bool,
                           chtimes: bool, renamed: bool, removed: bool, now: int)

  predicate AllWell(s: Script, hasFinish: bool, dst: Place) {
    s.created && s.copied.None? && (hasFinish ==> s.finished) && s.closed && s.chmod && s.renamed && dst != Irregular(true)
  }

  // The file a complete download leaves: an existing file's permissions stay.
  function Landed(src: Bytes, dst: Place, mtime: Option<int>, s: Script): File {
    File(src, if dst.Regular? then dst.file.mode else DEFAULT_MODE, if mtime.Some? && s.chtimes then mtime.value else s.now)
  }

  function Min(a: nat, b: nat): nat { if a < b then a else b }

  class LocalFile {
    var dst: Place
    var temp: Option<File>
    var finishes: nat

    constructor (dst: Place)
      ensures this.dst == dst && temp == None && finishes == 0
    {
      this.dst, temp, finishes := dst, None, 0;
    }

    method Finish()
      modifies this`finishes
      ensures finishes == old(finishes) + 1
    {
      finishes := finishes + 1;
    }

    // The destination is replaced by the whole download, or left alone; finish
    // is called exactly once; the temporary file goes if it can be removed.
    method WriteLocalAtomic(src: Bytes, hasFinish: bool, mtime: Option<int>, s: Script) returns (ok: bool, n: nat)
      requires temp == None
      modifies this
      ensures ok <==> AllWell(s, hasFinish, old(dst))
      ensures dst == if ok then Regular(Landed(src, old(dst), mtime, s)) else old(dst)
      ensures ok ==> dst.Regular? && dst.file.data == src && s.renamed && (hasFinish ==> s.finished)
      ensures ok ==> dst.file.mode == if old(dst).Regular? then old(dst).file.mode else 420
      ensures ok ==> dst.file.mtime == if mtime.Some? && s.chtimes then mtime.value else s.now
      ensures !ok ==> !s.created || s.copied.Some? || (hasFinish && !s.finished) || !s.closed || !s.chmod || !s.renamed ||
                      old(dst) == Irregular(true)
      ensures finishes == old(finishes) + if hasFinish then 1 else 0
      ensures temp.Some? ==> !ok && !s.removed
      ensures ok ==> n == |src|
    {
      ok, n := false, 0;
      if !s.created {
        if hasFinish { Finish(); }
        return;
      }
      temp := Some(File([], 0x180, s.now));
      ok, n := Fill(src, hasFinish, mtime, s);
      if !ok && s.removed { temp := None; }
    }

    // Everything between creating the temporary file and the deferred removal.
    method Fill(src: Bytes, hasFinish: bool, mtime: Option<int>, s: Script) returns (committed: bool, n: nat)
      requires temp.Some? && s.created
      modifies this
      ensures committed <==> AllWell(s, hasFinish, old(dst))
      ensures dst == if committed then Regular(Landed(src, old(dst), mtime, s)) else old(dst)
      ensures finishes == old(finishes) + if hasFinish then 1 else 0
      ensures committed ==> n == |src| && temp == None
    {
      n := if s.copied.Some? then Min(s.copied.value, |src|) else |src|;
      temp := Some(temp.value.(data := src[..n], mtime := s.now));
      var failed := s.copied.Some?;
      if hasFinish {
        Finish();
        if !failed { failed := !s.finished; }
      }
      if !failed { failed := !s.closed; }
      if failed { return false, n; }

      var mode := DEFAULT_MODE;
      if dst.Regular? { mode := dst.file.mode; }
      if !s.chmod { return false, n; }
      temp := Some(temp.value.(mode := mode));
      if mtime.Some? && s.chtimes { temp := Some(temp.value.(mtime := mtime.value)); }
      if !s.renamed || dst == Irregular(true) { return false, n; }
      assert src[..n] == src;
      dst, temp := Regular(temp.value), None;
      return true, n;
    }
  }
}
