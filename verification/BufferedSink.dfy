/** `BufferedFileSink` of src/buffered_file_sink.cpp against a plain append-only log. */
module BufferedSinks {
  import opened Texts
  import opened FileSystems

  class BufferedFileSink {
    const fs: FileSystem
    const path: string
    const cap: nat
    const buf: array<char>
    const threshold: nat
    var pos: nat

    /** What was in the file at first, all entries given to the sink, how many of them have left
        the buffer, and whether every write to the file succeeded. */
    ghost const base: string
    ghost var entries: seq<string>
    ghost var flushed: nat
    ghost var intact: bool

    /** File and buffer together are the whole log, cut between two entries. */
    ghost predicate Valid()
      reads this, fs, buf
    {
      && buf.Length == cap && pos <= cap && path in fs.files && flushed <= |entries|
      && (intact ==>
            && fs.files[path] == base + Cat(entries[..flushed])
            && buf[..pos] == Cat(entries[flushed..]))
    }

    constructor (fs: FileSystem, path: string, cap: nat, threshold: nat)
      requires path in fs.files
      ensures Valid() && fresh(buf) && this.fs == fs && this.path == path && this.cap == cap
      ensures this.threshold == threshold
      ensures base == fs.files[path] && entries == [] && intact && pos == 0
    {
      this.fs, this.path, this.cap, this.threshold := fs, path, cap, threshold;
      buf := new char[cap];
      pos := 0;
      base := fs.files[path];
      entries, flushed, intact := [], 0, true;
      new;
      CatNone();
    }

    /** The whole log is in the file. */
    ghost predicate AllInFile()
      reads this, fs
    {
      pos == 0 && (intact && path in fs.files ==> fs.files[path] == base + Cat(entries))
    }

    method FlushLocked()
      requires Valid()
      modifies this`pos, this`flushed, this`intact, fs
      ensures Valid() && AllInFile() && forall r <- fs.script :: r in old(fs.script)
      ensures forall f <- old(fs.files) :: f != path ==> f in fs.files && fs.files[f] == old(fs.files[f])
      ensures Failed !in old(fs.script) ==> intact == old(intact)
      ensures intact ==> old(intact)
    {
      hide Cat;
      CatNone();
      if pos == 0 {
        if intact { CatParts(entries, flushed); }
        return;
      }
      ghost var text := buf[..pos];
      CatOne(text);
      ghost var written := WritevAll(fs, path, [buf[..pos]]);
      pos := 0;
      intact := intact && written == text;
      CatParts(entries, flushed);
      flushed := |entries|;
      assert entries[..flushed] == entries && entries[flushed..] == [];
    }

    /** `memcpy` of all ranges behind pos. */
    method Stage(iov: seq<string>)
      requires buf.Length == cap && pos + |Cat(iov)| <= cap
      modifies buf
      ensures buf[..pos] == old(buf[..pos]) && buf[..pos + |Cat(iov)|] == old(buf[..pos]) + Cat(iov)
    {
      hide Cat;
      var dst := pos;
      ghost var before := buf[..pos];
      CatNone();
      assert iov[..0] == [];
      for i := 0 to |iov|
        invariant dst == pos + |Cat(iov[..i])| && buf.Length == cap && dst <= cap
        invariant buf[..dst] == before + Cat(iov[..i])
      {
        CatSnoc(iov[..i], iov[i]);
        assert iov[..i + 1] == iov[..i] + [iov[i]];
        CatParts(iov, i + 1);
        Copy(dst, iov[i]);
        dst := dst + |iov[i]|;
      }
      assert iov[..|iov|] == iov;
      assert buf[..pos] == buf[..dst][..pos] == before;
    }

    method Copy(dst: nat, s: string)
      requires dst + |s| <= buf.Length
      modifies buf
      ensures buf[..dst + |s|] == old(buf[..dst]) + s
    {
      for k := 0 to |s|
        invariant buf[..dst + k] == old(buf[..dst]) + s[..k]
      {
        buf[dst + k] := s[k];
        assert buf[..dst + k + 1] == buf[..dst + k] + [s[k]];
      }
    }

    /** `write`: the entry is added to the log, in the buffer or (at or above the threshold, or when
        it is too large to be buffered) in the file. */
    method Write(lvl: nat, iov: seq<string>)
      requires Valid()
      modifies this, fs, buf
      ensures Valid() && entries == old(entries) + [Cat(iov)]
      ensures threshold <= lvl || cap < |Cat(iov)| ==> AllInFile()
      ensures lvl < threshold && old(pos) + |Cat(iov)| <= cap ==>
        && fs.files == old(fs.files) && fs.script == old(fs.script) && pos == old(pos) + |Cat(iov)|
        && buf[..pos] == old(buf[..pos]) + Cat(iov)
      ensures Failed !in old(fs.script) ==> intact == old(intact) && Failed !in fs.script
      ensures intact ==> old(intact)
    {
      hide Cat;
      var total := |Cat(iov)|;
      ghost var was, entry := entries, Cat(iov);
      CatSnoc(was, entry);
      if total > cap {
        FlushLocked();
        ghost var written := WritevAll(fs, path, iov);
        intact := intact && written == entry;
        entries := entries + [entry];
        flushed := |entries|;
        CatNone();
        assert entries[..flushed] == entries && entries[flushed..] == [];
        return;
      }
      if pos + total > cap {
        FlushLocked();
      }
      ghost var staged := entries[flushed..];
      Stage(iov);
      pos := pos + total;
      entries := entries + [entry];
      CatSnoc(staged, entry);
      assert entries[flushed..] == staged + [entry] && entries[..flushed] == was[..flushed];
      if lvl >= threshold {
        FlushLocked();
      }
    }

    /** `flush`, and what the destructor does first. */
    method Flush()
      requires Valid()
      modifies this, fs
      ensures Valid() && AllInFile() && entries == old(entries)
      ensures Failed !in old(fs.script) ==> intact == old(intact)
    {
      FlushLocked();
    }
  }

  lemma CatParts(ts: seq<string>, k: nat)
    requires k <= |ts|
    ensures Cat(ts) == Cat(ts[..k]) + Cat(ts[k..]) && |Cat(ts[..k])| <= |Cat(ts)|
  {
    CatConcat(ts[..k], ts[k..]);
    assert ts[..k] + ts[k..] == ts;
  }
}
