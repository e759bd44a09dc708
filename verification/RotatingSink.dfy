/** `RotatingFileSink` of src/rotating_sink.cpp: a chain of renamed files against a plain
    append-only log. */
module RotatingSinks {
  import opened Common
  import opened Texts
  import opened Digits
  import opened FileSystems

  // ---------------------------------------------------------------- file names

  /** "%zu" */
  function Decimal(n: nat): (s: string)
    ensures AllDigits(s) && s != []
  {
    if n < 10 then [DigitChar(n)] else Decimal(n / 10) + [DigitChar(n % 10)]
  }

  lemma {:induction false} DecimalValueIs(n: nat)
    ensures Num(Decimal(n)) == n
  {
    if n < 10 {
      assert [DigitChar(n)][..0] == [];
    } else {
      DecimalValueIs(n / 10);
      NumSnoc(Decimal(n / 10), DigitChar(n % 10));
    }
  }

  /** No leading zero. */
  lemma {:induction false} DecimalIsPlain(n: nat)
    ensures Decimal(n)[0] == '0' <==> n == 0
    ensures n == 0 ==> Decimal(n) == "0"
  {
    if 10 <= n { DecimalIsPlain(n / 10); }
  }

  predicate EndsInLog(path: string) {
    |path| >= 4 && path[|path| - 4..] == ".log"
  }

  /** `indexed_path` */
  function IndexedPath(path: string, n: nat): string {
    if EndsInLog(path) then path[..|path| - 4] + "." + Decimal(n) + ".log"
    else path + "." + Decimal(n)
  }

  /** The index goes in front of the suffix ".log", or else to the end. */
  lemma LogName(stem: string, n: nat)
    ensures IndexedPath(stem + ".log", n) == stem + "." + Decimal(n) + ".log"
  {
    var path := stem + ".log";
    assert path[..|path| - 4] == stem && path[|path| - 4..] == ".log";
  }

  lemma OtherName(path: string, n: nat)
    requires forall stem: string :: path != stem + ".log"
    ensures IndexedPath(path, n) == path + "." + Decimal(n)
  {
    SuffixTakenOff(path);
  }

  lemma SuffixTakenOff(path: string)
    ensures EndsInLog(path) ==> exists stem: string :: path == stem + ".log"
  {
    if EndsInLog(path) { assert path == path[..|path| - 4] + ".log"; }
  }

  /** Different indices give different names, and none gives the base name. */
  lemma IndexedPathInjective(path: string, m: nat, n: nat)
    ensures IndexedPath(path, m) == IndexedPath(path, n) <==> m == n
    ensures IndexedPath(path, n) != path
  {
    var stem := if EndsInLog(path) then path[..|path| - 4] else path;
    var tail := if EndsInLog(path) then ".log" else "";
    IndexedParts(path, m);
    IndexedParts(path, n);
    DecimalValueIs(m);
    DecimalValueIs(n);
    hide Decimal, IndexedPath;
    if IndexedPath(path, m) == IndexedPath(path, n) {
      assert |Decimal(m)| == |Decimal(n)|;
      assert Decimal(m) == IndexedPath(path, m)[|stem| + 1..|stem| + 1 + |Decimal(m)|];
      assert Decimal(n) == IndexedPath(path, n)[|stem| + 1..|stem| + 1 + |Decimal(n)|];
    }
  }

  lemma IndexedParts(path: string, n: nat)
    ensures var stem, tail := if EndsInLog(path) then path[..|path| - 4] else path,
                             if EndsInLog(path) then ".log" else "";
            && |path| == |stem| + |tail|
            && IndexedPath(path, n) == stem + "." + Decimal(n) + tail
  {
    assert path + "." + Decimal(n) + "" == path + "." + Decimal(n);
  }

  /** The k-th youngest file: the active one, then the rotated ones. */
  function Name(path: string, k: nat): string {
    if k == 0 then path else IndexedPath(path, k)
  }

  lemma NamesDiffer(path: string, j: nat, k: nat)
    ensures Name(path, j) == Name(path, k) <==> j == k
  {
    IndexedPathInjective(path, j, k);
    IndexedPathInjective(path, k, j);
  }

  // ---------------------------------------------------------------- the chain

  function At(files: map<string, string>, path: string, k: nat): Option<string> {
    if Name(path, k) in files then Some(files[Name(path, k)]) else None
  }

  predicate IsName(path: string, maxFiles: nat, f: string) {
    exists k :: 0 <= k < maxFiles && Name(path, k) == f
  }

  /** No other file is touched. */
  predicate OthersKept(files: map<string, string>, files': map<string, string>, path: string, maxFiles: nat) {
    forall f :: f in files.Keys + files'.Keys && !IsName(path, maxFiles, f) ==>
      f in files && f in files' && files[f] == files'[f]
  }

  lemma UnlinkAt(files: map<string, string>, path: string, j: nat, k: nat)
    ensures At(files - {Name(path, j)}, path, k) == if k == j then None else At(files, path, k)
  {
    NamesDiffer(path, j, k);
  }

  function Renamed(files: map<string, string>, from: string, to: string): map<string, string> {
    if from !in files then files else (files - {from})[to := files[from]]
  }

  lemma RenameAt(files: map<string, string>, path: string, j: nat, k: nat)
    requires j != k
    ensures var f := Renamed(files, Name(path, j), Name(path, k));
            && (At(files, path, j).Some? ==> At(f, path, j) == None && At(f, path, k) == At(files, path, j))
            && (At(files, path, j).None? ==> f == files)
            && forall i :: i != j && i != k ==> At(f, path, i) == At(files, path, i)
  {
    NamesDiffer(path, j, k);
    forall i | i != j && i != k
      ensures At(Renamed(files, Name(path, j), Name(path, k)), path, i) == At(files, path, i) {
      NamesDiffer(path, i, j);
      NamesDiffer(path, i, k);
    }
  }

  /** In a chain being moved up by one place: slots above i have been moved, slot i is vacant. */
  function Moved(was: map<string, string>, path: string, i: nat, k: nat): Option<string> {
    if k > i then At(was, path, k - 1) else if k == i then None else At(was, path, k)
  }

  predicate Shifting(was: map<string, string>, files: map<string, string>, path: string, maxFiles: nat, i: nat) {
    forall k :: 0 <= k < maxFiles ==> At(files, path, k) == Moved(was, path, i, k)
  }

  lemma ShiftStart(files: map<string, string>, path: string, maxFiles: nat)
    requires 1 <= maxFiles
    ensures Shifting(files, files - {Name(path, maxFiles - 1)}, path, maxFiles, maxFiles - 1)
  {
    var f := files - {Name(path, maxFiles - 1)};
    forall k | 0 <= k < maxFiles ensures At(f, path, k) == if k == maxFiles - 1 then None else At(files, path, k) {
      UnlinkAt(files, path, maxFiles - 1, k);
    }
    hide At, Name;
    assert Shifting(files, f, path, maxFiles, maxFiles - 1);
  }

  lemma ShiftStep(was: map<string, string>, files: map<string, string>, path: string, maxFiles: nat, i: nat)
    requires 1 <= i < maxFiles && Shifting(was, files, path, maxFiles, i)
    ensures Shifting(was, Renamed(files, Name(path, i - 1), Name(path, i)), path, maxFiles, i - 1)
  {
    RenameAt(files, path, i - 1, i);
    hide At, Renamed;
    var f := Renamed(files, Name(path, i - 1), Name(path, i));
    forall k | 0 <= k < maxFiles ensures At(f, path, k) == Moved(was, path, i - 1, k) {
      assert At(files, path, k) == Moved(was, path, i, k);
      assert At(files, path, i - 1) == Moved(was, path, i, i - 1);
    }
  }

  lemma RenameKeepsOthers(files: map<string, string>, path: string, maxFiles: nat, j: nat, k: nat, before: map<string,
                          string>)
    requires j < maxFiles && k < maxFiles && OthersKept(before, files, path, maxFiles)
    ensures OthersKept(before, Renamed(files, Name(path, j), Name(path, k)), path, maxFiles)
  {
    assert IsName(path, maxFiles, Name(path, j)) && IsName(path, maxFiles, Name(path, k));
    hide Name;
  }

  // ---------------------------------------------------------------- entries in files

  /** The entries kept, oldest first; layout[0] are those of the active file. */
  function Kept(layout: seq<seq<string>>): seq<string> {
    if layout == [] then [] else Kept(layout[1..]) + layout[0]
  }

  lemma {:induction false} KeptOldest(layout: seq<seq<string>>)
    requires layout != []
    ensures Kept(layout) == layout[|layout| - 1] + Kept(layout[..|layout| - 1])
  {
    if |layout| == 1 {
      assert layout[1..] == [] && layout[..0] == [];
    } else {
      var rest := layout[1..];
      KeptOldest(rest);
      assert layout[..|layout| - 1][1..] == rest[..|rest| - 1];
    }
  }

  lemma KeptAdd(layout: seq<seq<string>>, e: string)
    requires layout != []
    ensures Kept(layout[0 := layout[0] + [e]]) == Kept(layout) + [e]
  {
    assert layout[0 := layout[0] + [e]][1..] == layout[1..];
  }

  lemma KeptShift(layout: seq<seq<string>>)
    requires layout != []
    ensures Kept(layout) == layout[|layout| - 1] + Kept([[]] + layout[..|layout| - 1])
  {
    KeptOldest(layout);
    assert ([[]] + layout[..|layout| - 1])[1..] == layout[..|layout| - 1];
  }

  /** File k holds exactly the entries layout[k], none of them in part. */
  predicate HoldsEntries(file: Option<string>, entries: seq<string>) {
    if file.Some? then file.value == Cat(entries) else entries == []
  }

  predicate Holds(files: map<string, string>, path: string, layout: seq<seq<string>>) {
    forall k :: 0 <= k < |layout| ==> HoldsEntries(At(files, path, k), layout[k])
  }

  /** The text of the files, oldest to newest, from file k on. */
  function Chain(files: map<string, string>, path: string, k: nat, n: nat): string
    requires k <= n
    decreases n - k
  {
    if k == n then "" else
      Chain(files, path, k + 1, n) + (if At(files, path, k).Some? then At(files, path, k).value else "")
  }

  lemma {:induction false} ChainIsKept(files: map<string, string>, path: string, layout: seq<seq<string>>, k: nat)
    requires Holds(files, path, layout) && k <= |layout|
    ensures Chain(files, path, k, |layout|) == Cat(Kept(layout[k..]))
    decreases |layout| - k
  {
    CatNone();
    hide Cat, At;
    if k < |layout| {
      ChainIsKept(files, path, layout, k + 1);
      assert layout[k..][1..] == layout[k + 1..];
      CatConcat(Kept(layout[k + 1..]), layout[k]);
      assert HoldsEntries(At(files, path, k), layout[k]);
    }
  }

  lemma InitialLayout(files: map<string, string>, path: string, n: nat) returns (layout: seq<seq<string>>)
    ensures |layout| == n && Holds(files, path, layout)
    ensures forall k :: 0 <= k < n && At(files, path, k) == None ==> layout[k] == []
  {
    layout := seq(n, k requires 0 <= k < n => if At(files, path, k).Some? then [At(files, path, k).value] else []);
    forall k | 0 <= k < n ensures HoldsEntries(At(files, path, k), layout[k]) {
      if At(files, path, k).Some? { CatOne(At(files, path, k).value); }
    }
  }

  lemma HoldsActive(files: map<string, string>, path: string, layout: seq<seq<string>>)
    requires layout != [] && Holds(files, path, layout) && path in files
    ensures files[path] == Cat(layout[0])
  {
    assert HoldsEntries(At(files, path, 0), layout[0]);
  }

  lemma HoldsMore(files: map<string, string>, path: string, layout: seq<seq<string>>, e: string)
    requires layout != [] && Holds(files, path, layout) && path in files
    ensures Holds(files[path := files[path] + e], path, layout[0 := layout[0] + [e]])
  {
    CatSnoc(layout[0], e);
    var f, l := files[path := files[path] + e], layout[0 := layout[0] + [e]];
    hide Cat;
    assert HoldsEntries(At(files, path, 0), layout[0]);
    forall k | 0 <= k < |l| ensures HoldsEntries(At(f, path, k), l[k]) {
      NamesDiffer(path, 0, k);
      assert HoldsEntries(At(files, path, k), layout[k]);
    }
  }

  /** After a rotation every file has moved up by one place, and the oldest is gone. */
  predicate Rotated(was: map<string, string>, files: map<string, string>, path: string, maxFiles: nat, reopened: bool) {
    && At(files, path, 0) == (if reopened then Some("") else None)
    && forall k :: 1 <= k < maxFiles ==> At(files, path, k) == Moved(was, path, 0, k)
  }

  lemma HoldsShifted(was: map<string, string>, files: map<string, string>, path: string, layout: seq<seq<string>>,
                     reopened: bool)
    requires layout != [] && Holds(was, path, layout) && Rotated(was, files, path, |layout|, reopened)
    ensures Holds(files, path, [[]] + layout[..|layout| - 1])
  {
    CatNone();
    hide Cat, At;
    var l := [[]] + layout[..|layout| - 1];
    forall k | 0 <= k < |l| ensures HoldsEntries(At(files, path, k), l[k]) {
      if k != 0 {
        assert HoldsEntries(At(was, path, k - 1), layout[k - 1]);
        assert At(files, path, k) == Moved(was, path, 0, k);
      }
    }
  }

  lemma OpenedLast(was: map<string, string>, files: map<string, string>, path: string, maxFiles: nat)
    requires 1 <= maxFiles && Shifting(was, files, path, maxFiles, 0)
    ensures Rotated(was, files, path, maxFiles, false) && Rotated(was, files[path := ""], path, maxFiles, true)
  {
    assert At(files, path, 0) == Moved(was, path, 0, 0);
    forall k | 1 <= k < maxFiles
      ensures At(files, path, k) == Moved(was, path, 0, k) && At(files[path := ""], path, k) == Moved(was, path, 0, k)
    {
      NamesDiffer(path, 0, k);
    }
  }

  lemma OthersSame(files: map<string, string>, path: string, maxFiles: nat)
    ensures OthersKept(files, files, path, maxFiles)
  {
  }

  lemma OthersWithout(before: map<string, string>, files: map<string, string>, path: string, maxFiles: nat, k: nat,
                      text: string)
    requires OthersKept(before, files, path, maxFiles) && k < maxFiles
    ensures OthersKept(before, files - {Name(path, k)}, path, maxFiles)
    ensures OthersKept(before, files[Name(path, k) := text], path, maxFiles)
  {
    assert IsName(path, maxFiles, Name(path, k));
    hide Name;
  }

  /** The renames of `rotate_locked`: afterwards every file has moved up by one place, whichever of
      them exist, and there is no active file. */
  method MoveFiles(fs: FileSystem, path: string, maxFiles: nat)
    requires 1 <= maxFiles
    modifies fs`files
    ensures Rotated(old(fs.files), fs.files, path, maxFiles, false)
    ensures Rotated(old(fs.files), fs.files[path := ""], path, maxFiles, true)
    ensures OthersKept(old(fs.files), fs.files, path, maxFiles)
  {
    hide Name, Shifting, Rotated, OthersKept;
    ghost var was := fs.files;
    OthersSame(was, path, maxFiles);
    ShiftStart(was, path, maxFiles);
    if maxFiles >= 2 {
      NameIs(path, maxFiles - 1);
      fs.Unlink(IndexedPath(path, maxFiles - 1));
      OthersWithout(was, was, path, maxFiles, maxFiles - 1, "");
      var i := maxFiles - 1;
      while i >= 2
        invariant 1 <= i <= maxFiles - 1
        invariant Shifting(was, fs.files, path, maxFiles, i) && OthersKept(was, fs.files, path, maxFiles)
      {
        NameIs(path, i - 1);
        NameIs(path, i);
        ShiftStep(was, fs.files, path, maxFiles, i);
        RenameKeepsOthers(fs.files, path, maxFiles, i - 1, i, was);
        fs.Rename(IndexedPath(path, i - 1), IndexedPath(path, i));
        i := i - 1;
      }
      NameIs(path, 0);
      NameIs(path, 1);
      ShiftStep(was, fs.files, path, maxFiles, 1);
      RenameKeepsOthers(fs.files, path, maxFiles, 0, 1, was);
      fs.Rename(path, IndexedPath(path, 1));
    } else {
      NameIs(path, 0);
      fs.Unlink(path);
      OthersWithout(was, was, path, maxFiles, 0, "");
    }
    OpenedLast(was, fs.files, path, maxFiles);
  }

  /** Some file of the chain is larger than the limit. */
  ghost predicate AnyAbove(files: map<string, string>, path: string, maxFiles: nat, maxBytes: nat) {
    exists k :: 0 <= k < maxFiles && At(files, path, k).Some? && |At(files, path, k).value| > maxBytes
  }

  ghost predicate Above(layout: seq<seq<string>>, maxBytes: nat) {
    exists k :: 0 <= k < |layout| && |Cat(layout[k])| > maxBytes
  }

  lemma HoldsAbove(files: map<string, string>, path: string, layout: seq<seq<string>>, maxBytes: nat)
    requires Holds(files, path, layout)
    ensures AnyAbove(files, path, |layout|, maxBytes) <==> Above(layout, maxBytes)
  {
    CatNone();
    hide Cat, At;
    if k :| 0 <= k < |layout| && At(files, path, k).Some? && |At(files, path, k).value| > maxBytes {
      assert HoldsEntries(At(files, path, k), layout[k]);
    }
    if k :| 0 <= k < |layout| && |Cat(layout[k])| > maxBytes {
      assert HoldsEntries(At(files, path, k), layout[k]);
    }
  }

  /** Where no file was above the limit, one is after a write exactly if the file that took the entry
      is, and is kept. */
  lemma AboveIff(layout: seq<seq<string>>, e: string, now: nat, maxBytes: nat)
    requires layout != [] && !Above(layout, maxBytes) && |Cat(layout[0] + [e])| == now && 1 <= maxBytes
    ensures var mid := layout[0 := layout[0] + [e]];
            && (now < maxBytes ==> !Above(mid, maxBytes))
            && (Above([[]] + mid[..|layout| - 1], maxBytes) <==> 2 <= |layout| && now > maxBytes)
  {
    CatNone();
    hide Cat;
    var mid := layout[0 := layout[0] + [e]];
    var after := [[]] + mid[..|layout| - 1];
    forall k | 0 < k < |layout| ensures |Cat(mid[k])| <= maxBytes {
      assert mid[k] == layout[k];
    }
    if 2 <= |layout| { assert after[1] == mid[0]; }
    forall k | 2 <= k < |after| ensures |Cat(after[k])| <= maxBytes {
      assert after[k] == mid[k - 1];
    }
  }

  // ---------------------------------------------------------------- the sink

  class RotatingFileSink {
    const fs: FileSystem
    const path: string
    const maxBytes: nat
    const maxFiles: nat
    var open: bool
    var bytesWritten: nat

    /** All entries so far, after what was in the files at first; those no longer in a file; those in
        each file; and how often the files have been rotated. */
    ghost var entries: seq<string>
    ghost var lost: seq<string>
    ghost var layout: seq<seq<string>>
    ghost var rotations: nat
    ghost const startedEmpty: bool

    /** The files hold, entry by entry, a suffix of the log. */
    ghost predicate Valid()
      reads this, fs
    {
      && path != "" && 1 <= maxBytes && 1 <= maxFiles == |layout|
      && (open ==> path in fs.files && |fs.files[path]| <= bytesWritten)
      && Holds(fs.files, path, layout) && entries == lost + Kept(layout)
      && (startedEmpty ==>
            && (forall k :: rotations < k < maxFiles ==> layout[k] == [])
            && (rotations < maxFiles ==> lost == []))
    }

    /** The byte count is the size of the active file, as it is while no write fails. */
    ghost predicate Counted()
      reads this, fs
    {
      open ==> path in fs.files && bytesWritten == |fs.files[path]|
    }

    /** `make_rotating_file_sink`; opening the file may fail. */
    constructor (fs: FileSystem, path: string, maxBytes: nat, maxFiles: nat, opens: bool)
      requires path != ""
      modifies fs`files
      ensures Valid() && Counted() && this.fs == fs && this.path == path && open == opens
      ensures fs.files == if opens && path !in old(fs.files) then old(fs.files)[path := ""] else old(fs.files)
      ensures this.maxBytes == (if maxBytes == 0 then 1 else maxBytes)
      ensures this.maxFiles == (if maxFiles == 0 then 1 else maxFiles)
      ensures lost == [] && rotations == 0 && entries == Kept(layout)
      ensures startedEmpty <==> forall k :: 1 <= k < this.maxFiles ==> layout[k] == []
    {
      this.fs, this.path := fs, path;
      this.maxBytes := if maxBytes == 0 then 1 else maxBytes;
      this.maxFiles := if maxFiles == 0 then 1 else maxFiles;
      var ok := fs.Open(path, false, opens);
      open := ok;
      bytesWritten := if ok then |fs.files[path]| else 0;
      ghost var l := InitialLayout(fs.files, path, if maxFiles == 0 then 1 else maxFiles);
      layout, lost, entries, rotations := l, [], Kept(l), 0;
      startedEmpty := forall k :: 1 <= k < |l| ==> l[k] == [];
    }

    method RotateLocked(reopens: bool)
      requires Valid() && open
      modifies this, fs`files
      ensures Valid() && open == reopens && bytesWritten == 0
      ensures entries == old(entries) && rotations == old(rotations) + 1
      ensures layout == [[]] + old(layout)[..maxFiles - 1] && lost == old(lost) + old(layout)[maxFiles - 1]
      ensures Rotated(old(fs.files), fs.files, path, maxFiles, reopens)
      ensures OthersKept(old(fs.files), fs.files, path, maxFiles)
    {
      hide Name, Rotated, OthersKept, Holds, Kept;
      ghost var was := fs.files;
      open := false;
      MoveFiles(fs, path, maxFiles);
      OthersWithout(was, fs.files, path, maxFiles, 0, "");
      NameIs(path, 0);
      open := fs.Open(path, true, reopens);
      bytesWritten := 0;

      HoldsShifted(was, fs.files, path, layout, reopens);
      KeptShift(layout);
      lost := lost + layout[maxFiles - 1];
      layout := [[]] + layout[..maxFiles - 1];
      rotations := rotations + 1;
    }

    /** `write`: the whole entry goes to the active file, and a file that has become too large is
        rotated away. */
    method Write(iov: seq<string>, reopens: bool)
      requires Valid()
      modifies this, fs
      ensures Valid()
      ensures iov == [] || !old(open) ==> unchanged(this) && unchanged(fs)
      ensures iov != [] && old(open) ==>
        && |entries| == |old(entries)| + 1 && entries[..|old(entries)|] == old(entries)
        && entries[|old(entries)|] <= Cat(iov) && (Failed !in old(fs.script) ==> entries[|old(entries)|] == Cat(iov))
        && bytesWritten < maxBytes
        && rotations == old(rotations) + (if old(bytesWritten) + |Cat(iov)| >= maxBytes then 1 else 0)
        && open == (rotations == old(rotations) || reopens)
      ensures iov != [] && old(open) ==>
        var mid := old(layout)[0 := old(layout)[0] + [entries[|old(entries)|]]];
        if rotations == old(rotations) then layout == mid && lost == old(lost)
        else layout == [[]] + mid[..maxFiles - 1] && lost == old(lost) + mid[maxFiles - 1]
      ensures iov != [] && old(open && Counted()) && Failed !in old(fs.script) ==>
        && Counted()
        && |Cat(old(layout)[0] + [entries[|old(entries)|]])| == old(bytesWritten) + |Cat(iov)|
      ensures iov != [] && old(open && Counted() && !AnyAbove(fs.files, path, maxFiles, maxBytes))
              && Failed !in old(fs.script) ==>
        (AnyAbove(fs.files, path, maxFiles, maxBytes) <==> 2 <= maxFiles && old(bytesWritten) + |Cat(iov)| > maxBytes)
      ensures forall r <- fs.script :: r in old(fs.script)
      ensures OthersKept(old(fs.files), fs.files, path, maxFiles)
    {
      hide Name, Holds, Kept, OthersKept, Rotated, Cat, AnyAbove, Above;
      OthersSame(fs.files, path, maxFiles);
      HoldsAbove(fs.files, path, layout, maxBytes);
      ghost var layout0 := layout;
      if iov == [] { return; }
      var total := |Cat(iov)|;
      if !open { return; }
      var now := bytesWritten + total;
      bytesWritten := now;
      ghost var was := fs.files;
      ghost var written := WritevAll(fs, path, iov);
      HoldsMore(was, path, layout, written);
      HoldsActive(was, path, layout);
      CatSnoc(layout[0], written);
      KeptAdd(layout, written);
      NameIs(path, 0);
      OthersWithout(was, was, path, maxFiles, 0, was[path] + written);
      entries := entries + [written];
      layout := layout[0 := layout[0] + [written]];
      if now >= maxBytes {
        ghost var before := fs.files;
        RotateLocked(reopens);
        OthersTwice(was, before, fs.files, path, maxFiles);
      }
      if !Above(layout0, maxBytes) && |Cat(layout0[0] + [written])| == now {
        AboveIff(layout0, written, now, maxBytes);
      }
      HoldsAbove(fs.files, path, layout, maxBytes);
    }
  }

  lemma NameIs(path: string, k: nat)
    ensures Name(path, k) == if k == 0 then path else IndexedPath(path, k)
  {
  }

  lemma OthersTwice(a: map<string, string>, b: map<string, string>, c: map<string, string>, path: string, maxFiles: nat)
    requires OthersKept(a, b, path, maxFiles) && OthersKept(b, c, path, maxFiles)
    ensures OthersKept(a, c, path, maxFiles)
  {
  }

  /** What the files hold, oldest to newest, is a suffix of everything there ever was. */
  lemma ChainIsSuffix(sink: RotatingFileSink)
    requires sink.Valid()
    ensures Cat(sink.entries) == Cat(sink.lost) + Chain(sink.fs.files, sink.path, 0, sink.maxFiles)
    ensures sink.startedEmpty && sink.rotations < sink.maxFiles ==>
      Cat(sink.entries) == Chain(sink.fs.files, sink.path, 0, sink.maxFiles)
  {
    CatNone();
    hide Cat;
    ChainIsKept(sink.fs.files, sink.path, sink.layout, 0);
    assert sink.layout[0..] == sink.layout;
    CatConcat(sink.lost, Kept(sink.layout));
  }

  lemma ActiveFile(sink: RotatingFileSink)
    requires sink.Valid() && sink.open
    ensures sink.fs.files[sink.path] == Cat(sink.layout[0])
  {
    hide Cat;
    HoldsActive(sink.fs.files, sink.path, sink.layout);
  }

  lemma RotatedFile(sink: RotatingFileSink)
    requires sink.Valid() && sink.open && 2 <= sink.maxFiles && sink.layout[0] == [] && sink.layout[1] != []
    ensures At(sink.fs.files, sink.path, 0) == Some("") && At(sink.fs.files, sink.path, 1) == Some(Cat(sink.layout[1]))
  {
    CatNone();
    hide Cat;
    HoldsActive(sink.fs.files, sink.path, sink.layout);
    assert HoldsEntries(At(sink.fs.files, sink.path, 1), sink.layout[1]);
  }

  /** Two entries of six bytes with a limit of ten: the second one passes the limit, and is written
      before the rotation, which leaves a file of twelve bytes. */
  method WrittenBeforeRotation() returns (fs: FileSystem)
    ensures "app.log" in fs.files && fs.files["app.log"] == ""
    ensures "app.1.log" in fs.files && fs.files["app.1.log"] == "entry1entry2"
  {
    hide Cat, At, Holds, Kept, AnyAbove, OthersKept;
    fs := new FileSystem(map[], []);
    CatOne("entry1");
    CatOne("entry2");
    var sink := new RotatingFileSink(fs, "app.log", 10, 2, true);
    ghost var first := sink.layout[0];
    ActiveFile(sink);
    assert Cat(first) == "";
    CatSnoc(first, "entry1");
    CatSnoc(first + ["entry1"], "entry2");
    sink.Write(["entry1"], true);
    assert sink.layout[0] == first + ["entry1"];
    ActiveFile(sink);
    assert sink.bytesWritten == 6;
    sink.Write(["entry2"], true);
    assert sink.layout == [[]] + [first + ["entry1"] + ["entry2"]];
    assert sink.layout[1] == first + ["entry1"] + ["entry2"];
    RotatedFile(sink);
    assert "entry1" + "entry2" == "entry1entry2";
    assert Cat(sink.layout[1]) == "entry1entry2";
    NamedFiles(fs.files);
  }

  lemma FirstRotatedName()
    ensures Name("app.log", 0) == "app.log" && Name("app.log", 1) == "app.1.log"
  {
    LogName("app", 1);
    assert "app" + ".log" == "app.log" && Decimal(1) == "1";
    assert "app" + "." + "1" + ".log" == "app.1.log";
  }

  lemma NamedFiles(files: map<string, string>)
    requires At(files, "app.log", 0).Some? && At(files, "app.log", 1).Some?
    ensures "app.log" in files && files["app.log"] == At(files, "app.log", 0).value
    ensures "app.1.log" in files && files["app.1.log"] == At(files, "app.log", 1).value
  {
    FirstRotatedName();
  }
}
