/** Files as a map from path to contents, an adversarial writev, and the `writev_all` loop of
    src/buffered_file_sink.cpp that both file sinks use. */
module FileSystems {
  import opened Common
  import opened Texts

  /** What the kernel answers: the call was interrupted, failed, or took at most n bytes. */
  datatype Reply = Interrupted | Failed | Took(n: nat)

  class FileSystem {
    var files: map<string, string>
    /** The answers to the next writes; when they are used up, every write is taken whole. */
    var script: seq<Reply>

    constructor (files: map<string, string>, script: seq<Reply>)
      ensures this.files == files && this.script == script
    {
      this.files, this.script := files, script;
    }

    /** `writev`: a prefix of the remaining bytes is appended to the file. */
    method Writev(path: string, p: array<string>, idx: nat) returns (w: int, interrupted: bool)
      requires path in files && idx <= p.Length
      modifies this
      ensures script == if old(script) == [] then [] else old(script)[1..]
      ensures var all := Cat(p[idx..]);
              var reply := if old(script) == [] then Took(|all|) else old(script)[0];
              if reply.Took? then
                0 <= w == Least(reply.n, |all|) && files == old(files)[path := old(files[path]) + all[..w]]
              else
                w == -1 && (interrupted <==> reply.Interrupted?) && files == old(files)
    {
      var all := Cat(p[idx..]);
      var reply := if script == [] then Took(|all|) else script[0];
      if script != [] { script := script[1..]; }
      match reply
      case Interrupted => return -1, true;
      case Failed => return -1, false;
      case Took(n) =>
        w, interrupted := Least(n, |all|), false;
        files := files[path := files[path] + all[..w]];
    }

    method Unlink(path: string)
      modifies this`files
      ensures files == old(files) - {path}
    {
      files := files - {path};
    }

    /** Without a file of the old name nothing happens; a file of the new name is replaced. */
    method Rename(from: string, to: string)
      modifies this`files
      ensures files == if from !in old(files) then old(files) else (old(files) - {from})[to := old(files)[from]]
    {
      if from in files {
        files := (files - {from})[to := files[from]];
      }
    }

    /** `open` with O_CREAT, and with O_TRUNC or without; it may fail. */
    method Open(path: string, truncate: bool, works: bool) returns (ok: bool)
      modifies this`files
      ensures ok == works
      ensures files == if !works then old(files)
                       else if truncate || path !in old(files) then old(files)[path := ""] else old(files)
    {
      ok := works;
      if works && (truncate || path !in files) {
        files := files[path := ""];
      }
    }
  }

  /** The first range is used up by adv more bytes. */
  lemma SkipRange(p: seq<string>, adv: nat)
    requires p != [] && |p[0]| <= adv <= |Cat(p)|
    ensures adv - |p[0]| <= |Cat(p[1..])| && Cat(p)[adv..] == Cat(p[1..])[adv - |p[0]|..]
  {
    CatFirst(p);
    hide Cat;
  }

  /** Or only cut short. */
  lemma CutRange(p: seq<string>, adv: nat)
    requires p != [] && adv < |p[0]|
    ensures adv <= |Cat(p)| && Cat([p[0][adv..]] + p[1..]) == Cat(p)[adv..]
  {
    hide Cat;
    CatFirst(p);
    CatFirst([p[0][adv..]] + p[1..]);
    assert ([p[0][adv..]] + p[1..])[1..] == p[1..];
  }

  /** One more piece has been appended. */
  lemma AppendMore(files: map<string, string>, path: string, a: string, b: string)
    requires path in files
    ensures var f := files[path := files[path] + a];
            f[path := f[path] + b] == files[path := files[path] + (a + b)]
    ensures files[path := files[path] + ""] == files
  {
    assert files[path] + "" == files[path];
    assert files[path] + a + b == files[path] + (a + b);
  }

  /** The ranges are moved past the bytes that were taken. */
  method Advance(p: array<string>, idx0: nat, rem0: nat, w: nat) returns (idx: nat, rem: nat)
    requires idx0 + rem0 == p.Length && w <= |Cat(p[idx0..])|
    modifies p
    ensures idx + rem == p.Length && rem <= rem0 && Cat(p[idx..]) == old(Cat(p[idx0..])[w..])
    ensures w == old(|Cat(p[idx0..])|) ==> rem == 0
  {
    hide Cat;
    idx, rem := idx0, rem0;
    ghost var left := Cat(p[idx..]);
    var adv: nat := w;
    CatNone();
    while rem > 0 && adv >= |p[idx]|
      invariant idx + rem == p.Length && rem <= rem0 && adv <= |Cat(p[idx..])|
      invariant Cat(p[idx..])[adv..] == left[w..]
      modifies {}
    {
      SkipRange(p[idx..], adv);
      assert p[idx..][1..] == p[idx + 1..];
      adv := adv - |p[idx]|;
      idx := idx + 1;
      rem := rem - 1;
    }
    if rem > 0 { CatFirst(p[idx..]); }
    if rem > 0 && adv > 0 {
      ghost var rest := p[idx..];
      CutRange(rest, adv);
      p[idx] := p[idx][adv..];
      assert p[idx..] == [rest[0][adv..]] + rest[1..];
    } else if rem == 0 {
      assert p[idx..] == [];
    }
  }

  /** `writev_all`: whatever the kernel answers, the loop ends; unless a write fails, exactly the
      concatenation of the ranges has been appended, and otherwise a prefix of it. */
  method WritevAll(fs: FileSystem, path: string, iov: seq<string>) returns (ghost written: string)
    requires path in fs.files
    modifies fs
    ensures fs.files == old(fs.files)[path := old(fs.files[path]) + written]
    ensures written <= Cat(iov) && (Failed !in old(fs.script) ==> written == Cat(iov))
    ensures forall r <- fs.script :: r in old(fs.script)
  {
    hide Cat;
    var p := new string[|iov|](i requires 0 <= i < |iov| => iov[i]);
    assert p[0..] == iov;
    var idx: nat, rem: nat := 0, |iov|;
    written := "";
    ghost var failed := false;
    AppendMore(fs.files, path, "", "");
    while rem > 0
      invariant idx + rem == p.Length && path in fs.files && path in old(fs.files) && !failed
      invariant fs.files == old(fs.files)[path := old(fs.files[path]) + written]
      invariant written + Cat(p[idx..]) == Cat(iov)
      invariant forall r <- fs.script :: r in old(fs.script)
      decreases |fs.script|, rem
    {
      ghost var left := Cat(p[idx..]);
      var w, interrupted := fs.Writev(path, p, idx);
      if w < 0 {
        if interrupted { continue; }
        failed := true;
        break;
      }
      AppendMore(old(fs.files), path, written, left[..w]);
      assert left[..w] + left[w..] == left;
      written := written + left[..w];
      idx, rem := Advance(p, idx, rem, w);
    }
    CatNone();
    if rem == 0 { assert p[idx..] == []; }
  }
}
