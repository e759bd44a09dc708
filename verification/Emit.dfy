/** The two assemblers of include/elog/emit.hpp: rendered arguments and literals become one list
    of byte ranges, without copying what is borrowed. */
module Emitters {
  import opened Common
  import opened Formats
  import opened FormatMeaning
  import opened Renderers
  import opened Texts

  const PACK_MAX := 32  // kPackMax

  /** An argument of a log call: one value; an iov_pack whose segments exist already; or a value
      whose renderer allocates a pack and renders its pieces into it. */
  datatype Arg = One(v: Value) | View(segments: seq<string>) | Packed(pieces: seq<Value>)

  function FirstOnes<T>(ts: seq<T>): seq<T> {
    if |ts| > PACK_MAX then ts[..PACK_MAX] else ts
  }

  function ShowEach(vs: seq<Value>): (ts: seq<string>)
    ensures |ts| == |vs|
  {
    seq(|vs|, i requires 0 <= i < |vs| => Show(vs[i]))
  }

  /** What an argument contributes: of a pack the first 32 segments. */
  function TextOf(segments: seq<string>): string {
    Cat(FirstOnes(segments))
  }

  function ArgTexts(args: seq<seq<string>>): (ts: seq<string>)
    ensures |ts| == |args|
  {
    seq(|args|, i requires 0 <= i < |args| => TextOf(args[i]))
  }

  /** The reference: prologue, the format with its arguments substituted, newline. */
  function Line(format: string, prologue: string, args: seq<seq<string>>): string {
    prologue + Substitute(format, ArgTexts(args), 0) + "\n"
  }

  /** The segments of an argument, printed in full. */
  function Shown(a: Arg): seq<string> {
    match a
    case One(v) => [Show(v)]
    case View(segments) => segments
    case Packed(pieces) => ShowEach(pieces)
  }

  function AllShown(args: seq<Arg>): (tss: seq<seq<string>>)
    ensures |tss| == |args|
  {
    seq(|args|, i requires 0 <= i < |args| => Shown(args[i]))
  }

  // ---------------------------------------------------------------- room in scratch

  /** How much of scratch rendering v at position n takes. */
  function Spent(v: Value, n: nat): nat {
    if v.Text? then 0 else |Put(v, n)|
  }

  /** Values rendered one after the other: what they put, and where they end. */
  function PutEach(vs: seq<Value>, n: nat): (ts: seq<string>)
    ensures |ts| == |vs|
  {
    if vs == [] then [] else [Put(vs[0], n)] + PutEach(vs[1..], n + Spent(vs[0], n))
  }

  function EndOf(vs: seq<Value>, n: nat): nat {
    if vs == [] then n else EndOf(vs[1..], n + Spent(vs[0], n))
  }

  predicate SafeInTurn(vs: seq<Value>, n: nat) {
    vs != [] ==> Safe(vs[0], n) && SafeInTurn(vs[1..], n + Spent(vs[0], n))
  }

  /** Where an argument begins in scratch and in the pool of cap slots. A pack that the pool has no
      room for is empty, and leaves both as they are. */
  datatype Spot = Spot(pos: nat, taken: nat, cap: nat)

  function Placed(a: Arg, at: Spot): seq<string> {
    match a
    case One(v) => [Put(v, at.pos)]
    case View(segments) => segments
    case Packed(pieces) => if at.taken + |pieces| > at.cap then [""] else PutEach(pieces, at.pos)
  }

  function Behind(a: Arg, at: Spot): Spot {
    match a
    case One(v) => at.(pos := at.pos + Spent(v, at.pos))
    case View(_) => at
    case Packed(pieces) =>
      if at.taken + |pieces| > at.cap then at
      else at.(pos := EndOf(pieces, at.pos), taken := at.taken + |pieces|)
  }

  predicate SafeArg(a: Arg, at: Spot) {
    match a
    case One(v) => Safe(v, at.pos)
    case View(_) => true
    case Packed(pieces) => at.taken + |pieces| <= at.cap ==> SafeInTurn(pieces, at.pos)
  }

  /** What the arguments contribute, from left to right. */
  function AllPlaced(args: seq<Arg>, at: Spot): (tss: seq<seq<string>>)
    ensures |tss| == |args|
  {
    if args == [] then [] else [Placed(args[0], at)] + AllPlaced(args[1..], Behind(args[0], at))
  }

  predicate SafeArgs(args: seq<Arg>, at: Spot) {
    args != [] ==> SafeArg(args[0], at) && SafeArgs(args[1..], Behind(args[0], at))
  }

  // ---------------------------------------------------------------- arguments that fit

  /** The values rendered one after the other from n on fit. */
  predicate FitInTurn(vs: seq<Value>, n: nat) {
    vs != [] ==> Fits(vs[0], n) && FitInTurn(vs[1..], n + Spent(vs[0], n))
  }

  lemma {:induction false} FitEach(vs: seq<Value>, n: nat)
    requires FitInTurn(vs, n)
    ensures SafeInTurn(vs, n) && PutEach(vs, n) == ShowEach(vs)
  {
    if vs != [] {
      FitsPut(vs[0], n);
      FitEach(vs[1..], n + Spent(vs[0], n));
      hide Fits, Put, Show, Safe, Spent;
      assert ShowEach(vs) == [Show(vs[0])] + ShowEach(vs[1..]);
    }
  }

  predicate FitsArg(a: Arg, at: Spot) {
    match a
    case One(v) => Fits(v, at.pos)
    case View(_) => true
    case Packed(pieces) => at.taken + |pieces| <= at.cap && FitInTurn(pieces, at.pos)
  }

  predicate FitArgs(args: seq<Arg>, at: Spot) {
    args != [] ==> FitsArg(args[0], at) && FitArgs(args[1..], Behind(args[0], at))
  }

  function Ones(vs: seq<Value>): (args: seq<Arg>)
    ensures |args| == |vs|
  {
    seq(|vs|, i requires 0 <= i < |vs| => One(vs[i]))
  }

  /** Without packs both assemblers are given the same texts. */
  lemma {:induction false} OnesPlaced(vs: seq<Value>, at: Spot)
    ensures AllPlaced(Ones(vs), at) == EachAlone(PutEach(vs, at.pos))
    decreases vs
  {
    hide Put, Spent;
    if vs != [] {
      var next := Behind(One(vs[0]), at);
      OnesPlaced(vs[1..], next);
      assert Ones(vs)[0] == One(vs[0]) && Ones(vs)[1..] == Ones(vs[1..]);
      AloneFirst(Put(vs[0], at.pos), PutEach(vs[1..], next.pos));
    }
  }

  lemma AloneFirst(t: string, ts: seq<string>)
    ensures EachAlone([t] + ts) == [[t]] + EachAlone(ts)
  {
  }

  lemma FitsArgPlaced(a: Arg, at: Spot)
    requires FitsArg(a, at)
    ensures SafeArg(a, at) && Placed(a, at) == Shown(a)
  {
    match a
    case One(v) => FitsPut(v, at.pos);
    case View(_) =>
    case Packed(pieces) => FitEach(pieces, at.pos);
  }

  /** Arguments for which there are scratch bytes and pool slots enough are all shown in full. */
  lemma {:induction false} FitPlaced(args: seq<Arg>, at: Spot)
    requires FitArgs(args, at)
    ensures SafeArgs(args, at) && AllPlaced(args, at) == AllShown(args)
  {
    hide FitsArg, SafeArg, Placed, Shown, Behind;
    if args != [] {
      FitsArgPlaced(args[0], at);
      FitPlaced(args[1..], Behind(args[0], at));
      assert AllShown(args) == [Shown(args[0])] + AllShown(args[1..]);
    }
  }

  // ---------------------------------------------------------------- byte ranges that stay put

  /** The range lies within the first |s| bytes of scratch, if in scratch at all, and reads t. */
  predicate Reads(v: Iov, s: string, t: string) {
    (v.Slice? ==> v.off + v.len <= |s|) && Bytes(v, s) == t
  }

  lemma StaysPut(v: Iov, s: string, t: string, s': string)
    requires Reads(v, s, t) && s <= s'
    ensures Reads(v, s', t)
  {
    if v.Slice? { assert s'[v.off..v.off + v.len] == s[v.off..v.off + v.len]; }
  }

  predicate AllRead(vs: seq<Iov>, s: string, ts: seq<string>) {
    |vs| == |ts| && forall i :: 0 <= i < |vs| ==> Reads(vs[i], s, ts[i])
  }

  lemma AllStayPut(vs: seq<Iov>, s: string, ts: seq<string>, s': string)
    requires AllRead(vs, s, ts) && s <= s'
    ensures AllRead(vs, s', ts)
  {
    hide Reads;
    forall i | 0 <= i < |vs| ensures Reads(vs[i], s', ts[i]) {
      StaysPut(vs[i], s, ts[i], s');
    }
  }

  /** What writev would gather. */
  function Gather(vs: seq<Iov>, s: string): string
    requires forall v <- vs :: v.Slice? ==> v.off + v.len <= |s|
  {
    if vs == [] then [] else Gather(vs[..|vs| - 1], s) + Bytes(vs[|vs| - 1], s)
  }

  lemma {:induction false} GatherRead(vs: seq<Iov>, s: string, ts: seq<string>)
    requires AllRead(vs, s, ts)
    ensures (forall v <- vs :: v.Slice? ==> v.off + v.len <= |s|) && Gather(vs, s) == Cat(ts)
  {
    if vs != [] {
      GatherRead(vs[..|vs| - 1], s, ts[..|ts| - 1]);
    }
  }

  /** Rendering one value gives a range that reads as what is put, and disturbs nothing. */
  method RenderOne(scratch: array<char>, pos: nat, v: Value) returns (r: Iov, pos': nat)
    requires scratch.Length == CAP && pos <= CAP && Safe(v, pos)
    modifies scratch
    ensures pos' == pos + Spent(v, pos) <= CAP && old(scratch[..pos]) <= scratch[..pos']
    ensures Reads(r, scratch[..pos'], Put(v, pos))
  {
    hide Put, Safe;
    r, pos' := Render(scratch, pos, v);
  }

  // ---------------------------------------------------------------- the compiled format

  /** The table and the literal bytes are those of the format, which keeps to the limits. */
  ghost predicate Compiled(spec: FmtSpec, format: string)
    reads spec.pieces, spec.litData
  {
    var parts := Compile(format);
    && WithinLimits(parts)
    && |parts| <= spec.pieces.Length && spec.pieces[..|parts|] == Table(parts)
    && |Lits(parts)| <= spec.litData.Length && spec.litData[..|Lits(parts)|] == Lits(parts)
  }

  function Max(a: nat, b: nat): nat {
    if a < b then b else a
  }

  /** What the loop over the pieces reads from the table. */
  lemma PieceRead(spec: FmtSpec, format: string, i: nat)
    requires Compiled(spec, format) && i < |Compile(format)|
    ensures i < spec.pieces.Length
    ensures var part, p, parts := Compile(format)[i], spec.pieces[i], Compile(format);
            if part.Lit? then
              p.litOffset != HOLE && p.litOffset + p.len <= spec.litData.Length
              && spec.litData[p.litOffset..p.litOffset + p.len] == part.text
            else
              p.litOffset == HOLE && p.argIdx == Holes(parts[..i]) < Holes(parts)
  {
    var parts, p := Compile(format), spec.pieces[i];
    assert p == Table(parts)[i] by { assert p == spec.pieces[..|parts|][i]; }
    hide Compile, Lits, Holes, Table;
    ExactIff(parts);
    hide WithinLimits;
    assert Faithful(parts, i);
    if parts[i].Lit? {
      LiteralSlice(parts, i);
      ghost var text := spec.litData[..|Lits(parts)|];
      assert text[p.litOffset..p.litOffset + p.len] == parts[i].text;
    } else {
      PrefixOf(parts, i + 1);
      assert parts[..i + 1] == parts[..i] + [parts[i]];
      SnocPart(parts[..i], parts[i]);
    }
  }

  /** One more part of the line. */
  lemma AssembleStep(parts: seq<Part>, i: nat, args: seq<string>)
    requires i < |parts|
    ensures Assemble(parts[..i + 1], args)
         == Assemble(parts[..i], args) + (if parts[i].Lit? then parts[i].text else ArgText(args, Holes(parts[..i])))
  {
    assert parts[..i + 1] == parts[..i] + [parts[i]];
    SnocAssemble(parts[..i], parts[i], args);
  }

  lemma NothingRead(s: string)
    ensures AllRead([], s, [])
  {
  }

  lemma ReadSnoc(vs: seq<Iov>, s: string, ts: seq<string>, v: Iov, t: string)
    requires AllRead(vs, s, ts) && Reads(v, s, t)
    ensures AllRead(vs + [v], s, ts + [t])
  {
    hide Reads;
  }

  // ---------------------------------------------------------------- without packs

  /** A value is rendered and its range stored at k, behind those that are stored from start on. */
  method RenderInto(scratch: array<char>, pos: nat, v: Value, slots: array<Iov>, ghost start: nat, k: nat,
                    ghost ts: seq<string>)
      returns (pos': nat)
    requires scratch.Length == CAP && pos <= CAP && Safe(v, pos)
    requires start <= k < slots.Length && AllRead(slots[start..k], scratch[..pos], ts)
    modifies scratch, slots
    ensures pos' == pos + Spent(v, pos) <= CAP && old(scratch[..pos]) <= scratch[..pos']
    ensures AllRead(slots[start..k + 1], scratch[..pos'], ts + [Put(v, pos)])
    ensures slots[..k] == old(slots[..k]) && slots[k + 1..] == old(slots[k + 1..])
  {
    hide Reads, AllRead, Put, Spent, Safe;
    ghost var s, done := scratch[..pos], slots[start..k];
    var r: Iov;
    r, pos' := RenderOne(scratch, pos, v);
    AllStayPut(done, s, ts, scratch[..pos']);
    slots[k] := r;
    ReadSnoc(done, scratch[..pos'], ts, r, Put(v, pos));
    assert slots[start..k + 1] == done + [r];
  }

  lemma PutFirst(vs: seq<Value>, n: nat)
    requires vs != [] && SafeInTurn(vs, n)
    ensures var n' := n + Spent(vs[0], n);
            && Safe(vs[0], n) && SafeInTurn(vs[1..], n') && EndOf(vs, n) == EndOf(vs[1..], n')
            && PutEach(vs, n) == [Put(vs[0], n)] + PutEach(vs[1..], n')
  {
    hide Safe, Put;
  }

  lemma PutNone(n: nat)
    ensures PutEach([], n) == [] && EndOf([], n) == n
  {
  }

  /** The arguments, rendered from left to right into the same scratch buffer. */
  method RenderArgs(scratch: array<char>, pos: nat, args: seq<Value>, argIovs: array<Iov>) returns (pos': nat)
    requires scratch.Length == CAP && pos <= CAP && SafeInTurn(args, pos)
    requires |args| <= argIovs.Length && argIovs[..] == seq(argIovs.Length, _ => Borrowed(""))
    modifies scratch, argIovs
    ensures pos' == EndOf(args, pos) <= CAP && old(scratch[..pos]) <= scratch[..pos']
    ensures AllRead(argIovs[..|args|], scratch[..pos'], PutEach(args, pos))
    ensures forall k :: |args| <= k < argIovs.Length ==> argIovs[k] == Borrowed("")
  {
    hide Reads, AllRead, Safe, Put, Spent, SafeInTurn, PutEach, EndOf;
    pos' := pos;
    ghost var ts := [];
    NothingRead(scratch[..pos]);
    assert args[0..] == args && argIovs[0..0] == [];
    for idx := 0 to |args|
      invariant pos <= pos' <= CAP && SafeInTurn(args[idx..], pos') && old(scratch[..pos]) <= scratch[..pos']
      invariant EndOf(args, pos) == EndOf(args[idx..], pos') && PutEach(args, pos) == ts + PutEach(args[idx..], pos')
      invariant AllRead(argIovs[0..idx], scratch[..pos'], ts)
      invariant forall k :: idx <= k < argIovs.Length ==> argIovs[k] == Borrowed("")
    {
      PutFirst(args[idx..], pos');
      assert args[idx..][0] == args[idx] && args[idx..][1..] == args[idx + 1..];
      ghost var text := Put(args[idx], pos');
      pos' := RenderInto(scratch, pos', args[idx], argIovs, 0, idx, ts);
      ts := ts + [text];
    }
    PutNone(pos');
    assert args[|args|..] == [] && ts + [] == ts;
  }

  /** The range an argument hole refers to. */
  lemma ArgRead(argIovs: seq<Iov>, s: string, ts: seq<string>, k: nat)
    requires |ts| <= |argIovs| && AllRead(argIovs[..|ts|], s, ts) && k < |argIovs|
    requires |ts| <= k ==> argIovs[k] == Borrowed("")
    ensures Reads(argIovs[k], s, ArgText(ts, k))
  {
    if k < |ts| { assert argIovs[..|ts|][k] == argIovs[k]; }
  }

  /** What the list of ranges reads after i parts. */
  ghost predicate Assembled(iov: seq<Iov>, s: string, ts: seq<string>, prologue: string, parts: seq<Part>, i: nat,
                            args: seq<string>)
  {
    && AllRead(iov, s, ts) && i <= |parts|
    && Cat(ts) == prologue + Assemble(parts[..i], args)
  }

  lemma AssembledStart(s: string, prologue: Iov, text: string, parts: seq<Part>, args: seq<string>)
    requires Reads(prologue, s, text)
    ensures Assembled([prologue], s, [text], text, parts, 0, args)
  {
    hide Reads;
    CatSnoc([], text);
    assert [] + [text] == [text];
    assert parts[..0] == [];
  }

  /** The ranges for one part are appended. */
  lemma AssembledMore(iov: seq<Iov>, s: string, ts: seq<string>, prologue: string, parts: seq<Part>, i: nat,
                      args: seq<string>, more: seq<Iov>, texts: seq<string>)
    requires Assembled(iov, s, ts, prologue, parts, i, args) && i < |parts| && AllRead(more, s, texts)
    requires Cat(texts) == if parts[i].Lit? then parts[i].text else ArgText(args, Holes(parts[..i]))
    ensures Assembled(iov + more, s, ts + texts, prologue, parts, i + 1, args)
  {
    hide AllRead, Cat, Assemble, Holes;
    CatConcat(ts, texts);
    AssembleStep(parts, i, args);
    ReadConcat(iov, s, ts, more, texts);
  }

  lemma ReadConcat(vs: seq<Iov>, s: string, ts: seq<string>, more: seq<Iov>, texts: seq<string>)
    requires AllRead(vs, s, ts) && AllRead(more, s, texts)
    ensures AllRead(vs + more, s, ts + texts)
  {
    hide Reads;
    var all, alls := vs + more, ts + texts;
    forall i | 0 <= i < |all| ensures Reads(all[i], s, alls[i]) {
      if |vs| <= i { assert all[i] == more[i - |vs|] && alls[i] == texts[i - |vs|]; }
    }
  }

  lemma OneRead(v: Iov, s: string, t: string)
    requires Reads(v, s, t)
    ensures AllRead([v], s, [t])
  {
    hide Reads;
  }

  /** All parts and the newline: the line is complete. */
  lemma AssembledEnd(iov: seq<Iov>, s: string, ts: seq<string>, prologue: string, format: string, args: seq<string>)
    requires Assembled(iov, s, ts, prologue, Compile(format), |Compile(format)|, args)
    ensures var all := iov + [Borrowed("\n")];
            && (forall v <- all :: v.Slice? ==> v.off + v.len <= |s|)
            && Gather(all, s) == prologue + Substitute(format, args, 0) + "\n"
  {
    var all, texts := iov + [Borrowed("\n")], ts + ["\n"];
    assert Reads(Borrowed("\n"), s, "\n");
    ReadSnoc(iov, s, ts, Borrowed("\n"), "\n");
    GatherRead(all, s, texts);
    CatSnoc(ts, "\n");
    CompilePreserves(format, args);
    assert Compile(format)[..|Compile(format)|] == Compile(format);
  }

  /** The newline completes the line. */
  method AppendNewline(iov: array<Iov>, ic: nat, ghost s: string, ghost ts: seq<string>, ghost prologue: string,
                       ghost format: string, ghost args: seq<string>)
      returns (ic': nat)
    requires ic < iov.Length && Assembled(iov[..ic], s, ts, prologue, Compile(format), |Compile(format)|, args)
    modifies iov
    ensures ic' == ic + 1 && (forall v <- iov[..ic'] :: v.Slice? ==> v.off + v.len <= |s|)
    ensures Gather(iov[..ic'], s) == prologue + Substitute(format, args, 0) + "\n"
  {
    hide Assembled, Gather, Substitute, Compile;
    AssembledEnd(iov[..ic], s, ts, prologue, format, args);
    ghost var was := iov[..ic];
    iov[ic] := Borrowed("\n");
    ic' := ic + 1;
    assert iov[..ic'] == was + [Borrowed("\n")];
  }

  /** Adding the range for part i. */
  lemma PartAssembled(iov: seq<Iov>, s: string, ts: seq<string>, prologue: string, parts: seq<Part>, i: nat,
                      args: seq<string>, v: Iov, text: string)
    requires Assembled(iov, s, ts, prologue, parts, i, args) && i < |parts| && Reads(v, s, text)
    requires text == if parts[i].Lit? then parts[i].text else ArgText(args, Holes(parts[..i]))
    ensures Assembled(iov + [v], s, ts + [text], prologue, parts, i + 1, args)
  {
    hide *;
    OneRead(v, s, text);
    CatOne(text);
    AssembledMore(iov, s, ts, prologue, parts, i, args, [v], [text]);
  }

  /** The loop over the pieces. */
  method AssembleFast(iov: array<Iov>, spec: FmtSpec, ghost format: string, n: nat, argIovs: array<Iov>,
                      ghost s: string, ghost prologue: string, ghost texts: seq<string>)
      returns (ic: nat, ghost ts: seq<string>)
    requires Compiled(spec, format) && n == |Compile(format)| && iov.Length == n + 2 && iov != argIovs
    requires Reads(iov[0], s, prologue) && |texts| <= argIovs.Length && AllRead(argIovs[..|texts|], s, texts)
    requires forall k :: |texts| <= k < argIovs.Length ==> argIovs[k] == Borrowed("")
    requires Holes(Compile(format)) <= argIovs.Length
    modifies iov
    ensures ic == n + 1 && Assembled(iov[..ic], s, ts, prologue, Compile(format), n, texts)
  {
    hide Compiled, Compile, Holes, Reads, AllRead, Assembled, ArgText;
    ghost var parts := Compile(format);
    ic := 1;
    ts := [prologue];
    assert iov[..1] == [iov[0]];
    AssembledStart(s, iov[0], prologue, parts, texts);
    for i := 0 to n
      invariant ic == 1 + i && Compiled(spec, format) && argIovs[..] == old(argIovs[..])
      invariant Assembled(iov[..ic], s, ts, prologue, parts, i, texts)
    {
      PieceRead(spec, format, i);
      ghost var was := iov[..ic];
      ghost var text := if parts[i].Lit? then parts[i].text else ArgText(texts, Holes(parts[..i]));
      var p := spec.pieces[i];
      if p.litOffset != HOLE {
        iov[ic] := Borrowed(spec.litData[p.litOffset..p.litOffset + p.len]);
        BorrowedReads(text, s);
      } else {
        ArgRead(argIovs[..], s, texts, p.argIdx);
        iov[ic] := argIovs[p.argIdx];
      }
      assert iov[..ic + 1] == was + [iov[ic]];
      PartAssembled(was, s, ts, prologue, parts, i, texts, iov[ic], text);
      ts := ts + [text];
      ic := ic + 1;
    }
  }

  function EachAlone(ts: seq<string>): (tss: seq<seq<string>>)
    ensures |tss| == |ts|
  {
    seq(|ts|, i requires 0 <= i < |ts| => [ts[i]])
  }

  lemma AloneTexts(ts: seq<string>)
    ensures ArgTexts(EachAlone(ts)) == ts
  {
    forall i | 0 <= i < |ts| ensures TextOf([ts[i]]) == ts[i] { CatOne(ts[i]); }
  }

  /** `emit_f` without packs: exactly N + 2 ranges, which together read as the line. */
  method EmitFast(scratch: array<char>, spec: FmtSpec, ghost format: string, n: nat, prologue: Value, args: seq<Value>)
      returns (iov: array<Iov>, ic: nat)
    requires scratch.Length == CAP && Compiled(spec, format) && n == |Compile(format)|
    requires scratch != spec.litData && Holes(Compile(format)) <= Max(1, |args|)
    requires Safe(prologue, 0) && SafeInTurn(args, Spent(prologue, 0))
    modifies scratch
    ensures fresh(iov) && ic == iov.Length == n + 2
    ensures forall v <- iov[..ic] :: v.Slice? ==> v.off + v.len <= CAP
    ensures Gather(iov[..ic], scratch[..])
         == Line(format, Put(prologue, 0), EachAlone(PutEach(args, Spent(prologue, 0))))
  {
    hide Put, Safe, Reads, AllRead, Compile, Holes, Compiled, Gather, Substitute, Assembled, PutEach, EndOf, SafeInTurn;
    var pos := 0;
    var pro: Iov;
    pro, pos := RenderOne(scratch, pos, prologue);
    ghost var afterPrologue, texts := scratch[..pos], PutEach(args, pos);
    var argIovs := new Iov[Max(1, |args|)](_ => Borrowed(""));
    pos := RenderArgs(scratch, pos, args, argIovs);
    ghost var s := scratch[..];
    StaysPut(pro, afterPrologue, Put(prologue, 0), s);
    AllStayPut(argIovs[..|args|], scratch[..pos], texts, s);

    iov := new Iov[n + 2](_ => Borrowed(""));
    iov[0] := pro;
    ghost var ts;
    ic, ts := AssembleFast(iov, spec, format, n, argIovs, s, Put(prologue, 0), texts);
    AloneTexts(texts);
    ic := AppendNewline(iov, ic, s, ts, Put(prologue, 0), format, texts);
  }

  lemma BorrowedReads(t: string, s: string)
    ensures Reads(Borrowed(t), s, t)
  {
  }

  // ---------------------------------------------------------------- the pool for packs

  /** `IovScratchCtx`: the first pos of cap slots are taken. */
  class IovScratchCtx {
    const base: array<Iov>
    const cap: nat
    var pos: nat

    constructor (base: array<Iov>, cap: nat)
      ensures this.base == base && this.cap == cap && pos == 0
    {
      this.base := base;
      this.cap := cap;
      pos := 0;
    }
  }

  /** The thread's pointer to the pool of the log call in flight, null outside of one. */
  class ThreadState {
    var slot: IovScratchCtx?
  }

  /** `iov_scratch_alloc`: the next n slots, or none if there are not that many. The range begins
      where all earlier ones have ended. */
  method IovScratchAlloc(thread: ThreadState, n: nat) returns (off: Option<nat>)
    modifies thread.slot
    ensures thread.slot == null ==> off.None?
    ensures thread.slot != null ==>
      if old(thread.slot.pos) + n > thread.slot.cap then off.None? && thread.slot.pos == old(thread.slot.pos)
      else off == Some(old(thread.slot.pos)) && thread.slot.pos == old(thread.slot.pos) + n
  {
    var ctx := thread.slot;
    if ctx == null { return None; }
    if ctx.pos + n > ctx.cap { return None; }
    off := Some(ctx.pos);
    ctx.pos := ctx.pos + n;
  }

  /** `ArgSlot`: one range, or a pack in the pool or in the caller's memory. */
  datatype ArgSlot = Single(iov: Iov) | InPool(off: nat, count: nat) | Elsewhere(segments: seq<string>)

  function Segments(slot: ArgSlot, pool: seq<Iov>): seq<Iov>
    requires slot.InPool? ==> slot.off + slot.count <= |pool|
  {
    match slot
    case Single(v) => [v]
    case InPool(off, count) => pool[off..off + count]
    case Elsewhere(segments) => seq(|segments|, i requires 0 <= i < |segments| => Borrowed(segments[i]))
  }

  /** The slot's segments read as the texts; pool is the part of the pool in use. */
  predicate SlotReads(slot: ArgSlot, pool: seq<Iov>, s: string, ts: seq<string>) {
    && (slot.InPool? ==> slot.off + slot.count <= |pool|)
    && AllRead(Segments(slot, pool), s, ts)
  }

  lemma SlotStaysPut(slot: ArgSlot, pool: seq<Iov>, s: string, ts: seq<string>, pool': seq<Iov>, s': string)
    requires SlotReads(slot, pool, s, ts) && pool <= pool' && s <= s'
    ensures SlotReads(slot, pool', s', ts)
  {
    hide AllRead;
    AllStayPut(Segments(slot, pool), s, ts, s');
    if slot.InPool? {
      assert pool'[slot.off..slot.off + slot.count] == pool[slot.off..slot.off + slot.count];
    }
  }

  /** A pack renderer: the pieces are rendered into scratch, their ranges stored in the pool. */
  method FillPack(scratch: array<char>, pos: nat, pieces: seq<Value>, pool: array<Iov>, off: nat) returns (pos': nat)
    requires scratch.Length == CAP && pos <= CAP && SafeInTurn(pieces, pos) && off + |pieces| <= pool.Length
    modifies scratch, pool
    ensures pos' == EndOf(pieces, pos) <= CAP && old(scratch[..pos]) <= scratch[..pos']
    ensures AllRead(pool[off..off + |pieces|], scratch[..pos'], PutEach(pieces, pos))
    ensures pool[..off] == old(pool[..off])
  {
    hide Reads, AllRead, Safe, Put, Spent, SafeInTurn, PutEach, EndOf;
    pos' := pos;
    ghost var s0, ts := scratch[..pos], [];
    NothingRead(s0);
    assert pieces[0..] == pieces && pool[off..off + 0] == [];
    for k := 0 to |pieces|
      invariant pos <= pos' <= CAP && SafeInTurn(pieces[k..], pos') && s0 <= scratch[..pos']
      invariant EndOf(pieces, pos) == EndOf(pieces[k..], pos')
      invariant PutEach(pieces, pos) == ts + PutEach(pieces[k..], pos')
      invariant AllRead(pool[off..off + k], scratch[..pos'], ts)
      invariant pool[..off] == old(pool[..off])
    {
      PutFirst(pieces[k..], pos');
      assert pieces[k..][0] == pieces[k] && pieces[k..][1..] == pieces[k + 1..];
      ghost var text := Put(pieces[k], pos');
      pos' := RenderInto(scratch, pos', pieces[k], pool, off, off + k, ts);
      ts := ts + [text];
    }
    PutNone(pos');
    assert pieces[|pieces|..] == [] && ts + [] == ts;
  }

  // ---------------------------------------------------------------- with packs

  lemma SingleReads(v: Iov, pool: seq<Iov>, s: string, t: string)
    requires Reads(v, s, t)
    ensures SlotReads(Single(v), pool, s, [t])
  {
    hide Reads;
  }

  lemma ViewReads(pool: seq<Iov>, s: string, segments: seq<string>)
    ensures SlotReads(Elsewhere(segments), pool, s, segments)
  {
  }

  lemma PackReads(off: nat, pool: seq<Iov>, s: string, ts: seq<string>)
    requires off + |ts| <= |pool| && AllRead(pool[off..off + |ts|], s, ts)
    ensures SlotReads(InPool(off, |ts|), pool, s, ts)
  {
    hide AllRead;
  }

  lemma TakenPart(pool: seq<Iov>, start: nat, end: nat)
    requires start <= end <= |pool|
    ensures pool[..end][start..end] == pool[start..end] && pool[..start] <= pool[..end]
  {
  }

  /** Where the thread is: pos in scratch, and the pool of its log call. */
  ghost predicate IsSpot(thread: ThreadState, pos: nat, at: Spot)
    reads thread, thread.slot
  {
    thread.slot != null && at == Spot(pos, thread.slot.pos, thread.slot.cap) && thread.slot.pos <= thread.slot.cap
    && thread.slot.base.Length == thread.slot.cap
  }

  /** `make_arg_slot`, which of the three being known at compile time. */
  method MakeArgSlot(thread: ThreadState, scratch: array<char>, pos: nat, a: Arg, ghost at: Spot)
      returns (slot: ArgSlot, pos': nat)
    requires scratch.Length == CAP && pos <= CAP && IsSpot(thread, pos, at) && SafeArg(a, at)
    modifies scratch, thread.slot, thread.slot.base
    ensures pos' <= CAP && IsSpot(thread, pos', Behind(a, at)) && old(scratch[..pos]) <= scratch[..pos']
    ensures old(thread.slot.base[..thread.slot.pos]) <= thread.slot.base[..thread.slot.pos]
    ensures SlotReads(slot, thread.slot.base[..thread.slot.pos], scratch[..pos'], Placed(a, at))
  {
    hide Put, Safe, Reads, AllRead, SlotReads, SafeInTurn, PutEach, EndOf;
    var pool := thread.slot.base;
    ghost var taken := thread.slot.pos;
    match a
    case One(v) =>
      var r: Iov;
      r, pos' := RenderOne(scratch, pos, v);
      SingleReads(r, pool[..taken], scratch[..pos'], Put(v, pos));
      return Single(r), pos';
    case View(segments) =>
      ViewReads(pool[..taken], scratch[..pos], segments);
      return Elsewhere(segments), pos;
    case Packed(pieces) =>
      var off := IovScratchAlloc(thread, |pieces|);
      if off.None? {
        BorrowedReads("", scratch[..pos]);
        SingleReads(Borrowed(""), pool[..taken], scratch[..pos], "");
        return Single(Borrowed("")), pos;
      }
      pos' := FillPack(scratch, pos, pieces, pool, off.value);
      ghost var end := taken + |pieces|;
      assert thread.slot.pos == end;
      TakenPart(pool[..], taken, end);
      PackReads(taken, pool[..end], scratch[..pos'], PutEach(pieces, pos));
      return InPool(off.value, |pieces|), pos';
  }

  predicate SlotsRead(slots: seq<ArgSlot>, pool: seq<Iov>, s: string, tss: seq<seq<string>>) {
    |slots| == |tss| && forall i :: 0 <= i < |slots| ==> SlotReads(slots[i], pool, s, tss[i])
  }

  lemma SlotsStayPut(slots: seq<ArgSlot>, pool: seq<Iov>, s: string, tss: seq<seq<string>>, pool': seq<Iov>, s': string)
    requires SlotsRead(slots, pool, s, tss) && pool <= pool' && s <= s'
    ensures SlotsRead(slots, pool', s', tss)
  {
    hide SlotReads;
    forall i | 0 <= i < |slots| ensures SlotReads(slots[i], pool', s', tss[i]) {
      SlotStaysPut(slots[i], pool, s, tss[i], pool', s');
    }
  }

  lemma SlotsSnoc(slots: seq<ArgSlot>, pool: seq<Iov>, s: string, tss: seq<seq<string>>, slot: ArgSlot, ts: seq<string>)
    requires SlotsRead(slots, pool, s, tss) && SlotReads(slot, pool, s, ts)
    ensures SlotsRead(slots + [slot], pool, s, tss + [ts])
  {
    hide SlotReads;
  }

  lemma PlacedFirst(args: seq<Arg>, at: Spot)
    requires args != [] && SafeArgs(args, at)
    ensures SafeArg(args[0], at) && SafeArgs(args[1..], Behind(args[0], at))
    ensures AllPlaced(args, at) == [Placed(args[0], at)] + AllPlaced(args[1..], Behind(args[0], at))
  {
    hide SafeArg, Placed, Behind;
  }

  lemma NonePlaced(at: Spot)
    ensures AllPlaced([], at) == []
  {
  }

  /** The arguments from left to right, into one scratch buffer and one pool. */
  method MakeArgSlots(thread: ThreadState, scratch: array<char>, pos: nat, args: seq<Arg>, argSlots: array<ArgSlot>,
                      ghost at: Spot)
      returns (pos': nat)
    requires scratch.Length == CAP && pos <= CAP && |args| == argSlots.Length
    requires IsSpot(thread, pos, at) && SafeArgs(args, at)
    modifies scratch, argSlots, thread.slot, thread.slot.base
    ensures pos' <= CAP && old(scratch[..pos]) <= scratch[..pos'] && thread.slot.pos <= thread.slot.cap
    ensures SlotsRead(argSlots[..], thread.slot.base[..thread.slot.pos], scratch[..pos'], AllPlaced(args, at))
  {
    hide SafeArg, SafeArgs, Placed, AllPlaced, Behind, SlotReads, SlotsRead;
    pos' := pos;
    ghost var s0, here, tss := scratch[..pos], at, [];
    assert args[0..] == args && argSlots[..0] == [];
    NoSlots(thread.slot.base[..thread.slot.pos], s0);
    for idx := 0 to |args|
      invariant pos' <= CAP && s0 <= scratch[..pos'] && IsSpot(thread, pos', here)
      invariant SafeArgs(args[idx..], here) && AllPlaced(args, at) == tss + AllPlaced(args[idx..], here)
      invariant SlotsRead(argSlots[..idx], thread.slot.base[..thread.slot.pos], scratch[..pos'], tss)
    {
      PlacedFirst(args[idx..], here);
      assert args[idx..][0] == args[idx] && args[idx..][1..] == args[idx + 1..];
      ghost var pool, s, done := thread.slot.base[..thread.slot.pos], scratch[..pos'], argSlots[..idx];
      var slot: ArgSlot;
      slot, pos' := MakeArgSlot(thread, scratch, pos', args[idx], here);
      argSlots[idx] := slot;
      ghost var pool', s' := thread.slot.base[..thread.slot.pos], scratch[..pos'];
      SlotsStayPut(done, pool, s, tss, pool', s');
      SlotsSnoc(done, pool', s', tss, slot, Placed(args[idx], here));
      assert argSlots[..idx + 1] == done + [slot];
      tss, here := tss + [Placed(args[idx], here)], Behind(args[idx], here);
    }
    NonePlaced(here);
    assert args[|args|..] == [] && tss + [] == tss;
    assert argSlots[..|args|] == argSlots[..];
  }

  lemma NoSlots(pool: seq<Iov>, s: string)
    ensures SlotsRead([], pool, s, [])
  {
  }

  /** What a slot adds to the line. */
  lemma SlotText(slot: ArgSlot, pool: seq<Iov>, s: string, ts: seq<string>)
    requires SlotReads(slot, pool, s, ts)
    ensures AllRead(FirstOnes(Segments(slot, pool)), s, FirstOnes(ts)) && Cat(FirstOnes(ts)) == TextOf(ts)
  {
    hide Reads;
  }

  /** At most 32 of the ranges at base are appended. */
  method AppendPack(iov: array<Iov>, ic: nat, base: seq<Iov>) returns (ic': nat)
    requires ic + PACK_MAX <= iov.Length
    modifies iov
    ensures ic <= ic' <= ic + PACK_MAX && iov[..ic'] == old(iov[..ic]) + FirstOnes(base)
  {
    var n := if |base| > PACK_MAX then PACK_MAX else |base|;
    ghost var before := iov[..ic];
    ic' := ic;
    for k := 0 to n
      invariant ic' == ic + k && iov[..ic'] == before + base[..k]
    {
      iov[ic'] := base[k];
      assert iov[..ic' + 1] == before + base[..k] + [base[k]];
      ic' := ic' + 1;
    }
    assert base[..n] == FirstOnes(base);
  }

  /** The segments of one slot are appended: all of a single one, at most 32 of a pack. */
  method AppendSlot(iov: array<Iov>, ic: nat, slot: ArgSlot, pool: array<Iov>, ghost used: nat) returns (ic': nat)
    requires used <= pool.Length && (slot.InPool? ==> slot.off + slot.count <= used)
    requires ic + PACK_MAX <= iov.Length && iov != pool
    modifies iov
    ensures ic <= ic' <= ic + PACK_MAX
    ensures iov[..ic'] == old(iov[..ic]) + FirstOnes(Segments(slot, pool[..used]))
  {
    match slot
    case Single(v) =>
      iov[ic] := v;
      ic' := ic + 1;
    case InPool(off, count) =>
      assert pool[..used][off..off + count] == pool[off..off + count];
      ic' := AppendPack(iov, ic, pool[off..off + count]);
    case Elsewhere(segments) =>
      ic' := AppendPack(iov, ic, seq(|segments|, i requires 0 <= i < |segments| => Borrowed(segments[i])));
  }

  lemma SlotAt(slots: seq<ArgSlot>, pool: seq<Iov>, s: string, tss: seq<seq<string>>, k: nat)
    requires SlotsRead(slots, pool, s, tss) && k < |slots|
    ensures SlotReads(slots[k], pool, s, tss[k]) && ArgText(ArgTexts(tss), k) == TextOf(tss[k])
    ensures slots[k].InPool? ==> slots[k].off + slots[k].count <= |pool|
  {
    hide AllRead, TextOf;
  }

  /** The loop over the pieces. */
  method AssemblePacks(iov: array<Iov>, spec: FmtSpec, ghost format: string, n: nat, argSlots: array<ArgSlot>,
                       pool: array<Iov>,
                       ghost used: nat, ghost s: string, ghost prologue: string, ghost args: seq<seq<string>>)
      returns (ic: nat, ghost ts: seq<string>)
    requires Compiled(spec, format) && n == |Compile(format)| && iov.Length == n * PACK_MAX + 2 && iov != pool
    requires Reads(iov[0], s, prologue) && used <= pool.Length
    requires SlotsRead(argSlots[..], pool[..used], s, args) && Holes(Compile(format)) <= argSlots.Length == |args|
    modifies iov
    ensures ic < iov.Length && Assembled(iov[..ic], s, ts, prologue, Compile(format), n, ArgTexts(args))
  {
    hide Compiled, Compile, Holes, Reads, AllRead, Assembled, ArgText, SlotReads, SlotsRead, Segments, Cat, FirstOnes;
    ghost var parts, texts := Compile(format), ArgTexts(args);
    ic := 1;
    ts := [prologue];
    assert iov[..1] == [iov[0]];
    AssembledStart(s, iov[0], prologue, parts, texts);
    for i := 0 to n
      invariant 1 <= ic <= 1 + i * PACK_MAX && Compiled(spec, format)
      invariant argSlots[..] == old(argSlots[..]) && pool[..used] == old(pool[..used])
      invariant Assembled(iov[..ic], s, ts, prologue, parts, i, texts)
    {
      PieceRead(spec, format, i);
      ghost var was := iov[..ic];
      ghost var text := if parts[i].Lit? then parts[i].text else ArgText(texts, Holes(parts[..i]));
      var p := spec.pieces[i];
      if p.litOffset != HOLE {
        iov[ic] := Borrowed(spec.litData[p.litOffset..p.litOffset + p.len]);
        BorrowedReads(text, s);
        assert iov[..ic + 1] == was + [iov[ic]];
        PartAssembled(was, s, ts, prologue, parts, i, texts, iov[ic], text);
        ts := ts + [text];
        ic := ic + 1;
      } else {
        ghost var a := args[p.argIdx];
        var slot := argSlots[p.argIdx];
        SlotAt(argSlots[..], pool[..used], s, args, p.argIdx);
        SlotText(slot, pool[..used], s, a);
        ic := AppendSlot(iov, ic, slot, pool, used);
        AssembledMore(was, s, ts, prologue, parts, i, texts,
                      FirstOnes(Segments(slot, pool[..used])), FirstOnes(a));
        ts := ts + FirstOnes(a);
      }
    }
  }

  /** `emit_f` with packs: at most 32 N + 2 ranges, which together read as the line; the
      thread's pool pointer is what it was. */
  method EmitPacks(thread: ThreadState, scratch: array<char>, spec: FmtSpec, ghost format: string, n: nat,
                   prologue: Value, args: seq<Arg>)
      returns (iov: array<Iov>, ic: nat)
    requires scratch.Length == CAP && Compiled(spec, format) && n == |Compile(format)|
    requires scratch != spec.litData && args != [] && Holes(Compile(format)) <= |args|
    requires Safe(prologue, 0) && SafeArgs(args, Spot(Spent(prologue, 0), 0, |args| * PACK_MAX))
    modifies scratch, thread
    ensures thread.slot == old(thread.slot)
    ensures fresh(iov) && ic <= iov.Length == n * PACK_MAX + 2
    ensures forall v <- iov[..ic] :: v.Slice? ==> v.off + v.len <= CAP
    ensures Gather(iov[..ic], scratch[..])
         == Line(format, Put(prologue, 0), AllPlaced(args, Spot(Spent(prologue, 0), 0, |args| * PACK_MAX)))
  {
    hide Put, Safe, Reads, AllRead, Compile, Holes, Compiled, Gather, Substitute, Assembled, SlotsRead,
         SafeArgs, AllPlaced;
    var pos := 0;
    var pro: Iov;
    pro, pos := RenderOne(scratch, pos, prologue);
    ghost var afterPrologue, at := scratch[..pos], Spot(pos, 0, |args| * PACK_MAX);
    ghost var texts := AllPlaced(args, at);

    var iovPool := new Iov[|args| * PACK_MAX](_ => Borrowed(""));
    var poolCtx := new IovScratchCtx(iovPool, |args| * PACK_MAX);
    var prevCtx := thread.slot;
    thread.slot := poolCtx;
    var argSlots := new ArgSlot[|args|](_ => Single(Borrowed("")));
    pos := MakeArgSlots(thread, scratch, pos, args, argSlots, at);
    ghost var s, used := scratch[..], poolCtx.pos;
    StaysPut(pro, afterPrologue, Put(prologue, 0), s);
    SlotsStayPut(argSlots[..], iovPool[..used], scratch[..pos], texts, iovPool[..used], s);

    iov := new Iov[n * PACK_MAX + 2](_ => Borrowed(""));
    iov[0] := pro;
    ghost var ts;
    ic, ts := AssemblePacks(iov, spec, format, n, argSlots, iovPool, used, s, Put(prologue, 0), texts);
    ic := AppendNewline(iov, ic, s, ts, Put(prologue, 0), format, ArgTexts(texts));
    thread.slot := prevCtx;
  }
}
