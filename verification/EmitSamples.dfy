/** Two log calls from their format string to the bytes that are written, and where packs end. */
module EmitSamples {
  import opened Common
  import opened Texts
  import opened Formats
  import opened FormatMeaning
  import opened Renderers
  import opened Emitters

  function Sample(): string {
    "{{{}}} {}!"
  }

  function SampleParts(): seq<Part> {
    [Lit("{"), Arg, Lit("} "), Arg, Lit("!")]
  }

  lemma PrintFirst(p: Part, more: seq<Part>)
    ensures Print([p] + more) == (if p.Lit? then EscapeAll(p.text) else "{}") + Print(more)
    ensures Print([]) == ""
  {
    assert ([p] + more)[0] == p && ([p] + more)[1..] == more;
  }

  lemma SamplePrinted()
    ensures Print(SampleParts()) == Sample()
  {
    EscapedBraces();
    NothingToEscape("!");
    hide EscapeAll, Print;
    PrintFirst(Lit("!"), []);
    PrintFirst(Arg, [Lit("!")]);
    PrintFirst(Lit("} "), [Arg, Lit("!")]);
    PrintFirst(Arg, [Lit("} "), Arg, Lit("!")]);
    PrintFirst(Lit("{"), [Arg, Lit("} "), Arg, Lit("!")]);
    assert SampleParts() == [Lit("{")] + [Arg, Lit("} "), Arg, Lit("!")];
    assert [Arg, Lit("} "), Arg, Lit("!")] == [Arg] + [Lit("} "), Arg, Lit("!")];
    assert [Lit("} "), Arg, Lit("!")] == [Lit("} ")] + [Arg, Lit("!")];
    assert [Arg, Lit("!")] == [Arg] + [Lit("!")] && [Lit("!")] == [Lit("!")] + [];
  }

  lemma SampleNormal()
    ensures Normal(SampleParts())
  {
  }

  lemma SampleCompiled()
    ensures Compile(Sample()) == SampleParts()
    ensures Holes(SampleParts()) == 2 && Lits(SampleParts()) == "{} !" && WithinLimits(SampleParts())
  {
    hide *;
    SamplePrinted();
    SampleNormal();
    RoundTrip(SampleParts());
    SampleCounts();
    assert |Lits(SampleParts())| == 4;
    FewLiteralsFit(SampleParts());
  }

  lemma SampleCounts()
    ensures Holes(SampleParts()) == 2 && Lits(SampleParts()) == "{} !"
  {
    var parts := SampleParts();
    SnocPart([], Lit("{"));
    SnocPart([Lit("{")], Arg);
    SnocPart([Lit("{"), Arg], Lit("} "));
    SnocPart([Lit("{"), Arg, Lit("} ")], Arg);
    SnocPart([Lit("{"), Arg, Lit("} "), Arg], Lit("!"));
    assert [] + [Lit("{")] == [Lit("{")] && [Lit("{")] + [Arg] == [Lit("{"), Arg];
    assert [Lit("{"), Arg] + [Lit("} ")] == [Lit("{"), Arg, Lit("} ")];
    assert [Lit("{"), Arg, Lit("} ")] + [Arg] == [Lit("{"), Arg, Lit("} "), Arg];
    assert [Lit("{"), Arg, Lit("} "), Arg] + [Lit("!")] == parts;
    assert Holes([]) == 0 && Lits([]) == "";
    hide Holes, Lits;
  }

  /** The sample with its arguments. */
  lemma SampleSubstituted(x: string, y: string)
    ensures Substitute(Sample(), [x, y], 0) == "{" + x + ("} " + y + "!")
  {
    hide Substitute, EscapeAll;
    EscapedBraces();
    LastLiteral([x, y]);
    SubstituteNext("} ", "!", [x, y], 1);
    assert "}} " + "{}" + "!" == "}} {}!";
    SubstituteNext("{", "}} {}!", [x, y], 0);
    assert "{{" + "{}" + "}} {}!" == Sample();
  }

  lemma LastLiteral(args: seq<string>)
    ensures Substitute("!", args, 2) == "!"
  {
    hide Substitute, Compile;
    LoneBracesStay("!", args, 2);
  }

  method SampleSpec() returns (spec: FmtSpec)
    ensures fresh(spec) && fresh(spec.pieces) && fresh(spec.litData) && Compiled(spec, Sample())
  {
    SampleCompiled();
    hide Compile, Holes, Lits, WithinLimits, Table;
    spec := MakeSpec(Sample(), 5, 4);
  }

  /** A number and a borrowed text. */
  method EmitSample() returns (scratch: array<char>, iov: array<Iov>, ic: nat)
    ensures ic <= iov.Length && forall v <- iov[..ic] :: v.Slice? ==> v.off + v.len <= scratch.Length
    ensures ic == 7 && Gather(iov[..ic], scratch[..]) == "I {1} x!\n"
  {
    var spec := SampleSpec();
    scratch := new char[CAP](_ => ' ');
    var args := [Leaf("1", Unchecked), Text("x")];
    SampleCompiled();
    ArgsPut();
    AloneTexts(["1", "x"]);
    SampleSubstituted("1", "x");
    LineText();
    hide Compile, Compiled, Holes, Gather, Substitute, ArgTexts, EachAlone, PutEach, SafeInTurn;
    iov, ic := EmitFast(scratch, spec, Sample(), 5, Text("I "), args);
  }

  lemma ArgsPut()
    ensures var args := [Leaf("1", Unchecked), Text("x")];
            && SafeInTurn(args, 0) && PutEach(args, 0) == ["1", "x"]
    ensures Safe(Text("I "), 0) && Spent(Text("I "), 0) == 0 && Put(Text("I "), 0) == "I "
  {
    var args := [Leaf("1", Unchecked), Text("x")];
    assert args[1..] == [Text("x")] && [Text("x")][1..] == [];
  }

  lemma LineText()
    ensures "I " + ("{" + "1" + ("} " + "x" + "!")) + "\n" == "I {1} x!\n"
    ensures "I " + ("{" + "k=v" + ("} " + "t2" + "!")) + "\n" == "I {k=v} t2!\n"
  {
  }

  /** A view of two segments, and a pack of a borrowed text and a number. */
  function SamplePacks(): seq<Arg> {
    [View(["k=", "v"]), Packed([Text("t"), Leaf("2", Unchecked)])]
  }

  lemma PacksPlaced()
    ensures SafeArgs(SamplePacks(), Spot(0, 0, 64))
    ensures ArgTexts(AllPlaced(SamplePacks(), Spot(0, 0, 64))) == ["k=v", "t2"]
  {
    var packs, at, pieces := SamplePacks(), Spot(0, 0, 64), [Text("t"), Leaf("2", Unchecked)];
    assert packs[1..] == [packs[1]] && [packs[1]][1..] == [];
    assert pieces[1..] == [pieces[1]] && [pieces[1]][1..] == [];
    assert PutEach(pieces, 0) == ["t", "2"] && SafeInTurn(pieces, 0);
    assert AllPlaced(packs, at) == [["k=", "v"], ["t", "2"]];
    TwoTexts("k=", "v");
    TwoTexts("t", "2");
    assert "k=" + "v" == "k=v" && "t" + "2" == "t2";
  }

  lemma TwoTexts(a: string, b: string)
    ensures TextOf([a, b]) == a + b
  {
    CatOne(a);
    CatSnoc([a], b);
    assert [a] + [b] == [a, b];
    hide Cat;
  }

  method EmitPackSample(thread: ThreadState) returns (scratch: array<char>, iov: array<Iov>, ic: nat)
    modifies thread
    ensures thread.slot == old(thread.slot)
    ensures ic <= iov.Length && forall v <- iov[..ic] :: v.Slice? ==> v.off + v.len <= scratch.Length
    ensures Gather(iov[..ic], scratch[..]) == "I {k=v} t2!\n"
  {
    var spec := SampleSpec();
    scratch := new char[CAP](_ => ' ');
    SampleCompiled();
    ArgsPut();
    PacksPlaced();
    SampleSubstituted("k=v", "t2");
    LineText();
    hide Compile, Compiled, Holes, Gather, Substitute, ArgTexts, AllPlaced, SafeArgs;
    iov, ic := EmitPacks(thread, scratch, spec, Sample(), 5, Text("I "), SamplePacks());
  }

  /** A pack gives its first 32 segments and no others. */
  lemma PackEnds(ts: seq<string>)
    ensures |ts| <= 32 ==> TextOf(ts) == Cat(ts)
    ensures 32 < |ts| ==> TextOf(ts) == Cat(ts[..32])
  {
  }

  /** A pack for which the pool has no room gives nothing, and takes nothing. */
  lemma PackWithoutRoom(pieces: seq<Value>, at: Spot)
    requires at.cap < at.taken + |pieces|
    ensures TextOf(Placed(Packed(pieces), at)) == "" && Behind(Packed(pieces), at) == at
  {
    CatOne("");
  }
}
