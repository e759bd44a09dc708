/** The format compiler of include/elog/format.hpp: a format string becomes a table of
    literal and hole pieces over one buffer of literal bytes. */
module Formats {
  type u16 = x: int | 0 <= x < 0x1_0000

  const HOLE: u16 := 0xFFFF  // kHoleSentinel

  /** A narrowing conversion to 16 bits, and 16-bit increments. */
  function Low16(x: nat): u16 {
    x % 0x1_0000
  }

  // ---------------------------------------------------------------- what a format string means

  datatype Token = Char(c: char) | Hole

  /** How many characters the token at the front takes. */
  function Width(s: string): (n: nat)
    requires s != []
    ensures 1 <= n <= |s|
  {
    if |s| >= 2 && ((s[0] == '{' && s[1] == '{') || (s[0] == '}' && s[1] == '}') || (s[0] == '{' && s[1] == '}'))
    then 2 else 1
  }

  function Front(s: string): Token
    requires s != []
  {
    if |s| >= 2 && s[0] == '{' && s[1] == '}' then Hole else Char(s[0])
  }

  function Tokens(s: string): seq<Token> {
    if s == [] then [] else [Front(s)] + Tokens(s[Width(s)..])
  }

  /** A format string as a list of literals and argument places. */
  datatype Part = Lit(text: string) | Arg

  predicate EndsInLit(parts: seq<Part>) {
    parts != [] && parts[|parts| - 1].Lit?
  }

  function Add(parts: seq<Part>, t: Token): (r: seq<Part>)
    ensures EndsInLit(r) <==> t.Char?
  {
    if t.Hole? then parts + [Arg]
    else if EndsInLit(parts) then parts[..|parts| - 1] + [Lit(parts[|parts| - 1].text + [t.c])]
    else parts + [Lit([t.c])]
  }

  function Parts(ts: seq<Token>): seq<Part> {
    if ts == [] then [] else Add(Parts(ts[..|ts| - 1]), ts[|ts| - 1])
  }

  function Compile(s: string): seq<Part> {
    Parts(Tokens(s))
  }

  /** All literal text, in order. */
  function Lits(parts: seq<Part>): string {
    if parts == [] then []
    else Lits(parts[..|parts| - 1]) + (var p := parts[|parts| - 1]; if p.Lit? then p.text else [])
  }

  function Holes(parts: seq<Part>): nat {
    if parts == [] then 0
    else Holes(parts[..|parts| - 1]) + (if parts[|parts| - 1].Arg? then 1 else 0)
  }

  /** No literal is empty and no two are adjacent. */
  predicate Normal(parts: seq<Part>) {
    && (forall k :: 0 <= k < |parts| && parts[k].Lit? ==> parts[k].text != [])
    && (forall k :: 0 < k < |parts| && parts[k].Lit? ==> parts[k - 1].Arg?)
  }

  lemma {:induction false} PartsNormal(ts: seq<Token>)
    ensures Normal(Parts(ts))
  {
    if ts != [] {
      PartsNormal(ts[..|ts| - 1]);
    }
  }

  lemma Snoc(ts: seq<Token>, t: Token)
    ensures Parts(ts + [t]) == Add(Parts(ts), t)
  {
    assert (ts + [t])[..|ts|] == ts;
  }

  lemma SnocPart(parts: seq<Part>, p: Part)
    ensures Lits(parts + [p]) == Lits(parts) + (if p.Lit? then p.text else [])
    ensures Holes(parts + [p]) == Holes(parts) + (if p.Arg? then 1 else 0)
  {
    assert (parts + [p])[..|parts|] == parts;
  }

  /** Adding a token adds its character to the literal text, or one hole. */
  lemma AddEffect(parts: seq<Part>, t: Token)
    ensures Lits(Add(parts, t)) == Lits(parts) + (if t.Char? then [t.c] else [])
    ensures Holes(Add(parts, t)) == Holes(parts) + (if t.Hole? then 1 else 0)
    ensures |Add(parts, t)| == |parts| + (if t.Char? && EndsInLit(parts) then 0 else 1)
  {
    if t.Hole? {
      SnocPart(parts, Arg);
    } else if EndsInLit(parts) {
      var front, last := parts[..|parts| - 1], parts[|parts| - 1];
      SnocPart(front, Lit(last.text + [t.c]));
    } else {
      SnocPart(parts, Lit([t.c]));
    }
  }

  /** Compiling more never takes anything away. */
  lemma {:induction false} Grows(ts: seq<Token>, more: seq<Token>)
    ensures |Parts(ts)| <= |Parts(ts + more)| && |Lits(Parts(ts))| <= |Lits(Parts(ts + more))|
    decreases more
  {
    hide Parts, Lits, Add;
    if more == [] {
      assert ts + more == ts;
    } else {
      var init, t := more[..|more| - 1], more[|more| - 1];
      Grows(ts, init);
      assert ts + more == (ts + init) + [t];
      Snoc(ts + init, t);
      AddEffect(Parts(ts + init), t);
    }
  }

  /** The loop step: one token is taken off the front of what is left. */
  lemma TakeToken(done: seq<Token>, rest: string)
    requires rest != []
    ensures done + Tokens(rest) == (done + [Front(rest)]) + Tokens(rest[Width(rest)..])
  {
  }

  /** What is known of a token at the front of what is left. */
  lemma NextToken(s: string, i: nat, done: seq<Token>)
    requires i < |s| && Tokens(s) == done + Tokens(s[i..])
    ensures var t, w := Front(s[i..]), Width(s[i..]);
            && Tokens(s) == (done + [t]) + Tokens(s[i + w..])
            && Parts(done + [t]) == Add(Parts(done), t)
            && |Parts(done + [t])| <= |Compile(s)| && |Lits(Parts(done + [t]))| <= |Lits(Compile(s))|
            && |Parts(done + [t])| == |Parts(done)| + (if t.Char? && EndsInLit(Parts(done)) then 0 else 1)
            && |Lits(Parts(done + [t]))| == |Lits(Parts(done))| + (if t.Char? then 1 else 0)
            && (EndsInLit(Parts(done + [t])) <==> t.Char?)
  {
    var rest := s[i..];
    var t, w := Front(rest), Width(rest);
    TakeToken(done, rest);
    assert rest[w..] == s[i + w..];
    hide Tokens, Parts, Lits, Add, Front, Width;
    Snoc(done, t);
    AddEffect(Parts(done), t);
    Grows(done + [t], Tokens(s[i + w..]));
  }

  lemma StartsEmpty(s: string)
    ensures Tokens(s) == [] + Tokens(s[0..]) && Parts([]) == [] && Lits([]) == []
  {
    assert s[0..] == s;
  }

  lemma EndsWithAll(s: string, done: seq<Token>)
    requires Tokens(s) == done + Tokens(s[|s|..])
    ensures Parts(done) == Compile(s)
  {
    assert done == Tokens(s);
  }

  // ---------------------------------------------------------------- the counting passes

  /** `count_pieces`: s stands for the bytes before the terminating NUL, so looking one past
      the end finds '\0'. */
  method CountPieces(s: string) returns (pieces: nat)
    ensures pieces == |Compile(s)|
  {
    pieces := 0;
    var inLit := false;
    var i := 0;
    ghost var done: seq<Token> := [];
    StartsEmpty(s);
    hide Tokens, Parts, Lits, Add;
    while i < |s|
      invariant 0 <= i <= |s| && Tokens(s) == done + Tokens(s[i..])
      invariant pieces == |Parts(done)| && (inLit <==> EndsInLit(Parts(done)))
    {
      var c1 := s[i];
      var c2 := if i + 1 < |s| then s[i + 1] else '\0';
      NextToken(s, i, done);
      done := done + [Front(s[i..])];
      if c1 == '{' && c2 == '{' {
        if !inLit { pieces := pieces + 1; inLit := true; }
        i := i + 2;
      } else if c1 == '}' && c2 == '}' {
        if !inLit { pieces := pieces + 1; inLit := true; }
        i := i + 2;
      } else if c1 == '{' && c2 == '}' {
        pieces := pieces + 1;
        inLit := false;
        i := i + 2;
      } else {
        if !inLit { pieces := pieces + 1; inLit := true; }
        i := i + 1;
      }
    }
    EndsWithAll(s, done);
  }

  method CountLitChars(s: string) returns (n: nat)
    ensures n == |Lits(Compile(s))|
  {
    n := 0;
    var i := 0;
    ghost var done: seq<Token> := [];
    StartsEmpty(s);
    hide Tokens, Parts, Lits, Add;
    while i < |s|
      invariant 0 <= i <= |s| && Tokens(s) == done + Tokens(s[i..])
      invariant n == |Lits(Parts(done))|
    {
      var c1 := s[i];
      var c2 := if i + 1 < |s| then s[i + 1] else '\0';
      NextToken(s, i, done);
      done := done + [Front(s[i..])];
      if c1 == '{' && c2 == '{' { n := n + 1; i := i + 2; }
      else if c1 == '}' && c2 == '}' { n := n + 1; i := i + 2; }
      else if c1 == '{' && c2 == '}' { i := i + 2; }
      else { n := n + 1; i := i + 1; }
    }
    EndsWithAll(s, done);
  }

  // ---------------------------------------------------------------- the filling pass

  datatype Piece = Piece(litOffset: u16, len: u16, argIdx: u16) {
    predicate IsHole() { litOffset == HOLE }
  }

  /** The entry for part k as 16-bit fields hold it. */
  function PieceFor(parts: seq<Part>, k: nat): Piece
    requires k < |parts|
  {
    if parts[k].Lit? then Piece(Low16(|Lits(parts[..k])|), Low16(|parts[k].text|), 0)
    else Piece(HOLE, 0, Low16(Holes(parts[..k])))
  }

  function Table(parts: seq<Part>): (t: seq<Piece>)
    ensures |t| == |parts|
  {
    seq(|parts|, k requires 0 <= k < |parts| => PieceFor(parts, k))
  }

  class FmtSpec {
    const pieces: array<Piece>
    const litData: array<char>
    var holeCount: nat

    constructor (n: nat, l: nat)
      ensures fresh(pieces) && fresh(litData)
      ensures pieces.Length == (if n == 0 then 1 else n) && litData.Length == (if l == 0 then 1 else l)
    {
      pieces := new Piece[if n == 0 then 1 else n](_ => Piece(0, 0, 0));
      litData := new char[if l == 0 then 1 else l](_ => '\0');
      holeCount := 0;
    }
  }

  /** How much of the table is complete: the last literal is still open. */
  function Closed(parts: seq<Part>): nat {
    if EndsInLit(parts) then |parts| - 1 else |parts|
  }

  /** The state of the filling loop after the tokens that make up `parts`. */
  predicate Filled(parts: seq<Part>, pieces: seq<Piece>, lit: string, pi: nat, li: nat,
                   inLit: bool, curOff: u16, curLen: u16, argIdx: u16)
  {
    && (inLit <==> EndsInLit(parts))
    && pi == Closed(parts) <= |pieces| && pieces[..pi] == Table(parts)[..pi]
    && li == |Lits(parts)| <= |lit| && lit[..li] == Lits(parts)
    && (inLit ==> Table(parts)[pi] == Piece(curOff, curLen, 0))
    && argIdx == Low16(Holes(parts))
  }

  /** Closing the open literal does not change earlier entries. */
  lemma AddKeepsTable(parts: seq<Part>, t: Token)
    ensures Closed(parts) <= |Add(parts, t)|
    ensures Table(Add(parts, t))[..Closed(parts)] == Table(parts)[..Closed(parts)]
  {
    var r := Add(parts, t);
    forall k | 0 <= k < Closed(parts) ensures Table(r)[k] == Table(parts)[k] {
      assert r[..k] == parts[..k];
    }
  }

  lemma FillChar(parts: seq<Part>, c: char, pieces: seq<Piece>, lit: string, pi: nat, li: nat,
                 inLit: bool, curOff: u16, curLen: u16, argIdx: u16)
    requires Filled(parts, pieces, lit, pi, li, inLit, curOff, curLen, argIdx) && li < |lit|
    ensures Filled(Add(parts, Char(c)), pieces, lit[li := c], pi, li + 1, true,
                   if inLit then curOff else Low16(li), Low16((if inLit then curLen else 0) + 1), argIdx)
  {
    var r := Add(parts, Char(c));
    AddEffect(parts, Char(c));
    AddKeepsTable(parts, Char(c));
    hide Lits, Holes;
    assert Closed(r) == Closed(parts);
    assert r[..pi] == parts[..pi];
    if inLit {
      assert parts[..pi] + [parts[pi]] == parts;
      SnocPart(parts[..pi], parts[pi]);
    } else {
      assert parts[..pi] == parts;
    }
    hide Lits, Holes;
  }

  lemma FillHole(parts: seq<Part>, pieces: seq<Piece>, lit: string, pi: nat, li: nat,
                 inLit: bool, curOff: u16, curLen: u16, argIdx: u16)
    requires Filled(parts, pieces, lit, pi, li, inLit, curOff, curLen, argIdx) && |parts| < |pieces|
    ensures pi <= |parts| <= pi + 1 && (inLit <==> pi < |parts|)
    ensures var p := if inLit then pieces[pi := Piece(curOff, curLen, 0)] else pieces;
            Filled(Add(parts, Hole), p[|parts| := Piece(HOLE, 0, argIdx)], lit, |parts| + 1, li,
                   false, curOff, curLen, Low16(argIdx + 1))
  {
    var r := Add(parts, Hole);
    AddEffect(parts, Hole);
    assert r[..|parts|] == parts;
    AddKeepsTable(parts, Hole);
    hide Lits, Holes;
    if inLit { assert r[..pi] == parts[..pi]; }
    assert Table(r)[|parts|] == Piece(HOLE, 0, argIdx);
    assert forall k :: 0 <= k < |parts| ==> Table(r)[k] == Table(parts)[k] by {
      forall k | 0 <= k < |parts| ensures Table(r)[k] == Table(parts)[k] { assert r[..k] == parts[..k]; }
    }
  }

  lemma FillStart(pieces: seq<Piece>, lit: string)
    ensures Filled([], pieces, lit, 0, 0, false, 0, 0, 0)
  {
  }

  lemma FillEnd(parts: seq<Part>, pieces: seq<Piece>, lit: string, pi: nat, li: nat,
                inLit: bool, curOff: u16, curLen: u16, argIdx: u16)
    requires Filled(parts, pieces, lit, pi, li, inLit, curOff, curLen, argIdx) && |parts| <= |pieces|
    ensures pi <= |parts| && (inLit <==> pi < |parts|) && argIdx == Low16(Holes(parts))
    ensures (if inLit then pieces[pi := Piece(curOff, curLen, 0)] else pieces)[..|parts|] == Table(parts)
    ensures li == |Lits(parts)| <= |lit| && lit[..li] == Lits(parts)
  {
    hide Lits, Holes;
    if inLit {
      assert pieces[pi := Piece(curOff, curLen, 0)][..|parts|] == pieces[..pi] + [Piece(curOff, curLen, 0)];
      assert Table(parts) == Table(parts)[..pi] + [Table(parts)[pi]];
    }
  }

  /** `make_spec` into a table for n pieces and l literal bytes. */
  method MakeSpec(s: string, n: nat, l: nat) returns (spec: FmtSpec)
    requires n == |Compile(s)| && l == |Lits(Compile(s))|
    ensures fresh(spec) && fresh(spec.pieces) && fresh(spec.litData)
    ensures n <= spec.pieces.Length && spec.pieces[..n] == Table(Compile(s))
    ensures l <= spec.litData.Length && spec.litData[..l] == Lits(Compile(s))
    ensures spec.holeCount == Low16(Holes(Compile(s)))
  {
    hide Filled, Parts, Lits, Holes, Table, Tokens;
    spec := new FmtSpec(n, l);
    var pi, li := 0, 0;
    var inLit := false;
    var curOff: u16, curLen: u16, argIdx: u16 := 0, 0, 0;
    var i := 0;
    ghost var done: seq<Token> := [];
    StartsEmpty(s);
    FillStart(spec.pieces[..], spec.litData[..]);
    while i < |s|
      invariant 0 <= i <= |s| && Tokens(s) == done + Tokens(s[i..])
      invariant |Parts(done)| <= n <= spec.pieces.Length && |Lits(Parts(done))| <= l <= spec.litData.Length
      invariant Filled(Parts(done), spec.pieces[..], spec.litData[..], pi, li, inLit, curOff, curLen, argIdx)
    {
      var c1 := s[i];
      var c2 := if i + 1 < |s| then s[i + 1] else '\0';
      ghost var parts := Parts(done);
      NextToken(s, i, done);
      FilledLength(parts, spec.pieces[..], spec.litData[..], pi, li, inLit, curOff, curLen, argIdx);
      done := done + [Front(s[i..])];
      if c1 == '{' && c2 == '{' {
        FillChar(parts, '{', spec.pieces[..], spec.litData[..], pi, li, inLit, curOff, curLen, argIdx);
        if !inLit {
          inLit := true;
          curOff := Low16(li);
          curLen := 0;
        }
        spec.litData[li] := '{';
        li := li + 1;
        curLen := Low16(curLen + 1);
        i := i + 2;
      } else if c1 == '}' && c2 == '}' {
        FillChar(parts, '}', spec.pieces[..], spec.litData[..], pi, li, inLit, curOff, curLen, argIdx);
        if !inLit {
          inLit := true;
          curOff := Low16(li);
          curLen := 0;
        }
        spec.litData[li] := '}';
        li := li + 1;
        curLen := Low16(curLen + 1);
        i := i + 2;
      } else if c1 == '{' && c2 == '}' {
        FillHole(parts, spec.pieces[..], spec.litData[..], pi, li, inLit, curOff, curLen, argIdx);
        if inLit {
          spec.pieces[pi] := Piece(curOff, curLen, 0);
          pi := pi + 1;
          inLit := false;
        }
        spec.pieces[pi] := Piece(HOLE, 0, argIdx);
        argIdx := Low16(argIdx + 1);
        pi := pi + 1;
        i := i + 2;
      } else {
        FillChar(parts, c1, spec.pieces[..], spec.litData[..], pi, li, inLit, curOff, curLen, argIdx);
        if !inLit {
          inLit := true;
          curOff := Low16(li);
          curLen := 0;
        }
        spec.litData[li] := c1;
        li := li + 1;
        curLen := Low16(curLen + 1);
        i := i + 1;
      }
    }
    EndsWithAll(s, done);
    FillEnd(Parts(done), spec.pieces[..], spec.litData[..], pi, li, inLit, curOff, curLen, argIdx);
    if inLit {
      spec.pieces[pi] := Piece(curOff, curLen, 0);
      pi := pi + 1;
    }
    spec.holeCount := argIdx;
  }

  lemma FilledLength(parts: seq<Part>, pieces: seq<Piece>, lit: string, pi: nat, li: nat,
                     inLit: bool, curOff: u16, curLen: u16, argIdx: u16)
    requires Filled(parts, pieces, lit, pi, li, inLit, curOff, curLen, argIdx)
    ensures li == |Lits(parts)|
  {
  }
}
