/** What compiling a format string is for: the table stands for the string, any list of parts
    can be written as a string that compiles to it, and substituting arguments into the parts is
    substituting them into the string. */
module FormatMeaning {
  import opened Formats

  // ---------------------------------------------------------------- the 16-bit table

  /** The table entry says exactly what part k is, with no field wrapped and no literal taken
      for a hole. */
  predicate Faithful(parts: seq<Part>, k: nat)
    requires k < |parts|
  {
    var p := Table(parts)[k];
    if parts[k].Lit? then !p.IsHole() && p.litOffset == |Lits(parts[..k])| && p.len == |parts[k].text|
    else p.IsHole() && p.argIdx == Holes(parts[..k])
  }

  /** The limits a format string has to keep to. */
  predicate WithinLimits(parts: seq<Part>) {
    && (forall k :: 0 <= k < |parts| && parts[k].Lit? ==> |Lits(parts[..k])| < 0xFFFF && |parts[k].text| <= 0xFFFF)
    && Holes(parts) <= 0xFFFF
  }

  lemma {:induction false} PrefixOf(parts: seq<Part>, k: nat)
    requires k <= |parts|
    ensures Holes(parts[..k]) <= Holes(parts) && Lits(parts[..k]) <= Lits(parts)
    decreases |parts|
  {
    if k == |parts| {
      assert parts[..k] == parts;
    } else {
      var front := parts[..|parts| - 1];
      PrefixOf(front, k);
      assert front[..k] == parts[..k];
    }
  }

  lemma FaithfulIff(parts: seq<Part>, k: nat)
    requires k < |parts|
    ensures Faithful(parts, k) <==>
      if parts[k].Lit? then |Lits(parts[..k])| < 0xFFFF && |parts[k].text| <= 0xFFFF else Holes(parts[..k]) <= 0xFFFF
  {
    hide Lits, Holes;
    var off := |Lits(parts[..k])|;
    assert parts[k].Lit? && 0xFFFF < off ==> Low16(off) != off;
  }

  /** Beyond the limits the fields wrap around. */
  lemma FieldsWrap(parts: seq<Part>, k: nat)
    requires k < |parts|
    ensures var p := Table(parts)[k];
            if parts[k].Lit? then
              p.litOffset == |Lits(parts[..k])| % 65536 && p.len == |parts[k].text| % 65536 && p.argIdx == 0
            else p.litOffset == 65535 && p.len == 0 && p.argIdx == Holes(parts[..k]) % 65536
  {
    hide Lits, Holes;
  }

  predicate AllFaithful(parts: seq<Part>) {
    forall k :: 0 <= k < |parts| ==> Faithful(parts, k)
  }

  /** The table is right exactly when the format keeps to the limits. */
  lemma ExactIff(parts: seq<Part>)
    ensures AllFaithful(parts) && Low16(Holes(parts)) == Holes(parts) <==> WithinLimits(parts)
  {
    hide Lits, Holes, Faithful;
    forall k | 0 <= k < |parts|
      ensures Faithful(parts, k) <==>
        if parts[k].Lit? then |Lits(parts[..k])| < 0xFFFF && |parts[k].text| <= 0xFFFF else Holes(parts[..k]) <= 0xFFFF
      ensures Holes(parts[..k]) <= Holes(parts)
    {
      FaithfulIff(parts, k);
      PrefixOf(parts, k);
    }
  }

  /** Fewer than 65535 literal characters and 65536 holes are within the limits. */
  lemma FewLiteralsFit(parts: seq<Part>)
    requires |Lits(parts)| < 0xFFFF && Holes(parts) <= 0xFFFF
    ensures WithinLimits(parts)
  {
    forall k | 0 <= k < |parts| && parts[k].Lit? ensures |Lits(parts[..k])| < 0xFFFF && |parts[k].text| <= 0xFFFF {
      PrefixOf(parts, k);
      LiteralSlice(parts, k);
    }
  }

  /** The literals tile the literal text: each is the slice at the length of those before it. */
  lemma LiteralSlice(parts: seq<Part>, k: nat)
    requires k < |parts| && parts[k].Lit?
    ensures var off := |Lits(parts[..k])|;
            off + |parts[k].text| <= |Lits(parts)| && Lits(parts)[off..off + |parts[k].text|] == parts[k].text
  {
    PrefixOf(parts, k + 1);
    assert parts[..k + 1] == parts[..k] + [parts[k]];
    SnocPart(parts[..k], parts[k]);
    hide Lits;
  }

  // ---------------------------------------------------------------- writing a format string

  function Escape(c: char): string {
    if c == '{' || c == '}' then [c, c] else [c]
  }

  function EscapeAll(t: string): string {
    if t == [] then [] else Escape(t[0]) + EscapeAll(t[1..])
  }

  function Print(parts: seq<Part>): string {
    if parts == [] then []
    else (if parts[0].Lit? then EscapeAll(parts[0].text) else "{}") + Print(parts[1..])
  }

  function Chars(t: string): seq<Token> {
    if t == [] then [] else [Char(t[0])] + Chars(t[1..])
  }

  function Flat(parts: seq<Part>): seq<Token> {
    if parts == [] then []
    else (if parts[0].Lit? then Chars(parts[0].text) else [Hole]) + Flat(parts[1..])
  }

  lemma {:induction false} TokensEscaped(t: string, rest: string)
    ensures Tokens(EscapeAll(t) + rest) == Chars(t) + Tokens(rest)
  {
    EscapeFirst(t);
    hide *;
    if t == [] {
      assert EscapeAll(t) + rest == rest;
    } else {
      TokenEscaped(t[0], EscapeAll(t[1..]) + rest);
      TokensEscaped(t[1..], rest);
      assert EscapeAll(t) + rest == Escape(t[0]) + (EscapeAll(t[1..]) + rest);
      assert Chars(t) + Tokens(rest) == [Char(t[0])] + (Chars(t[1..]) + Tokens(rest));
    }
  }

  lemma EscapeFirst(t: string)
    ensures if t == [] then EscapeAll(t) == [] && Chars(t) == []
            else EscapeAll(t) == Escape(t[0]) + EscapeAll(t[1..]) && Chars(t) == [Char(t[0])] + Chars(t[1..])
  {
  }

  lemma TokenEscaped(c: char, rest: string)
    ensures Tokens(Escape(c) + rest) == [Char(c)] + Tokens(rest)
  {
    var s := Escape(c) + rest;
    assert s[Width(s)..] == rest;
  }

  lemma {:induction false} TokensPrint(parts: seq<Part>)
    ensures Tokens(Print(parts)) == Flat(parts)
  {
    if parts != [] {
      TokensPrint(parts[1..]);
      if parts[0].Lit? {
        TokensEscaped(parts[0].text, Print(parts[1..]));
      } else {
        var s := "{}" + Print(parts[1..]);
        assert Front(s) == Hole && s[Width(s)..] == Print(parts[1..]);
      }
    }
  }

  lemma AddToLit(before: seq<Part>, got: string, c: char)
    requires !EndsInLit(before)
    ensures Add(if got == [] then before else before + [Lit(got)], Char(c)) == before + [Lit(got + [c])]
  {
    assert (before + [Lit(got)])[..|before|] == before;
    assert [] + [c] == [c];
  }

  /** Characters after a hole become one literal; more of them extend it. */
  lemma {:induction false} PartsChars(ts: seq<Token>, before: seq<Part>, got: string, t: string)
    requires Parts(ts) == (if got == [] then before else before + [Lit(got)]) && !EndsInLit(before) && got + t != []
    ensures Parts(ts + Chars(t)) == before + [Lit(got + t)]
    decreases t
  {
    if t == [] {
      assert ts + Chars(t) == ts && got + t == got;
    } else {
      Snoc(ts, Char(t[0]));
      AddToLit(before, got, t[0]);
      hide Parts, Add;
      PartsChars(ts + [Char(t[0])], before, got + [t[0]], t[1..]);
      assert ts + Chars(t) == (ts + [Char(t[0])]) + Chars(t[1..]);
      assert got + t == (got + [t[0]]) + t[1..];
    }
  }

  lemma {:induction false} PartsFlat(ts: seq<Token>, before: seq<Part>, parts: seq<Part>)
    requires Parts(ts) == before && Normal(before + parts)
    ensures Parts(ts + Flat(parts)) == before + parts
    decreases parts
  {
    hide *;
    if parts == [] {
      NothingLeft(ts, "");
      assert before + parts == before;
    } else {
      PartsNext(ts, before, parts);
      var next := Flat(parts[..1]);
      assert ts + (next + Flat(parts[1..])) == (ts + next) + Flat(parts[1..]);
      assert before + parts == (before + [parts[0]]) + parts[1..];
      PartsFlat(ts + next, before + [parts[0]], parts[1..]);
    }
  }

  lemma NothingLeft(ts: seq<Token>, rest: string)
    requires rest == ""
    ensures ts + Flat([]) == ts && ts + Tokens(rest) == ts
    ensures forall args, k :: Substitute(rest, args, k) == []
  {
  }

  lemma FlatFirst(parts: seq<Part>)
    requires parts != []
    ensures Flat(parts[..1]) == if parts[0].Lit? then Chars(parts[0].text) else [Hole]
    ensures Flat(parts) == Flat(parts[..1]) + Flat(parts[1..])
  {
    assert parts[..1][1..] == [];
    assert Flat([]) == [];
  }

  lemma NormalAt(before: seq<Part>, parts: seq<Part>)
    requires Normal(before + parts) && parts != []
    ensures parts[0].Lit? ==> parts[0].text != [] && !EndsInLit(before)
  {
    assert (before + parts)[|before|] == parts[0];
    if before != [] { assert (before + parts)[|before| - 1] == before[|before| - 1]; }
  }

  lemma PartsNext(ts: seq<Token>, before: seq<Part>, parts: seq<Part>)
    requires Parts(ts) == before && Normal(before + parts) && parts != []
    ensures Flat(parts) == Flat(parts[..1]) + Flat(parts[1..])
    ensures Parts(ts + Flat(parts[..1])) == before + [parts[0]]
  {
    FlatFirst(parts);
    NormalAt(before, parts);
    hide *;
    if parts[0].Lit? {
      PartsChars(ts, before, [], parts[0].text);
      assert [] + parts[0].text == parts[0].text;
    } else {
      Snoc(ts, Hole);
      AddHole(before);
      assert parts[0] == Arg;
    }
  }

  lemma AddHole(before: seq<Part>)
    ensures Add(before, Hole) == before + [Arg]
  {
  }

  /** Every normalised list of parts has a format string that compiles to it, namely its
      escaped print; and compiling yields nothing but normalised lists. */
  lemma RoundTrip(parts: seq<Part>)
    ensures Compile(Print(parts)) == parts <==> Normal(parts)
  {
    if Normal(parts) {
      TokensPrint(parts);
      assert [] + Flat(parts) == Flat(parts) && [] + parts == parts;
      PartsFlat([], [], parts);
    }
    PartsNormal(Tokens(Print(parts)));
  }

  /** A literal that begins at byte 65535 is taken for a hole: "aa...a{}b" with 65535 times 'a'. */
  lemma LateLiteralLost(long: string)
    requires |long| == 0xFFFF && '{' !in long && '}' !in long
    ensures Compile(long + "{}b") == [Lit(long), Arg, Lit("b")] && Table([Lit(long), Arg, Lit("b")])[2].IsHole()
  {
    var parts := [Lit(long), Arg, Lit("b")];
    PrintLate(long);
    RoundTrip(parts);
    LitsLate(long);
    assert parts[..2] == [Lit(long), Arg];
    hide Lits;
  }

  lemma PrintLate(long: string)
    requires '{' !in long && '}' !in long
    ensures Print([Lit(long), Arg, Lit("b")]) == long + "{}b"
  {
    NothingToEscape(long);
    NothingToEscape("b");
    hide EscapeAll;
    assert [Lit(long), Arg, Lit("b")][1..] == [Arg, Lit("b")];
    assert [Arg, Lit("b")][1..] == [Lit("b")];
    assert [Lit("b")][1..] == [];
    assert Print([Lit("b")]) == "b" + Print([]);
    assert Print([Arg, Lit("b")]) == "{}" + Print([Lit("b")]);
  }

  lemma LitsLate(long: string)
    ensures Lits([Lit(long), Arg]) == long
  {
    assert Lits([]) == [];
    hide Lits;
    SnocPart([], Lit(long));
    SnocPart([Lit(long)], Arg);
    assert [] + [Lit(long)] == [Lit(long)] && [Lit(long)] + [Arg] == [Lit(long), Arg];
  }

  lemma {:induction false} NothingToEscape(t: string)
    requires '{' !in t && '}' !in t
    ensures EscapeAll(t) == t
  {
    if t != [] { NothingToEscape(t[1..]); }
  }

  // ---------------------------------------------------------------- substituting arguments

  function ArgText(args: seq<string>, k: nat): string {
    if k < |args| then args[k] else ""
  }

  /** The reference: the format string with its k-th hole replaced by the k-th argument. */
  function Substitute(s: string, args: seq<string>, k: nat): string {
    if s == [] then []
    else if Front(s).Hole? then ArgText(args, k) + Substitute(s[Width(s)..], args, k + 1)
    else [Front(s).c] + Substitute(s[Width(s)..], args, k)
  }

  function Assemble(parts: seq<Part>, args: seq<string>): string {
    if parts == [] then []
    else
      var front, last := parts[..|parts| - 1], parts[|parts| - 1];
      Assemble(front, args) + (if last.Lit? then last.text else ArgText(args, Holes(front)))
  }

  lemma SnocAssemble(parts: seq<Part>, p: Part, args: seq<string>)
    ensures Assemble(parts + [p], args)
         == Assemble(parts, args) + (if p.Lit? then p.text else ArgText(args, Holes(parts)))
  {
    assert (parts + [p])[..|parts|] == parts;
  }

  lemma AddAssemble(parts: seq<Part>, t: Token, args: seq<string>)
    ensures Assemble(Add(parts, t), args)
         == Assemble(parts, args) + (if t.Char? then [t.c] else ArgText(args, Holes(parts)))
  {
    if t.Hole? {
      SnocAssemble(parts, Arg, args);
    } else if EndsInLit(parts) {
      SnocAssemble(parts[..|parts| - 1], Lit(parts[|parts| - 1].text + [t.c]), args);
    } else {
      SnocAssemble(parts, Lit([t.c]), args);
    }
  }

  lemma SubstituteStep(s: string, args: seq<string>, k: nat)
    requires s != []
    ensures var t := Front(s);
            Substitute(s, args, k) == (if t.Char? then [t.c] else ArgText(args, k))
              + Substitute(s[Width(s)..], args, if t.Hole? then k + 1 else k)
  {
  }

  lemma {:induction false} AssembleRest(done: seq<Token>, rest: string, args: seq<string>)
    ensures Assemble(Parts(done + Tokens(rest)), args)
         == Assemble(Parts(done), args) + Substitute(rest, args, Holes(Parts(done)))
    decreases |rest|
  {
    hide *;
    if rest == [] {
      NothingLeft(done, rest);
    } else {
      var t := Front(rest);
      TakeToken(done, rest);
      SubstituteStep(rest, args, Holes(Parts(done)));
      Snoc(done, t);
      AddEffect(Parts(done), t);
      AddAssemble(Parts(done), t, args);
      AssembleRest(done + [t], rest[Width(rest)..], args);
    }
  }

  /** Compiling preserves the meaning. */
  lemma CompilePreserves(s: string, args: seq<string>)
    ensures Assemble(Compile(s), args) == Substitute(s, args, 0)
  {
    assert [] + Tokens(s) == Tokens(s);
    AssembleRest([], s, args);
  }

  predicate IsPair(a: char, b: char) {
    (a == '{' && (b == '{' || b == '}')) || (a == '}' && b == '}')
  }

  /** No "{{", no "}}" and no "{}": every brace stands alone. */
  predicate NoPair(s: string) {
    forall i :: 0 < i < |s| ==> !IsPair(s[i - 1], s[i])
  }

  lemma LoneFront(s: string)
    requires NoPair(s) && s != []
    ensures Width(s) == 1 && Front(s) == Char(s[0]) && NoPair(s[1..])
  {
    assert 1 < |s| ==> !IsPair(s[1 - 1], s[1]);
  }

  lemma {:induction false} LoneTokens(s: string)
    requires NoPair(s)
    ensures Tokens(s) == Chars(s)
  {
    if s != [] {
      LoneFront(s);
      LoneTokens(s[1..]);
    }
  }

  /** Such a string is one literal, printed as it is. */
  lemma LoneBracesStay(s: string, args: seq<string>, k: nat)
    requires NoPair(s)
    ensures Compile(s) == if s == "" then [] else [Lit(s)]
    ensures Substitute(s, args, k) == s
  {
    LoneTokens(s);
    if s != "" {
      PartsChars([], [], "", s);
      assert [] + Chars(s) == Chars(s) && "" + s == s;
    }
    LoneSubstitute(s, args, k);
  }

  lemma {:induction false} LoneSubstitute(s: string, args: seq<string>, k: nat)
    requires NoPair(s)
    ensures Substitute(s, args, k) == s
  {
    if s != [] {
      LoneFront(s);
      LoneSubstitute(s[1..], args, k);
    }
  }

  lemma EscapedFront(c: char, rest: string)
    ensures var s := Escape(c) + rest; Front(s) == Char(c) && s[Width(s)..] == rest
  {
  }

  lemma {:induction false} SubstituteEscaped(t: string, rest: string, args: seq<string>, k: nat)
    ensures Substitute(EscapeAll(t) + rest, args, k) == t + Substitute(rest, args, k)
  {
    EscapeFirst(t);
    hide *;
    if t == [] {
      assert EscapeAll(t) + rest == rest;
    } else {
      var more := EscapeAll(t[1..]) + rest;
      assert EscapeAll(t) + rest == Escape(t[0]) + more;
      EscapedFront(t[0], more);
      SubstituteStep(Escape(t[0]) + more, args, k);
      SubstituteEscaped(t[1..], rest, args, k);
    }
  }

  lemma NextIsHole(rest: string)
    ensures var s := "{}" + rest; s != "" && Front(s) == Hole && s[Width(s)..] == rest
  {
  }

  lemma ArgTextIs(args: seq<string>, k: nat)
    requires k < |args|
    ensures ArgText(args, k) == args[k]
  {
  }

  /** The next hole takes the next argument. */
  lemma SubstituteNext(t: string, rest: string, args: seq<string>, k: nat)
    requires k < |args|
    ensures Substitute(EscapeAll(t) + "{}" + rest, args, k) == t + args[k] + Substitute(rest, args, k + 1)
  {
    var s := "{}" + rest;
    NextIsHole(rest);
    hide *;
    SubstituteEscaped(t, s, args, k);
    SubstituteStep(s, args, k);
    assert EscapeAll(t) + "{}" + rest == EscapeAll(t) + s;
    ArgTextIs(args, k);
    assert t + (args[k] + Substitute(rest, args, k + 1)) == t + args[k] + Substitute(rest, args, k + 1);
  }

  lemma EscapedBraces()
    ensures EscapeAll("{") == "{{" && EscapeAll("} ") == "}} "
  {
    assert "{"[1..] == "" && "} "[1..] == " " && " "[1..] == "";
  }

  lemma LoneExample(args: seq<string>)
    ensures Substitute(": {a}", args, 2) == ": {a}"
  {
    hide Substitute, Compile;
    LoneBracesStay(": {a}", args, 2);
  }

  /** Braces doubled, as holes, and alone. */
  lemma BraceExample(x: string, y: string)
    ensures Substitute("{{{}}} {}: {a}", [x, y], 0) == "{" + x + ("} " + y + ": {a}")
  {
    hide *;
    var args := [x, y];
    EscapedBraces();
    LoneExample(args);
    SubstituteNext("} ", ": {a}", args, 1);
    assert "}} " + "{}" + ": {a}" == "}} {}: {a}";
    SubstituteNext("{", "}} {}: {a}", args, 0);
    assert "{{" + "{}" + "}} {}: {a}" == "{{{}}} {}: {a}";
  }
}
