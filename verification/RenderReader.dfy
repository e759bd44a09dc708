/** A reader of rendered values, written independently of the printer: what include/elog/render_extra.hpp
    prints has the structure of the value. */
module RenderReaders {
  import opened Common
  import opened Texts
  import opened Renderers

  // ---------------------------------------------------------------- reading

  /** Texts, brackets with what is between them, and keys with their values. */
  datatype Tree = Word(text: string) | Node(open: char, items: seq<Tree>) | Keyed(key: Tree, value: Tree)

  predicate IsOpen(c: char) {
    c == '[' || c == '{' || c == '('
  }

  predicate IsClose(c: char) {
    c == ']' || c == '}' || c == ')'
  }

  predicate IsMark(c: char) {
    IsOpen(c) || IsClose(c) || c == ',' || c == ':'
  }

  function CloseOf(c: char): char {
    if c == '[' then ']' else if c == '{' then '}' else ')'
  }

  /** The length of the text in front of the first mark. */
  function WordEnd(s: string): (n: nat)
    ensures n <= |s|
  {
    if s == [] || IsMark(s[0]) then 0 else 1 + WordEnd(s[1..])
  }

  predicate StartsWith(s: string, a: char, b: char) {
    |s| >= 2 && s[0] == a && s[1] == b
  }

  /** A text, or a bracket up to its closing one; and what is left. */
  function ReadTree(s: string): (r: Option<(Tree, string)>)
    ensures r.Some? ==> |r.value.1| < |s|
    decreases |s|, 0
  {
    if s == [] then None
    else if IsOpen(s[0]) then
      var items := ReadItems(s[1..], CloseOf(s[0]));
      if items.None? then None else Some((Node(s[0], items.value.0), items.value.1))
    else
      var n := WordEnd(s);
      if n == 0 then None else Some((Word(s[..n]), s[n..]))
  }

  /** A tree, or a tree, a colon and another tree. */
  function ReadItem(s: string): (r: Option<(Tree, string)>)
    ensures r.Some? ==> |r.value.1| < |s|
    decreases |s|, 1
  {
    var key := ReadTree(s);
    if key.Some? && StartsWith(key.value.1, ':', ' ') then
      var value := ReadTree(key.value.1[2..]);
      if value.None? then None else Some((Keyed(key.value.0, value.value.0), value.value.1))
    else key
  }

  /** What is between brackets. */
  function ReadItems(s: string, close: char): (r: Option<(seq<Tree>, string)>)
    ensures r.Some? ==> |r.value.1| < |s|
    decreases |s|, 3
  {
    if s != [] && s[0] == close then Some(([], s[1..])) else ReadMore(s, close)
  }

  function ReadMore(s: string, close: char): (r: Option<(seq<Tree>, string)>)
    ensures r.Some? ==> |r.value.1| < |s|
    decreases |s|, 2
  {
    var first := ReadItem(s);
    if first.None? then None
    else
      var rest := first.value.1;
      if rest != [] && rest[0] == close then Some(([first.value.0], rest[1..]))
      else if StartsWith(rest, ',', ' ') then
        var more := ReadMore(rest[2..], close);
        if more.None? then None else Some(([first.value.0] + more.value.0, more.value.1))
      else None
  }

  // ---------------------------------------------------------------- what should be read

  predicate Plain(t: string) {
    t != "" && forall i :: 0 <= i < |t| ==> !IsMark(t[i])
  }

  /** A value that is printed as one text, and that text. */
  predicate IsWord(v: Value)
    decreases v
  {
    match v
    case Text(t) => Plain(t)
    case Leaf(t, _) => Plain(t)
    case Null => true
    case Pad(inner, _, fill, _) => IsWord(inner) && !IsMark(fill)
    case _ => false
  }

  function WordOf(v: Value): string
    requires IsWord(v)
    decreases v
  {
    match v
    case Text(t) => t
    case Leaf(t, _) => t
    case Null => "<null>"
    case Pad(inner, width, fill, left) => Padded(WordOf(inner), width, fill, left)
  }

  /** A value whose texts contain no marks, and without joined ranges, which have no brackets. */
  predicate Readable(v: Value)
    decreases v
  {
    match v
    case List(items) => forall i :: 0 <= i < |items| ==> Readable(items[i])
    case SetOf(items) => forall i :: 0 <= i < |items| ==> Readable(items[i])
    case Tuple(items) => forall i :: 0 <= i < |items| ==> Readable(items[i])
    case Pair(a, b) => Readable(a) && Readable(b)
    case Map(entries) => forall i :: 0 <= i < |entries| ==> ReadableEntry(entries[i])
    case Join(_, _) => false
    case _ => IsWord(v)
  }

  predicate ReadableEntry(e: Entry)
    decreases e
  {
    Readable(e.key) && Readable(e.value)
  }

  /** The tree of a value: its texts, its kind of brackets, its elements in order, and key before
      value. */
  function TreeOf(v: Value): Tree
    requires Readable(v)
    decreases v
  {
    match v
    case List(items) => Node('[', seq(|items|, i requires 0 <= i < |items| => TreeOf(items[i])))
    case SetOf(items) => Node('{', seq(|items|, i requires 0 <= i < |items| => TreeOf(items[i])))
    case Tuple(items) => Node('(', seq(|items|, i requires 0 <= i < |items| => TreeOf(items[i])))
    case Pair(a, b) => Node('(', [TreeOf(a), TreeOf(b)])
    case Map(entries) => Node('{', seq(|entries|, i requires 0 <= i < |entries| => TreeOfEntry(entries[i])))
    case _ => Word(WordOf(v))
  }

  function TreeOfEntry(e: Entry): Tree
    requires ReadableEntry(e)
    decreases e
  {
    Keyed(TreeOf(e.key), TreeOf(e.value))
  }

  // ---------------------------------------------------------------- words

  lemma {:induction false} WordEnds(t: string, rest: string)
    requires (forall i :: 0 <= i < |t| ==> !IsMark(t[i])) && (rest == [] || IsMark(rest[0]))
    ensures WordEnd(t + rest) == |t|
  {
    if t == [] {
      assert t + rest == rest;
    } else {
      assert (t + rest)[1..] == t[1..] + rest;
      WordEnds(t[1..], rest);
    }
  }

  lemma {:induction false} WordShown(v: Value)
    requires IsWord(v)
    ensures Show(v) == WordOf(v) && Plain(WordOf(v))
    decreases v
  {
    if v.Pad? { WordShown(v.inner); }
  }

  lemma WordRead(t: string, rest: string)
    requires Plain(t) && (rest == [] || IsMark(rest[0]))
    ensures ReadTree(t + rest) == Some((Word(t), rest))
  {
    WordEnds(t, rest);
    assert !IsOpen((t + rest)[0]);
    assert (t + rest)[..|t|] == t && (t + rest)[|t|..] == rest;
  }

  // ---------------------------------------------------------------- lists of items

  /** The texts with a separator between them. */
  function Joined(ts: seq<string>, sep: string): string {
    if ts == [] then "" else if |ts| == 1 then ts[0] else ts[0] + sep + Joined(ts[1..], sep)
  }

  lemma {:induction false} JoinedSnoc(ts: seq<string>, t: string, sep: string)
    requires ts != []
    ensures Joined(ts + [t], sep) == Joined(ts, sep) + sep + t
  {
    assert (ts + [t])[1..] == ts[1..] + [t];
    if |ts| == 1 {
      assert Joined([t], sep) == t;
    } else {
      JoinedSnoc(ts[1..], t, sep);
    }
  }

  function Shows(items: seq<Value>): (ts: seq<string>)
    ensures |ts| == |items|
  {
    seq(|items|, i requires 0 <= i < |items| => Show(items[i]))
  }

  function ShowsEntries(entries: seq<Entry>): (ts: seq<string>)
    ensures |ts| == |entries|
  {
    seq(|entries|, i requires 0 <= i < |entries| => ShowEntry(entries[i]))
  }

  /** What a joined range prints, and what is between brackets. */
  lemma {:induction false} AllJoined(items: seq<Value>, sep: string)
    ensures ShowAll(items, sep) == Joined(Shows(items), sep)
    decreases items
  {
    if items != [] {
      var front, last := items[..|items| - 1], items[|items| - 1];
      AllJoined(front, sep);
      assert Shows(items) == Shows(front) + [Show(last)];
      if front != [] { JoinedSnoc(Shows(front), Show(last), sep); }
      hide Show;
    }
  }

  lemma {:induction false} EntriesJoined(entries: seq<Entry>)
    ensures ShowEntries(entries) == Joined(ShowsEntries(entries), ", ")
    decreases entries
  {
    if entries != [] {
      var front, last := entries[..|entries| - 1], entries[|entries| - 1];
      EntriesJoined(front);
      assert ShowsEntries(entries) == ShowsEntries(front) + [ShowEntry(last)];
      if front != [] { JoinedSnoc(ShowsEntries(front), ShowEntry(last), ", "); }
      hide ShowEntry;
    }
  }

  /** What may follow an item. */
  predicate Ends(tail: string) {
    StartsWith(tail, ',', ' ') || (tail != [] && IsClose(tail[0]))
  }

  ghost predicate ReadsAs(t: string, tree: Tree) {
    && t != "" && !IsClose(t[0])
    && forall tail :: Ends(tail) ==> ReadItem(t + tail) == Some((tree, tail))
  }

  lemma {:induction false} MoreRead(ts: seq<string>, trees: seq<Tree>, close: char, rest: string)
    requires |ts| == |trees| > 0 && IsClose(close) && forall i :: 0 <= i < |ts| ==> ReadsAs(ts[i], trees[i])
    ensures ReadMore(Joined(ts, ", ") + [close] + rest, close) == Some((trees, rest))
    decreases |ts|
  {
    hide ReadItem, IsClose;
    assert ReadsAs(ts[0], trees[0]);
    var s := Joined(ts, ", ") + [close] + rest;
    if |ts| == 1 {
      var tail := [close] + rest;
      assert s == ts[0] + tail && tail[1..] == rest && trees == [trees[0]];
    } else {
      var next := Joined(ts[1..], ", ") + [close] + rest;
      MoreRead(ts[1..], trees[1..], close, rest);
      var tail := ", " + next;
      assert s == ts[0] + tail && tail[2..] == next;
      assert IsClose(close) ==> close != ',' by { hide *; CommaIsNoClose(); }
      assert trees == [trees[0]] + trees[1..];
    }
  }

  lemma CommaIsNoClose()
    ensures !IsClose(',') && !IsClose(':')
  {
  }

  lemma {:induction false} BracketRead(open: char, ts: seq<string>, trees: seq<Tree>, rest: string)
    requires IsOpen(open) && |ts| == |trees| && forall i :: 0 <= i < |ts| ==> ReadsAs(ts[i], trees[i])
    ensures ReadTree([open] + Joined(ts, ", ") + [CloseOf(open)] + rest) == Some((Node(open, trees), rest))
  {
    var close := CloseOf(open);
    var inner := Joined(ts, ", ") + [close] + rest;
    var s := [open] + Joined(ts, ", ") + [close] + rest;
    assert s[0] == open && s[1..] == inner;
    if ts == [] {
      assert inner[0] == close && inner[1..] == rest && trees == [];
    } else {
      MoreRead(ts, trees, close, rest);
      FirstOfJoined(ts, trees, [close] + rest);
      assert inner == Joined(ts, ", ") + ([close] + rest);
    }
  }

  lemma FirstOfJoined(ts: seq<string>, trees: seq<Tree>, more: string)
    requires |ts| == |trees| > 0 && ReadsAs(ts[0], trees[0])
    ensures var s := Joined(ts, ", ") + more; s != [] && !IsClose(s[0])
  {
  }

  // ---------------------------------------------------------------- values

  /** Whatever follows, a value is read back from its text: kind, elements in order, key before
      value. */
  lemma {:induction false} TreeRead(v: Value, rest: string)
    requires Readable(v) && (rest == [] || IsMark(rest[0]))
    ensures ReadTree(Show(v) + rest) == Some((TreeOf(v), rest))
    decreases v, 1
  {
    hide ReadTree, ReadItem, ReadsAs;
    match v
    case List(items) => ListRead(items, '[', rest);
    case SetOf(items) => ListRead(items, '{', rest);
    case Tuple(items) => ListRead(items, '(', rest);
    case Pair(a, b) => PairRead(a, b, rest);
    case Map(entries) => MapRead(entries, rest);
    case Text(_) => WordTreeRead(v, rest);
    case Leaf(_, _) => WordTreeRead(v, rest);
    case Null => WordTreeRead(v, rest);
    case Pad(_, _, _, _) => WordTreeRead(v, rest);
    case Join(_, _) =>
  }

  lemma WordTreeRead(v: Value, rest: string)
    requires IsWord(v) && (rest == [] || IsMark(rest[0]))
    ensures ReadTree(Show(v) + rest) == Some((TreeOf(v), rest))
  {
    WordShown(v);
    WordRead(WordOf(v), rest);
    hide Show, WordOf, ReadTree, WordEnd;
  }

  function Trees(items: seq<Value>): (trees: seq<Tree>)
    requires forall i :: 0 <= i < |items| ==> Readable(items[i])
    ensures |trees| == |items|
  {
    seq(|items|, i requires 0 <= i < |items| => TreeOf(items[i]))
  }

  lemma {:induction false} ListRead(items: seq<Value>, open: char, rest: string)
    requires IsOpen(open) && forall i :: 0 <= i < |items| ==> Readable(items[i])
    ensures ReadTree([open] + ShowAll(items, ", ") + [CloseOf(open)] + rest) == Some((Node(open, Trees(items)), rest))
    decreases items, 1
  {
    hide ReadTree, ReadItem, ReadsAs, Show, Readable, IsOpen;
    var ts, trees := Shows(items), Trees(items);
    forall i | 0 <= i < |items| ensures ReadsAs(ts[i], trees[i]) { ValueReadsAs(items[i]); }
    AllJoined(items, ", ");
    BracketRead(open, ts, trees, rest);
  }

  lemma {:induction false} PairRead(a: Value, b: Value, rest: string)
    requires Readable(a) && Readable(b)
    ensures ReadTree("(" + Show(a) + ", " + Show(b) + ")" + rest) == Some((Node('(', [TreeOf(a), TreeOf(b)]), rest))
    decreases Pair(a, b), 0
  {
    hide ReadTree, ReadItem, ReadsAs, Show, Readable, TreeOf;
    ValueReadsAs(a);
    ValueReadsAs(b);
    var ts := [Show(a), Show(b)];
    assert ts[1..] == [Show(b)];
    assert Joined(ts, ", ") == Show(a) + ", " + Show(b);
    BracketRead('(', ts, [TreeOf(a), TreeOf(b)], rest);
    assert ['('] + (Show(a) + ", " + Show(b)) + [')'] + rest == "(" + Show(a) + ", " + Show(b) + ")" + rest;
  }

  function EntryTrees(entries: seq<Entry>): (trees: seq<Tree>)
    requires forall i :: 0 <= i < |entries| ==> ReadableEntry(entries[i])
    ensures |trees| == |entries|
  {
    seq(|entries|, i requires 0 <= i < |entries| => TreeOfEntry(entries[i]))
  }

  lemma {:induction false} MapRead(entries: seq<Entry>, rest: string)
    requires forall i :: 0 <= i < |entries| ==> ReadableEntry(entries[i])
    ensures ReadTree("{" + ShowEntries(entries) + "}" + rest) == Some((Node('{', EntryTrees(entries)), rest))
    decreases entries, 1
  {
    hide ReadTree, ReadItem, ReadsAs, ShowEntry, ReadableEntry;
    var ts, trees := ShowsEntries(entries), EntryTrees(entries);
    forall i | 0 <= i < |entries| ensures ReadsAs(ts[i], trees[i]) { EntryReadsAs(entries[i]); }
    EntriesJoined(entries);
    BracketRead('{', ts, trees, rest);
  }

  lemma FirstShown(v: Value)
    requires Readable(v)
    ensures Show(v) != "" && !IsClose(Show(v)[0])
  {
    if IsWord(v) { WordShown(v); }
  }

  lemma {:induction false} ValueReadsAs(v: Value)
    requires Readable(v)
    ensures ReadsAs(Show(v), TreeOf(v))
    decreases v, 2
  {
    FirstShown(v);
    hide Show, ReadTree, TreeOf, Readable;
    forall tail | Ends(tail) ensures ReadItem(Show(v) + tail) == Some((TreeOf(v), tail)) {
      TreeRead(v, tail);
    }
  }

  lemma {:induction false} EntryReadsAs(e: Entry)
    requires ReadableEntry(e)
    ensures ReadsAs(ShowEntry(e), TreeOfEntry(e))
    decreases e, 0
  {
    FirstShown(e.key);
    hide Show, ReadTree, TreeOf, Readable;
    forall tail | Ends(tail) ensures ReadItem(ShowEntry(e) + tail) == Some((TreeOfEntry(e), tail)) {
      var rest := ": " + (Show(e.value) + tail);
      assert ShowEntry(e) + tail == Show(e.key) + rest;
      TreeRead(e.key, rest);
      TreeRead(e.value, tail);
      assert rest[2..] == Show(e.value) + tail;
    }
  }

  /** Reading what a renderer has put for a value that fits. */
  lemma RenderedReads(v: Value, n: nat)
    requires Readable(v) && Fits(v, n)
    ensures ReadTree(Put(v, n)) == Some((TreeOf(v), ""))
  {
    FitsPut(v, n);
    TreeRead(v, "");
    hide Show;
    assert Show(v) + "" == Show(v);
  }

  // ---------------------------------------------------------------- fields and joined ranges

  /** A field is as wide as was asked for, or as its text, which stands at one end of it. */
  lemma FieldIs(t: string, width: int, fill: char, left: bool)
    ensures var s := Padded(t, width, fill, left);
            && |s| == (if width < |t| then |t| else width)
            && (if left then s[..|t|] == t else s[|s| - |t|..] == t)
            && forall i :: 0 <= i < |s| && (if left then |t| <= i else i < |s| - |t|) ==> s[i] == fill
  {
  }

  /** A right-aligned field over something that is in scratch already keeps the text, wherever
      scratch ends, and has fill in front of it as far as there is room. */
  lemma FieldKeepsText(v: Value, width: int, fill: char, n: nat)
    requires !v.Text? && n + |Put(v, n)| <= CAP
    ensures var t, s := Put(v, n), Put(Pad(v, width, fill, false), n);
            && |s| == (if width < |t| then |t| else if width < CAP - n then width else CAP - n)
            && s[|s| - |t|..] == t && forall i :: 0 <= i < |s| - |t| ==> s[i] == fill
  {
    hide PutAll, PutEntries, PutBracketed, PutPair;
  }

  /** A double is left out whole, even where its text would fit, unless 32 bytes are free. */
  lemma DoubleLeftOut(t: string, n: nat)
    ensures Put(Leaf(t, Wants(32)), n) == if n <= 4064 then t else ""
  {
  }

  /** The pieces between the places where c occurs. */
  function Split(s: string, c: char): seq<string> {
    if s == [] then [""]
    else
      var rest := Split(s[1..], c);
      if s[0] == c then [""] + rest else [[s[0]] + rest[0]] + rest[1..]
  }

  lemma {:induction false} SplitFirst(t: string, c: char, rest: string)
    requires c !in t
    ensures Split(t, c) == [t] && Split(t + [c] + rest, c) == [t] + Split(rest, c)
  {
    if t == [] {
      assert t + [c] + rest == [c] + rest && ([c] + rest)[1..] == rest;
    } else {
      assert (t + [c] + rest)[1..] == t[1..] + [c] + rest;
      SplitFirst(t[1..], c, rest);
      assert [t[0]] + t[1..] == t;
    }
  }

  lemma {:induction false} SplitJoined(ts: seq<string>, c: char)
    requires ts != [] && forall i :: 0 <= i < |ts| ==> c !in ts[i]
    ensures Split(Joined(ts, [c]), c) == ts
  {
    if |ts| == 1 {
      SplitFirst(ts[0], c, "");
    } else {
      SplitJoined(ts[1..], c);
      SplitFirst(ts[0], c, Joined(ts[1..], [c]));
      assert ts == [ts[0]] + ts[1..];
    }
  }

  /** A joined range gives its elements back. */
  lemma JoinedReads(items: seq<Value>, c: char)
    requires items != [] && forall i :: 0 <= i < |items| ==> c !in Show(items[i])
    ensures Split(Show(Join(items, [c])), c) == Shows(items)
  {
    AllJoined(items, [c]);
    SplitJoined(Shows(items), c);
    hide Split, Joined;
  }

  // ---------------------------------------------------------------- renderings

  function Number(t: string): Value {
    Leaf(t, Unchecked)
  }

  function AList(): Value {
    List([Number("1"), Null])
  }

  function ASet(): Value {
    SetOf([Number("2"), Number("3")])
  }

  function ATuple(): Value {
    Tuple([Text("x"), Pad(Number("4"), 3, '0', false)])
  }

  function APair(): Value {
    Pair(Text("y"), Number("5"))
  }

  function AMap(): Value {
    Map([Entry(Text("k"), Number("6")), Entry(Text("m"), Number("7"))])
  }

  lemma TwoShown(a: Value, b: Value)
    ensures ShowAll([a, b], ", ") == Show(a) + ", " + Show(b)
  {
    hide Show, ShowAll;
    AllJoined([a, b], ", ");
    assert Shows([a, b]) == [Show(a), Show(b)] && [Show(a), Show(b)][1..] == [Show(b)];
  }

  lemma TwoEntriesShown(a: Entry, b: Entry)
    ensures ShowEntries([a, b]) == ShowEntry(a) + ", " + ShowEntry(b)
  {
    hide ShowEntry, ShowEntries;
    EntriesJoined([a, b]);
    assert ShowsEntries([a, b]) == [ShowEntry(a), ShowEntry(b)] && [ShowEntry(a), ShowEntry(b)][1..] == [ShowEntry(b)];
  }

  lemma ListShown()
    ensures Show(AList()) == "[1, <null>]" && Short(AList())
  {
    TwoShown(Number("1"), Null);
    hide ShowAll;
  }

  lemma SetShown()
    ensures Show(ASet()) == "{2, 3}" && Short(ASet())
  {
    TwoShown(Number("2"), Number("3"));
    hide ShowAll;
  }

  lemma TupleShown()
    ensures Show(ATuple()) == "(x, 004)" && Short(ATuple())
  {
    var field := Pad(Number("4"), 3, '0', false);
    TwoShown(Text("x"), field);
    assert Show(field) == "004";
    hide ShowAll;
  }

  lemma PairShown()
    ensures Show(APair()) == "(y, 5)" && Short(APair())
  {
  }

  lemma MapShown()
    ensures Show(AMap()) == "{k: 6, m: 7}" && Short(AMap())
  {
    var a, b := Entry(Text("k"), Number("6")), Entry(Text("m"), Number("7"));
    assert ShowEntry(a) == "k: 6" && ShowEntry(b) == "m: 7";
    TwoEntriesShown(a, b);
    hide ShowEntries, ShowEntry;
  }

  predicate Short(v: Value) {
    LeavesWithin(v, 0) && |Show(v)| <= CAP && !v.Text?
  }

  /** A value of few characters, rendered into an empty buffer. */
  method Rendered(v: Value) returns (scratch: array<char>, pos: nat)
    requires Short(v)
    ensures pos <= scratch.Length && scratch[..pos] == Show(v)
  {
    EnoughRoom(v, 0, 0);
    FitsPut(v, 0);
    hide Show, Put, Fits, Safe, LeavesWithin;
    scratch := new char[CAP](_ => ' ');
    var r: Iov;
    r, pos := Render(scratch, 0, v);
  }

  /** One rendering of each kind. */
  method RenderSamples() returns (list: string, aSet: string, tuple: string, pair: string, aMap: string)
    ensures list == "[1, <null>]" && aSet == "{2, 3}" && tuple == "(x, 004)" && pair == "(y, 5)"
    ensures aMap == "{k: 6, m: 7}"
  {
    ListShown();
    SetShown();
    TupleShown();
    PairShown();
    MapShown();
    hide *;
    var scratch, pos := Rendered(AList());
    list := scratch[..pos];
    scratch, pos := Rendered(ASet());
    aSet := scratch[..pos];
    scratch, pos := Rendered(ATuple());
    tuple := scratch[..pos];
    scratch, pos := Rendered(APair());
    pair := scratch[..pos];
    scratch, pos := Rendered(AMap());
    aMap := scratch[..pos];
  }
}
