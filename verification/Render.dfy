/** The renderers of include/elog/render_extra.hpp: values are printed into one scratch buffer,
    in place where an element has already put its text there. */
module Renderers {
  import opened Common
  import opened Texts

  const CAP := 4096  // kScratchSize, and kCap in append_str

  /** What a leaf renderer does about room: integers and characters are written without a look, and
      their callers have to see to it; a double gives nothing unless 32 bytes are free
      (src/render.cpp:52-58); octal numbers are cut. */
  datatype Manner = Unchecked | Wants(room: nat) | Cutting

  /** What can be printed. A text is borrowed: strings, literals and booleans. A leaf is put
      into scratch. */
  datatype Value =
    | Text(text: string)
    | Leaf(text: string, manner: Manner)
    | Null
    | Pad(inner: Value, width: int, fill: char, left: bool)
    | Join(items: seq<Value>, sep: string)
    | List(items: seq<Value>)
    | SetOf(items: seq<Value>)
    | Tuple(items: seq<Value>)
    | Pair(first: Value, second: Value)
    | Map(entries: seq<Entry>)

  datatype Entry = Entry(key: Value, value: Value)

  function Fill(n: nat, c: char): (s: string)
    ensures |s| == n
  {
    seq(n, _ => c)
  }

  function Widened(t: string, n: nat, fill: char, left: bool): (s: string)
    ensures |s| == |t| + n
  {
    if left then t + Fill(n, fill) else Fill(n, fill) + t
  }

  function Padded(t: string, width: int, fill: char, left: bool): string {
    if width <= |t| then t else Widened(t, width - |t|, fill, left)
  }

  /** The reference printer. */
  function Show(v: Value): string
    decreases v
  {
    match v
    case Text(t) => t
    case Leaf(t, _) => t
    case Null => "<null>"
    case Pad(inner, width, fill, left) => Padded(Show(inner), width, fill, left)
    case Join(items, sep) => ShowAll(items, sep)
    case List(items) => "[" + ShowAll(items, ", ") + "]"
    case SetOf(items) => "{" + ShowAll(items, ", ") + "}"
    case Tuple(items) => "(" + ShowAll(items, ", ") + ")"
    case Pair(a, b) => "(" + Show(a) + ", " + Show(b) + ")"
    case Map(entries) => "{" + ShowEntries(entries) + "}"
  }

  function ShowAll(items: seq<Value>, sep: string): string
    decreases items
  {
    if items == [] then ""
    else ShowAll(items[..|items| - 1], sep) + (if |items| == 1 then "" else sep) + Show(items[|items| - 1])
  }

  function ShowEntries(entries: seq<Entry>): string
    decreases entries
  {
    if entries == [] then ""
    else
      ShowEntries(entries[..|entries| - 1]) + (if |entries| == 1 then "" else ", ") + ShowEntry(entries[|entries| - 1])
  }

  function ShowEntry(e: Entry): string
    decreases e
  {
    Show(e.key) + ": " + Show(e.value)
  }

  // ---------------------------------------------------------------- what ends up in the buffer

  /** As much of t as there is room for at position n. */
  function Cut(t: string, n: nat): (s: string)
    ensures |s| <= |t| && (n <= CAP ==> n + |s| <= CAP)
  {
    if n + |t| <= CAP then t else if n <= CAP then t[..CAP - n] else ""
  }

  /** A text of the value, padded at position n. The text of anything but a borrowed one is in the
      buffer already; its fill is cut, and for right alignment it is the fill alone that is cut. */
  function PutPadded(t: string, borrowed: bool, width: int, fill: char, left: bool, n: nat): string {
    if borrowed || left then Cut(Padded(t, width, fill, left), n)
    else if width <= |t| then t
    else Cut(Fill(width - |t|, fill), n + |t|) + t
  }

  /** What rendering v at position n gives: a borrowed text, or what stands in the buffer from n on. */
  function Put(v: Value, n: nat): string
    decreases v, 1
  {
    match v
    case Text(t) => t
    case Leaf(t, Unchecked) => t
    case Leaf(t, Wants(room)) => if n + room <= CAP then t else ""
    case Leaf(t, Cutting) => Cut(t, n)
    case Null => Cut("<null>", n)
    case Pad(inner, width, fill, left) => PutPadded(Put(inner, n), inner.Text?, width, fill, left, n)
    case Join(items, sep) => PutAll(items, sep, n)
    case List(items) => PutBracketed(items, "[", "]", n)
    case SetOf(items) => PutBracketed(items, "{", "}", n)
    case Tuple(items) => PutBracketed(items, "(", ")", n)
    case Pair(a, b) => PutPair(a, b, n)
    case Map(entries) =>
      var s1 := Cut("{", n);
      var s2 := s1 + PutEntries(entries, n + |s1|);
      s2 + Cut("}", n + |s2|)
  }

  /** The same as part of a container, which copies what is borrowed. */
  function PutIn(v: Value, n: nat): string
    decreases v, 2
  {
    if v.Text? then Cut(v.text, n) else Put(v, n)
  }

  /** A separator and an element. */
  function PutAfter(sep: string, v: Value, n: nat): string
    decreases v, 3
  {
    var s := Cut(sep, n);
    s + PutIn(v, n + |s|)
  }

  function PutPair(a: Value, b: Value, n: nat): string
    decreases Pair(a, b), 0
  {
    var first := PutAfter("(", a, n);
    var second := PutAfter(", ", b, n + |first|);
    first + second + Cut(")", n + |first + second|)
  }

  function PutAll(items: seq<Value>, sep: string, n: nat): string
    decreases items, 0
  {
    if items == [] then ""
    else
      var s := PutAll(items[..|items| - 1], sep, n);
      var s1 := s + (if |items| == 1 then "" else Cut(sep, n + |s|));
      s1 + PutIn(items[|items| - 1], n + |s1|)
  }

  function PutBracketed(items: seq<Value>, open: string, close: string, n: nat): string
    decreases items, 1
  {
    var s1 := Cut(open, n);
    var s2 := s1 + PutAll(items, ", ", n + |s1|);
    s2 + Cut(close, n + |s2|)
  }

  function PutEntries(entries: seq<Entry>, n: nat): string
    decreases entries, 0
  {
    if entries == [] then ""
    else
      var s := PutEntries(entries[..|entries| - 1], n);
      var s1 := s + (if |entries| == 1 then "" else Cut(", ", n + |s|));
      s1 + PutEntry(entries[|entries| - 1], n + |s1|)
  }

  function PutEntry(e: Entry, n: nat): string
    decreases e
  {
    var key := PutIn(e.key, n);
    key + PutAfter(": ", e.value, n + |key|)
  }

  /** What the callers of unchecked leaves have to see to, and all that they have to: each has room
      where it is put. */
  predicate Safe(v: Value, n: nat)
    decreases v, 1
  {
    match v
    case Text(_) => true
    case Leaf(t, Unchecked) => n + |t| <= CAP
    case Leaf(t, Wants(room)) => |t| <= room
    case Leaf(_, Cutting) => true
    case Null => true
    case Pad(inner, _, _, _) => Safe(inner, n)
    case Join(items, sep) => SafeAll(items, sep, n)
    case List(items) => SafeAll(items, ", ", n + |Cut("[", n)|)
    case SetOf(items) => SafeAll(items, ", ", n + |Cut("{", n)|)
    case Tuple(items) => SafeAll(items, ", ", n + |Cut("(", n)|)
    case Pair(a, b) => SafePair(a, b, n)
    case Map(entries) => SafeEntries(entries, n + |Cut("{", n)|)
  }

  predicate SafeAfter(sep: string, v: Value, n: nat)
    decreases v, 2
  {
    Safe(v, n + |Cut(sep, n)|)
  }

  predicate SafePair(a: Value, b: Value, n: nat)
    decreases Pair(a, b), 0
  {
    SafeAfter("(", a, n) && SafeAfter(", ", b, n + |PutAfter("(", a, n)|)
  }

  predicate SafeAll(items: seq<Value>, sep: string, n: nat)
    decreases items, 0
  {
    items != [] ==>
      var front, last := items[..|items| - 1], items[|items| - 1];
      var s := PutAll(front, sep, n);
      SafeAll(front, sep, n) && Safe(last, n + |s| + (if |items| == 1 then 0 else |Cut(sep, n + |s|)|))
  }

  predicate SafeEntries(entries: seq<Entry>, n: nat)
    decreases entries, 0
  {
    entries != [] ==>
      var front, last := entries[..|entries| - 1], entries[|entries| - 1];
      var s := PutEntries(front, n);
      SafeEntries(front, n) && SafeEntry(last, n + |s| + (if |entries| == 1 then 0 else |Cut(", ", n + |s|)|))
  }

  predicate SafeEntry(e: Entry, n: nat)
    decreases e
  {
    Safe(e.key, n) && SafeAfter(": ", e.value, n + |PutIn(e.key, n)|)
  }

  // ---------------------------------------------------------------- values that are cut

  lemma CutConcat(a: string, b: string, n: nat)
    requires n <= CAP
    ensures Cut(a, n) + Cut(b, n + |Cut(a, n)|) == Cut(a + b, n)
  {
  }

  /** No double, and no right-aligned field around something that is in the buffer already. */
  predicate Straight(v: Value)
    decreases v
  {
    match v
    case Text(_) => true
    case Leaf(_, manner) => !manner.Wants?
    case Null => true
    case Pad(inner, _, _, left) => Straight(inner) && (left || inner.Text?)
    case Join(items, _) => forall i :: 0 <= i < |items| ==> Straight(items[i])
    case List(items) => forall i :: 0 <= i < |items| ==> Straight(items[i])
    case SetOf(items) => forall i :: 0 <= i < |items| ==> Straight(items[i])
    case Tuple(items) => forall i :: 0 <= i < |items| ==> Straight(items[i])
    case Pair(a, b) => Straight(a) && Straight(b)
    case Map(entries) => forall i :: 0 <= i < |entries| ==> StraightEntry(entries[i])
  }

  predicate StraightEntry(e: Entry)
    decreases e
  {
    Straight(e.key) && Straight(e.value)
  }

  /** Such a value is cut where the buffer ends and nowhere else, however deep its parts lie. */
  lemma {:induction false} CutOnce(v: Value, n: nat)
    requires Straight(v) && Safe(v, n) && n <= CAP
    ensures PutIn(v, n) == Cut(Show(v), n)
    decreases v, 1
  {
    hide ShowAll, ShowEntries, PutAll, PutEntries, PutBracketed, PutPair, SafeAll, SafeEntries, SafePair;
    match v
    case Text(_) =>
    case Leaf(_, _) =>
    case Null =>
    case Pad(inner, width, fill, left) =>
      if !inner.Text? {
        CutOnce(inner, n);
        CutPadded(Show(inner), width, fill, n);
        assert Put(inner, n) == Cut(Show(inner), n);
      } else {
        assert Put(inner, n) == Show(inner);
      }
    case Join(items, sep) => CutAll(items, sep, n);
    case List(items) => CutBracketed(items, "[", "]", n);
    case SetOf(items) => CutBracketed(items, "{", "}", n);
    case Tuple(items) => CutBracketed(items, "(", ")", n);
    case Pair(a, b) => CutPair(a, b, n);
    case Map(entries) => CutMap(entries, n);
  }

  lemma CutPadded(t: string, width: int, fill: char, n: nat)
    requires n <= CAP
    ensures Cut(Padded(Cut(t, n), width, fill, true), n) == Cut(Padded(t, width, fill, true), n)
  {
    if n + |t| > CAP {
      var all, part := Padded(t, width, fill, true), Padded(Cut(t, n), width, fill, true);
      assert all[..CAP - n] == t[..CAP - n] == part[..CAP - n];
    }
  }

  lemma {:induction false} CutAll(items: seq<Value>, sep: string, n: nat)
    requires (forall i :: 0 <= i < |items| ==> Straight(items[i])) && SafeAll(items, sep, n) && n <= CAP
    ensures PutAll(items, sep, n) == Cut(ShowAll(items, sep), n)
    decreases items, 0
  {
    hide Show, Put, PutIn, Safe, Cut;
    if items != [] {
      var front, last := items[..|items| - 1], items[|items| - 1];
      var between := if |items| == 1 then "" else sep;
      CutAll(front, sep, n);
      CutConcat(ShowAll(front, sep), between, n);
      CutOnce(last, n + |Cut(ShowAll(front, sep) + between, n)|);
      CutConcat(ShowAll(front, sep) + between, Show(last), n);
    }
  }

  lemma {:induction false} CutBracketed(items: seq<Value>, open: string, close: string, n: nat)
    requires (forall i :: 0 <= i < |items| ==> Straight(items[i])) && n <= CAP
    requires SafeAll(items, ", ", n + |Cut(open, n)|)
    ensures PutBracketed(items, open, close, n) == Cut(open + ShowAll(items, ", ") + close, n)
    decreases items, 1
  {
    CutAll(items, ", ", n + |Cut(open, n)|);
    hide ShowAll, PutAll, SafeAll, Cut;
    CutConcat(open, ShowAll(items, ", "), n);
    CutConcat(open + ShowAll(items, ", "), close, n);
  }

  lemma {:induction false} CutAfter(sep: string, v: Value, n: nat)
    requires Straight(v) && SafeAfter(sep, v, n) && n <= CAP
    ensures PutAfter(sep, v, n) == Cut(sep + Show(v), n)
    decreases v, 2
  {
    hide Show, Put, PutIn, Safe, Cut;
    CutOnce(v, n + |Cut(sep, n)|);
    CutConcat(sep, Show(v), n);
  }

  lemma {:induction false} CutPair(a: Value, b: Value, n: nat)
    requires Straight(a) && Straight(b) && SafePair(a, b, n) && n <= CAP
    ensures PutPair(a, b, n) == Cut("(" + Show(a) + ", " + Show(b) + ")", n)
    decreases Pair(a, b), 0
  {
    hide Show, PutAfter, SafeAfter, Cut;
    var first, second := "(" + Show(a), ", " + Show(b);
    CutAfter("(", a, n);
    CutAfter(", ", b, n + |Cut(first, n)|);
    CutConcat(first, second, n);
    CutConcat(first + second, ")", n);
    Regroup(first, ", ", Show(b));
  }

  lemma {:induction false} CutMap(entries: seq<Entry>, n: nat)
    requires (forall i :: 0 <= i < |entries| ==> StraightEntry(entries[i])) && n <= CAP
    requires SafeEntries(entries, n + |Cut("{", n)|)
    ensures Put(Map(entries), n) == Cut("{" + ShowEntries(entries) + "}", n)
    decreases entries, 1
  {
    hide Show, ShowAll, ShowEntries, Put, PutAll, PutEntries, SafeEntries, Cut;
    CutEntries(entries, n + |Cut("{", n)|);
    MapPut(entries, n);
    CutConcat("{", ShowEntries(entries), n);
    CutConcat("{" + ShowEntries(entries), "}", n);
  }

  /** The definition for a map. */
  lemma MapPut(entries: seq<Entry>, n: nat)
    ensures var s1 := Cut("{", n);
            var s2 := s1 + PutEntries(entries, n + |s1|);
            Put(Map(entries), n) == s2 + Cut("}", n + |s2|)
  {
    hide PutEntries, Cut;
  }

  lemma {:induction false} CutEntries(entries: seq<Entry>, n: nat)
    requires (forall i :: 0 <= i < |entries| ==> StraightEntry(entries[i])) && SafeEntries(entries, n) && n <= CAP
    ensures PutEntries(entries, n) == Cut(ShowEntries(entries), n)
    decreases entries, 0
  {
    hide ShowEntry, PutEntry, SafeEntry, StraightEntry, Cut;
    if entries != [] {
      var front, last := entries[..|entries| - 1], entries[|entries| - 1];
      var between := if |entries| == 1 then "" else ", ";
      CutEntries(front, n);
      CutConcat(ShowEntries(front), between, n);
      CutEntry(last, n + |Cut(ShowEntries(front) + between, n)|);
      CutConcat(ShowEntries(front) + between, ShowEntry(last), n);
    }
  }

  lemma {:induction false} CutEntry(e: Entry, n: nat)
    requires StraightEntry(e) && SafeEntry(e, n) && n <= CAP
    ensures PutEntry(e, n) == Cut(ShowEntry(e), n)
    decreases e, 0
  {
    hide Show, PutIn, PutAfter, Safe, SafeAfter, Cut;
    CutOnce(e.key, n);
    CutAfter(": ", e.value, n + |Cut(Show(e.key), n)|);
    CutConcat(Show(e.key), ": " + Show(e.value), n);
    Regroup(Show(e.key), ": ", Show(e.value));
  }

  /** A right-aligned number at the end of the buffer: the fill is dropped, not the digit. */
  lemma FillDropped()
    ensures var v := Pad(Leaf("7", Unchecked), 3, ' ', false);
            Safe(v, CAP - 1) && Put(v, CAP - 1) == "7" && Cut(Show(v), CAP - 1) == " "
  {
  }

  // ---------------------------------------------------------------- values that fit

  /** There is room for everything when v is printed from position pos on. */
  predicate Fits(v: Value, pos: nat)
    decreases v
  {
    match v
    case Text(_) => true
    case Leaf(t, manner) => pos + |t| <= CAP && (manner.Wants? ==> |t| <= manner.room <= CAP - pos)
    case Null => pos + 6 <= CAP
    case Pad(inner, _, _, _) => Fits(inner, pos) && pos + |Show(v)| <= CAP
    case Join(items, sep) => FitAll(items, sep, pos)
    case List(items) => FitAll(items, ", ", pos + 1) && pos + |Show(v)| <= CAP
    case SetOf(items) => FitAll(items, ", ", pos + 1) && pos + |Show(v)| <= CAP
    case Tuple(items) => FitAll(items, ", ", pos + 1) && pos + |Show(v)| <= CAP
    case Pair(a, b) =>
      Fits(a, pos + 1) && Fits(b, pos + 3 + |Show(a)|) && pos + |Show(v)| <= CAP
    case Map(entries) => FitEntries(entries, pos + 1) && pos + |Show(v)| <= CAP
  }

  predicate FitAll(items: seq<Value>, sep: string, pos: nat)
    decreases items
  {
    items != [] ==>
      var front, last := items[..|items| - 1], items[|items| - 1];
      && FitAll(front, sep, pos)
      && Fits(last, pos + |ShowAll(front, sep)| + (if |items| == 1 then 0 else |sep|))
      && pos + |ShowAll(items, sep)| <= CAP
  }

  predicate FitEntries(entries: seq<Entry>, pos: nat)
    decreases entries
  {
    entries != [] ==>
      var front, e := entries[..|entries| - 1], entries[|entries| - 1];
      var at := pos + |ShowEntries(front)| + (if |entries| == 1 then 0 else 2);
      && FitEntries(front, pos) && FitsEntry(e, at)
      && pos + |ShowEntries(entries)| <= CAP
  }

  predicate FitsEntry(e: Entry, pos: nat)
    decreases e
  {
    Fits(e.key, pos) && Fits(e.value, pos + |Show(e.key)| + 2)
  }

  /** No leaf wants more room than `room` bytes; 32 for all built-in ones. */
  predicate LeavesWithin(v: Value, room: nat)
    decreases v
  {
    match v
    case Text(_) => true
    case Leaf(t, manner) => manner.Wants? ==> |t| <= manner.room <= room
    case Null => true
    case Pad(inner, _, _, _) => LeavesWithin(inner, room)
    case Join(items, _) => forall i :: 0 <= i < |items| ==> LeavesWithin(items[i], room)
    case List(items) => forall i :: 0 <= i < |items| ==> LeavesWithin(items[i], room)
    case SetOf(items) => forall i :: 0 <= i < |items| ==> LeavesWithin(items[i], room)
    case Tuple(items) => forall i :: 0 <= i < |items| ==> LeavesWithin(items[i], room)
    case Pair(a, b) => LeavesWithin(a, room) && LeavesWithin(b, room)
    case Map(entries) => forall i :: 0 <= i < |entries| ==> EntryWithin(entries[i], room)
  }

  predicate EntryWithin(e: Entry, room: nat)
    decreases e
  {
    LeavesWithin(e.key, room) && LeavesWithin(e.value, room)
  }

  /** It is enough if the whole text and one more leaf fit. */
  lemma {:induction false} EnoughRoom(v: Value, room: nat, pos: nat)
    requires LeavesWithin(v, room) && pos + |Show(v)| + room <= CAP
    ensures Fits(v, pos)
    decreases v
  {
    match v
    case Text(_) =>
    case Leaf(_, _) =>
    case Null =>
    case Pad(inner, _, _, _) => EnoughRoom(inner, room, pos);
    case Join(items, sep) => EnoughForAll(items, sep, room, pos);
    case List(items) => EnoughForAll(items, ", ", room, pos + 1);
    case SetOf(items) => EnoughForAll(items, ", ", room, pos + 1);
    case Tuple(items) => EnoughForAll(items, ", ", room, pos + 1);
    case Pair(a, b) => EnoughRoom(a, room, pos + 1); EnoughRoom(b, room, pos + 3 + |Show(a)|);
    case Map(entries) => EnoughForEntries(entries, room, pos + 1);
  }

  lemma {:induction false} EnoughForAll(items: seq<Value>, sep: string, room: nat, pos: nat)
    requires (forall i :: 0 <= i < |items| ==> LeavesWithin(items[i], room))
    requires pos + |ShowAll(items, sep)| + room <= CAP
    ensures FitAll(items, sep, pos)
    decreases items
  {
    hide Show, Fits, LeavesWithin;
    if items != [] {
      var front, last := items[..|items| - 1], items[|items| - 1];
      EnoughForAll(front, sep, room, pos);
      EnoughRoom(last, room, pos + |ShowAll(front, sep)| + (if |items| == 1 then 0 else |sep|));
    }
  }

  lemma {:induction false} EnoughForEntries(entries: seq<Entry>, room: nat, pos: nat)
    requires (forall i :: 0 <= i < |entries| ==> EntryWithin(entries[i], room))
    requires pos + |ShowEntries(entries)| + room <= CAP
    ensures FitEntries(entries, pos)
    decreases entries
  {
    hide Show, Fits, EntryWithin, FitsEntry, ShowEntry;
    if entries != [] {
      var front, last := entries[..|entries| - 1], entries[|entries| - 1];
      EnoughForEntries(front, room, pos);
      EnoughForEntry(last, room, pos + |ShowEntries(front)| + (if |entries| == 1 then 0 else 2));
    }
  }

  lemma {:induction false} EnoughForEntry(e: Entry, room: nat, pos: nat)
    requires EntryWithin(e, room) && pos + |ShowEntry(e)| + room <= CAP
    ensures FitsEntry(e, pos)
    decreases e
  {
    hide Show, Fits, LeavesWithin;
    EnoughRoom(e.key, room, pos);
    EnoughRoom(e.value, room, pos + |Show(e.key)| + 2);
  }

  /** A value that fits is put as the reference printer prints it. */
  lemma {:induction false} FitsPut(v: Value, n: nat)
    requires Fits(v, n)
    ensures Safe(v, n) && Put(v, n) == Show(v) && (n + |Show(v)| <= CAP ==> PutIn(v, n) == Show(v))
    decreases v, 1
  {
    hide FitAll, FitEntries, ShowAll, ShowEntries, PutAll, PutEntries, PutBracketed, PutPair;
    hide SafeAll, SafeEntries, SafePair;
    match v
    case Text(_) =>
    case Leaf(_, _) =>
    case Null =>
    case Pad(inner, width, fill, left) => FitsPut(inner, n);
    case Join(items, sep) => FitsPutAll(items, sep, n);
    case List(items) => FitsPutBracketed(items, "[", "]", n);
    case SetOf(items) => FitsPutBracketed(items, "{", "}", n);
    case Tuple(items) => FitsPutBracketed(items, "(", ")", n);
    case Pair(a, b) => FitsPutPair(a, b, n);
    case Map(entries) => FitsPutEntries(entries, n + 1);
  }

  lemma {:induction false} FitsPutBracketed(items: seq<Value>, open: string, close: string, n: nat)
    requires FitAll(items, ", ", n + 1) && |open| == |close| == 1 && n + |open + ShowAll(items, ", ") + close| <= CAP
    ensures SafeAll(items, ", ", n + |Cut(open, n)|)
    ensures PutBracketed(items, open, close, n) == open + ShowAll(items, ", ") + close
    decreases items, 1
  {
    hide FitAll, ShowAll, PutAll, SafeAll, Cut;
    FitsPutAll(items, ", ", n + 1);
    CutNot(open, n);
    CutNot(close, n + 1 + |ShowAll(items, ", ")|);
  }

  lemma {:induction false} FitsPutAfter(sep: string, v: Value, n: nat)
    requires Fits(v, n + |sep|) && n + |sep + Show(v)| <= CAP
    ensures SafeAfter(sep, v, n) && PutAfter(sep, v, n) == sep + Show(v)
    decreases v, 2
  {
    hide Show, Fits, Put, PutIn, Safe, Cut;
    FitsPut(v, n + |sep|);
    CutNot(sep, n);
  }

  lemma {:induction false} FitsPutPair(a: Value, b: Value, n: nat)
    requires Fits(a, n + 1) && Fits(b, n + 3 + |Show(a)|) && n + 4 + |Show(a)| + |Show(b)| <= CAP
    ensures SafePair(a, b, n) && PutPair(a, b, n) == "(" + Show(a) + ", " + Show(b) + ")"
    decreases Pair(a, b), 0
  {
    hide Show, Fits, PutAfter, SafeAfter, Cut;
    FitsPutAfter("(", a, n);
    FitsPutAfter(", ", b, n + 1 + |Show(a)|);
    CutNot(")", n + 3 + |Show(a)| + |Show(b)|);
    Regroup("(" + Show(a), ", ", Show(b));
  }

  lemma CutNot(t: string, n: nat)
    requires n + |t| <= CAP
    ensures Cut(t, n) == t
  {
  }

  lemma {:induction false} FitsPutAll(items: seq<Value>, sep: string, n: nat)
    requires FitAll(items, sep, n)
    ensures SafeAll(items, sep, n) && PutAll(items, sep, n) == ShowAll(items, sep)
    decreases items, 0
  {
    hide Show, Fits, Put, PutIn, Safe;
    if items != [] {
      var front, last := items[..|items| - 1], items[|items| - 1];
      FitsPutAll(front, sep, n);
      FitsPut(last, n + |ShowAll(front, sep)| + (if |items| == 1 then 0 else |sep|));
    }
  }

  lemma {:induction false} FitsPutEntries(entries: seq<Entry>, n: nat)
    requires FitEntries(entries, n)
    ensures SafeEntries(entries, n) && PutEntries(entries, n) == ShowEntries(entries)
    decreases entries, 0
  {
    hide ShowEntry, FitsEntry, PutEntry, SafeEntry;
    if entries != [] {
      var front, last := entries[..|entries| - 1], entries[|entries| - 1];
      FitsPutEntries(front, n);
      FitsPutEntry(last, n + |ShowEntries(front)| + (if |entries| == 1 then 0 else 2));
    }
  }

  lemma {:induction false} FitsPutEntry(e: Entry, n: nat)
    requires FitsEntry(e, n) && n + |ShowEntry(e)| <= CAP
    ensures SafeEntry(e, n) && PutEntry(e, n) == ShowEntry(e)
    decreases e, 0
  {
    hide Show, Fits, PutIn, PutAfter, Safe, SafeAfter;
    FitsPut(e.key, n);
    FitsPutAfter(": ", e.value, n + |Show(e.key)|);
    Regroup(Show(e.key), ": ", Show(e.value));
  }

  // ---------------------------------------------------------------- byte ranges

  /** A pointer and a length: into scratch, or to bytes elsewhere. */
  datatype Iov = Slice(off: nat, len: nat) | Borrowed(text: string)

  /** The pointer comparison `base == scratch + at`; other bytes are not inside scratch. */
  predicate IsAt(v: Iov, at: int) {
    v.Slice? && v.off == at
  }

  function Len(v: Iov): nat {
    if v.Slice? then v.len else |v.text|
  }

  function Bytes(v: Iov, scratch: string): string
    requires v.Slice? ==> v.off + v.len <= |scratch|
  {
    if v.Slice? then scratch[v.off..v.off + v.len] else v.text
  }

  // ---------------------------------------------------------------- appending

  /** `append_str`: as much as there is room for. */
  method AppendStr(scratch: array<char>, pos: nat, s: string) returns (pos': nat)
    requires scratch.Length == CAP && pos <= CAP
    modifies scratch
    ensures pos' == Least(CAP, pos + |s|) && scratch[..pos'] == old(scratch[..pos]) + Cut(s, pos)
  {
    var avail := CAP - pos;
    var n := |s|;
    if n > avail { n := avail; }
    for i := 0 to n
      invariant scratch[..pos + i] == old(scratch[..pos]) + s[..i]
    {
      scratch[pos + i] := s[i];
      assert scratch[..pos + i + 1] == scratch[..pos + i] + [s[i]];
    }
    pos' := pos + n;
  }

  lemma FillMore(n: nat, c: char)
    ensures Fill(n + 1, c) == Fill(n, c) + [c]
  {
  }

  method AppendFill(scratch: array<char>, pos: nat, count: nat, fill: char) returns (pos': nat)
    requires scratch.Length == CAP && pos <= CAP
    modifies scratch
    ensures pos' == Least(CAP, pos + count) && scratch[..pos'] == old(scratch[..pos]) + Cut(Fill(count, fill), pos)
  {
    pos' := pos;
    for i := 0 to count
      invariant pos' == pos + i <= CAP && scratch[..pos'] == old(scratch[..pos]) + Fill(i, fill)
    {
      if pos' >= CAP { break; }
      scratch[pos'] := fill;
      assert scratch[..pos' + 1] == scratch[..pos'] + [fill];
      FillMore(i, fill);
      pos' := pos' + 1;
    }
  }

  method FillRange(scratch: array<char>, start: nat, count: nat, fill: char)
    requires start + count <= scratch.Length
    modifies scratch
    ensures forall j :: 0 <= j < scratch.Length ==>
      scratch[j] == if start <= j < start + count then fill else old(scratch[j])
  {
    for k := 0 to count
      invariant forall j :: 0 <= j < scratch.Length ==>
        scratch[j] == if start <= j < start + k then fill else old(scratch[j])
    {
      scratch[start + k] := fill;
    }
  }

  lemma CutFill(count: nat, fill: char, n: nat)
    requires n <= CAP
    ensures Cut(Fill(count, fill), n) == Fill(Least(count, CAP - n), fill)
  {
  }

  /** The in-place shift of right alignment: the text at [start, end) moves up, backwards. */
  method ShiftUp(scratch: array<char>, start: nat, end: nat, padCount: nat, fill: char) returns (pos': nat)
    requires scratch.Length == CAP && start <= end <= CAP
    modifies scratch
    ensures pos' == Least(CAP, end + padCount)
    ensures scratch[..pos'] == old(scratch[..start]) + Cut(Fill(padCount, fill), end) + old(scratch[start..end])
  {
    var shift := padCount;
    var bytesToMove := end - start;
    if end + shift > CAP {
      shift := CAP - end;
    }
    hide Fill;
    ghost var before := scratch[..];
    var i := bytesToMove;
    while i > 0
      invariant 0 <= i <= bytesToMove
      invariant forall k :: 0 <= k < start + i ==> scratch[k] == before[k]
      invariant forall k :: start + shift + i <= k < end + shift ==> scratch[k] == before[k - shift]
    {
      scratch[start + shift + (i - 1)] := scratch[start + (i - 1)];
      i := i - 1;
    }
    FillRange(scratch, start, shift, fill);
    pos' := end + shift;
    ShiftedUp(before, scratch[..], start, end, shift, fill);
    CutFill(padCount, fill, end);
  }

  lemma ShiftedUp(before: string, after: string, start: nat, end: nat, shift: nat, fill: char)
    requires start <= end && end + shift <= |after| == |before|
    requires forall j :: 0 <= j < start ==> after[j] == before[j]
    requires forall j :: start <= j < start + shift ==> after[j] == fill
    requires forall j :: start + shift <= j < end + shift ==> after[j] == before[j - shift]
    ensures after[..end + shift] == before[..start] + Fill(shift, fill) + before[start..end]
  {
  }

  // ---------------------------------------------------------------- the renderers

  /** A slice of what has just been appended. */
  lemma Appended(scratch: string, before: string, s: string)
    requires scratch == before + s
    ensures scratch[|before|..] == s
  {
  }

  /** `elog_render` of any value: either scratch holds what Put says from pos on, and the result is the
      slice [pos, pos'), or the result is borrowed and nothing was appended. */
  method Render(scratch: array<char>, pos: nat, v: Value) returns (r: Iov, pos': nat)
    requires scratch.Length == CAP && pos <= CAP && Safe(v, pos)
    modifies scratch
    ensures pos <= pos' <= CAP
    ensures if r.Slice? then r == Slice(pos, pos' - pos) && scratch[..pos'] == old(scratch[..pos]) + Put(v, pos)
            else pos' == pos && r.text == Put(v, pos) && scratch[..pos] == old(scratch[..pos])
    ensures r.Borrowed? <==> v.Text?
    decreases v, 1
  {
    hide PutAll, PutEntries, PutPair, SafeAll, SafeEntries, SafePair, Cut;
    match v
    case Text(t) =>
      return Borrowed(t), pos;
    case Leaf(t, manner) =>
      pos' := RenderLeaf(scratch, pos, t, manner);
      return Slice(pos, pos' - pos), pos';
    case Null =>
      pos' := AppendStr(scratch, pos, "<null>");
      return Slice(pos, pos' - pos), pos';
    case Pad(inner, width, fill, left) =>
      r, pos' := RenderPadded(scratch, pos, inner, width, fill, left);
    case Join(items, sep) =>
      pos' := RenderAll(scratch, pos, items, sep);
      return Slice(pos, pos' - pos), pos';
    case List(items) =>
      pos' := RenderBracketed(scratch, pos, items, "[", "]");
      return Slice(pos, pos' - pos), pos';
    case SetOf(items) =>
      pos' := RenderBracketed(scratch, pos, items, "{", "}");
      return Slice(pos, pos' - pos), pos';
    case Tuple(items) =>
      pos' := RenderBracketed(scratch, pos, items, "(", ")");
      return Slice(pos, pos' - pos), pos';
    case Pair(a, b) =>
      pos' := RenderPair(scratch, pos, a, b);
      return Slice(pos, pos' - pos), pos';
    case Map(entries) =>
      pos' := RenderMap(scratch, pos, entries);
      return Slice(pos, pos' - pos), pos';
  }

  /** The renderers of numbers, by what they do about room. */
  method RenderLeaf(scratch: array<char>, pos: nat, t: string, manner: Manner) returns (pos': nat)
    requires scratch.Length == CAP && pos <= CAP && Safe(Leaf(t, manner), pos)
    modifies scratch
    ensures pos <= pos' <= CAP && scratch[..pos'] == old(scratch[..pos]) + Put(Leaf(t, manner), pos)
  {
    if manner.Wants? && CAP - pos < manner.room { return pos; }
    pos' := AppendStr(scratch, pos, t);
  }

  /** What every container does with an element: render it, and copy it behind what is there
      unless it is there already. */
  method RenderElement(scratch: array<char>, pos: nat, e: Value) returns (pos': nat)
    requires scratch.Length == CAP && pos <= CAP && Safe(e, pos)
    modifies scratch
    ensures pos' == pos + |PutIn(e, pos)| <= CAP && scratch[..pos'] == old(scratch[..pos]) + PutIn(e, pos)
    decreases e, 2
  {
    hide Put, Safe;
    TextPut(e, pos);
    var ie: Iov;
    ie, pos' := Render(scratch, pos, e);
    if !IsAt(ie, pos' - Len(ie)) {
      pos' := AppendStr(scratch, pos', Bytes(ie, scratch[..]));
    }
  }

  lemma TextPut(v: Value, n: nat)
    ensures v.Text? ==> Put(v, n) == v.text
  {
  }

  method RenderPadded(scratch: array<char>, pos: nat, v: Value, width: int, fill: char, left: bool)
      returns (r: Iov, pos': nat)
    requires scratch.Length == CAP && pos <= CAP && Safe(v, pos)
    modifies scratch
    ensures pos <= pos' <= CAP && r == Slice(pos, pos' - pos)
    ensures scratch[..pos'] == old(scratch[..pos]) + PutPadded(Put(v, pos), v.Text?, width, fill, left, pos)
    decreases v, 2
  {
    hide Put, Safe, Widened, PutPadded, Cut;
    TextPut(v, pos);
    ghost var text := Put(v, pos);
    ghost var before := scratch[..pos];
    var start := pos;
    var inner: Iov;
    inner, pos' := Render(scratch, pos, v);
    PaddedCases(text, v.Text?, width, fill, left, pos);
    var innerLen := Len(inner);
    if width <= 0 || width <= innerLen {
      if !IsAt(inner, start) {
        var cs := pos';
        pos' := AppendStr(scratch, pos', Bytes(inner, scratch[..]));
        return Slice(cs, pos' - cs), pos';
      }
      return inner, pos';
    }
    var padCount := width - innerLen;
    if IsAt(inner, start) {
      Appended(scratch[..pos'], before, text);
      pos' := PadInPlace(scratch, start, pos', padCount, fill, left);
      return Slice(start, pos' - start), pos';
    } else {
      var outStart := pos';
      pos' := PadCopy(scratch, pos', Bytes(inner, scratch[..]), padCount, fill, left);
      return Slice(outStart, pos' - outStart), pos';
    }
  }

  lemma PaddedCases(t: string, borrowed: bool, width: int, fill: char, left: bool, n: nat)
    requires borrowed || n + |t| <= CAP
    ensures PutPadded(t, borrowed, width, fill, left, n)
         == if width <= |t| then (if borrowed then Cut(t, n) else t)
            else if borrowed || left then Cut(Widened(t, width - |t|, fill, left), n)
            else Cut(Fill(width - |t|, fill), n + |t|) + t
  {
  }

  /** Padding a text that is already in scratch at [start, end). */
  method PadInPlace(scratch: array<char>, start: nat, end: nat, padCount: nat, fill: char, left: bool)
      returns (pos': nat)
    requires scratch.Length == CAP && start <= end <= CAP
    modifies scratch
    ensures end <= pos' <= CAP
    ensures var text := old(scratch[..end][start..]);
            scratch[..pos'] == old(scratch[..start])
              + if left then Cut(Widened(text, padCount, fill, true), start) else Cut(Fill(padCount, fill), end) + text
  {
    ghost var before, text := scratch[..start], scratch[..end][start..];
    assert scratch[start..end] == text;
    if left {
      assert scratch[..end] == before + text;
      pos' := AppendFill(scratch, end, padCount, fill);
      Regroup(before, text, Cut(Fill(padCount, fill), end));
      CutConcat(text, Fill(padCount, fill), start);
    } else {
      pos' := ShiftUp(scratch, start, end, padCount, fill);
      Regroup(before, Cut(Fill(padCount, fill), end), text);
    }
  }

  /** Padding a text from elsewhere on the way into scratch. */
  method PadCopy(scratch: array<char>, pos: nat, src: string, padCount: nat, fill: char, left: bool) returns (pos': nat)
    requires scratch.Length == CAP && pos <= CAP
    modifies scratch
    ensures pos <= pos' <= CAP
    ensures scratch[..pos'] == old(scratch[..pos]) + Cut(Widened(src, padCount, fill, left), pos)
  {
    ghost var before, fills := scratch[..pos], Fill(padCount, fill);
    if left {
      pos' := AppendStr(scratch, pos, src);
      pos' := AppendFill(scratch, pos', padCount, fill);
      CutConcat(src, fills, pos);
      Regroup(before, Cut(src, pos), Cut(fills, pos + |Cut(src, pos)|));
    } else {
      pos' := AppendFill(scratch, pos, padCount, fill);
      pos' := AppendStr(scratch, pos', src);
      CutConcat(fills, src, pos);
      Regroup(before, Cut(fills, pos), Cut(src, pos + |Cut(fills, pos)|));
    }
  }

  /** The separator in front of element i at position n. */
  function Between(sep: string, i: nat, n: nat): string {
    if i == 0 then "" else Cut(sep, n)
  }

  lemma AllSnoc(items: seq<Value>, sep: string, n: nat)
    requires items != [] && SafeAll(items, sep, n)
    ensures var front, last := items[..|items| - 1], items[|items| - 1];
            var s := PutAll(front, sep, n);
            var s1 := s + Between(sep, |front|, n + |s|);
            && SafeAll(front, sep, n) && Safe(last, n + |s1|)
            && PutAll(items, sep, n) == s1 + PutIn(last, n + |s1|)
  {
    hide PutIn, Safe, Cut;
  }

  lemma {:induction false} AllTake(items: seq<Value>, sep: string, i: nat, n: nat)
    requires i <= |items| && SafeAll(items, sep, n)
    ensures SafeAll(items[..i], sep, n)
    decreases |items|
  {
    hide *;
    if i < |items| {
      AllSnoc(items, sep, n);
      AllTake(items[..|items| - 1], sep, i, n);
      assert items[..|items| - 1][..i] == items[..i];
    } else {
      assert items[..i] == items;
    }
  }

  /** The first i elements, the separator and the next one. */
  lemma AllStep(items: seq<Value>, sep: string, i: nat, n: nat)
    requires i < |items| && SafeAll(items, sep, n)
    ensures var s := PutAll(items[..i], sep, n);
            var s1 := s + Between(sep, i, n + |s|);
            Safe(items[i], n + |s1|) && PutAll(items[..i + 1], sep, n) == s1 + PutIn(items[i], n + |s1|)
  {
    hide *;
    AllTake(items, sep, i + 1, n);
    assert items[..i + 1][..i] == items[..i];
    AllSnoc(items[..i + 1], sep, n);
  }

  lemma AllNone(sep: string, n: nat)
    ensures PutAll([], sep, n) == "" && PutEntries([], n) == ""
  {
  }

  /** The loop over the elements. */
  method RenderAll(scratch: array<char>, pos: nat, items: seq<Value>, sep: string) returns (pos': nat)
    requires scratch.Length == CAP && pos <= CAP && SafeAll(items, sep, pos)
    modifies scratch
    ensures pos' == pos + |PutAll(items, sep, pos)| <= CAP
    ensures scratch[..pos'] == old(scratch[..pos]) + PutAll(items, sep, pos)
    decreases items, 0
  {
    hide Put, PutIn, PutAll, PutEntries, Safe, SafeAll, SafeEntries, Cut;
    pos' := pos;
    var first := true;
    ghost var before := scratch[..pos];
    AllNone(sep, pos);
    assert items[..0] == [];
    for i := 0 to |items|
      invariant first <==> i == 0
      invariant pos' == pos + |PutAll(items[..i], sep, pos)| <= CAP
      invariant scratch[..pos'] == before + PutAll(items[..i], sep, pos)
    {
      AllStep(items, sep, i, pos);
      ghost var s := PutAll(items[..i], sep, pos);
      ghost var between := Between(sep, i, pos');
      if !first {
        pos' := AppendStr(scratch, pos', sep);
        Regroup(before, s, between);
      }
      first := false;
      assert scratch[..pos'] == before + (s + between);
      ghost var n := pos';
      pos' := RenderElement(scratch, pos', items[i]);
      Regroup(before, s + between, PutIn(items[i], n));
    }
    assert items[..|items|] == items;
  }

  method RenderBracketed(scratch: array<char>, pos: nat, items: seq<Value>, open: string, close: string)
      returns (pos': nat)
    requires scratch.Length == CAP && pos <= CAP && SafeAll(items, ", ", pos + |Cut(open, pos)|)
    modifies scratch
    ensures pos' == pos + |PutBracketed(items, open, close, pos)| <= CAP
    ensures scratch[..pos'] == old(scratch[..pos]) + PutBracketed(items, open, close, pos)
    decreases items, 1
  {
    hide PutAll, SafeAll, Cut;
    ghost var before := scratch[..pos];
    pos' := AppendStr(scratch, pos, open);
    ghost var s1 := Cut(open, pos);
    ghost var all := PutAll(items, ", ", pos');
    pos' := RenderAll(scratch, pos', items, ", ");
    Regroup(before, s1, all);
    ghost var last := Cut(close, pos');
    pos' := AppendStr(scratch, pos', close);
    Regroup(before, s1 + all, last);
  }

  /** A separator, and an element behind it. */
  method RenderAfter(scratch: array<char>, pos: nat, sep: string, e: Value) returns (pos': nat)
    requires scratch.Length == CAP && pos <= CAP && SafeAfter(sep, e, pos)
    modifies scratch
    ensures pos' == pos + |PutAfter(sep, e, pos)| <= CAP
    ensures scratch[..pos'] == old(scratch[..pos]) + PutAfter(sep, e, pos)
    decreases e, 3
  {
    hide Put, PutIn, Safe, Cut;
    ghost var before, s := scratch[..pos], Cut(sep, pos);
    pos' := AppendStr(scratch, pos, sep);
    pos' := RenderElement(scratch, pos', e);
    Regroup(before, s, PutIn(e, pos + |s|));
  }

  method RenderPair(scratch: array<char>, pos: nat, a: Value, b: Value) returns (pos': nat)
    requires scratch.Length == CAP && pos <= CAP && SafePair(a, b, pos)
    modifies scratch
    ensures pos' == pos + |PutPair(a, b, pos)| <= CAP && scratch[..pos'] == old(scratch[..pos]) + PutPair(a, b, pos)
    decreases Pair(a, b), 0
  {
    hide PutAfter, SafeAfter, Cut;
    ghost var before, first := scratch[..pos], PutAfter("(", a, pos);
    ghost var second := PutAfter(", ", b, pos + |first|);
    pos' := RenderAfter(scratch, pos, "(", a);
    pos' := RenderAfter(scratch, pos', ", ", b);
    Regroup(before, first, second);
    ghost var last := Cut(")", pos');
    pos' := AppendStr(scratch, pos', ")");
    Regroup(before, first + second, last);
  }

  lemma EntriesSnoc(entries: seq<Entry>, n: nat)
    requires entries != [] && SafeEntries(entries, n)
    ensures var front, last := entries[..|entries| - 1], entries[|entries| - 1];
            var s := PutEntries(front, n);
            var s1 := s + Between(", ", |front|, n + |s|);
            && SafeEntries(front, n) && SafeEntry(last, n + |s1|)
            && PutEntries(entries, n) == s1 + PutEntry(last, n + |s1|)
  {
    hide PutEntry, SafeEntry, Cut;
  }

  lemma {:induction false} EntriesTake(entries: seq<Entry>, i: nat, n: nat)
    requires i <= |entries| && SafeEntries(entries, n)
    ensures SafeEntries(entries[..i], n)
    decreases |entries|
  {
    hide *;
    if i < |entries| {
      EntriesSnoc(entries, n);
      EntriesTake(entries[..|entries| - 1], i, n);
      assert entries[..|entries| - 1][..i] == entries[..i];
    } else {
      assert entries[..i] == entries;
    }
  }

  lemma EntriesStep(entries: seq<Entry>, i: nat, n: nat)
    requires i < |entries| && SafeEntries(entries, n)
    ensures var s := PutEntries(entries[..i], n);
            var s1 := s + Between(", ", i, n + |s|);
            && SafeEntry(entries[i], n + |s1|)
            && PutEntries(entries[..i + 1], n) == s1 + PutEntry(entries[i], n + |s1|)
  {
    hide *;
    EntriesTake(entries, i + 1, n);
    assert entries[..i + 1][..i] == entries[..i];
    EntriesSnoc(entries[..i + 1], n);
  }

  /** The body of the loop over a map. */
  method RenderEntry(scratch: array<char>, pos: nat, e: Entry) returns (pos': nat)
    requires scratch.Length == CAP && pos <= CAP && SafeEntry(e, pos)
    modifies scratch
    ensures pos' == pos + |PutEntry(e, pos)| <= CAP && scratch[..pos'] == old(scratch[..pos]) + PutEntry(e, pos)
    decreases e, 0
  {
    hide PutIn, PutAfter, Safe, SafeAfter;
    ghost var before, key := scratch[..pos], PutIn(e.key, pos);
    pos' := RenderElement(scratch, pos, e.key);
    pos' := RenderAfter(scratch, pos', ": ", e.value);
    Regroup(before, key, PutAfter(": ", e.value, pos + |key|));
  }

  method RenderMap(scratch: array<char>, pos: nat, entries: seq<Entry>) returns (pos': nat)
    requires scratch.Length == CAP && pos <= CAP && SafeEntries(entries, pos + |Cut("{", pos)|)
    modifies scratch
    ensures pos' == pos + |Put(Map(entries), pos)| <= CAP
    ensures scratch[..pos'] == old(scratch[..pos]) + Put(Map(entries), pos)
    decreases entries, 1
  {
    MapPut(entries, pos);
    hide Put, PutEntries, SafeEntries, Cut;
    ghost var before := scratch[..pos];
    ghost var s1 := Cut("{", pos);
    pos' := AppendStr(scratch, pos, "{");
    ghost var all := PutEntries(entries, pos');
    pos' := RenderEntries(scratch, pos', entries);
    Regroup(before, s1, all);
    ghost var last := Cut("}", pos');
    pos' := AppendStr(scratch, pos', "}");
    Regroup(before, s1 + all, last);
  }

  /** The loop over a map. */
  method RenderEntries(scratch: array<char>, pos: nat, entries: seq<Entry>) returns (pos': nat)
    requires scratch.Length == CAP && pos <= CAP && SafeEntries(entries, pos)
    modifies scratch
    ensures pos' == pos + |PutEntries(entries, pos)| <= CAP
    ensures scratch[..pos'] == old(scratch[..pos]) + PutEntries(entries, pos)
    decreases entries, 0
  {
    hide Put, PutEntries, PutEntry, SafeEntries, SafeEntry, Cut;
    pos' := pos;
    ghost var before := scratch[..pos];
    var first := true;
    AllNone("", pos);
    assert entries[..0] == [];
    for i := 0 to |entries|
      invariant first <==> i == 0
      invariant pos' == pos + |PutEntries(entries[..i], pos)| <= CAP
      invariant scratch[..pos'] == before + PutEntries(entries[..i], pos)
    {
      EntriesStep(entries, i, pos);
      ghost var s := PutEntries(entries[..i], pos);
      ghost var between := Between(", ", i, pos');
      if !first {
        pos' := AppendStr(scratch, pos', ", ");
        Regroup(before, s, between);
      }
      first := false;
      assert scratch[..pos'] == before + (s + between);
      ghost var n := pos';
      pos' := RenderEntry(scratch, pos', entries[i]);
      Regroup(before, s + between, PutEntry(entries[i], n));
    }
    assert entries[..|entries|] == entries;
  }
}
