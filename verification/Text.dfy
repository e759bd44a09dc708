/** Concatenating lists of texts. */
module Texts {

  function Cat(ts: seq<string>): string {
    if ts == [] then [] else Cat(ts[..|ts| - 1]) + ts[|ts| - 1]
  }

  lemma Regroup(p: string, a: string, b: string)
    ensures p + a + b == p + (a + b)
  {
  }

  lemma CatNone()
    ensures Cat([]) == ""
  {
  }

  lemma CatSnoc(ts: seq<string>, t: string)
    ensures Cat(ts + [t]) == Cat(ts) + t
  {
    assert (ts + [t])[..|ts|] == ts;
  }

  lemma CatOne(t: string)
    ensures Cat([t]) == t
  {
    assert [t][..0] == [];
  }

  lemma {:induction false} CatConcat(a: seq<string>, b: seq<string>)
    ensures Cat(a + b) == Cat(a) + Cat(b)
  {
    hide Cat;
    if b == [] {
      CatNone();
      assert a + b == a;
    } else {
      var front, last := b[..|b| - 1], b[|b| - 1];
      CatConcat(a, front);
      CatSnoc(front, last);
      CatSnoc(a + front, last);
      assert a + b == (a + front) + [last] && b == front + [last];
    }
  }

  lemma CatFirst(ts: seq<string>)
    requires ts != []
    ensures Cat(ts) == ts[0] + Cat(ts[1..])
  {
    hide Cat;
    CatConcat([ts[0]], ts[1..]);
    CatOne(ts[0]);
    assert [ts[0]] + ts[1..] == ts;
  }
}
