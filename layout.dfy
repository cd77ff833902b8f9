/** The text a loop `for i, x in enumerate(items, start): out += render(i, x)`
    appends, and where each item's piece lands in it. Every numbered list the
    front ends print (plan steps, hypotheses, history entries) and every
    per-item block (findings, quality indicators) is built this way. */
module Layout {
  import opened Text

  function Enumerate<T>(items: seq<T>, start: int, render: (int, T) -> string): string
    decreases |items|
  {
    if items == [] then [] else render(start, items[0]) + Enumerate(items[1..], start + 1, render)
  }

  /** One more loop iteration appends the next item's piece, numbered after the
      ones already written. */
  lemma {:induction false} EnumerateAppend<T>(items: seq<T>, x: T, start: int, render: (int, T) -> string)
    ensures Enumerate(items + [x], start, render) == Enumerate(items, start, render) + render(start + |items|, x)
    decreases |items|
  {
    if items != [] {
      assert (items + [x])[1..] == items[1..] + [x];
      EnumerateAppend(items[1..], x, start + 1, render);
    }
  }

  lemma {:induction false} EnumerateSplit<T>(a: seq<T>, b: seq<T>, start: int, render: (int, T) -> string)
    ensures Enumerate(a + b, start, render) == Enumerate(a, start, render) + Enumerate(b, start + |a|, render)
    decreases |a|
  {
    if a != [] {
      assert (a + b)[1..] == a[1..] + b;
      EnumerateSplit(a[1..], b, start + 1, render);
    } else {
      assert a + b == b;
    }
  }

  /** Item `k` contributes exactly one piece, numbered `start + k`, between the
      pieces of the items before it and those of the items after it. */
  lemma EnumerateAt<T>(items: seq<T>, start: int, render: (int, T) -> string, k: nat)
    requires k < |items|
    ensures Enumerate(items, start, render)
         == Enumerate(items[..k], start, render) + render(start + k, items[k])
            + Enumerate(items[k + 1..], start + k + 1, render)
  {
    assert items == items[..k] + items[k..];
    EnumerateSplit(items[..k], items[k..], start, render);
    assert items[k..][1..] == items[k + 1..];
  }

  /** The piece of item `k` occurs at offset `p` of the enumeration, and the
      piece of item `k + 1` starts right where it ends: pieces appear once each,
      in the items' order. */
  lemma EnumerateOccurs<T>(items: seq<T>, start: int, render: (int, T) -> string, k: nat) returns (p: nat)
    requires k < |items|
    ensures OccursAt(Enumerate(items, start, render), render(start + k, items[k]), p)
    ensures k + 1 < |items| ==>
      OccursAt(Enumerate(items, start, render), render(start + k + 1, items[k + 1]), p + |render(start + k, items[k])|)
  {
    var before := Enumerate(items[..k], start, render);
    var piece := render(start + k, items[k]);
    var after := Enumerate(items[k + 1..], start + k + 1, render);
    EnumerateAt(items, start, render, k);
    p := |before|;
    OccursInConcat(before, piece, after);
    if k + 1 < |items| {
      var next := render(start + k + 1, items[k + 1]);
      var rest := Enumerate(items[k + 2..], start + k + 2, render);
      assert items[k + 1..][1..] == items[k + 2..];
      assert after == next + rest;
      assert before + piece + after == (before + piece) + next + rest;
      OccursInConcat(before + piece, next, rest);
    }
  }

  /** `EnumerateOccurs` for an enumeration that is the titled second part of a
      text made of four parts. */
  lemma EnumerateInSecondOfFour<T>(a: string, t: string, items: seq<T>, start: int, render: (int, T) -> string,
                           c: string, d: string, k: nat) returns (p: nat)
    requires k < |items|
    ensures OccursAt(a + (t + Enumerate(items, start, render)) + c + d, render(start + k, items[k]), p)
    ensures k + 1 < |items| ==>
      OccursAt(a + (t + Enumerate(items, start, render)) + c + d, render(start + k + 1, items[k + 1]),
               p + |render(start + k, items[k])|)
  {
    var e := Enumerate(items, start, render);
    var q := EnumerateOccurs(items, start, render, k);
    OccursInPart(a, t, e, c, d, render(start + k, items[k]), q);
    p := |a| + |t| + q;
    if k + 1 < |items| {
      OccursInPart(a, t, e, c, d, render(start + k + 1, items[k + 1]), q + |render(start + k, items[k])|);
    }
  }

  /** The same, for a text made of five parts. */
  lemma EnumerateInSecondOfFive<T>(a: string, t: string, items: seq<T>, start: int, render: (int, T) -> string,
                            c: string, d: string, f: string, k: nat) returns (p: nat)
    requires k < |items|
    ensures OccursAt(a + (t + Enumerate(items, start, render)) + c + d + f, render(start + k, items[k]), p)
    ensures k + 1 < |items| ==>
      OccursAt(a + (t + Enumerate(items, start, render)) + c + d + f, render(start + k + 1, items[k + 1]),
               p + |render(start + k, items[k])|)
  {
    var s := a + (t + Enumerate(items, start, render)) + c + d;
    p := EnumerateInSecondOfFour(a, t, items, start, render, c, d, k);
    OccursExtend(s, f, render(start + k, items[k]), p);
    if k + 1 < |items| {
      OccursExtend(s, f, render(start + k + 1, items[k + 1]), p + |render(start + k, items[k])|);
    }
  }

  /** The loop `for i, x in enumerate(items, start): out += render(i, x)`
      itself: it appends the enumeration to what `out` held before. */
  method AppendEnumerate<T>(out0: string, items: seq<T>, start: int, render: (int, T) -> string)
    returns (out: string)
    ensures out == out0 + Enumerate(items, start, render)
  {
    out := out0;
    for i := 0 to |items|
      invariant out == out0 + Enumerate(items[..i], start, render)
    {
      EnumerateAppend(items[..i], items[i], start, render);
      assert items[..i + 1] == items[..i] + [items[i]];
      out := out + render(start + i, items[i]);
    }
    assert items[..|items|] == items;
  }
}
