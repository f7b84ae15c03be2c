/** Concatenation of a list of parts. */
module Sequences {
  function Flatten<T>(parts: seq<seq<T>>): seq<T> {
    if parts == [] then [] else Flatten(parts[..|parts| - 1]) + parts[|parts| - 1]
  }

  lemma FlattenSnoc<T>(parts: seq<seq<T>>, p: seq<T>)
    ensures Flatten(parts + [p]) == Flatten(parts) + p
  {
    assert (parts + [p])[..|parts|] == parts;
  }

  lemma {:induction false} FlattenAppend<T>(a: seq<seq<T>>, b: seq<seq<T>>)
    ensures Flatten(a + b) == Flatten(a) + Flatten(b)
  {
    if b == [] {
      assert a + b == a;
    } else {
      var n := |b| - 1;
      FlattenAppend(a, b[..n]);
      FlattenSnoc(a + b[..n], b[n]);
      assert a + b[..n] + [b[n]] == a + b;
    }
  }

  lemma FlattenCons<T>(p: seq<T>, parts: seq<seq<T>>)
    ensures Flatten([p] + parts) == p + Flatten(parts)
  {
    FlattenAppend([p], parts);
    FlattenSnoc([], p);
    assert [] + [p] == [p];
  }
}
