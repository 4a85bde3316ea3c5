/** What several modules share. */
module Common {
  datatype Option<+T> = None | Some(value: T)

  function Max(a: int, b: int): int { if a > b then a else b }

  function Min(a: int, b: int): int { if a < b then a else b }

  lemma {:induction false} Assoc<T>(a: seq<T>, b: seq<T>, c: seq<T>)
    ensures a + b + c == a + (b + c)
    ensures a + [] == a
  {
  }

  lemma {:induction false} TakeNext<T>(s: seq<T>, i: nat)
    requires i < |s|
    ensures s[..i + 1] == s[..i] + [s[i]]
  {
  }

  /** The parts put together. */
  function Flatten<T>(parts: seq<seq<T>>): seq<T> {
    if parts == [] then [] else Flatten(parts[..|parts| - 1]) + parts[|parts| - 1]
  }

  lemma {:induction false} FlattenSnoc<T>(parts: seq<seq<T>>, part: seq<T>)
    ensures Flatten(parts + [part]) == Flatten(parts) + part
  {
    assert (parts + [part])[..|parts|] == parts;
  }

  lemma {:induction false} FlattenTake<T>(parts: seq<seq<T>>, k: nat)
    requires k < |parts|
    ensures Flatten(parts[..k + 1]) == Flatten(parts[..k]) + parts[k]
  {
    TakeNext(parts, k);
    FlattenSnoc(parts[..k], parts[k]);
  }

  lemma {:induction false} FlattenConcat<T>(a: seq<seq<T>>, b: seq<seq<T>>)
    ensures Flatten(a + b) == Flatten(a) + Flatten(b)
  {
    if b == [] {
      assert a + b == a;
    } else {
      var n := |b| - 1;
      assert a + b == a + b[..n] + [b[n]];
      FlattenConcat(a, b[..n]);
      FlattenSnoc(a + b[..n], b[n]);
      Assoc(Flatten(a), Flatten(b[..n]), b[n]);
    }
  }

  lemma {:induction false} FlattenOne<T>(part: seq<T>)
    ensures Flatten([part]) == part
  {
    FlattenSnoc([], part);
    assert [] + [part] == [part] && [] + part == part;
  }

  lemma {:induction false} FlattenFirst<T>(part: seq<T>, parts: seq<seq<T>>)
    ensures Flatten([part] + parts) == part + Flatten(parts)
  {
    FlattenConcat([part], parts);
    FlattenOne(part);
  }
}
