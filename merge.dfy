/** The update handlers' merge loop: `for key, value in update_data.items(): setattr(row, key, value)`. */
module Merge {

  /** The row after assigning each field of `data`, first to last. */
  function ApplyAll<R, A>(assign: (R, A) -> R, row: R, data: seq<A>): R
    decreases |data|
  {
    if data == [] then row else assign(ApplyAll(assign, row, data[..|data| - 1]), data[|data| - 1])
  }

  /** Assigning `a + b` is assigning `a`, then `b`. */
  lemma {:induction false} ApplyAllAppend<R, A>(assign: (R, A) -> R, row: R, a: seq<A>, b: seq<A>)
    ensures ApplyAll(assign, row, a + b) == ApplyAll(assign, ApplyAll(assign, row, a), b)
    decreases |b|
  {
    if b == [] {
      assert a + b == a;
    } else {
      assert (a + b)[..|a + b| - 1] == a + b[..|b| - 1];
      ApplyAllAppend(assign, row, a, b[..|b| - 1]);
    }
  }

  /** The loop itself: one `setattr` per supplied field, in order. */
  method MergeFields<R, A>(assign: (R, A) -> R, row: R, data: seq<A>) returns (r: R)
    ensures r == ApplyAll(assign, row, data)
  {
    r := row;
    for i := 0 to |data|
      invariant r == ApplyAll(assign, row, data[..i])
    {
      assert data[..i + 1][..i] == data[..i];
      r := assign(r, data[i]);
    }
    assert data[..|data|] == data;
  }
}
