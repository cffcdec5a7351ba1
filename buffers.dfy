/**
 * The specification of one update-and-cull pass over a particle buffer: every
 * particle is stepped once, and the stepped particles that pass the keep test
 * stay, in their original order.
 */
module Buffers {

  /** Each element stepped exactly once, in place. */
  function Mapped<T>(ps: seq<T>, step: T -> T): (r: seq<T>)
    ensures |r| == |ps|
    ensures forall k :: 0 <= k < |ps| ==> r[k] == step(ps[k])
  {
    if ps == [] then [] else [step(ps[0])] + Mapped(ps[1..], step)
  }

  /** The elements that pass `keep`, in their original order. */
  function Kept<T>(ps: seq<T>, keep: T -> bool): (r: seq<T>)
    ensures |r| <= |ps|
  {
    if ps == [] then []
    else (if keep(ps[0]) then [ps[0]] else []) + Kept(ps[1..], keep)
  }

  /** Culling keeps exactly the elements that pass `keep`. */
  lemma {:induction false} KeptMembers<T>(ps: seq<T>, keep: T -> bool)
    ensures forall q :: q in Kept(ps, keep) <==> q in ps && keep(q)
  {
    if ps != [] {
      KeptMembers(ps[1..], keep);
      assert ps == [ps[0]] + ps[1..];
    }
  }

  /** Culling preserves relative order: survivors of `a` precede survivors of `b`. */
  lemma {:induction false} KeptAppend<T>(a: seq<T>, b: seq<T>, keep: T -> bool)
    ensures Kept(a + b, keep) == Kept(a, keep) + Kept(b, keep)
  {
    if a == [] {
      assert a + b == b;
    } else {
      var head := if keep(a[0]) then [a[0]] else [];
      assert (a + b)[0] == a[0] && (a + b)[1..] == a[1..] + b;
      assert Kept(a + b, keep) == head + Kept(a[1..] + b, keep);
      KeptAppend(a[1..], b, keep);
      assert Kept(a, keep) == head + Kept(a[1..], keep);
    }
  }

  /** If every element passes, culling keeps the buffer as it is. */
  lemma {:induction false} KeptAll<T>(ps: seq<T>, keep: T -> bool)
    requires forall i :: 0 <= i < |ps| ==> keep(ps[i])
    ensures Kept(ps, keep) == ps
  {
    if ps != [] {
      assert keep(ps[0]);
      KeptAll(ps[1..], keep);
    }
  }

  /** If no element passes, culling empties the buffer. */
  lemma {:induction false} KeptNone<T>(ps: seq<T>, keep: T -> bool)
    requires forall i :: 0 <= i < |ps| ==> !keep(ps[i])
    ensures Kept(ps, keep) == []
  {
    if ps != [] {
      assert !keep(ps[0]);
      KeptNone(ps[1..], keep);
    }
  }

  /** One more element at the front of an update-and-cull pass, as the backward loop sees it. */
  lemma PassCons<T>(x: T, rest: seq<T>, step: T -> T, keep: T -> bool)
    ensures Kept(Mapped([x] + rest, step), keep)
            == (if keep(step(x)) then [step(x)] else []) + Kept(Mapped(rest, step), keep)
  {
    var m := Mapped([x] + rest, step);
    assert m == [step(x)] + Mapped(rest, step);
    assert m[1..] == Mapped(rest, step);
  }

  /**
   * The step at index `i` of a backward loop over `start`: the elements before
   * `i` are untouched, those after it are already stepped and culled. Stepping
   * `cur[i]` in place, then splicing it out if it fails `keep`, extends the
   * processed suffix by one.
   */
  lemma PassStep<T>(start: seq<T>, i: nat, cur: seq<T>, step: T -> T, keep: T -> bool)
    requires i < |start|
    requires cur == start[..i + 1] + Kept(Mapped(start[i + 1..], step), keep)
    ensures i < |cur| && cur[i] == start[i]
    ensures keep(step(start[i])) ==>
              cur[i := step(start[i])] == start[..i] + Kept(Mapped(start[i..], step), keep)
    ensures !keep(step(start[i])) ==>
              cur[..i] + cur[i + 1..] == start[..i] + Kept(Mapped(start[i..], step), keep)
  {
    var q := step(start[i]);
    var tail := Kept(Mapped(start[i + 1..], step), keep);
    assert start[..i + 1] == start[..i] + [start[i]];
    assert start[i..] == [start[i]] + start[i + 1..];
    PassCons(start[i], start[i + 1..], step, keep);
    assert cur == start[..i] + [start[i]] + tail;
    assert cur[i := q] == start[..i] + [q] + tail;
    assert cur[..i] == start[..i] && cur[i + 1..] == tail;
  }
}
