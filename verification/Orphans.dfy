/** The ring buffer of results nobody waited for (registry.go). */
module Orphans {

  /** The last `max` of `all`, oldest first. */
  function Recent<T>(max: int, all: seq<T>): (r: seq<T>)
    ensures max > 0 ==> |r| == if |all| < max then |all| else max
    ensures |r| <= |all|
    ensures forall i | 0 <= i < |r| :: r[i] == all[|all| - |r| + i]
  {
    if max <= 0 then [] else if |all| <= max then all else all[|all| - max..]
  }

  lemma RecentGrows<T>(max: int, all: seq<T>, o: T)
    requires 0 < max <= |all|
    ensures Recent(max, all + [o]) == Recent(max, all)[1..] + [o]
  {
    assert (all + [o])[|all| + 1 - max..] == all[|all| - max..][1..] + [o];
  }

  class OrphanBuffer<T> {
    const max: int
    var buf: seq<T>
    var next: nat
    var full: bool
    ghost var added: seq<T>  // everything ever added

    ghost predicate Valid()
      reads this
    {
      && (max <= 0 ==> buf == [] && !full)
      && (max > 0 ==> |buf| <= max && next < max)
      && (max > 0 && |buf| < max ==> !full && next == 0 && buf == added)
      && (max > 0 && |buf| == max ==> |added| >= max && buf[next..] + buf[..next] == Recent(max, added))
      && (!full ==> next == 0)
    }

    /** A negative size is an error of the caller: making the buffer would panic. */
    constructor (max: int)
      requires max >= 0
      ensures Valid() && added == [] && this.max == max
    {
      this.max := max;
      buf, next, full, added := [], 0, false, [];
    }

    method Add(o: T)
      requires Valid()
      modifies this
      ensures Valid() && added == old(added) + [o]
    {
      added := added + [o];
      if max <= 0 {
        return;
      }
      if |buf| < max {
        buf := buf + [o];
        return;
      }
      Rotated(buf, next, o);
      RecentGrows(max, old(added), o);
      buf := buf[next := o];
      next := (next + 1) % max;
      full := true;
    }

    /** The last `max` of everything ever added, oldest first. */
    method List() returns (out: seq<T>)
      requires Valid()
      ensures out == Recent(max, added)
    {
      out := [];
      if full {
        out := out + buf[next..];
        out := out + buf[..next];
      } else {
        out := out + buf;
      }
    }
  }

  lemma Tail<T>(x: T, b: seq<T>, a: seq<T>)
    ensures ([x] + b + a)[1..] == b + a
  {
  }

  lemma Halves<T>(after: seq<T>, a: seq<T>, o: T, b: seq<T>)
    requires after == a + [o] + b
    ensures var n := (|a| + 1) % |after|; after[n..] + after[..n] == b + a + [o]
  {
    if b == [] {
      assert after[0..] == after && after[..0] == [];
    } else {
      assert (|a| + 1) % |after| == |a| + 1;
      assert after[..|a| + 1] == a + [o] && after[|a| + 1..] == b;
    }
  }

  /** Overwriting the oldest cell and moving on drops the oldest element. */
  lemma Rotated<T>(buf: seq<T>, next: nat, o: T)
    requires next < |buf|
    ensures var after, n := buf[next := o], (next + 1) % |buf|;
      after[n..] + after[..n] == (buf[next..] + buf[..next])[1..] + [o]
  {
    var a, b := buf[..next], buf[next + 1..];
    assert buf[next..] == [buf[next]] + b;
    Tail(buf[next], b, a);
    assert buf[next := o] == a + [o] + b;
    Halves(buf[next := o], a, o, b);
  }
}
