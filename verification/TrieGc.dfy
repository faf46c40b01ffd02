/** Reference counting of in-memory state tries: every block write references its root and
    queues it by number; roots far enough below the newest write are released. */
module TrieGc {
  import opened Basics
  import opened Headers

  const TRIES_IN_MEMORY: nat := 128

  datatype Entry = Entry(root: Root, number: nat)

  // How many entries carry a root.
  ghost function Count(q: seq<Entry>, r: Root): nat {
    if q == [] then 0 else Count(q[..|q| - 1], r) + if q[|q| - 1].root == r then 1 else 0
  }

  // The entries of q numbered above a bound, in order.
  ghost function Above(q: seq<Entry>, bound: int): (r: seq<Entry>)
    ensures forall i :: 0 <= i < |r| ==> r[i].number > bound
  {
    if q == [] then []
    else Above(q[..|q| - 1], bound) + if q[|q| - 1].number > bound then [q[|q| - 1]] else []
  }

  lemma {:induction false} CountAppend(q: seq<Entry>, e: Entry, r: Root)
    ensures Count(q + [e], r) == Count(q, r) + if e.root == r then 1 else 0
  {
    assert (q + [e])[..|q|] == q;
  }

  lemma {:induction false} CountConcat(p: seq<Entry>, q: seq<Entry>, r: Root)
    ensures Count(p + q, r) == Count(p, r) + Count(q, r)
    decreases |q|
  {
    if q == [] {
      assert p + q == p;
    } else {
      assert (p + q)[..|p + q| - 1] == p + q[..|q| - 1];
      CountConcat(p, q[..|q| - 1], r);
    }
  }

  lemma {:induction false} CountDelete(q: seq<Entry>, i: nat, r: Root)
    requires i < |q|
    ensures Count(q, r) == Count(DeleteAt(q, i), r) + if q[i].root == r then 1 else 0
  {
    var a, x, b := q[..i], [q[i]], q[i + 1..];
    CountConcat(a, b, r);
    CountConcat(x, b, r);
    CountConcat(a, x + b, r);
    assert q == a + (x + b);
    assert x[..0] == [];
  }

  lemma {:induction false} AboveConcat(p: seq<Entry>, q: seq<Entry>, bound: int)
    ensures Above(p + q, bound) == Above(p, bound) + Above(q, bound)
    decreases |q|
  {
    if q == [] {
      assert p + q == p;
    } else {
      assert (p + q)[..|p + q| - 1] == p + q[..|q| - 1];
      AboveConcat(p, q[..|q| - 1], bound);
    }
  }

  // Removing an entry at or below the bound leaves the entries above it.
  lemma {:induction false} AboveDelete(q: seq<Entry>, i: nat, bound: int)
    requires i < |q| && q[i].number <= bound
    ensures Above(DeleteAt(q, i), bound) == Above(q, bound)
  {
    var a, x, b := q[..i], [q[i]], q[i + 1..];
    AboveConcat(a, b, bound);
    AboveConcat(x, b, bound);
    AboveConcat(a, x + b, bound);
    assert q == a + (x + b);
    assert Above(x, bound) == [] by { assert x[..0] == []; }
    assert [] + Above(b, bound) == Above(b, bound);
  }

  lemma {:induction false} AboveAll(q: seq<Entry>, bound: int)
    requires forall i :: 0 <= i < |q| ==> q[i].number > bound
    ensures Above(q, bound) == q
  {
    if q != [] {
      AboveAll(q[..|q| - 1], bound);
    }
  }

  // The highest number that a write at the given number releases.
  function Chosen(number: nat): int {
    if number <= TRIES_IN_MEMORY then -1 else number - TRIES_IN_MEMORY
  }

  lemma {:induction false} AboveIn(q: seq<Entry>, bound: int, e: Entry)
    ensures e in Above(q, bound) <==> e in q && e.number > bound
  {
    if q != [] {
      AboveIn(q[..|q| - 1], bound, e);
      assert q == q[..|q| - 1] + [q[|q| - 1]];
    }
  }

  // A write releases exactly the entries that lie at least 128 blocks below it, once there are more
  // than 128 blocks.
  lemma {:induction false} ReleasedFarBelow(q: seq<Entry>, number: nat, e: Entry)
    requires e in q
    ensures e !in Above(q, Chosen(number)) <==> e.number + 128 <= number && number > 128
  {
    AboveIn(q, Chosen(number), e);
  }

  // The highest-priority entry is the one with the lowest number.
  method Lowest(q: seq<Entry>) returns (k: nat)
    requires q != []
    ensures k < |q| && forall i :: 0 <= i < |q| ==> q[k].number <= q[i].number
  {
    k := 0;
    for i := 1 to |q|
      invariant k < |q| && forall j :: 0 <= j < i ==> q[k].number <= q[j].number
    {
      if q[i].number < q[k].number { k := i; }
    }
  }

  class Collector {
    var queue: seq<Entry>
    var referenced: map<Root, nat>
    var dereferenced: map<Root, nat>

    static function Times(m: map<Root, nat>, r: Root): nat {
      if r in m then m[r] else 0
    }

    // References minus dereferences of each root are its entries in the queue.
    ghost predicate Balanced()
      reads this
    {
      forall r :: Times(referenced, r) == Times(dereferenced, r) + Count(queue, r)
    }

    constructor ()
      ensures Balanced() && queue == [] && referenced == map[]
    {
      queue, referenced, dereferenced := [], map[], map[];
    }

    // References a root and queues it under its block's number.
    method Enqueue(e: Entry)
      requires Balanced()
      modifies this`queue, this`referenced
      ensures Balanced() && queue == old(queue) + [e]
      ensures referenced == old(referenced)[e.root := old(Times(referenced, e.root)) + 1]
    {
      forall r
        ensures Count(queue + [e], r) == Count(queue, r) + if e.root == r then 1 else 0
      {
        CountAppend(queue, e, r);
      }
      referenced := referenced[e.root := Times(referenced, e.root) + 1];
      queue := queue + [e];
    }

    // Pops an entry and releases its root.
    method Release(k: nat)
      requires Balanced() && k < |queue|
      modifies this`queue, this`dereferenced
      ensures Balanced() && queue == DeleteAt(old(queue), k)
    {
      forall r
        ensures Count(queue, r) == Count(DeleteAt(queue, k), r) + if queue[k].root == r then 1 else 0
      {
        CountDelete(queue, k, r);
      }
      dereferenced := dereferenced[queue[k].root := Times(dereferenced, queue[k].root) + 1];
      queue := DeleteAt(queue, k);
    }

    // Writing a block releases exactly the queued states at least TRIES_IN_MEMORY below it.
    method WriteBlock(e: Entry)
      requires Balanced()
      modifies this
      ensures Balanced() && referenced == old(referenced)[e.root := old(Times(referenced, e.root)) + 1]
      ensures queue == Above(old(queue) + [e], Chosen(e.number))
    {
      Enqueue(e);
      if e.number <= TRIES_IN_MEMORY {
        AboveAll(queue, -1);
      } else {
        Collect(e.number - TRIES_IN_MEMORY);
      }
    }

    // Garbage collects everything at or below the chosen number.
    method Collect(chosen: int)
      requires Balanced()
      modifies this`queue, this`dereferenced
      ensures Balanced() && queue == Above(old(queue), chosen)
    {
      while queue != []
        invariant Balanced() && Above(queue, chosen) == Above(old(queue), chosen)
        decreases |queue|
      {
        var k := Lowest(queue);
        if queue[k].number > chosen {
          AboveAll(queue, chosen);
          return;
        }
        AboveDelete(queue, k, chosen);
        Release(k);
      }
    }

    // Shutting down releases every root that is still referenced.
    method Drain()
      requires Balanced()
      modifies this`queue, this`dereferenced
      ensures queue == [] && forall r :: Times(dereferenced, r) == Times(referenced, r)
    {
      while queue != []
        invariant Balanced()
        decreases |queue|
      {
        var k := Lowest(queue);
        Release(k);
      }
      assert forall r :: Count(queue, r) == 0;
    }
  }

  // Over any sequence of block writes, side forks included, and a final drain, each root is
  // dereferenced exactly as often as it was written.
  method Session(blocks: seq<Entry>) returns (c: Collector)
    ensures fresh(c) && c.queue == []
    ensures forall r :: Collector.Times(c.dereferenced, r) == Collector.Times(c.referenced, r) == Count(blocks, r)
  {
    c := new Collector();
    for i := 0 to |blocks|
      invariant fresh(c) && c.Balanced()
      invariant forall r :: Collector.Times(c.referenced, r) == Count(blocks[..i], r)
    {
      assert blocks[..i + 1][..i] == blocks[..i];
      c.WriteBlock(blocks[i]);
    }
    assert blocks[..|blocks|] == blocks;
    c.Drain();
  }
}
