/** Switching the block chain to another branch: the walk to the common ancestor, the
    canonical index and the transaction lookup index. */
module Reorganisation {
  import opened Headers
  import HeaderChains

  datatype Tx = Tx(id: nat)
  type Bodies = map<Hash, seq<Tx>>

  // What head writes touch: the canonical index, the transaction lookups and the head marker.
  datatype Indexes = Indexes(canon: map<int, Hash>, lookup: map<Tx, int>, head: Hash)

  function Txs(bodies: Bodies, h: Hash): set<Tx> {
    if h in bodies then set t | t in bodies[h] else {}
  }

  function WithLookups(lookup: map<Tx, int>, txs: set<Tx>, n: int): (r: map<Tx, int>)
    ensures forall t :: t in r <==> t in lookup || t in txs
    ensures forall t :: t in r ==> r[t] == if t in txs then n else lookup[t]
  {
    map t | t in lookup.Keys + txs :: if t in txs then n else lookup[t]
  }

  // The effect of making a stored block the head of the chain.
  function WriteHead(s: Store, bodies: Bodies, ix: Indexes, h: Hash): Indexes
    requires h in s
  {
    var n := s[h].number;
    Indexes(ix.canon[n := h], WithLookups(ix.lookup, Txs(bodies, h), n), h)
  }

  /* What the lookup index should be */

  // The lookup index maps a transaction to n exactly when block n on h's path contains it.
  ghost predicate Indexed(s: Store, g: Hash, bodies: Bodies, h: Hash, lookup: map<Tx, int>)
    requires Linked(s, g) && h in s
  {
    forall t, n :: IndexedAt(s, g, bodies, h, lookup, t, n)
  }

  ghost predicate IndexedAt(s: Store, g: Hash, bodies: Bodies, h: Hash, lookup: map<Tx, int>, t: Tx, n: int)
    requires Linked(s, g) && h in s
  {
    (t in lookup && lookup[t] == n) <==> OnPath(s, g, bodies, h, t, n)
  }

  ghost predicate OnPath(s: Store, g: Hash, bodies: Bodies, h: Hash, t: Tx, n: int)
    requires Linked(s, g) && h in s
  {
    0 <= n <= s[h].number && t in Txs(bodies, Ancestor(s, g, h, n))
  }

  // In the tables' own terms: a right index finds a transaction at a number if and only if the block
  // there on h's path has its body, with the transaction in it.
  lemma {:induction false} LookupsMean(s: Store, g: Hash, bodies: Bodies, h: Hash, lookup: map<Tx, int>, t: Tx, n: int)
    requires Linked(s, g) && h in s && Indexed(s, g, bodies, h, lookup)
    ensures t in lookup && lookup[t] == n <==>
            0 <= n <= s[h].number && Ancestor(s, g, h, n) in bodies && t in bodies[Ancestor(s, g, h, n)]
  {
    assert IndexedAt(s, g, bodies, h, lookup, t, n);
  }

  // Each transaction occurs at most once on h's path.
  ghost predicate Unique(s: Store, g: Hash, bodies: Bodies, h: Hash)
    requires Linked(s, g) && h in s
  {
    forall t, m, n :: OnPath(s, g, bodies, h, t, m) && OnPath(s, g, bodies, h, t, n) ==> m == n
  }

  // All blocks of h's path numbered above lo and up to hi have their bodies.
  ghost predicate HaveBodies(s: Store, g: Hash, bodies: Bodies, h: Hash, lo: int, hi: int)
    requires Linked(s, g) && h in s && 0 <= lo && hi <= s[h].number
  {
    forall n :: lo < n <= hi ==> Ancestor(s, g, h, n) in bodies
  }

  // The transactions of the blocks of h's path above lo and below hi.
  ghost function TxsBetween(s: Store, g: Hash, bodies: Bodies, h: Hash, lo: int, hi: int): set<Tx>
    requires Linked(s, g) && h in s && 0 <= lo && hi <= s[h].number + 1
  {
    set n: int, t | lo < n < hi && t in Txs(bodies, Ancestor(s, g, h, n)) :: t
  }

  // The headers of h's path above number c, newest first.
  ghost predicate Branch(s: Store, g: Hash, h: Hash, c: int, chain: seq<Hash>)
    requires Linked(s, g) && h in s && 0 <= c <= s[h].number
  {
    var top := s[h].number;
    && |chain| == top - c
    && forall i :: 0 <= i < |chain| ==> chain[i] == Ancestor(s, g, h, top - i)
  }

  /* The walk */

  // Walks a head back to a number, unless it is that low already.
  method DownTo(s: Store, g: Hash, head: Hash, n: nat) returns (h: Hash, chain: seq<Hash>)
    requires Linked(s, g) && head in s
    ensures h in s && OnPathOf(s, g, head, h) && Branch(s, g, head, s[h].number, chain)
    ensures s[h].number == if s[head].number > n then n else s[head].number
  {
    h, chain := head, [];
    while s[h].number > n
      invariant h in s && OnPathOf(s, g, head, h) && Branch(s, g, head, s[h].number, chain)
      invariant s[h].number == s[head].number || s[h].number >= n
      decreases s[h].number
    {
      AncestorStep(s, g, head, s[h].number);
      chain, h := chain + [h], Parent(s, g, h);
    }
  }

  // Walks both heads back to their highest common ancestor.
  method Branches(s: Store, g: Hash, oldHead: Hash, newHead: Hash)
    returns (oldChain: seq<Hash>, newChain: seq<Hash>, common: Hash)
    requires Linked(s, g) && oldHead in s && newHead in s
    ensures var c := Crossing(s, g, oldHead, newHead);
            common == Ancestor(s, g, oldHead, c) && common == Ancestor(s, g, newHead, c) &&
            Branch(s, g, oldHead, c, oldChain) && Branch(s, g, newHead, c, newChain)
  {
    // First the longer branch down to the height of the shorter.
    var old', new';
    old', oldChain := DownTo(s, g, oldHead, s[newHead].number);
    new', newChain := DownTo(s, g, newHead, s[oldHead].number);
    // Then both, step by step, until they meet.
    while old' != new'
      invariant old' in s && OnPathOf(s, g, oldHead, old')
      invariant new' in s && OnPathOf(s, g, newHead, new')
      invariant s[old'].number == s[new'].number
      invariant var n, top, top' := s[old'].number, s[oldHead].number, s[newHead].number;
                forall k :: n < k <= top && k <= top' ==> Ancestor(s, g, oldHead, k) != Ancestor(s, g, newHead, k)
      invariant Branch(s, g, oldHead, s[old'].number, oldChain) && Branch(s, g, newHead, s[new'].number, newChain)
      decreases s[old'].number
    {
      assert s[old'].number > 0 by {
        if s[old'].number == 0 { NumberZeroIsGenesis(s, g, old'); NumberZeroIsGenesis(s, g, new'); }
      }
      AncestorStep(s, g, oldHead, s[old'].number);
      AncestorStep(s, g, newHead, s[new'].number);
      oldChain, newChain := oldChain + [old'], newChain + [new'];
      old', new' := Parent(s, g, old'), Parent(s, g, new');
    }
    common := old';
  }

  /* Undoing and applying */

  // Collects the transactions of the blocks that leave the chain.
  method UndoOld(s: Store, ghost g: Hash, bodies: Bodies, ghost oldHead: Hash, ghost c: int, oldChain: seq<Hash>)
    returns (ok: bool, deleted: set<Tx>)
    requires Linked(s, g) && oldHead in s && 0 <= c <= s[oldHead].number && Branch(s, g, oldHead, c, oldChain)
    ensures ok <==> HaveBodies(s, g, bodies, oldHead, c, s[oldHead].number)
    ensures ok ==> forall t, n :: c < n && OnPath(s, g, bodies, oldHead, t, n) ==> t in deleted
    ensures ok ==> forall t :: t in deleted ==> exists n :: c < n && OnPath(s, g, bodies, oldHead, t, n)
  {
    deleted := {};
    ghost var top := s[oldHead].number;
    for i := 0 to |oldChain|
      invariant HaveBodies(s, g, bodies, oldHead, top - i, top)
      invariant forall t, n :: top - i < n && OnPath(s, g, bodies, oldHead, t, n) ==> t in deleted
      invariant forall t :: t in deleted ==> exists n :: c < n && OnPath(s, g, bodies, oldHead, t, n)
    {
      if oldChain[i] !in bodies {
        return false, deleted;
      }
      forall t | t in Txs(bodies, oldChain[i])
        ensures exists n :: c < n && OnPath(s, g, bodies, oldHead, t, n)
      {
        assert OnPath(s, g, bodies, oldHead, t, top - i);
      }
      deleted := deleted + Txs(bodies, oldChain[i]);
    }
    ok := true;
  }

  // A canonical index overwritten by newHead's path above c and below k.
  ghost function Overlay(s: Store, g: Hash, newHead: Hash, canon: map<int, Hash>, c: int, k: int): (r: map<int, Hash>)
    requires Linked(s, g) && newHead in s && 0 <= c < k <= s[newHead].number + 1
    ensures forall n :: n in r <==> n in canon || c < n < k
    ensures forall n :: n in r ==> r[n] == if c < n < k then Ancestor(s, g, newHead, n) else canon[n]
  {
    canon + map n | c < n < k :: Ancestor(s, g, newHead, n)
  }

  lemma {:induction false} OverlayStep(s: Store, g: Hash, newHead: Hash, canon: map<int, Hash>, c: int, k: int)
    requires Linked(s, g) && newHead in s && 0 <= c < k <= s[newHead].number
    ensures Overlay(s, g, newHead, canon, c, k + 1) ==
            Overlay(s, g, newHead, canon, c, k)[k := Ancestor(s, g, newHead, k)]
  {
    var a := Overlay(s, g, newHead, canon, c, k + 1);
    var b := Overlay(s, g, newHead, canon, c, k)[k := Ancestor(s, g, newHead, k)];
    assert forall n :: n in a <==> n in b;
    assert forall n :: n in a ==> a[n] == b[n];
  }

  // The indexes after the new blocks numbered above c and below k have been written on top of
  // ix, with rebirth the transactions they carry.
  ghost predicate Applied(s: Store, g: Hash, bodies: Bodies, newHead: Hash, c: int, k: int,
                          ix: Indexes, ix': Indexes, rebirth: set<Tx>)
    requires Linked(s, g) && newHead in s && 0 <= c < k <= s[newHead].number + 1
  {
    && ix'.head in s && ix'.head == (if k == c + 1 then ix.head else Ancestor(s, g, newHead, k - 1))
    && ix'.canon == Overlay(s, g, newHead, ix.canon, c, k)
    && AppliedLookups(s, g, bodies, newHead, c, k, ix.lookup, ix'.lookup, rebirth)
  }

  ghost predicate AppliedLookups(s: Store, g: Hash, bodies: Bodies, newHead: Hash, c: int, k: int,
                                 lookup: map<Tx, int>, lookup': map<Tx, int>, rebirth: set<Tx>)
    requires Linked(s, g) && newHead in s
  {
    && (forall t, n :: c < n < k && OnPath(s, g, bodies, newHead, t, n) ==> t in rebirth)
    && (forall t :: t in rebirth ==> t in lookup' && c < lookup'[t] < k &&
                                     OnPath(s, g, bodies, newHead, t, lookup'[t]))
    && (forall t :: t !in rebirth ==> (t in lookup' <==> t in lookup) && (t in lookup ==> lookup'[t] == lookup[t]))
  }

  lemma {:induction false} RebirthIs(s: Store, g: Hash, bodies: Bodies, newHead: Hash, c: int, k: int,
                                     lookup: map<Tx, int>, lookup': map<Tx, int>, rebirth: set<Tx>)
    requires Linked(s, g) && newHead in s && 0 <= c < k <= s[newHead].number + 1
    requires AppliedLookups(s, g, bodies, newHead, c, k, lookup, lookup', rebirth)
    ensures rebirth == TxsBetween(s, g, bodies, newHead, c, k)
  {
    forall n: int, t | c < n < k && t in Txs(bodies, Ancestor(s, g, newHead, n))
      ensures t in rebirth
    {
      assert OnPath(s, g, bodies, newHead, t, n);
    }
  }

  lemma {:induction false} ApplyOneLookups(s: Store, g: Hash, bodies: Bodies, newHead: Hash, c: int, k: int,
                                           lookup: map<Tx, int>, lookup': map<Tx, int>, rebirth: set<Tx>)
    requires Linked(s, g) && newHead in s && 0 <= c < k <= s[newHead].number
    requires AppliedLookups(s, g, bodies, newHead, c, k, lookup, lookup', rebirth)
    ensures var txs := Txs(bodies, Ancestor(s, g, newHead, k));
            AppliedLookups(s, g, bodies, newHead, c, k + 1, lookup, WithLookups(lookup', txs, k), rebirth + txs)
  {
    var txs := Txs(bodies, Ancestor(s, g, newHead, k));
    forall t | t in txs
      ensures OnPath(s, g, bodies, newHead, t, k)
    {
    }
  }

  lemma {:induction false} ApplyOne(s: Store, g: Hash, bodies: Bodies, newHead: Hash, c: int, k: int,
                                    ix: Indexes, ix': Indexes, rebirth: set<Tx>)
    requires Linked(s, g) && newHead in s && 0 <= c < k <= s[newHead].number
    requires Applied(s, g, bodies, newHead, c, k, ix, ix', rebirth)
    ensures var b := Ancestor(s, g, newHead, k);
            Applied(s, g, bodies, newHead, c, k + 1, ix, WriteHead(s, bodies, ix', b), rebirth + Txs(bodies, b))
  {
    ApplyOneLookups(s, g, bodies, newHead, c, k, ix.lookup, ix'.lookup, rebirth);
    OverlayStep(s, g, newHead, ix.canon, c, k);
  }

  lemma {:induction false} AppliedNothing(s: Store, g: Hash, bodies: Bodies, newHead: Hash, c: int, ix: Indexes)
    requires Linked(s, g) && newHead in s && 0 <= c <= s[newHead].number && ix.head in s
    ensures Applied(s, g, bodies, newHead, c, c + 1, ix, ix, {})
  {
    assert Overlay(s, g, newHead, ix.canon, c, c + 1) == ix.canon;
  }

  // Collects one new block's transactions and makes it the head.
  method ApplyBlock(s: Store, ghost g: Hash, bodies: Bodies, ghost newHead: Hash, ghost c: int, ghost k: int,
                    ghost ix: Indexes, ix': Indexes, rebirth: set<Tx>, b: Hash)
    returns (ix'': Indexes, rebirth': set<Tx>)
    requires Linked(s, g) && newHead in s && 0 <= c < k <= s[newHead].number
    requires Applied(s, g, bodies, newHead, c, k, ix, ix', rebirth) && b == Ancestor(s, g, newHead, k)
    ensures Applied(s, g, bodies, newHead, c, k + 1, ix, ix'', rebirth')
  {
    ApplyOne(s, g, bodies, newHead, c, k, ix, ix', rebirth);
    rebirth' := rebirth + Txs(bodies, b);
    ix'' := WriteHead(s, bodies, ix', b);
  }

  // Block k of newHead's path is the lowest above c, short of newHead itself, without a body.
  ghost predicate FirstMissing(s: Store, g: Hash, bodies: Bodies, newHead: Hash, c: int, k: int)
    requires Linked(s, g) && newHead in s
  {
    && 0 <= c < k < s[newHead].number && Ancestor(s, g, newHead, k) !in bodies
    && forall n :: c < n < k ==> Ancestor(s, g, newHead, n) in bodies
  }

  // Writes the new blocks oldest first, leaving out the new head. Stops at the first block
  // whose body is missing; k is where it stopped.
  method ApplyNew(s: Store, ghost g: Hash, bodies: Bodies, ghost newHead: Hash, ghost c: int, newChain: seq<Hash>,
                  ix: Indexes)
    returns (ok: bool, ix': Indexes, rebirth: set<Tx>, ghost k: int)
    requires Linked(s, g) && newHead in s && 0 <= c <= s[newHead].number && Branch(s, g, newHead, c, newChain)
    requires ix.head in s
    ensures c < k <= s[newHead].number + 1 && Applied(s, g, bodies, newHead, c, k, ix, ix', rebirth)
    ensures rebirth == TxsBetween(s, g, bodies, newHead, c, k)
    ensures ok ==> k == if c == s[newHead].number then c + 1 else s[newHead].number
    ensures ok ==> forall j :: 1 <= j < |newChain| ==> newChain[j] in bodies
    ensures !ok ==> FirstMissing(s, g, bodies, newHead, c, k)
  {
    ix', rebirth, k := ix, {}, c + 1;
    AppliedNothing(s, g, bodies, newHead, c, ix);
    ghost var top := s[newHead].number;
    var i := |newChain| - 1;
    while i >= 1 && newChain[i] in bodies
      invariant i <= |newChain| - 1 && k == top - i && (if newChain == [] then i == -1 else i >= 0)
      invariant Applied(s, g, bodies, newHead, c, k, ix, ix', rebirth)
      invariant forall j :: i < j < |newChain| ==> newChain[j] in bodies
    {
      assert newChain[i] == Ancestor(s, g, newHead, k);
      ix', rebirth := ApplyBlock(s, g, bodies, newHead, c, k, ix, ix', rebirth, newChain[i]);
      i, k := i - 1, k + 1;
    }
    ok := i < 1;
    RebirthIs(s, g, bodies, newHead, c, k, ix.lookup, ix'.lookup, rebirth);
    if !ok {
      assert newChain[i] == Ancestor(s, g, newHead, k);
      forall n | c < n < k
        ensures Ancestor(s, g, newHead, n) in bodies
      {
        assert newChain[top - n] in bodies;
      }
    }
  }

  /* The lookup index through a reorg */

  // Dropping the transactions that only the old branch carries leaves exactly the lookups of
  // the new branch without its head.
  lemma {:induction false} LookupsAfterReorg(s: Store, g: Hash, bodies: Bodies, oldHead: Hash, newHead: Hash,
                                             k: int, lookup: map<Tx, int>, lookup': map<Tx, int>,
                                             deleted: set<Tx>, rebirth: set<Tx>)
    requires Linked(s, g) && oldHead in s && newHead in s
    requires Crossing(s, g, oldHead, newHead) < k <= s[newHead].number + 1
    requires Indexed(s, g, bodies, oldHead, lookup)
    requires Unique(s, g, bodies, oldHead) && Unique(s, g, bodies, newHead)
    requires var c := Crossing(s, g, oldHead, newHead);
             AppliedLookups(s, g, bodies, newHead, c, k, lookup, lookup', rebirth) &&
             (forall t, n :: c < n && OnPath(s, g, bodies, oldHead, t, n) ==> t in deleted) &&
             (forall t :: t in deleted ==> exists n :: c < n && OnPath(s, g, bodies, oldHead, t, n))
    ensures Indexed(s, g, bodies, Ancestor(s, g, newHead, k - 1), lookup' - (deleted - rebirth))
  {
    var c := Crossing(s, g, oldHead, newHead);
    var target := Ancestor(s, g, newHead, k - 1);
    var final := lookup' - (deleted - rebirth);
    forall t, n
      ensures IndexedAt(s, g, bodies, target, final, t, n)
    {
      if 0 <= n < k {
        AncestorOfAncestor(s, g, newHead, k - 1, n);
        assert OnPath(s, g, bodies, target, t, n) <==> OnPath(s, g, bodies, newHead, t, n);
      }
      if 0 <= n <= c {
        SharedBelow(s, g, oldHead, newHead, c, n);
        assert OnPath(s, g, bodies, oldHead, t, n) <==> OnPath(s, g, bodies, newHead, t, n);
      }
      assert IndexedAt(s, g, bodies, oldHead, lookup, t, n);
      if t in lookup {
        assert IndexedAt(s, g, bodies, oldHead, lookup, t, lookup[t]);
      }
    }
  }

  // Every transaction that the old branch carries above c is in one of the new blocks below k.
  ghost predicate Rewritten(s: Store, g: Hash, bodies: Bodies, oldHead: Hash, newHead: Hash, c: int, k: int)
    requires Linked(s, g) && oldHead in s && newHead in s && 0 <= c && k <= s[newHead].number + 1
  {
    forall t, n :: c < n && OnPath(s, g, bodies, oldHead, t, n) ==> t in TxsBetween(s, g, bodies, newHead, c, k)
  }

  // Stopped at block k, the lookups are those of the last written block exactly when every
  // transaction of the old branch has been rewritten.
  lemma {:induction false} InterruptedLookups(s: Store, g: Hash, bodies: Bodies, oldHead: Hash, newHead: Hash, k: int,
                                              lookup: map<Tx, int>, lookup': map<Tx, int>)
    requires Linked(s, g) && oldHead in s && newHead in s && Crossing(s, g, oldHead, newHead) < k <= s[newHead].number
    requires Indexed(s, g, bodies, oldHead, lookup) && Unique(s, g, bodies, newHead)
    requires var c := Crossing(s, g, oldHead, newHead);
             AppliedLookups(s, g, bodies, newHead, c, k, lookup, lookup', TxsBetween(s, g, bodies, newHead, c, k))
    ensures Indexed(s, g, bodies, Ancestor(s, g, newHead, k - 1), lookup') <==>
            Rewritten(s, g, bodies, oldHead, newHead, Crossing(s, g, oldHead, newHead), k)
  {
    var c := Crossing(s, g, oldHead, newHead);
    var target, rebirth := Ancestor(s, g, newHead, k - 1), TxsBetween(s, g, bodies, newHead, c, k);
    forall t, n: int
      ensures IndexedAt(s, g, bodies, target, lookup', t, n) <==>
              (c < n && OnPath(s, g, bodies, oldHead, t, n) ==> t in rebirth)
    {
      InterruptedAt(s, g, bodies, oldHead, newHead, k, lookup, lookup', t, n);
    }
  }

  lemma {:induction false} InterruptedAt(s: Store, g: Hash, bodies: Bodies, oldHead: Hash, newHead: Hash, k: int,
                                         lookup: map<Tx, int>, lookup': map<Tx, int>, t: Tx, n: int)
    requires Linked(s, g) && oldHead in s && newHead in s && Crossing(s, g, oldHead, newHead) < k <= s[newHead].number
    requires Indexed(s, g, bodies, oldHead, lookup) && Unique(s, g, bodies, newHead)
    requires var c := Crossing(s, g, oldHead, newHead);
             AppliedLookups(s, g, bodies, newHead, c, k, lookup, lookup', TxsBetween(s, g, bodies, newHead, c, k))
    ensures var c := Crossing(s, g, oldHead, newHead);
            IndexedAt(s, g, bodies, Ancestor(s, g, newHead, k - 1), lookup', t, n) <==>
            (c < n && OnPath(s, g, bodies, oldHead, t, n) ==> t in TxsBetween(s, g, bodies, newHead, c, k))
  {
    var c := Crossing(s, g, oldHead, newHead);
    if 0 <= n < k {
      AncestorOfAncestor(s, g, newHead, k - 1, n);
    }
    if 0 <= n <= c {
      SharedBelow(s, g, oldHead, newHead, c, n);
    }
    assert IndexedAt(s, g, bodies, oldHead, lookup, t, n);
    assert OnPath(s, g, bodies, Ancestor(s, g, newHead, k - 1), t, n) <==> n < k && OnPath(s, g, bodies, newHead, t, n);
  }

  // Writing the head adds exactly its own transactions.
  lemma {:induction false} LookupsWithHead(s: Store, g: Hash, bodies: Bodies, target: Hash, newHead: Hash,
                                           lookup: map<Tx, int>)
    requires Linked(s, g) && target in s && newHead in s && Unique(s, g, bodies, newHead)
    requires target == newHead || (newHead != g && target == Parent(s, g, newHead))
    requires Indexed(s, g, bodies, target, lookup)
    ensures Indexed(s, g, bodies, newHead, WithLookups(lookup, Txs(bodies, newHead), s[newHead].number))
  {
    var top := s[newHead].number;
    var final := WithLookups(lookup, Txs(bodies, newHead), top);
    forall t, n: int
      ensures IndexedAt(s, g, bodies, newHead, final, t, n)
    {
      assert IndexedAt(s, g, bodies, target, lookup, t, n);
      assert t in Txs(bodies, newHead) <==> OnPath(s, g, bodies, newHead, t, top);
      if 0 <= n < top || target == newHead {
        assert OnPath(s, g, bodies, target, t, n) <==> OnPath(s, g, bodies, newHead, t, n);
      }
    }
  }

  /* The whole reorg */

  // Where a reorg leaves the chain before the caller writes the new head: the new head's
  // parent, or the new head itself when it is an ancestor of the old one.
  ghost function ReorgTarget(s: Store, g: Hash, oldHead: Hash, newHead: Hash): (t: Hash)
    requires Linked(s, g) && oldHead in s && newHead in s
    ensures t in s && (t == newHead || (newHead != g && t == Parent(s, g, newHead)))
  {
    if Crossing(s, g, oldHead, newHead) == s[newHead].number then newHead
    else Parent(s, g, newHead)
  }

  // The target is the last block written.
  lemma {:induction false} TargetIsLast(s: Store, g: Hash, oldHead: Hash, newHead: Hash, k: int)
    requires Linked(s, g) && oldHead in s && newHead in s
    requires var c := Crossing(s, g, oldHead, newHead);
             k == if c == s[newHead].number then c + 1 else s[newHead].number
    ensures ReorgTarget(s, g, oldHead, newHead) == Ancestor(s, g, newHead, k - 1)
  {
  }

  // Deleting the markers above the last written block leaves the path of that block.
  lemma {:induction false} CanonAfterReorg(s: Store, g: Hash, top: Hash, oldHead: Hash, newHead: Hash, k: int,
                                           dels: set<int>)
    requires Linked(s, g) && oldHead in s && newHead in s && top in s
    requires OnPathOf(s, g, top, oldHead)
    requires var c := Crossing(s, g, oldHead, newHead);
             k == if c == s[newHead].number then c + 1 else s[newHead].number
    requires var c := Crossing(s, g, oldHead, newHead);
             var canon := Overlay(s, g, newHead, PathMap(s, g, top), c, k);
             forall n :: n in dels <==> n in canon && k - 1 < n
    ensures ReorgTarget(s, g, oldHead, newHead) == Ancestor(s, g, newHead, k - 1)
    ensures var c := Crossing(s, g, oldHead, newHead);
            Overlay(s, g, newHead, PathMap(s, g, top), c, k) - dels ==
            PathMap(s, g, ReorgTarget(s, g, oldHead, newHead))
  {
    var c := Crossing(s, g, oldHead, newHead);
    var canon := Overlay(s, g, newHead, PathMap(s, g, top), c, k);
    var target := Ancestor(s, g, newHead, k - 1);
    AncestorOfAncestor(s, g, top, s[oldHead].number, c);
    AncestorOfAncestor(s, g, newHead, k - 1, c);
    forall n | c < n < k
      ensures Ancestor(s, g, newHead, n) == Ancestor(s, g, target, n)
    {
      AncestorOfAncestor(s, g, newHead, k - 1, n);
    }
    SwitchBranch(s, g, top, target, c, canon - dels);
  }

  // What a reorg that stopped at block k of the new branch leaves: the new blocks below k are in
  // the index and the lookups, and the last of them is the head.
  ghost predicate LeftBy(s: Store, g: Hash, bodies: Bodies, ix: Indexes, newHead: Hash, c: int, k: int, ix': Indexes)
    requires Linked(s, g) && newHead in s && 0 <= c < k < s[newHead].number
  {
    && ix'.canon == Overlay(s, g, newHead, ix.canon, c, k)
    && ix'.head == (if k == c + 1 then ix.head else Ancestor(s, g, newHead, k - 1))
    && AppliedLookups(s, g, bodies, newHead, c, k, ix.lookup, ix'.lookup, TxsBetween(s, g, bodies, newHead, c, k))
  }

  // The indexes a reorg leaves when it has gone through.
  ghost predicate Switched(s: Store, g: Hash, bodies: Bodies, ix: Indexes, newHead: Hash, ix': Indexes)
    requires Linked(s, g) && ix.head in s && newHead in s
  {
    && ix'.canon == PathMap(s, g, ReorgTarget(s, g, ix.head, newHead))
    && (Indexed(s, g, bodies, ix.head, ix.lookup) && Unique(s, g, bodies, ix.head) && Unique(s, g, bodies, newHead) ==>
          Indexed(s, g, bodies, ReorgTarget(s, g, ix.head, newHead), ix'.lookup))
  }

  // Deletes the markers above the last block written.
  method Unmark(s: Store, ghost g: Hash, ghost oldHead: Hash, ghost newHead: Hash, ghost top: Hash, ghost k: int,
                canon: map<int, Hash>, number: nat)
    returns (canon': map<int, Hash>)
    requires Linked(s, g) && oldHead in s && newHead in s && top in s && OnPathOf(s, g, top, oldHead)
    requires var c := Crossing(s, g, oldHead, newHead);
             && k == (if c == s[newHead].number then c + 1 else s[newHead].number)
             && canon == Overlay(s, g, newHead, PathMap(s, g, top), c, k)
    requires number == k - 1
    ensures canon' == PathMap(s, g, ReorgTarget(s, g, oldHead, newHead))
  {
    ghost var highest := if s[top].number >= number then s[top].number else number;
    assert forall n :: n in canon ==> canon[n] in s;
    var dels := HeaderChains.MarkersAbove(canon, number, highest);
    CanonAfterReorg(s, g, top, oldHead, newHead, k, dels);
    canon' := canon - dels;
  }

  // A reorg succeeds exactly when the bodies of both branches are there (the new head's own is
  // the caller's). It then leaves the canonical index and the lookups of its target, whatever
  // header path above the old head the index carried. With an old body missing nothing
  // changes. With a new one missing the new blocks below it have been written.
  method Reorg(s: Store, g: Hash, bodies: Bodies, ix: Indexes, newHead: Hash, ghost top: Hash)
    returns (ok: bool, ix': Indexes, ghost k: int)
    requires Linked(s, g) && ix.head in s && newHead in s && top in s && ix.canon == PathMap(s, g, top)
    requires OnPathOf(s, g, top, ix.head)
    ensures var c := Crossing(s, g, ix.head, newHead);
            ok <==> HaveBodies(s, g, bodies, ix.head, c, s[ix.head].number) &&
                    HaveBodies(s, g, bodies, newHead, c, s[newHead].number - 1)
    ensures ix'.head in s
    ensures ok ==> Switched(s, g, bodies, ix, newHead, ix')
    ensures !ok ==> var c := Crossing(s, g, ix.head, newHead);
                    if HaveBodies(s, g, bodies, ix.head, c, s[ix.head].number)
                    then FirstMissing(s, g, bodies, newHead, c, k) && LeftBy(s, g, bodies, ix, newHead, c, k, ix')
                    else ix' == ix
  {
    var oldChain, newChain, common := Branches(s, g, ix.head, newHead);
    ghost var c := Crossing(s, g, ix.head, newHead);
    var okOld, deleted := UndoOld(s, g, bodies, ix.head, c, oldChain);
    if !okOld {
      return false, ix, c + 1;
    }
    var okNew, applied, rebirth, stop := ApplyNew(s, g, bodies, newHead, c, newChain, ix);
    k := stop;
    if !okNew {
      assert !HaveBodies(s, g, bodies, newHead, c, s[newHead].number - 1);
      return false, applied, k;
    }
    forall n | c < n <= s[newHead].number - 1
      ensures Ancestor(s, g, newHead, n) in bodies
    {
      assert newChain[s[newHead].number - n] in bodies;
    }
    var number := if |newChain| > 1 then s[newChain[1]].number else s[common].number;
    ok := true;
    TargetIsLast(s, g, ix.head, newHead, k);
    if Indexed(s, g, bodies, ix.head, ix.lookup) && Unique(s, g, bodies, ix.head) && Unique(s, g, bodies, newHead) {
      LookupsAfterReorg(s, g, bodies, ix.head, newHead, k, ix.lookup, applied.lookup, deleted, rebirth);
    }
    var canon := Unmark(s, g, ix.head, newHead, top, k, applied.canon, number);
    ix' := Indexes(canon, applied.lookup - (deleted - rebirth), applied.head);
  }

  /* Moving the head */

  // h is the child of the head block cur.
  predicate Extends(s: Store, cur: Hash, h: Hash)
    requires h in s
  {
    s[h].parent == cur
  }

  // Putting h on top of the block cur, when the index carries the path of a header top above
  // cur, gives h's path exactly when that path does not reach above h.
  lemma {:induction false} ExtendIndex(s: Store, g: Hash, top: Hash, h: Hash)
    requires Linked(s, g) && top in s && h in s && h != g
    requires s[h].number - 1 <= s[top].number && Parent(s, g, h) == Ancestor(s, g, top, s[h].number - 1)
    ensures PathMap(s, g, top)[s[h].number := h] == PathMap(s, g, h) <==> s[top].number <= s[h].number
  {
    var n := s[h].number;
    var canon := PathMap(s, g, top)[n := h];
    if s[top].number <= n {
      SwitchBranch(s, g, top, h, n - 1, canon);
    } else {
      assert n + 1 in canon && n + 1 !in PathMap(s, g, h);
    }
  }

  // Makes h the head: a reorg unless h extends the head block, then the head write. Reorg and
  // head write together leave exactly h's path, for any two branches; a plain extension does
  // so exactly when no header markers reach above h. The lookups become those of h's path.
  method MoveHead(s: Store, g: Hash, bodies: Bodies, ix: Indexes, h: Hash, ghost top: Hash)
    returns (ok: bool, ix': Indexes, ghost k: int)
    requires Linked(s, g) && ix.head in s && h in s && top in s && ix.canon == PathMap(s, g, top)
    requires OnPathOf(s, g, top, ix.head)
    ensures var c := Crossing(s, g, ix.head, h);
            ok <==> Extends(s, ix.head, h) || (HaveBodies(s, g, bodies, ix.head, c, s[ix.head].number) &&
                                               HaveBodies(s, g, bodies, h, c, s[h].number - 1))
    ensures ix'.head in s && (ok ==> ix'.head == h)
    ensures ok ==> (ix'.canon == PathMap(s, g, h) <==> !Extends(s, ix.head, h) || s[top].number <= s[h].number)
    ensures ok && Indexed(s, g, bodies, ix.head, ix.lookup) &&
            Unique(s, g, bodies, ix.head) && Unique(s, g, bodies, h) ==>
              Indexed(s, g, bodies, h, ix'.lookup)
    ensures !ok ==> var c := Crossing(s, g, ix.head, h);
                    if HaveBodies(s, g, bodies, ix.head, c, s[ix.head].number)
                    then FirstMissing(s, g, bodies, h, c, k) && LeftBy(s, g, bodies, ix, h, c, k, ix')
                    else ix' == ix
  {
    ok, ix', k := true, ix, 0;
    ghost var target := ix.head;
    if s[h].parent != ix.head {
      ok, ix', k := Reorg(s, g, bodies, ix, h, top);
      if !ok {
        return;
      }
      target := ReorgTarget(s, g, ix.head, h);
      if target != h { PathExtend(s, g, h); }
      assert ix'.canon[s[h].number := h] == PathMap(s, g, h);
    } else {
      assert h != g && Parent(s, g, h) == ix.head;
      ExtendIndex(s, g, top, h);
    }
    if Indexed(s, g, bodies, target, ix'.lookup) && Unique(s, g, bodies, h) {
      LookupsWithHead(s, g, bodies, target, h, ix'.lookup);
    }
    ix' := WriteHead(s, bodies, ix', h);
  }

  // The crossing with a header above the old head is not below the one with the old head.
  lemma {:induction false} CrossingAbove(s: Store, g: Hash, top: Hash, oldHead: Hash, newHead: Hash)
    requires Linked(s, g) && top in s && oldHead in s && newHead in s
    requires OnPathOf(s, g, top, oldHead)
    ensures Crossing(s, g, oldHead, newHead) <= Crossing(s, g, top, newHead)
    ensures var c := Crossing(s, g, oldHead, newHead); Ancestor(s, g, top, c) == Ancestor(s, g, newHead, c)
  {
    AncestorOfAncestor(s, g, top, s[oldHead].number, Crossing(s, g, oldHead, newHead));
  }

  // The index after stopping at block k is the path of the last written block exactly when the old
  // index did not reach to k.
  lemma {:induction false} StoppedOnPath(s: Store, g: Hash, top: Hash, oldHead: Hash, newHead: Hash, k: int)
    requires Linked(s, g) && top in s && oldHead in s && newHead in s
    requires OnPathOf(s, g, top, oldHead)
    requires Crossing(s, g, oldHead, newHead) < k < s[newHead].number
    ensures var canon := Overlay(s, g, newHead, PathMap(s, g, top), Crossing(s, g, oldHead, newHead), k);
            canon == PathMap(s, g, Ancestor(s, g, newHead, k - 1)) <==> s[top].number < k
  {
    var c := Crossing(s, g, oldHead, newHead);
    var canon := Overlay(s, g, newHead, PathMap(s, g, top), c, k);
    CrossingAbove(s, g, top, oldHead, newHead);
    var h := Ancestor(s, g, newHead, k - 1);
    if s[top].number < k {
      forall n | n in canon
        ensures canon[n] == if n <= c then Ancestor(s, g, top, n) else Ancestor(s, g, h, n)
      {
        if c < n { AncestorOfAncestor(s, g, newHead, k - 1, n); }
      }
      AncestorOfAncestor(s, g, newHead, k - 1, c);
      SwitchBranch(s, g, top, h, c, canon);
    } else {
      assert k in canon && k !in PathMap(s, g, h);
    }
  }

  // A reorg that stopped at a missing body k leaves the path of some header exactly when all it had
  // written was there before, or the old index did not reach to k.
  lemma {:induction false} InterruptedReorg(s: Store, g: Hash, top: Hash, oldHead: Hash, newHead: Hash, k: int)
    requires Linked(s, g) && top in s && oldHead in s && newHead in s
    requires OnPathOf(s, g, top, oldHead)
    requires Crossing(s, g, oldHead, newHead) < k < s[newHead].number
    ensures var canon := Overlay(s, g, newHead, PathMap(s, g, top), Crossing(s, g, oldHead, newHead), k);
            (exists h :: h in s && canon == PathMap(s, g, h)) <==>
            k <= Crossing(s, g, top, newHead) + 1 || s[top].number < k
  {
    var c, c' := Crossing(s, g, oldHead, newHead), Crossing(s, g, top, newHead);
    var canon := Overlay(s, g, newHead, PathMap(s, g, top), c, k);
    CrossingAbove(s, g, top, oldHead, newHead);
    if k <= c' + 1 {
      forall n | c < n < k
        ensures Ancestor(s, g, newHead, n) == Ancestor(s, g, top, n)
      {
        SharedBelow(s, g, top, newHead, c', n);
      }
      assert canon == PathMap(s, g, top);
    } else if s[top].number < k {
      StoppedOnPath(s, g, top, oldHead, newHead, k);
    } else {
      forall h | h in s && canon == PathMap(s, g, h)
        ensures false
      {
        assert k in canon && k - 1 in canon;
        AncestorStep(s, g, h, k);
        AncestorStep(s, g, top, k);
      }
    }
  }

  // The index is the header's path and the block lies on it.
  ghost predicate InOrder(s: Store, g: Hash, canon: map<int, Hash>, header: Hash, block: Hash)
    requires Linked(s, g) && header in s && block in s
  {
    && canon == PathMap(s, g, header)
    && OnPathOf(s, g, header, block)
  }

  // What a failed head move leaves: nothing changed if an old body was missing; otherwise the new
  // blocks below the first missing body are written. The index is in order exactly when that is none
  // or the old index did not reach to the missing one; the lookups are right exactly when it is none
  // or every transaction of the old branch has been rewritten.
  ghost predicate LeftFailing(s: Store, g: Hash, bodies: Bodies, ix: Indexes, header: Hash, h: Hash, k: int,
                         ix': Indexes, header': Hash)
    requires Linked(s, g) && ix.head in s && header in s && h in s && ix'.head in s && header' in s
  {
    var c := Crossing(s, g, ix.head, h);
    if HaveBodies(s, g, bodies, ix.head, c, s[ix.head].number) then
      && FirstMissing(s, g, bodies, h, c, k) && LeftBy(s, g, bodies, ix, h, c, k, ix')
      && (InOrder(s, g, ix'.canon, header', ix'.head) <==> k == c + 1 || s[header].number < k)
      && (Indexed(s, g, bodies, ix.head, ix.lookup) && Unique(s, g, bodies, h) ==>
            (Indexed(s, g, bodies, ix'.head, ix'.lookup) <==>
             k == c + 1 || Rewritten(s, g, bodies, ix.head, h, c, k)))
    else ix' == ix && header' == header
  }

  // Moves the head and with it the header marker, which follows every block written.
  method MoveMarkers(s: Store, g: Hash, bodies: Bodies, ix: Indexes, header: Hash, h: Hash)
    returns (ok: bool, ix': Indexes, header': Hash, ghost k: int)
    requires Linked(s, g) && ix.head in s && h in s && header in s && InOrder(s, g, ix.canon, header, ix.head)
    ensures var c := Crossing(s, g, ix.head, h);
            ok <==> Extends(s, ix.head, h) || (HaveBodies(s, g, bodies, ix.head, c, s[ix.head].number) &&
                                               HaveBodies(s, g, bodies, h, c, s[h].number - 1))
    ensures ix'.head in s && header' in s && (ok ==> ix'.head == header' == h)
    ensures ok ==>
              (InOrder(s, g, ix'.canon, header', ix'.head) <==>
               !Extends(s, ix.head, h) || s[header].number <= s[h].number)
    ensures ok && Indexed(s, g, bodies, ix.head, ix.lookup) &&
            Unique(s, g, bodies, ix.head) && Unique(s, g, bodies, h) ==>
              Indexed(s, g, bodies, h, ix'.lookup)
    ensures !ok ==> LeftFailing(s, g, bodies, ix, header, h, k, ix', header')
    ensures !ok && ix'.head == ix.head ==> header' == header
    ensures ok || ix'.head != ix.head ==> header' == ix'.head
  {
    ok, ix', k := MoveHead(s, g, bodies, ix, h, header);
    header' := header;
    if ok || ix'.head != ix.head {
      header' := ix'.head;
    }
    if !ok {
      MovedPartly(s, g, bodies, ix, header, h, k, ix', header');
    }
  }

  lemma {:induction false} MovedPartly(s: Store, g: Hash, bodies: Bodies, ix: Indexes, header: Hash, h: Hash, k: int,
                                       ix': Indexes, header': Hash)
    requires Linked(s, g) && ix.head in s && h in s && header in s && InOrder(s, g, ix.canon, header, ix.head)
    requires ix'.head in s && header' == if ix'.head != ix.head then ix'.head else header
    requires var c := Crossing(s, g, ix.head, h);
             if HaveBodies(s, g, bodies, ix.head, c, s[ix.head].number)
             then FirstMissing(s, g, bodies, h, c, k) && LeftBy(s, g, bodies, ix, h, c, k, ix')
             else ix' == ix
    ensures LeftFailing(s, g, bodies, ix, header, h, k, ix', header')
  {
    var c := Crossing(s, g, ix.head, h);
    if HaveBodies(s, g, bodies, ix.head, c, s[ix.head].number) {
      if k == c + 1 {
        AppliedNothing(s, g, bodies, h, c, ix);
        assert ix'.lookup == ix.lookup;
      } else {
        StoppedOnPath(s, g, header, ix.head, h, k);
        if Indexed(s, g, bodies, ix.head, ix.lookup) && Unique(s, g, bodies, h) {
          InterruptedLookups(s, g, bodies, ix.head, h, k, ix.lookup, ix'.lookup);
        }
      }
    }
  }

  // The tables s' and bodies' are what is left of s and bodies.
  ghost predicate Remains(s: Store, bodies: Bodies, s': Store, bodies': Bodies) {
    && (forall h :: h in s' ==> h in s && s'[h] == s[h])
    && (forall h :: h in s' ==> (h in bodies' <==> h in bodies) && (h in bodies ==> bodies'[h] == bodies[h]))
  }

  // A rewind from oldHead to its ancestor at m wipes tables but leaves the lookups alone. That keeps
  // them right exactly when no transaction of the old path lies above m.
  lemma {:induction false} LookupsAfterRewind(s: Store, g: Hash, bodies: Bodies, oldHead: Hash, m: int,
                                              lookup: map<Tx, int>, s': Store, bodies': Bodies)
    requires Linked(s, g) && oldHead in s && 0 <= m <= s[oldHead].number && Indexed(s, g, bodies, oldHead, lookup)
    requires Linked(s', g) && Ancestor(s, g, oldHead, m) in s' && Remains(s, bodies, s', bodies')
    ensures Indexed(s', g, bodies', Ancestor(s, g, oldHead, m), lookup) <==> NothingAbove(s, g, bodies, oldHead, m)
  {
    var head := Ancestor(s, g, oldHead, m);
    forall t, n: int
      ensures OnPath(s', g, bodies', head, t, n) <==> n <= m && OnPath(s, g, bodies, oldHead, t, n)
    {
      if 0 <= n <= m {
        AncestorOfAncestor(s, g, oldHead, m, n);
        AncestorFrame(s', s, g, head, n);
      }
    }
    forall t, n: int
      ensures IndexedAt(s', g, bodies', head, lookup, t, n) <==> (OnPath(s, g, bodies, oldHead, t, n) ==> n <= m)
    {
      assert IndexedAt(s, g, bodies, oldHead, lookup, t, n);
    }
  }

  // No transaction of the path lies above m.
  ghost predicate NothingAbove(s: Store, g: Hash, bodies: Bodies, oldHead: Hash, m: int)
    requires Linked(s, g) && oldHead in s
  {
    forall t, n :: OnPath(s, g, bodies, oldHead, t, n) ==> n <= m
  }
}
