/** The block chain: importing blocks, moving the head block between branches and rewinding it. */
module BlockChains {
  import opened Headers
  import opened ForkChoice
  import opened HeaderChains
  import opened Reorganisation
  import opened Rewinding

  datatype Block = Block(hash: Hash, header: Header, txs: seq<Tx>)

  // A block whose header validation passed: its hash collides with nothing stored and it sits
  // one number above its parent.
  ghost predicate Importable(s: Store, g: Hash, bodies: Bodies, b: Block) {
    && b.hash != NO_HASH && b.hash != g
    && (b.hash in s ==> s[b.hash] == b.header)
    && (b.hash in bodies ==> bodies[b.hash] == b.txs)
    && (b.header.parent in s ==> b.header.number == s[b.header.parent].number + 1)
  }

  // The bodies that a reorg from cur to h reads.
  ghost predicate BodiesToSwitch(s: Store, g: Hash, bodies: Bodies, cur: Hash, h: Hash)
    requires Linked(s, g) && cur in s && h in s
  {
    var c := Crossing(s, g, cur, h);
    HaveBodies(s, g, bodies, cur, c, s[cur].number) && HaveBodies(s, g, bodies, h, c, s[h].number - 1)
  }

  // A side-chain batch: contiguous blocks on a stored parent, colliding with nothing.
  ghost predicate SideBatch(s: Store, g: Hash, bodies: Bodies, blocks: seq<Block>) {
    && (forall i {:trigger Linking(s, blocks, i)} :: 0 <= i < |blocks| ==> Linking(s, blocks, i))
    && (forall i :: 0 <= i < |blocks| ==> blocks[i].hash != NO_HASH && blocks[i].hash != g)
    && (forall i :: 0 <= i < |blocks| && blocks[i].hash in s ==> s[blocks[i].hash] == blocks[i].header)
    && (forall i :: 0 <= i < |blocks| && blocks[i].hash in bodies ==>
          blocks[i].hash in s && bodies[blocks[i].hash] == blocks[i].txs)
    && (forall i, j :: 0 <= i < j < |blocks| ==> blocks[i].hash != blocks[j].hash)
  }

  // Those of the blocks whose headers are stored have their bodies.
  ghost predicate Bodied(s: Store, bodies: Bodies, blocks: seq<Block>) {
    forall i :: 0 <= i < |blocks| && blocks[i].hash in s ==> blocks[i].hash in bodies
  }

  ghost predicate Linking(s: Store, blocks: seq<Block>, i: int)
    requires 0 <= i < |blocks|
  {
    var hdr := blocks[i].header;
    if i == 0 then hdr.parent in s && s[hdr.parent].number == hdr.number - 1
    else hdr.parent == blocks[i - 1].hash && hdr.number == blocks[i - 1].header.number + 1
  }

  // Tables that hold some of the headers and bodies there can ever be.
  ghost predicate Within(s: Store, bodies: Bodies, u: Store, ub: Bodies) {
    && bodies.Keys <= s.Keys
    && (forall h :: h in s ==> h in u && s[h] == u[h])
    && (forall h :: h in bodies ==> h in ub && bodies[h] == ub[h])
  }

  // The same with a body for every header.
  ghost predicate Part(s: Store, bodies: Bodies, u: Store, ub: Bodies) {
    Within(s, bodies, u, ub) && bodies.Keys == s.Keys
  }

  ghost predicate DrawnFrom(b: Block, g: Hash, u: Store, ub: Bodies) {
    b.hash in u && b.hash != g && u[b.hash] == b.header && b.hash in ub && ub[b.hash] == b.txs
  }

  ghost predicate GrownTo(s: Store, s': Store) {
    forall h :: h in s ==> h in s' && s'[h] == s[h]
  }

  // Exactly the bodies of the headers that went are gone.
  ghost predicate BodiesWiped(bodies: Bodies, s: Store, bodies': Bodies, s': Store) {
    && (forall h :: h in bodies' <==> h in bodies && (h in s ==> h in s'))
    && (forall h :: h in bodies' ==> bodies'[h] == bodies[h])
  }

  // A block not above the head block that is not canonical but claims the state root of the
  // canonical block at its number.
  ghost predicate Shadows(s: Store, bodies: Bodies, canon: map<int, Hash>, head: Hash, b: Block)
    requires head in s
  {
    var h := ReadCanonical(canon, b.header.number);
    b.header.number <= s[head].number && h in bodies && h in s && h != b.hash && s[h].root == b.header.root
  }

  // The tables with the first n blocks written.
  function WithHeaders(s: Store, blocks: seq<Block>, n: nat): Store
    requires n <= |blocks|
  {
    if n == 0 then s else WithHeaders(s, blocks, n - 1)[blocks[n - 1].hash := blocks[n - 1].header]
  }

  function WithBodies(bodies: Bodies, blocks: seq<Block>, n: nat): Bodies
    requires n <= |blocks|
  {
    if n == 0 then bodies else WithBodies(bodies, blocks, n - 1)[blocks[n - 1].hash := blocks[n - 1].txs]
  }

  ghost predicate ShadowsAt(s: Store, bodies: Bodies, canon: map<int, Hash>, head: Hash, blocks: seq<Block>, i: nat)
    requires i < |blocks|
  {
    var s', bodies' := WithHeaders(s, blocks, i), WithBodies(bodies, blocks, i);
    head in s' && Shadows(s', bodies', canon, head, blocks[i])
  }

  // Block n is the first that shadows, all before it written; or none does.
  ghost predicate StopsAt(s: Store, bodies: Bodies, canon: map<int, Hash>, head: Hash, blocks: seq<Block>, n: nat) {
    && n <= |blocks| && (n < |blocks| ==> ShadowsAt(s, bodies, canon, head, blocks, n))
    && forall i :: 0 <= i < n ==> !ShadowsAt(s, bodies, canon, head, blocks, i)
  }

  // Storing more blocks leaves the lookups of a path alone, unless a header gets a body it lacked.
  lemma {:induction false} IndexedFrame(s: Store, g: Hash, bodies: Bodies, head: Hash, lookup: map<Tx, int>,
                                        s': Store, bodies': Bodies)
    requires Linked(s, g) && Linked(s', g) && head in s && Remains(s', bodies', s, bodies)
    ensures Indexed(s, g, bodies, head, lookup) ==> Indexed(s', g, bodies', head, lookup)
  {
    forall t, n: int
      ensures OnPath(s', g, bodies', head, t, n) <==> OnPath(s, g, bodies, head, t, n)
    {
      if 0 <= n <= s[head].number { AncestorFrame(s, s', g, head, n); }
    }
    if Indexed(s, g, bodies, head, lookup) {
      forall t, n: int
        ensures IndexedAt(s', g, bodies', head, lookup, t, n)
      {
        assert IndexedAt(s, g, bodies, head, lookup, t, n);
      }
    }
  }

  /* Side chains, on values */

  datatype Tables = Tables(store: Store, td: map<Hash, int>, bodies: Bodies)

  // Links and difficulties are right, and the blocks still make a batch for a side chain.
  ghost predicate SideReady(x: Tables, g: Hash, head: Hash, blocks: seq<Block>) {
    Linked(x.store, g) && TdCorrect(x.store, g, x.td) && head in x.store && SideBatch(x.store, g, x.bodies, blocks)
  }

  function Stored(x: Tables, b: Block, externTd: int): Tables {
    Tables(x.store[b.hash := b.header], x.td[b.hash := externTd], x.bodies[b.hash := b.txs])
  }

  lemma {:induction false} StoredReady(x: Tables, g: Hash, head: Hash, blocks: seq<Block>, i: nat, externTd: int)
    requires SideReady(x, g, head, blocks) && i < |blocks| && blocks[i].header.parent in x.store
    requires x.store[blocks[i].header.parent].number == blocks[i].header.number - 1
    requires externTd == x.td[blocks[i].header.parent] + blocks[i].header.difficulty
    ensures SideReady(Stored(x, blocks[i], externTd), g, head, blocks)
    ensures blocks[i].hash in x.bodies ==> Stored(x, blocks[i], externTd) == x
  {
    var b, x' := blocks[i], Stored(x, blocks[i], externTd);
    TdInsert(x.store, g, x.td, b.hash, b.header);
    forall j | 0 <= j < |blocks|
      ensures Linking(x'.store, blocks, j)
    {
      assert Linking(x.store, blocks, j);
    }
    if b.hash in x.bodies {
      assert TdAt(x.store, g, x.td, b.hash) && TdAt(x.store, g, x.td, b.header.parent);
      assert Attached(x.store, g, b.hash);
      assert x'.store == x.store && x'.td == x.td && x'.bodies == x.bodies;
    }
  }

  // One block of a side chain. A block that is canonical already restarts the difficulty from
  // the stored one, any other adds its own to its parent's; either is the recorded difficulty.
  method WriteSideBlock(x: Tables, ghost g: Hash, canon: map<int, Hash>, head: Hash, blocks: seq<Block>, i: nat,
                        parentTd: Option<int>)
    returns (x': Tables, externTd: Option<int>)
    requires SideReady(x, g, head, blocks) && i < |blocks| && (0 < i ==> blocks[i - 1].hash in x.store)
    requires parentTd == if i == 0 then None else Some(x.td[blocks[i - 1].hash])
    ensures externTd.None? <==> Shadows(x.store, x.bodies, canon, head, blocks[i])
    ensures externTd.None? ==> x' == x
    ensures externTd.Some? ==> SideReady(x', g, head, blocks) && x' == Stored(x, blocks[i], externTd.value)
  {
    var b := blocks[i];
    assert Linking(x.store, blocks, i);
    var number := b.header.number;
    var canonical := ReadCanonical(canon, number);
    var candidate := number <= x.store[head].number && canonical in x.bodies;
    x' := x;
    StoredReady(x, g, head, blocks, i, x.td[b.header.parent] + b.header.difficulty);
    if candidate && canonical == b.hash {
      return x, GetTd(x.store, x.td, b.hash, number);
    }
    if candidate && canonical in x.store && x.store[canonical].root == b.header.root {
      return x, None;
    }
    var base := if parentTd.None? then GetTd(x.store, x.td, b.header.parent, number - 1) else parentTd;
    externTd := Some(base.value + b.header.difficulty);
    if b.hash !in x.bodies {
      x' := Stored(x, b, externTd.value);
    }
  }

  // The blocks of a side chain, with the total difficulty carried from block to block.
  method WriteSideBlocks(x: Tables, ghost g: Hash, canon: map<int, Hash>, head: Hash, blocks: seq<Block>)
    returns (x': Tables, ok: bool, ghost n: nat)
    requires SideReady(x, g, head, blocks)
    ensures SideReady(x', g, head, blocks)
    ensures StopsAt(x.store, x.bodies, canon, head, blocks, n) && (ok <==> n == |blocks|)
    ensures x'.store == WithHeaders(x.store, blocks, n) && x'.bodies == WithBodies(x.bodies, blocks, n)
  {
    var externTd: Option<int> := None;
    x', n := x, 0;
    for i := 0 to |blocks|
      invariant SideReady(x', g, head, blocks) && n == i
      invariant x'.store == WithHeaders(x.store, blocks, i) && x'.bodies == WithBodies(x.bodies, blocks, i)
      invariant forall j :: 0 <= j < i ==> !ShadowsAt(x.store, x.bodies, canon, head, blocks, j)
      invariant 0 < i ==> blocks[i - 1].hash in x'.store
      invariant externTd == if i == 0 then None else Some(x'.td[blocks[i - 1].hash])
    {
      x', externTd := WriteSideBlock(x', g, canon, head, blocks, i, externTd);
      if externTd.None? {
        return x', false, i;
      }
      n := i + 1;
    }
    ok := true;
  }

  // The tables only grow, and headers that had their bodies keep them.
  lemma {:induction false} SideGrown(s: Store, g: Hash, bodies: Bodies, blocks: seq<Block>, n: nat)
    requires SideBatch(s, g, bodies, blocks) && n <= |blocks|
    ensures GrownTo(s, WithHeaders(s, blocks, n))
    ensures Bodied(s, bodies, blocks) ==> Remains(WithHeaders(s, blocks, n), WithBodies(bodies, blocks, n), s, bodies)
  {
    if n > 0 {
      SideGrown(s, g, bodies, blocks, n - 1);
    }
  }

  // No side block gets stored that, at or below the head, is not canonical and yet claims the state of
  // the canonical block at its number; and the block at which a side chain is stopped does claim it.
  lemma {:induction false} NoGhostState(s: Store, g: Hash, bodies: Bodies, canon: map<int, Hash>, head: Hash,
                                        blocks: seq<Block>, n: nat, i: nat)
    requires SideBatch(s, g, bodies, blocks) && head in s && StopsAt(s, bodies, canon, head, blocks, n)
    requires i <= n && i < |blocks|
    requires forall k :: k in canon ==> canon[k] in s && canon[k] in bodies
    ensures var number := blocks[i].header.number;
            number <= s[head].number && number in canon && canon[number] != blocks[i].hash ==>
              (s[canon[number]].root == blocks[i].header.root <==> i == n)
  {
    SideGrown(s, g, bodies, blocks, i);
    BodiesGrown(bodies, blocks, i);
    assert i == n <==> ShadowsAt(s, bodies, canon, head, blocks, i);
  }

  lemma {:induction false} BodiesGrown(bodies: Bodies, blocks: seq<Block>, n: nat)
    requires n <= |blocks|
    ensures forall h :: h in bodies ==> h in WithBodies(bodies, blocks, n)
  {
    if n > 0 {
      BodiesGrown(bodies, blocks, n - 1);
    }
  }

  /* A rewind, on values */

  // What a rewind looks for: a state root, searched in the given scheme and not below the pivot,
  // with the states that can be recovered.
  datatype Search = Search(root: Root, pathScheme: bool, pivot: Option<nat>, recoverable: set<Root>)

  // What moves with the head header: the head block, the snap block and the states at hand.
  datatype Marks = Marks(block: Hash, snap: Hash, states: set<Root>)

  // The block a rewind from the header must stop at: the highest searched ancestor with usable
  // state at or below the crossing of the requested root, genesis if there is none.
  ghost predicate Highest(s: Store, g: Hash, header: Hash, q: Search, states: set<Root>, h: Hash)
    requires Linked(s, g) && header in s && h in s
  {
    if q.pathScheme then
      (h == g || PathCandidate(s, g, header, q.root, states, q.recoverable, q.pivot, s[h].number)) &&
      forall k :: PathCandidate(s, g, header, q.root, states, q.recoverable, q.pivot, k) ==> k <= s[h].number
    else
      var limit := SearchLimit(q.pivot, s[header].number);
      (h == g || HashCandidate(s, g, header, q.root, states, limit, s[h].number)) &&
      forall k :: HashCandidate(s, g, header, q.root, states, limit, k) ==> k <= s[h].number
  }

  // The search gets down to the number.
  predicate Reaches(q: Search, number: nat, k: int) {
    if q.pathScheme then k == number || q.pivot.None? || q.pivot.value <= k else SearchLimit(q.pivot, number) <= k
  }

  // A rewind in search of a root whose state can be had, and that the search gets to, lands on the
  // highest block with that root.
  lemma {:induction false} LandsOnRoot(s: Store, g: Hash, header: Hash, q: Search, states: set<Root>, h: Hash, j: int)
    requires Linked(s, g) && header in s && h in s && OnPathOf(s, g, header, h) && Highest(s, g, header, q, states, h)
    requires q.root != NO_ROOT && (q.root in states || (q.pathScheme && q.root in q.recoverable))
    requires HighestRoot(s, g, header, q.root, j) && 1 <= j && Reaches(q, s[header].number, j)
    ensures h == Ancestor(s, g, header, j)
  {
    assert RootAt(s, g, header, q.root, j);
    if q.pathScheme {
      assert PathCandidate(s, g, header, q.root, states, q.recoverable, q.pivot, j);
    } else {
      assert HashCandidate(s, g, header, q.root, states, SearchLimit(q.pivot, s[header].number), j);
    }
  }

  // Without a root, or in the path scheme with one that cannot be had, the head block does not fall
  // below a block with its state that the search gets to.
  lemma {:induction false} NeverStrands(s: Store, g: Hash, header: Hash, q: Search, states: set<Root>, h: Hash, k: int)
    requires Linked(s, g) && header in s && h in s && Highest(s, g, header, q, states, h)
    requires q.root == NO_ROOT || (q.pathScheme && q.root !in states + q.recoverable)
    requires 1 <= k && StateAt(s, g, header, states, k) && Reaches(q, s[header].number, k)
    ensures k <= s[h].number
  {
    if q.pathScheme {
      assert StateSeen(s, g, header, states, k);
      assert PathCandidate(s, g, header, q.root, states, q.recoverable, q.pivot, k);
    } else {
      assert HashCandidate(s, g, header, q.root, states, SearchLimit(q.pivot, s[header].number), k);
    }
  }

  // The head block before and after a rewind has looked at a header: left alone if it is lower,
  // rewound otherwise.
  ghost predicate Updated(s: Store, g: Hash, header: Hash, q: Search, states: set<Root>, block: Hash, block': Hash)
    requires Linked(s, g) && header in s && block in s && block' in s
  {
    if s[block].number < s[header].number then block' == block else Highest(s, g, header, q, states, block')
  }

  function Usable(q: Search, states: set<Root>): set<Root> {
    if q.pathScheme then states + q.recoverable else states
  }

  ghost predicate MarksOn(s: Store, g: Hash, header: Hash, m: Marks)
    requires Linked(s, g) && header in s
  {
    m.block in s && m.snap in s && OnPathOf(s, g, header, m.block) && OnPathOf(s, g, header, m.snap)
  }

  // The states only grew, and by none that was not usable before; a block that has moved has its
  // state unless it is genesis.
  ghost predicate StatesKept(s: Store, g: Hash, q: Search, m: Marks, m': Marks)
    requires m'.block in s
  {
    && m.states <= m'.states && Usable(q, m'.states) == Usable(q, m.states)
    && (m'.block == m.block || m'.block == g || s[m'.block].root in m'.states)
  }

  // Looking at the header at, with the states had, put the head block where it is, and no header
  // further down moved it again.
  ghost predicate SettledAt(s: Store, g: Hash, top: Hash, header: Hash, q: Search, m: Marks, at: Hash, had: set<Root>,
                            block: Hash)
    requires Linked(s, g) && top in s && header in s && at in s && m.block in s && block in s
  {
    && OnPathOf(s, g, top, at) && s[header].number <= s[at].number <= s[m.block].number && m.states <= had
    && Highest(s, g, at, q, had, block) && (at == header || s[block].number < s[header].number)
  }

  // Where a rewind from top to header leaves the head block: alone if it is lower than the header,
  // otherwise as high as the last header that moved it allows.
  ghost predicate Settled(s: Store, g: Hash, top: Hash, header: Hash, q: Search, m: Marks, m': Marks)
    requires Linked(s, g) && top in s && header in s && m.block in s && m'.block in s
  {
    if s[m.block].number < s[header].number then m'.block == m.block
    else exists at, had :: at in s && had <= m'.states && SettledAt(s, g, top, header, q, m, at, had, m'.block)
  }

  // The snap block follows the header down through stored bodies; where one is missing it falls to
  // genesis.
  ghost predicate SnapFollows(s: Store, g: Hash, bodies: Bodies, top: Hash, header: Hash, snap: Hash, snap': Hash)
    requires Linked(s, g) && top in s && header in s && snap in s && OnPathOf(s, g, top, snap)
  {
    if s[snap].number <= s[header].number then snap' == snap
    else snap' == if BodiesBetween(s, g, bodies, top, s[header].number, s[snap].number) then header else g
  }

  ghost predicate BodiesBetween(s: Store, g: Hash, bodies: Bodies, top: Hash, lo: nat, hi: nat)
    requires Linked(s, g) && top in s && hi <= s[top].number
  {
    forall n :: lo <= n < hi ==> Ancestor(s, g, top, n) in bodies
  }

  // What a rewind of the head header from top down to header does to the marks.
  ghost predicate Rewound(s: Store, g: Hash, bodies: Bodies, top: Hash, header: Hash, q: Search, m: Marks, m': Marks)
    requires Linked(s, g) && top in s && header in s && MarksOn(s, g, top, m)
  {
    && MarksOn(s, g, header, m') && s[m'.block].number <= s[m.block].number
    && StatesKept(s, g, q, m, m') && Settled(s, g, top, header, q, m, m')
    && SnapFollows(s, g, bodies, top, header, m.snap, m'.snap)
  }

  // There is a root to look for, and in the path scheme its state can be had.
  predicate Attainable(q: Search, states: set<Root>) {
    q.root != NO_ROOT && (q.pathScheme ==> q.root in Usable(q, states))
  }

  // The number returned is a place of the requested root on the path; for a head block that has moved
  // above genesis in search of an attainable root it is not below that block.
  ghost predicate RootFound(s: Store, g: Hash, top: Hash, q: Search, m: Marks, m': Marks, rootNumber: int)
    requires Linked(s, g) && top in s && m'.block in s
  {
    && (rootNumber == 0 || RootAt(s, g, top, q.root, rootNumber))
    && (m'.block != m.block && m'.block != g && Attainable(q, m.states) ==> s[m'.block].number <= rootNumber)
  }

  // One round down keeps the head block settled. At the start it is the old one.
  lemma {:induction false} SettleDown(s: Store, g: Hash, top: Hash, header: Hash, q: Search, m: Marks, m1: Marks,
                                      m2: Marks)
    requires Linked(s, g) && top in s && header in s && header != g && OnPathOf(s, g, top, header)
    requires m.block in s && m1.block in s && m2.block in s && s[m1.block].number <= s[m.block].number
    requires if header == top then m1 == m else Settled(s, g, top, header, q, m, m1)
    requires m.states <= m1.states <= m2.states
    requires Updated(s, g, Parent(s, g, header), q, m1.states, m1.block, m2.block)
    ensures Settled(s, g, top, Parent(s, g, header), q, m, m2)
  {
    var parent := Parent(s, g, header);
    AncestorStep(s, g, top, s[header].number);
    if s[m1.block].number < s[parent].number {
      if s[m.block].number >= s[header].number && header != top {
        var at, had :| at in s && had <= m1.states && SettledAt(s, g, top, header, q, m, at, had, m1.block);
        assert SettledAt(s, g, top, parent, q, m, at, had, m2.block);
      }
    } else {
      assert SettledAt(s, g, top, parent, q, m, parent, m1.states, m2.block);
    }
  }

  lemma {:induction false} SnapDown(s: Store, g: Hash, bodies: Bodies, top: Hash, header: Hash, snap: Hash, snap1: Hash,
                                    snap2: Hash)
    requires Linked(s, g) && top in s && header in s && header != g && OnPathOf(s, g, top, header)
    requires snap in s && OnPathOf(s, g, top, snap) && snap1 in s
    requires if header == top then snap1 == snap else SnapFollows(s, g, bodies, top, header, snap, snap1)
    requires var parent := Parent(s, g, header);
             snap2 == if s[parent].number < s[snap1].number then (if parent in bodies then parent else g) else snap1
    ensures SnapFollows(s, g, bodies, top, Parent(s, g, header), snap, snap2)
  {
    var parent := Parent(s, g, header);
    AncestorStep(s, g, top, s[header].number);
    if s[parent].number < s[snap].number {
      var lo, hi := s[header].number, s[snap].number;
      assert BodiesBetween(s, g, bodies, top, lo - 1, hi) <==>
             parent in bodies && BodiesBetween(s, g, bodies, top, lo, hi);
    }
  }

  /* Rewinds without a root or pivot, within the search limit */

  predicate Unlimited(q: Search, number: nat) {
    q.root == NO_ROOT && q.pivot.None? && (q.pathScheme || number <= FULL_IMMUTABILITY_THRESHOLD)
  }

  // The block has a usable state, unless it is genesis, and none above it up to the header has.
  ghost predicate Best(s: Store, g: Hash, header: Hash, usable: set<Root>, block: Hash)
    requires Linked(s, g) && header in s && block in s
  {
    && (block == g || s[block].root in usable)
    && var n := s[block].number; forall k :: 1 <= k && StateAt(s, g, header, usable, k) ==> k <= n
  }

  // The head block is left alone if it is lower than the header, and otherwise the best.
  ghost predicate Following(s: Store, g: Hash, header: Hash, usable: set<Root>, oldBlock: Hash, block: Hash)
    requires Linked(s, g) && header in s && oldBlock in s && block in s
  {
    if s[oldBlock].number < s[header].number then block == oldBlock else Best(s, g, header, usable, block)
  }

  lemma {:induction false} HighestIsBest(s: Store, g: Hash, header: Hash, q: Search, states: set<Root>, h: Hash)
    requires Linked(s, g) && header in s && h in s && Unlimited(q, s[header].number)
    requires Highest(s, g, header, q, states, h) && OnPathOf(s, g, header, h)
    ensures Best(s, g, header, Usable(q, states), h)
  {
    var usable := Usable(q, states);
    forall k | 1 <= k && StateAt(s, g, header, usable, k)
      ensures k <= s[h].number
    {
      if q.pathScheme {
        assert PathCandidate(s, g, header, q.root, states, q.recoverable, q.pivot, k);
      } else {
        assert HashCandidate(s, g, header, q.root, states, SearchLimit(q.pivot, s[header].number), k);
      }
    }
  }

  lemma {:induction false} BestBelow(s: Store, g: Hash, at: Hash, header: Hash, usable: set<Root>, block: Hash)
    requires Linked(s, g) && at in s && header in s && OnPathOf(s, g, at, header) && block in s
    requires Best(s, g, at, usable, block)
    ensures Best(s, g, header, usable, block)
  {
    forall k | 1 <= k && StateAt(s, g, header, usable, k)
      ensures StateAt(s, g, at, usable, k)
    {
      AncestorOfAncestor(s, g, at, s[header].number, k);
    }
  }

  // Without a root or pivot and within the search limit, a settled head block is the highest one
  // with usable state.
  lemma {:induction false} SettledIsBest(s: Store, g: Hash, top: Hash, header: Hash, q: Search, m: Marks, m': Marks)
    requires Linked(s, g) && top in s && header in s && OnPathOf(s, g, top, header)
    requires m.block in s && m'.block in s && OnPathOf(s, g, header, m'.block)
    requires Usable(q, m'.states) == Usable(q, m.states) && Settled(s, g, top, header, q, m, m')
    ensures Unlimited(q, s[top].number) ==> Following(s, g, header, Usable(q, m.states), m.block, m'.block)
  {
    if Unlimited(q, s[top].number) && s[m.block].number >= s[header].number {
      var at, had :| at in s && had <= m'.states && SettledAt(s, g, top, header, q, m, at, had, m'.block);
      AncestorOfAncestor(s, g, top, s[at].number, s[header].number);
      AncestorOfAncestor(s, g, at, s[header].number, s[m'.block].number);
      assert Usable(q, had) == Usable(q, m.states);
      HighestIsBest(s, g, at, q, had, m'.block);
      BestBelow(s, g, at, header, Usable(q, had), m'.block);
    }
  }

  // Before the head header steps to its parent, the head block is rewound to an ancestor of that
  // with usable state if it is not lower already, and the snap block follows. Path-scheme states
  // that are only recoverable get recovered.
  method UpdateMarks(s: Store, g: Hash, bodies: Bodies, ghost child: Hash, header: Hash, q: Search, m: Marks)
    returns (m': Marks, rootNumber: int)
    requires Linked(s, g) && child in s && child != g && header == Parent(s, g, child) && MarksOn(s, g, child, m)
    ensures MarksOn(s, g, header, m') && s[m'.block].number <= s[m.block].number
    ensures StatesKept(s, g, q, m, m') && Updated(s, g, header, q, m.states, m.block, m'.block)
    ensures m'.snap == if s[header].number < s[m.snap].number then (if header in bodies then header else g) else m.snap
    ensures rootNumber == 0 || HighestRoot(s, g, header, q.root, rootNumber)
    ensures s[header].number <= s[m.block].number && m'.block != g && Attainable(q, m.states) ==>
              s[m'.block].number <= rootNumber
  {
    rootNumber := 0;
    var block, snap, states := m.block, m.snap, m.states;
    SharedGenesis(s, g, header, g);
    if s[header].number <= s[block].number {
      if q.pathScheme {
        block, rootNumber := RewindPath(s, g, header, q.root, states, q.recoverable, q.pivot);
        if s[block].root !in states && s[block].root in q.recoverable {
          states := states + {s[block].root};
        }
      } else {
        block, rootNumber := RewindHash(s, g, header, q.root, states, q.pivot);
      }
    }
    if s[header].number < s[snap].number {
      snap := if header in bodies then header else g;
    }
    m' := Marks(block, snap, states);
  }

  lemma {:induction false} StatesKeptTransitive(s: Store, g: Hash, q: Search, m: Marks, m1: Marks, m2: Marks)
    requires m1.block in s && m2.block in s && StatesKept(s, g, q, m, m1) && StatesKept(s, g, q, m1, m2)
    ensures StatesKept(s, g, q, m, m2)
  {
  }

  lemma {:induction false} RootOnPath(s: Store, g: Hash, top: Hash, header: Hash, root: Root, n: int)
    requires Linked(s, g) && top in s && header in s && s[header].number <= s[top].number
    requires header == Ancestor(s, g, top, s[header].number) && HighestRoot(s, g, header, root, n)
    ensures RootAt(s, g, top, root, n)
  {
    AncestorOfAncestor(s, g, top, s[header].number, n);
  }

  // One round of a rewind: the marks are updated for the parent, then the header steps to it.
  method RewindRound(s: Store, g: Hash, bodies: Bodies, ghost top: Hash, header: Hash, q: Search, ghost m: Marks,
                     m1: Marks, rootNumber: int)
    returns (m2: Marks, rootNumber': int)
    requires Linked(s, g) && top in s && header in s && header != g && OnPathOf(s, g, top, header)
    requires MarksOn(s, g, top, m) && if header == top then m1 == m else Rewound(s, g, bodies, top, header, q, m, m1)
    requires RootFound(s, g, top, q, m, m1, rootNumber)
    ensures Rewound(s, g, bodies, top, Parent(s, g, header), q, m, m2) && RootFound(s, g, top, q, m, m2, rootNumber')
  {
    var parent := Parent(s, g, header);
    AncestorStep(s, g, top, s[header].number);
    var rewound := s[parent].number <= s[m1.block].number;
    var r;
    m2, r := UpdateMarks(s, g, bodies, header, parent, q, m1);
    rootNumber' := if rewound then r else rootNumber;
    SettleDown(s, g, top, header, q, m, m1, m2);
    SnapDown(s, g, bodies, top, header, m.snap, m1.snap, m2.snap);
    StatesKeptTransitive(s, g, q, m, m1, m2);
    if r != 0 {
      RootOnPath(s, g, top, parent, q.root, r);
    }
  }

  // Steps the head header back to its highest ancestor that meets the target, the marks with it,
  // and notes the numbers above.
  method RewindDown(s: Store, g: Hash, bodies: Bodies, top: Hash, target: Target, q: Search, m: Marks)
    returns (header: Hash, m': Marks, rootNumber: int, nums: set<int>)
    requires Linked(s, g) && top in s && MarksOn(s, g, top, m) && Done(target, s[g]) && !Done(target, s[top])
    ensures RewoundTo(s, g, top, target, header) && header != top && Done(target, s[header])
    ensures Rewound(s, g, bodies, top, header, q, m, m') && Noted(s, header, false, nums, s[top].number)
    ensures RootFound(s, g, top, q, m, m', rootNumber)
  {
    header, m', rootNumber, nums := top, m, 0, {};
    while !Done(target, s[header])
      invariant RewoundTo(s, g, top, target, header) && Noted(s, header, header == top, nums, s[top].number)
      invariant if header == top then m' == m else Rewound(s, g, bodies, top, header, q, m, m')
      invariant m'.block in s && RootFound(s, g, top, q, m, m', rootNumber)
      decreases s[header].number
    {
      assert header != g && s[Parent(s, g, header)].number == s[header].number - 1;
      AncestorStep(s, g, top, s[header].number);
      m', rootNumber := RewindRound(s, g, bodies, top, header, q, m, m', rootNumber);
      header, nums := StepBack(s, g, header, header == top, nums, s[top].number);
    }
  }

  // The lookups after a rewind from top to header, with the head block going from oldBlock to block.
  lemma {:induction false} RewoundLookups(s: Store, g: Hash, top: Hash, bodies: Bodies, oldBlock: Hash, header: Hash,
                                          block: Hash, lookup: map<Tx, int>, s': Store, bodies': Bodies)
    requires Linked(s, g) && Linked(s', g) && top in s && oldBlock in s && header in s && header in s' && block in s'
    requires s' == Headers.Below(s, s[header].number) && BodiesWiped(bodies, s, bodies', s')
    requires OnPathOf(s, g, top, header)
    requires OnPathOf(s, g, top, oldBlock)
    requires OnPathOf(s', g, header, block)
    requires s[block].number <= s[oldBlock].number && Indexed(s, g, bodies, oldBlock, lookup)
    ensures Indexed(s', g, bodies', block, lookup) <==> NothingAbove(s, g, bodies, oldBlock, s[block].number)
  {
    var m := s[block].number;
    AncestorFrame(s', s, g, header, m);
    AncestorOfAncestor(s, g, top, s[header].number, m);
    AncestorOfAncestor(s, g, top, s[oldBlock].number, m);
    LookupsAfterRewind(s, g, bodies, oldBlock, m, lookup, s', bodies');
  }

  // Everything the chain keeps but the total difficulties, which follow from the headers.
  datatype ChainState = ChainState(
    store: Store,
    canon: map<int, Hash>,
    header: Hash,
    bodies: Bodies,
    lookup: map<Tx, int>,
    marks: Marks)

  // The chain x rewound to the target. The lookups are left alone.
  ghost predicate RewoundChain(g: Hash, target: Target, q: Search, x: ChainState, y: ChainState)
    requires Linked(x.store, g) && x.header in x.store && MarksOn(x.store, g, x.header, x.marks)
  {
    && RewoundTo(x.store, g, x.header, target, y.header) && Done(target, x.store[y.header])
    && y.store == Headers.Below(x.store, x.store[y.header].number)
    && BodiesWiped(x.bodies, x.store, y.bodies, y.store) && y.lookup == x.lookup
    && Rewound(x.store, g, x.bodies, x.header, y.header, q, x.marks, y.marks)
  }

  class BlockChain {
    const hc: HeaderChain
    var bodies: Bodies
    var lookup: map<Tx, int>
    var currentBlock: Hash
    var currentSnapBlock: Hash
    var states: set<Root>

    // h lies on the canonical chain.
    ghost predicate Canonical(h: Hash)
      requires hc.Sound()
      reads hc
    {
      var s, g := hc.store, hc.genesis;
      h in s && OnPathOf(s, g, hc.currentHeader, h)
    }

    // The canonical index is the head header's path and the head block lies on it.
    ghost predicate Valid()
      reads this, hc
    {
      hc.Valid() && Canonical(currentBlock)
    }

    // The head block is the head header.
    ghost predicate AtHead()
      reads this, hc
    {
      Valid() && hc.currentHeader == currentBlock
    }

    // The lookup index is exactly that of the head block's path.
    ghost predicate LookupsRight()
      requires hc.Sound() && currentBlock in hc.store
      reads this, hc
    {
      Indexed(hc.store, hc.genesis, bodies, currentBlock, lookup)
    }

    function Snapshot(): ChainState
      reads this, hc
    {
      ChainState(hc.store, hc.canon, hc.currentHeader, bodies, lookup, Marks(currentBlock, currentSnapBlock, states))
    }

    function Index(): Indexes
      reads this, hc
    {
      Indexes(hc.canon, lookup, currentBlock)
    }

    constructor (genesis: Block)
      requires genesis.hash != NO_HASH && genesis.header.number == 0 && genesis.header.parent == NO_HASH
      ensures AtHead() && LookupsRight() && fresh(hc)
      ensures hc.genesis == genesis.hash && hc.store == map[genesis.hash := genesis.header]
      ensures bodies == map[genesis.hash := genesis.txs] && currentBlock == currentSnapBlock == genesis.hash
    {
      var h := new HeaderChain(genesis.hash, genesis.header);
      hc := h;
      bodies := map[genesis.hash := genesis.txs];
      lookup := map t | t in genesis.txs :: 0;
      currentBlock, currentSnapBlock := genesis.hash, genesis.hash;
      states := {genesis.header.root};
      new;
      forall t, n: int
        ensures IndexedAt(hc.store, hc.genesis, bodies, currentBlock, lookup, t, n)
      {
        assert OnPath(hc.store, hc.genesis, bodies, currentBlock, t, n) <==> n == 0 && t in Txs(bodies, currentBlock);
      }
    }

    /* Moving the head */

    // Makes a stored block the head, running a reorg unless it extends the head block.
    method WriteKnownBlock(h: Hash) returns (ok: bool, ghost k: int)
      requires Valid() && h in hc.store
      modifies this`lookup, this`currentBlock, this`currentSnapBlock, hc`canon, hc`currentHeader
      ensures ok <==> Extends(hc.store, old(currentBlock), h) ||
                      BodiesToSwitch(hc.store, hc.genesis, bodies, old(currentBlock), h)
      ensures hc.Sound() && currentBlock in hc.store
      ensures ok ==> currentBlock == hc.currentHeader == currentSnapBlock == h
      ensures ok ==> (Valid() <==> !Extends(hc.store, old(currentBlock), h) ||
                                   old(hc.store[hc.currentHeader].number) <= hc.store[h].number)
      ensures old(AtHead()) && ok ==> AtHead()
      ensures (ok && old(LookupsRight()) && Unique(hc.store, hc.genesis, bodies, old(currentBlock)) &&
               Unique(hc.store, hc.genesis, bodies, h)) ==> LookupsRight()
      ensures !ok ==>
                && LeftFailing(hc.store, hc.genesis, bodies, old(Index()), old(hc.currentHeader), h, k, Index(),
                               hc.currentHeader)
                && currentSnapBlock == if currentBlock == old(currentBlock) then old(currentSnapBlock) else currentBlock
    {
      if Extends(hc.store, currentBlock, h) {
        assert Attached(hc.store, hc.genesis, h);
      }
      var ix, header;
      ok, ix, header, k := MoveMarkers(hc.store, hc.genesis, bodies, Index(), hc.currentHeader, h);
      var snap := if ok || ix.head != currentBlock then ix.head else currentSnapBlock;
      hc.canon, lookup, hc.currentHeader, currentBlock, currentSnapBlock := ix.canon, ix.lookup, header, ix.head, snap;
    }

    /* Importing */

    // Writes a block, its difficulty and its state, irrespective of the canonical chain.
    method WriteBlockWithState(b: Block) returns (ok: bool)
      requires hc.Sound() && currentBlock in hc.store && Importable(hc.store, hc.genesis, bodies, b)
      modifies this`bodies, this`states, hc`store, hc`td
      ensures hc.Sound() && (old(Valid()) ==> Valid())
      ensures ok <==> b.header.parent in old(hc.store)
      ensures !ok ==> hc.store == old(hc.store) && bodies == old(bodies) && states == old(states)
      ensures ok ==> hc.store == old(hc.store)[b.hash := b.header] && bodies == old(bodies)[b.hash := b.txs] &&
                     states == old(states) + {b.header.root}
      ensures ok && old(LookupsRight()) && (b.hash in old(hc.store) ==> b.hash in old(bodies)) ==> LookupsRight()
    {
      var ptd := GetTd(hc.store, hc.td, b.header.parent, b.header.number - 1);
      if ptd.None? {
        return false;
      }
      LinkedInsert(hc.store, hc.genesis, b.hash, b.header);
      GrowFrame(Stored(Tables(hc.store, hc.td, bodies), b, ptd.value + b.header.difficulty));
      hc.Insert(b.hash, b.header, ptd.value + b.header.difficulty);
      bodies, states, ok := bodies[b.hash := b.txs], states + {b.header.root}, true;
    }

    // Writes a block with its state and, if the fork chooser prefers it, makes it the head.
    method WriteBlockAndSetHead(b: Block, c: Chooser, coin: bool) returns (status: WriteStatus, ghost k: int)
      requires Valid() && Importable(hc.store, hc.genesis, bodies, b)
      modifies this, hc
      ensures hc.Sound() && currentBlock in hc.store && !status.NonStat?
      ensures b.header.parent !in old(hc.store) ==> status.Failed? && Snapshot() == old(Snapshot())
      ensures b.header.parent in old(hc.store) ==>
                hc.store == old(hc.store)[b.hash := b.header] && bodies == old(bodies)[b.hash := b.txs] &&
                states == old(states) + {b.header.root} &&
                (status.SideStat? <==> !Chosen(hc.store, hc.genesis, c, old(currentBlock), b.hash, coin))
      ensures status.SideStat? || b.header.parent !in old(hc.store) ==>
                Valid() && hc.canon == old(hc.canon) && lookup == old(lookup) && currentBlock == old(currentBlock) &&
                hc.currentHeader == old(hc.currentHeader) && currentSnapBlock == old(currentSnapBlock)
      ensures status.CanonStat? ==> currentBlock == hc.currentHeader == currentSnapBlock == b.hash
      ensures status.CanonStat? ==>
                (Valid() <==>
                 b.header.parent != old(currentBlock) || old(hc.store[hc.currentHeader].number) <= b.header.number)
      ensures old(AtHead()) && !status.Failed? ==> AtHead()
      ensures b.header.parent in old(hc.store) && Heavier(hc.store, hc.genesis, c, old(currentBlock), b.hash) &&
              (b.header.parent == old(currentBlock) ||
               BodiesToSwitch(hc.store, hc.genesis, bodies, old(currentBlock), b.hash)) ==>
                status.CanonStat? && currentBlock == b.hash
      ensures b.header.parent in old(hc.store) && c.terminal.None? &&
              Heavier(hc.store, hc.genesis, c, b.hash, old(currentBlock)) ==>
                status.SideStat? && currentBlock == old(currentBlock)
      ensures status.Failed? && b.header.parent in old(hc.store) ==>
                !BodiesToSwitch(hc.store, hc.genesis, bodies, old(currentBlock), b.hash) &&
                LeftFailing(hc.store, hc.genesis, bodies, old(Index()), old(hc.currentHeader), b.hash, k, Index(),
                            hc.currentHeader)
      ensures (old(LookupsRight()) && (b.hash in old(hc.store) ==> b.hash in old(bodies)) && !status.Failed? &&
               Unique(hc.store, hc.genesis, bodies, old(currentBlock)) &&
               Unique(hc.store, hc.genesis, bodies, b.hash)) ==> LookupsRight()
    {
      k := 0;
      var cur, new' := Sealed(currentBlock, hc.store[currentBlock]), Sealed(b.hash, b.header);
      var choice := ReorgNeededWithFastFinality(c, hc.store, hc.td, cur, new', coin);
      if choice.MissingTd? || choice.UnknownAncestor? {
        assert choice.MissingTd? ==> TdAt(hc.store, hc.genesis, hc.td, currentBlock);
        status := Failed;
        return;
      }
      ghost var s := hc.store;
      var ok := WriteBlockWithState(b);
      if !ok {
        status := Failed;
        return;
      }
      VerdictIsPrefers(c, s, hc.genesis, old(hc.td), cur, new', coin);
      TotalDifficultyFrame(s, hc.store, hc.genesis, currentBlock);
      HeavierIsChosen(hc.store, hc.genesis, c, currentBlock, b.hash, coin);
      if choice.Keep? {
        status := SideStat;
        return;
      }
      ok, k := WriteKnownBlock(b.hash);
      status := if ok then CanonStat else Failed;
    }

    // Writes the blocks of a side chain without state, carrying the total difficulty from block
    // to block. Stops at the first block that claims the state of the canonical block at its number,
    // with exactly those before it stored.
    method WriteSideChain(blocks: seq<Block>) returns (ok: bool, ghost n: nat)
      requires hc.Sound() && currentBlock in hc.store && SideBatch(hc.store, hc.genesis, bodies, blocks)
      modifies this`bodies, hc`store, hc`td
      ensures hc.Sound() && (old(Valid()) ==> Valid()) && GrownTo(old(hc.store), hc.store)
      ensures StopsAt(old(hc.store), old(bodies), hc.canon, currentBlock, blocks, n) && (ok <==> n == |blocks|)
      ensures hc.store == WithHeaders(old(hc.store), blocks, n) && bodies == WithBodies(old(bodies), blocks, n)
      ensures SideBatch(hc.store, hc.genesis, bodies, blocks)
      ensures old(LookupsRight() && Bodied(hc.store, bodies, blocks)) ==> LookupsRight()
    {
      ghost var s, bs := hc.store, bodies;
      var x;
      x, ok, n := WriteSideBlocks(Tables(hc.store, hc.td, bodies), hc.genesis, hc.canon, currentBlock, blocks);
      SideGrown(s, hc.genesis, bs, blocks, n);
      GrowFrame(x);
      hc.store, hc.td, bodies := x.store, x.td, x.bodies;
    }

    // Growing the tables disturbs neither the index nor the lookups.
    lemma {:induction false} GrowFrame(x: Tables)
      requires hc.Sound() && currentBlock in hc.store && Linked(x.store, hc.genesis) && GrownTo(hc.store, x.store)
      ensures PathMap(x.store, hc.genesis, hc.currentHeader) == PathMap(hc.store, hc.genesis, hc.currentHeader)
      ensures Canonical(currentBlock) ==> OnPathOf(x.store, hc.genesis, hc.currentHeader, currentBlock)
      ensures LookupsRight() && Remains(x.store, x.bodies, hc.store, bodies) ==>
                Indexed(x.store, hc.genesis, x.bodies, currentBlock, lookup)
    {
      PathFrame(hc.store, x.store, hc.genesis, hc.currentHeader);
      if Canonical(currentBlock) {
        AncestorFrame(hc.store, x.store, hc.genesis, hc.currentHeader, hc.store[currentBlock].number);
      }
      if Remains(x.store, x.bodies, hc.store, bodies) {
        IndexedFrame(hc.store, hc.genesis, bodies, currentBlock, lookup, x.store, x.bodies);
      }
    }

    /* Rewinding */

    // Rewinds the chain to a number or time. A head header that meets the target already leaves
    // everything as it is. Otherwise the head header becomes its highest ancestor that does,
    // everything above goes on all forks, and the head block ends as an ancestor of the head
    // header (or the header itself) with its state, unless it is genesis or was that low already: as
    // high as the last header that moved it allows, and without a root to look for and within the
    // search limit the highest of all. The lookups stay as they are, which is right exactly when the
    // blocks that left the head's path carry no transactions.
    method SetHeadBeyondRoot(target: Target, q: Search) returns (rootNumber: int)
      requires Valid() && Canonical(currentSnapBlock) && Done(target, hc.store[hc.genesis])
      modifies this`currentBlock, this`currentSnapBlock, this`states, this`bodies, hc
      ensures Valid() && Canonical(currentSnapBlock)
      ensures old(Done(target, hc.store[hc.currentHeader])) ==> Snapshot() == old(Snapshot())
      ensures old(!Done(target, hc.store[hc.currentHeader])) ==>
                RewoundChain(hc.genesis, target, q, old(Snapshot()), Snapshot())
      ensures old(!Done(target, hc.store[hc.currentHeader])) &&
              Unlimited(q, old(hc.store[hc.currentHeader].number)) ==>
                Following(old(hc.store), hc.genesis, hc.currentHeader, Usable(q, old(states)),
                          old(currentBlock), currentBlock)
      ensures old(!Done(target, hc.store[hc.currentHeader])) ==>
                RootFound(old(hc.store), hc.genesis, old(hc.currentHeader), q, old(Snapshot()).marks, Snapshot().marks,
                          rootNumber)
      ensures old(Done(target, hc.store[hc.currentHeader])) ==> rootNumber == 0
      ensures old(LookupsRight()) ==>
                (LookupsRight() <==> NothingAbove(old(hc.store), hc.genesis, old(bodies), old(currentBlock),
                                                  hc.store[currentBlock].number))
    {
      rootNumber := 0;
      if !Done(target, hc.store[hc.currentHeader]) {
        ghost var s, b, top, right := hc.store, bodies, hc.currentHeader, LookupsRight();
        var m := Marks(currentBlock, currentSnapBlock, states);
        rootNumber := RewindAndWipe(target, q, m);
        SettledIsBest(s, hc.genesis, top, hc.currentHeader, q, m, Snapshot().marks);
        if right {
          RewoundLookups(s, hc.genesis, top, b, m.block, hc.currentHeader, currentBlock, lookup, hc.store, bodies);
        }
      }
    }

    // Rewinds a chain whose head header does not meet the target.
    method RewindAndWipe(target: Target, q: Search, m: Marks) returns (rootNumber: int)
      requires Valid() && Canonical(currentSnapBlock) && Done(target, hc.store[hc.genesis])
      requires !Done(target, hc.store[hc.currentHeader]) && m == Marks(currentBlock, currentSnapBlock, states)
      modifies this`currentBlock, this`currentSnapBlock, this`states, this`bodies, hc
      ensures Valid() && Canonical(currentSnapBlock)
      ensures RewoundTo(old(hc.store), hc.genesis, old(hc.currentHeader), target, hc.currentHeader)
      ensures Done(target, old(hc.store)[hc.currentHeader])
      ensures hc.store == Headers.Below(old(hc.store), old(hc.store)[hc.currentHeader].number)
      ensures BodiesWiped(old(bodies), old(hc.store), bodies, hc.store)
      ensures Rewound(old(hc.store), hc.genesis, old(bodies), old(hc.currentHeader), hc.currentHeader, q, m,
                      Marks(currentBlock, currentSnapBlock, states))
      ensures RootFound(old(hc.store), hc.genesis, old(hc.currentHeader), q, m,
                        Marks(currentBlock, currentSnapBlock, states), rootNumber)
    {
      var header, m', nums;
      header, m', rootNumber, nums := RewindDown(hc.store, hc.genesis, bodies, hc.currentHeader, target, q, m);
      WipeAbove(header, m', nums);
    }

    // Stores the new head header and marks and flushes the deletions of a rewind: bodies, headers,
    // difficulties and index entries.
    method WipeAbove(header: Hash, m: Marks, nums: set<int>)
      requires hc.Valid() && header in hc.store && header != hc.currentHeader
      requires OnPathOf(hc.store, hc.genesis, hc.currentHeader, header) && MarksOn(hc.store, hc.genesis, header, m)
      requires Noted(hc.store, header, false, nums, hc.store[hc.currentHeader].number)
      modifies this`currentBlock, this`currentSnapBlock, this`states, this`bodies, hc
      ensures Valid() && Canonical(currentSnapBlock)
      ensures hc.currentHeader == header && Snapshot().marks == m
      ensures hc.store == Headers.Below(old(hc.store), old(hc.store)[header].number)
      ensures BodiesWiped(old(bodies), old(hc.store), bodies, hc.store)
    {
      ghost var s := hc.store;
      var kept := map h | h in bodies && (h !in hc.store || hc.store[h].number !in nums) :: bodies[h];
      hc.Flush(header, nums);
      bodies, currentBlock, currentSnapBlock, states := kept, m.block, m.snap, m.states;
      AncestorFrame(hc.store, s, hc.genesis, header, s[m.block].number);
      AncestorFrame(hc.store, s, hc.genesis, header, s[m.snap].number);
    }
  }
}
