/** Whole runs of the block chain: any sequence of imports, side chains, head moves and rewinds. */
module ChainRuns {
  import opened Headers
  import opened ForkChoice
  import opened HeaderChains
  import opened Reorganisation
  import opened BlockChains

  datatype Op =
    | Import(block: Block, coin: bool)
    | SideChain(blocks: seq<Block>)
    | MakeCanonical(hash: Hash)
    | Rewind(target: Target, q: Search)

  // All blocks that can ever be imported: linked headers with their bodies, in which no path
  // carries a transaction twice.
  ghost predicate Universe(u: Store, g: Hash, ub: Bodies) {
    && Linked(u, g) && ub.Keys == u.Keys
    && forall h :: h in u ==> Unique(u, g, ub, h)
  }

  // The operation brings in such blocks only, side chains parent before child.
  ghost predicate Drawn(op: Op, g: Hash, u: Store, ub: Bodies) {
    match op
    case Import(b, _) => DrawnFrom(b, g, u, ub)
    case SideChain(blocks) =>
      && (forall i :: 0 <= i < |blocks| ==> DrawnFrom(blocks[i], g, u, ub))
      && (forall i :: 0 < i < |blocks| ==> blocks[i].header.parent == blocks[i - 1].hash)
    case MakeCanonical(_) => true
    case Rewind(_, _) => true
  }

  lemma {:induction false} PartIsUnique(s: Store, g: Hash, bodies: Bodies, u: Store, ub: Bodies, h: Hash)
    requires Universe(u, g, ub) && Linked(s, g) && Part(s, bodies, u, ub) && h in s
    ensures Unique(s, g, bodies, h)
  {
    forall t, n: int
      ensures OnPath(s, g, bodies, h, t, n) <==> OnPath(u, g, ub, h, t, n)
    {
      if 0 <= n <= s[h].number { AncestorFrame(s, u, g, h, n); }
    }
    assert Unique(u, g, ub, h);
  }

  lemma {:induction false} DrawnIsImportable(s: Store, g: Hash, bodies: Bodies, u: Store, ub: Bodies, b: Block)
    requires Linked(u, g) && Linked(s, g) && Within(s, bodies, u, ub) && DrawnFrom(b, g, u, ub)
    ensures Importable(s, g, bodies, b)
    ensures Within(s[b.hash := b.header], bodies[b.hash := b.txs], u, ub)
    ensures Part(s, bodies, u, ub) ==> Part(s[b.hash := b.header], bodies[b.hash := b.txs], u, ub)
  {
    assert Attached(u, g, b.hash);
  }

  lemma {:induction false} RisingNumbers(u: Store, g: Hash, blocks: seq<Block>, ub: Bodies, i: nat, j: nat)
    requires Linked(u, g) && Drawn(SideChain(blocks), g, u, ub) && i <= j < |blocks|
    ensures blocks[j].header.number == blocks[i].header.number + j - i
  {
    if i < j {
      RisingNumbers(u, g, blocks, ub, i, j - 1);
      assert Attached(u, g, blocks[j].hash);
    }
  }

  lemma {:induction false} DrawnIsSideBatch(s: Store, g: Hash, bodies: Bodies, u: Store, ub: Bodies, blocks: seq<Block>)
    requires Linked(u, g) && Linked(s, g) && Within(s, bodies, u, ub) && Drawn(SideChain(blocks), g, u, ub)
    requires blocks != [] && blocks[0].header.parent in s
    ensures SideBatch(s, g, bodies, blocks)
  {
    forall i | 0 <= i < |blocks|
      ensures Linking(s, blocks, i)
    {
      assert Attached(u, g, blocks[i].hash);
      if i > 0 { RisingNumbers(u, g, blocks, ub, i - 1, i); }
    }
    forall i, j | 0 <= i < j < |blocks|
      ensures blocks[i].hash != blocks[j].hash
    {
      RisingNumbers(u, g, blocks, ub, i, j);
    }
  }

  lemma {:induction false} DrawnStaysWithin(s: Store, bodies: Bodies, g: Hash, u: Store, ub: Bodies, blocks: seq<Block>,
                                            n: nat)
    requires Within(s, bodies, u, ub) && Drawn(SideChain(blocks), g, u, ub) && n <= |blocks|
    ensures Within(WithHeaders(s, blocks, n), WithBodies(bodies, blocks, n), u, ub)
    ensures Part(s, bodies, u, ub) ==> Part(WithHeaders(s, blocks, n), WithBodies(bodies, blocks, n), u, ub)
  {
    if n > 0 {
      DrawnStaysWithin(s, bodies, g, u, ub, blocks, n - 1);
      assert DrawnFrom(blocks[n - 1], g, u, ub);
    }
  }

  lemma {:induction false} WipedIsPart(s: Store, bodies: Bodies, s': Store, bodies': Bodies, u: Store, ub: Bodies)
    requires Part(s, bodies, u, ub) && (forall h :: h in s' ==> h in s && s'[h] == s[h])
    requires BodiesWiped(bodies, s, bodies', s')
    ensures Part(s', bodies', u, ub)
  {
  }

  ghost function HeadRank(u: Store, g: Hash, c: Chooser, h: Hash): Rank
    requires Linked(u, g) && h in u
  {
    RankOf(c, TotalDifficulty(u, g, h), Sealed(h, u[h]))
  }

  // A head the chooser picked is ranked no worse than the one it replaced.
  lemma {:induction false} ChosenRank(s: Store, g: Hash, u: Store, c: Chooser, cur: Hash, h: Hash, coin: bool)
    requires Linked(s, g) && Linked(u, g) && cur in s && h in s && (forall k :: k in s ==> k in u && s[k] == u[k])
    requires c.terminal.None? && c.preserve.None? && Chosen(s, g, c, cur, h, coin)
    ensures NoWorse(HeadRank(u, g, c, cur), HeadRank(u, g, c, h))
  {
    TotalDifficultyFrame(s, u, g, cur);
    TotalDifficultyFrame(s, u, g, h);
    SwitchRaisesRank(c, TotalDifficulty(s, g, cur), TotalDifficulty(s, g, h), Sealed(cur, s[cur]), Sealed(h, s[h]),
                     coin);
  }

  /* What each operation does */

  // The index is the head header's path, and the head and snap blocks lie on it.
  ghost predicate Orderly(x: ChainState, g: Hash) {
    && Linked(x.store, g) && x.header in x.store && x.canon == PathMap(x.store, g, x.header)
    && MarksOn(x.store, g, x.header, x.marks)
  }

  function Stored(x: ChainState, b: Block): ChainState {
    x.(store := x.store[b.hash := b.header], bodies := x.bodies[b.hash := b.txs],
       marks := x.marks.(states := x.marks.states + {b.header.root}))
  }

  // All markers are at the block; index and lookups are those that go with it.
  ghost predicate MadeHead(x: ChainState, h: Hash, y: ChainState) {
    if h !in x.store then y == x
    else y == x.(canon := y.canon, lookup := y.lookup, header := h, marks := Marks(h, h, x.marks.states))
  }

  // A block with a known parent is stored with its state, and made the head if it is chosen.
  ghost predicate Imported(x: ChainState, g: Hash, c: Chooser, b: Block, coin: bool, y: ChainState) {
    if b.header.parent !in x.store then y == x
    else
      && y.store == Stored(x, b).store && Linked(y.store, g) && x.marks.block in y.store
      && if Chosen(y.store, g, c, x.marks.block, b.hash, coin) then MadeHead(Stored(x, b), b.hash, y)
         else y == Stored(x, b)
  }

  // Exactly the blocks before the first that shadows are stored.
  ghost predicate SideImported(x: ChainState, blocks: seq<Block>, y: ChainState) {
    if blocks == [] || blocks[0].header.parent !in x.store then y == x
    else exists n ::
      && StopsAt(x.store, x.bodies, x.canon, x.marks.block, blocks, n)
      && y == x.(store := WithHeaders(x.store, blocks, n), bodies := WithBodies(x.bodies, blocks, n))
  }

  // Rewinding below the time of genesis is refused.
  ghost predicate RewoundBy(x: ChainState, g: Hash, target: Target, q: Search, y: ChainState)
    requires Orderly(x, g)
  {
    if !Done(target, x.store[g]) || Done(target, x.store[x.header]) then y == x else RewoundChain(g, target, q, x, y)
  }

  ghost predicate Effect(x: ChainState, g: Hash, c: Chooser, op: Op, y: ChainState)
    requires Orderly(x, g)
  {
    match op
    case Import(b, coin) => Imported(x, g, c, b, coin, y)
    case SideChain(blocks) => SideImported(x, blocks, y)
    case MakeCanonical(h) => MadeHead(x, h, y)
    case Rewind(target, q) => RewoundBy(x, g, target, q, y)
  }

  // A run as the sequence of states it went through, each operation having its effect on orderly
  // tables of known headers.
  ghost predicate RunOf(trace: seq<ChainState>, g: Hash, c: Chooser, ops: seq<Op>, k: nat, u: Store) {
    && |trace| == k + 1 && k <= |ops| && Orderly(trace[k], g) && InTable(trace[k], u)
    && forall i {:trigger RunStep(trace, g, c, ops, i, u)} :: 0 <= i < k ==> RunStep(trace, g, c, ops, i, u)
  }

  ghost predicate RunStep(trace: seq<ChainState>, g: Hash, c: Chooser, ops: seq<Op>, i: nat, u: Store)
    requires i + 1 < |trace| && i < |ops|
  {
    Orderly(trace[i], g) && InTable(trace[i], u) && Effect(trace[i], g, c, ops[i], trace[i + 1])
  }

  ghost predicate InTable(x: ChainState, u: Store) {
    forall h :: h in x.store ==> h in u && x.store[h] == u[h]
  }

  lemma {:induction false} RunOn(trace: seq<ChainState>, g: Hash, c: Chooser, ops: seq<Op>, k: nat, u: Store,
                                 y: ChainState)
    requires RunOf(trace, g, c, ops, k, u) && k < |ops| && Effect(trace[k], g, c, ops[k], y)
    requires Orderly(y, g) && InTable(y, u)
    ensures RunOf(trace + [y], g, c, ops, k + 1, u)
  {
    var trace' := trace + [y];
    forall i | 0 <= i < k + 1
      ensures RunStep(trace', g, c, ops, i, u)
    {
      if i < k { assert RunStep(trace, g, c, ops, i, u); }
    }
  }

  // An import or a side chain never lowers the rank of the head.
  lemma {:induction false} EffectRank(x: ChainState, g: Hash, c: Chooser, op: Op, y: ChainState, u: Store)
    requires Orderly(x, g) && Orderly(y, g) && Effect(x, g, c, op, y) && (op.Import? || op.SideChain?)
    requires Linked(u, g) && InTable(x, u) && InTable(y, u) && c.terminal.None? && c.preserve.None?
    ensures NoWorse(HeadRank(u, g, c, x.marks.block), HeadRank(u, g, c, y.marks.block))
  {
    if op.Import? && y.marks.block != x.marks.block {
      ChosenRank(y.store, g, u, c, x.marks.block, op.block.hash, op.coin);
    }
  }

  // Nor does any number of them.
  lemma {:induction false} RunFrom(trace: seq<ChainState>, g: Hash, c: Chooser, ops: seq<Op>, k: nat, u: Store, i: nat)
    requires RunOf(trace, g, c, ops, k, u) && forall j :: 0 <= j < k ==> ops[j].Import? || ops[j].SideChain?
    requires Linked(u, g) && c.terminal.None? && c.preserve.None? && i <= k
    ensures Orderly(trace[i], g) && InTable(trace[i], u)
    ensures NoWorse(HeadRank(u, g, c, trace[i].marks.block), HeadRank(u, g, c, trace[k].marks.block))
    decreases k - i
  {
    if i < k {
      assert RunStep(trace, g, c, ops, i, u);
      RunFrom(trace, g, c, ops, k, u, i + 1);
      EffectRank(trace[i], g, c, ops[i], trace[i + 1], u);
      NoWorseIsTotalOrder(HeadRank(u, g, c, trace[i].marks.block), HeadRank(u, g, c, trace[i + 1].marks.block),
                          HeadRank(u, g, c, trace[k].marks.block));
    }
  }

  // An imported block that outweighs the head becomes the head, one that the head outweighs does not.
  lemma {:induction false} ImportDecides(x: ChainState, g: Hash, c: Chooser, b: Block, coin: bool, y: ChainState)
    requires Orderly(x, g) && Imported(x, g, c, b, coin, y) && b.header.parent in x.store
    ensures Linked(y.store, g) && b.hash in y.store && x.marks.block in y.store
    ensures Heavier(y.store, g, c, x.marks.block, b.hash) ==> y.marks == Marks(b.hash, b.hash, y.marks.states)
    ensures c.terminal.None? && Heavier(y.store, g, c, b.hash, x.marks.block) ==> y.marks.block == x.marks.block
  {
    HeavierIsChosen(y.store, g, c, x.marks.block, b.hash, coin);
  }

  // Without hook and terminal difficulty the head after an import ranks no worse than the block.
  lemma {:induction false} ImportRank(x: ChainState, g: Hash, c: Chooser, b: Block, coin: bool, y: ChainState, u: Store)
    requires Orderly(x, g) && Orderly(y, g) && Imported(x, g, c, b, coin, y) && b.header.parent in x.store
    requires Linked(u, g) && InTable(y, u) && c.terminal.None? && c.preserve.None?
    ensures b.hash in u && NoWorse(HeadRank(u, g, c, b.hash), HeadRank(u, g, c, y.marks.block))
  {
    var s, cur := y.store, x.marks.block;
    TotalDifficultyFrame(s, u, g, cur);
    TotalDifficultyFrame(s, u, g, b.hash);
    var r, r' := HeadRank(u, g, c, cur), HeadRank(u, g, c, b.hash);
    if r != r' {
      RankDecides(c, r.td, r'.td, Sealed(cur, s[cur]), Sealed(b.hash, s[b.hash]), coin);
    }
  }

  // After a run of imports and side chains the head ranks no worse than any block imported on the
  // way under a known parent.
  lemma {:induction false} HeadIsBest(trace: seq<ChainState>, g: Hash, c: Chooser, ops: seq<Op>, k: nat, u: Store,
                                      i: nat)
    requires RunOf(trace, g, c, ops, k, u) && forall j :: 0 <= j < k ==> ops[j].Import? || ops[j].SideChain?
    requires Linked(u, g) && c.terminal.None? && c.preserve.None?
    requires i < k && ops[i].Import? && ops[i].block.header.parent in trace[i].store
    ensures ops[i].block.hash in u
    ensures NoWorse(HeadRank(u, g, c, ops[i].block.hash), HeadRank(u, g, c, trace[k].marks.block))
  {
    RunFrom(trace, g, c, ops, k, u, i + 1);
    assert RunStep(trace, g, c, ops, i, u);
    ImportRank(trace[i], g, c, ops[i].block, ops[i].coin, trace[i + 1], u);
    NoWorseIsTotalOrder(HeadRank(u, g, c, ops[i].block.hash), HeadRank(u, g, c, trace[i + 1].marks.block),
                        HeadRank(u, g, c, trace[k].marks.block));
  }

  /* What every operation keeps */

  ghost predicate Whole(bc: BlockChain, u: Store, ub: Bodies)
    reads bc, bc.hc
  {
    && Universe(u, bc.hc.genesis, ub) && bc.hc.Sound() && bc.currentBlock in bc.hc.store
    && Part(bc.hc.store, bc.bodies, u, ub)
  }

  // What holds between two operations.
  ghost predicate Kept(bc: BlockChain, u: Store, ub: Bodies)
    reads bc, bc.hc
  {
    Whole(bc, u, ub) && bc.Valid() && bc.Canonical(bc.currentSnapBlock)
  }

  // The block would go on top of the head block although header markers reach above it.
  predicate Undercuts(bc: BlockChain, parent: Hash, number: nat)
    requires bc.hc.currentHeader in bc.hc.store
    reads bc, bc.hc
  {
    parent == bc.currentBlock && number < bc.hc.store[bc.hc.currentHeader].number
  }

  predicate Awkward(bc: BlockChain, op: Op)
    requires bc.hc.currentHeader in bc.hc.store
    reads bc, bc.hc
  {
    match op
    case Import(b, _) => Undercuts(bc, b.header.parent, b.header.number)
    case MakeCanonical(h) => h in bc.hc.store && Undercuts(bc, bc.hc.store[h].parent, bc.hc.store[h].number)
    case SideChain(_) => false
    case Rewind(_, _) => false
  }

  method ImportOne(bc: BlockChain, b: Block, coin: bool, c: Chooser, ghost u: Store, ghost ub: Bodies)
    requires Kept(bc, u, ub) && DrawnFrom(b, bc.hc.genesis, u, ub)
    modifies bc, bc.hc
    ensures Whole(bc, u, ub)
    ensures Imported(old(bc.Snapshot()), bc.hc.genesis, c, b, coin, bc.Snapshot())
    ensures !old(Undercuts(bc, b.header.parent, b.header.number)) ==> Kept(bc, u, ub)
    ensures old(Undercuts(bc, b.header.parent, b.header.number)) ==>
              && b.hash in bc.hc.store
              && (Kept(bc, u, ub) <==> !Chosen(bc.hc.store, bc.hc.genesis, c, old(bc.currentBlock), b.hash, coin))
    ensures old(bc.AtHead()) ==> bc.AtHead()
    ensures old(bc.LookupsRight()) ==> bc.LookupsRight()
  {
    ghost var g, s, cur := bc.hc.genesis, bc.hc.store, bc.currentBlock;
    ghost var undercut := Undercuts(bc, b.header.parent, b.header.number);
    DrawnIsImportable(s, g, bc.bodies, u, ub, b);
    var status;
    ghost var k;
    status, k := bc.WriteBlockAndSetHead(b, c, coin);
    if b.header.parent in s {
      PartIsUnique(bc.hc.store, g, bc.bodies, u, ub, cur);
      PartIsUnique(bc.hc.store, g, bc.bodies, u, ub, b.hash);
      if status.CanonStat? {
        assert bc.Valid() <==> !undercut;
      } else {
        assert status.SideStat?;
        assert bc.hc.canon[s[bc.currentSnapBlock].number] == bc.currentSnapBlock;
      }
    }
  }

  // Only links and difficulties need to be right for a side chain to be stored.
  method StoreSideChain(bc: BlockChain, blocks: seq<Block>, ghost u: Store, ghost ub: Bodies)
    requires bc.hc.Sound() && bc.currentBlock in bc.hc.store && Linked(u, bc.hc.genesis)
    requires Within(bc.hc.store, bc.bodies, u, ub) && Drawn(SideChain(blocks), bc.hc.genesis, u, ub)
    modifies bc`bodies, bc.hc`store, bc.hc`td
    ensures bc.hc.Sound() && Within(bc.hc.store, bc.bodies, u, ub) && GrownTo(old(bc.hc.store), bc.hc.store)
    ensures SideImported(old(bc.Snapshot()), blocks, bc.Snapshot())
    ensures old(bc.Valid()) ==> bc.Valid()
    ensures old(Part(bc.hc.store, bc.bodies, u, ub)) ==> Part(bc.hc.store, bc.bodies, u, ub)
    ensures old(Part(bc.hc.store, bc.bodies, u, ub) && bc.LookupsRight()) ==> bc.LookupsRight()
  {
    if blocks != [] && blocks[0].header.parent in bc.hc.store {
      DrawnIsSideBatch(bc.hc.store, bc.hc.genesis, bc.bodies, u, ub, blocks);
      var ok;
      ghost var n;
      ok, n := bc.WriteSideChain(blocks);
      DrawnStaysWithin(old(bc.hc.store), old(bc.bodies), bc.hc.genesis, u, ub, blocks, n);
    }
  }

  method ImportSideChain(bc: BlockChain, blocks: seq<Block>, ghost u: Store, ghost ub: Bodies)
    requires Kept(bc, u, ub) && Drawn(SideChain(blocks), bc.hc.genesis, u, ub)
    modifies bc, bc.hc
    ensures Kept(bc, u, ub)
    ensures SideImported(old(bc.Snapshot()), blocks, bc.Snapshot())
    ensures old(bc.AtHead()) ==> bc.AtHead()
    ensures old(bc.LookupsRight()) ==> bc.LookupsRight()
  {
    StoreSideChain(bc, blocks, u, ub);
    assert bc.hc.canon[bc.hc.store[bc.currentSnapBlock].number] == bc.currentSnapBlock;
  }

  method MakeHead(bc: BlockChain, h: Hash, ghost u: Store, ghost ub: Bodies)
    requires Kept(bc, u, ub) && h in bc.hc.store
    modifies bc, bc.hc
    ensures Whole(bc, u, ub) && MadeHead(old(bc.Snapshot()), h, bc.Snapshot())
    ensures Kept(bc, u, ub) <==> !old(Undercuts(bc, bc.hc.store[h].parent, bc.hc.store[h].number))
    ensures Kept(bc, u, ub) ==> bc.AtHead()
    ensures old(bc.LookupsRight()) ==> bc.LookupsRight()
  {
    PartIsUnique(bc.hc.store, bc.hc.genesis, bc.bodies, u, ub, bc.currentBlock);
    PartIsUnique(bc.hc.store, bc.hc.genesis, bc.bodies, u, ub, h);
    var ok;
    ghost var k;
    ok, k := bc.WriteKnownBlock(h);
    assert ok;
  }

  method RewindTo(bc: BlockChain, target: Target, q: Search, ghost u: Store, ghost ub: Bodies)
    requires Kept(bc, u, ub)
    modifies bc, bc.hc
    ensures Kept(bc, u, ub)
    ensures RewoundBy(old(bc.Snapshot()), bc.hc.genesis, target, q, bc.Snapshot())
    ensures old(bc.LookupsRight()) ==>
              (bc.LookupsRight() <==>
               NothingAbove(old(bc.hc.store), bc.hc.genesis, old(bc.bodies), old(bc.currentBlock),
                            bc.hc.store[bc.currentBlock].number))
  {
    if Done(target, bc.hc.store[bc.hc.genesis]) {
      ghost var s, bodies := bc.hc.store, bc.bodies;
      var rootNumber := bc.SetHeadBeyondRoot(target, q);
      WipedIsPart(s, bodies, bc.hc.store, bc.bodies, u, ub);
    }
  }

  method Step(bc: BlockChain, op: Op, c: Chooser, ghost u: Store, ghost ub: Bodies)
    requires Kept(bc, u, ub) && Drawn(op, bc.hc.genesis, u, ub)
    modifies bc, bc.hc
    ensures Whole(bc, u, ub) && (!old(Awkward(bc, op)) ==> Kept(bc, u, ub))
    ensures Effect(old(bc.Snapshot()), bc.hc.genesis, c, op, bc.Snapshot())
    ensures !op.Rewind? && old(bc.AtHead()) ==> bc.AtHead()
    ensures !op.Rewind? && old(bc.LookupsRight()) ==> bc.LookupsRight()
  {
    match op
    case Import(b, coin) => ImportOne(bc, b, coin, c, u, ub);
    case SideChain(blocks) => ImportSideChain(bc, blocks, u, ub);
    case MakeCanonical(h) =>
      if h in bc.hc.store {
        assert Attached(bc.hc.store, bc.hc.genesis, h);
        MakeHead(bc, h, u, ub);
      }
    case Rewind(target, q) => RewindTo(bc, target, q, u, ub);
  }

  // After every run of imports, side chains, head moves and rewinds, each of which has had its
  // effect, the canonical index is exactly the head header's path, the head block lies on it and
  // every difficulty is the path sum. A run can only be stopped by a block put on top of the head
  // block below the header head, which takes a rewind before it. Without rewinds the head block is
  // the head header and the lookups are exactly its transactions, and imports and side chains alone
  // never lower the head's rank.
  method Run(bc: BlockChain, ops: seq<Op>, c: Chooser, ghost u: Store, ghost ub: Bodies)
    returns (k: nat, ghost trace: seq<ChainState>)
    requires Kept(bc, u, ub) && forall i :: 0 <= i < |ops| ==> Drawn(ops[i], bc.hc.genesis, u, ub)
    modifies bc, bc.hc
    ensures Kept(bc, u, ub) && k <= |ops| && (k < |ops| ==> Awkward(bc, ops[k]))
    ensures RunOf(trace, bc.hc.genesis, c, ops, k, u) && trace[0] == old(bc.Snapshot()) && trace[k] == bc.Snapshot()
    ensures (forall i :: 0 <= i < |ops| ==> !ops[i].Rewind?) ==>
              && (old(bc.AtHead()) ==> k == |ops| && bc.AtHead())
              && (old(bc.LookupsRight()) ==> bc.LookupsRight())
    ensures c.terminal.None? && c.preserve.None? &&
            (forall i :: 0 <= i < |ops| ==> ops[i].Import? || ops[i].SideChain?) ==>
              NoWorse(HeadRank(u, bc.hc.genesis, c, old(bc.currentBlock)),
                      HeadRank(u, bc.hc.genesis, c, bc.currentBlock))
  {
    k, trace := 0, [bc.Snapshot()];
    ghost var forward := forall i :: 0 <= i < |ops| ==> !ops[i].Rewind?;
    while k < |ops| && !Awkward(bc, ops[k])
      invariant Kept(bc, u, ub) && k <= |ops|
      invariant RunOf(trace, bc.hc.genesis, c, ops, k, u) && trace[0] == old(bc.Snapshot()) && trace[k] == bc.Snapshot()
      invariant forward && old(bc.AtHead()) ==> bc.AtHead()
      invariant forward && old(bc.LookupsRight()) ==> bc.LookupsRight()
    {
      Step(bc, ops[k], c, u, ub);
      RunOn(trace, bc.hc.genesis, c, ops, k, u, bc.Snapshot());
      k, trace := k + 1, trace + [bc.Snapshot()];
    }
    if k < |ops| && bc.AtHead() {
      NotAwkward(bc, ops[k], u, ub);
    }
    if c.terminal.None? && c.preserve.None? && forall i :: 0 <= i < |ops| ==> ops[i].Import? || ops[i].SideChain? {
      RunFrom(trace, bc.hc.genesis, c, ops, k, u, 0);
    }
  }

  // On a chain whose head block is its head header nothing is awkward.
  lemma {:induction false} NotAwkward(bc: BlockChain, op: Op, u: Store, ub: Bodies)
    requires Kept(bc, u, ub) && bc.AtHead() && Drawn(op, bc.hc.genesis, u, ub)
    ensures !Awkward(bc, op)
  {
    match op
    case Import(b, _) => assert Attached(u, bc.hc.genesis, b.hash);
    case MakeCanonical(h) => if h in bc.hc.store { assert Attached(bc.hc.store, bc.hc.genesis, h); }
    case SideChain(_) =>
    case Rewind(_, _) =>
  }

  /* Runs of the header chain alone */

  datatype HeaderOp = Write(batch: seq<Sealed>, coin: bool, interrupted: bool) | Cut(target: Target)

  datatype HeaderState = HeaderState(store: Store, canon: map<int, Hash>, header: Hash)

  function HeaderSnapshot(hc: HeaderChain): HeaderState
    reads hc
  {
    HeaderState(hc.store, hc.canon, hc.currentHeader)
  }

  ghost predicate BatchFrom(batch: seq<Sealed>, u: Store) {
    && Contiguous(batch)
    && forall i :: 0 <= i < |batch| ==> batch[i].hash in u && u[batch[i].hash] == batch[i].header
  }

  ghost predicate HeadersFrom(op: HeaderOp, u: Store) {
    op.Write? ==> op.batch != [] && BatchFrom(op.batch, u)
  }

  lemma {:induction false} BatchNumbers(b: seq<Sealed>, i: nat, j: nat)
    requires Contiguous(b) && i <= j < |b|
    ensures b[j].header.number == b[i].header.number + j - i
  {
    if i < j {
      BatchNumbers(b, i, j - 1);
      assert Child(b, j);
    }
  }

  lemma {:induction false} DrawnIsCollisionFree(s: Store, u: Store, batch: seq<Sealed>)
    requires NO_HASH !in u && (forall h :: h in s ==> h in u && s[h] == u[h]) && BatchFrom(batch, u)
    ensures CollisionFree(s, batch)
  {
    forall i, j | 0 <= i < j < |batch|
      ensures batch[i].hash != batch[j].hash
    {
      BatchNumbers(batch, i, j);
    }
  }

  lemma {:induction false} BatchStaysWithin(s: Store, bodies: Bodies, u: Store, ub: Bodies, batch: seq<Sealed>,
                                            s': Store)
    requires Within(s, bodies, u, ub) && BatchFrom(batch, u) && GrewBy(s, s', batch)
    ensures Within(s', bodies, u, ub) && (batch == [] ==> s' == s)
  {
  }

  // The first header of the batch has its parent in the table.
  predicate Rooted(s: Store, batch: seq<Sealed>)
    requires batch != []
  {
    GetHeader(s, batch[0].header.parent, batch[0].header.number - 1).Some?
  }

  // A batch that is rooted and not interrupted is stored as a whole, and its last header becomes the
  // head if it is chosen and not canonical already. A rewind goes to the highest ancestor that meets
  // the target and drops everything above.
  ghost predicate HeaderEffect(x: HeaderState, g: Hash, c: Chooser, op: HeaderOp, y: HeaderState)
    requires Linked(x.store, g) && x.header in x.store && (op.Write? ==> op.batch != [])
  {
    match op
    case Write(batch, coin, interrupted) =>
      if interrupted || !Rooted(x.store, batch) then y == x
      else
        var last := batch[|batch| - 1].hash;
        && GrewBy(x.store, y.store, batch) && Linked(y.store, g) && last in y.store
        && y.header == if Chosen(y.store, g, c, x.header, last, coin) && !OnPathOf(y.store, g, x.header, last)
                       then last else x.header
    case Cut(target) =>
      if !Done(target, x.store[g]) || Done(target, x.store[x.header]) then y == x
      else
        && RewoundTo(x.store, g, x.header, target, y.header) && Done(target, x.store[y.header])
        && y.store == Headers.Below(x.store, x.store[y.header].number)
  }

  ghost predicate HeaderRunOf(trace: seq<HeaderState>, g: Hash, c: Chooser, ops: seq<HeaderOp>, n: nat) {
    && |trace| == n + 1 && n <= |ops|
    && forall i {:trigger HeaderRunStep(trace, g, c, ops, i)} :: 0 <= i < n ==> HeaderRunStep(trace, g, c, ops, i)
  }

  ghost predicate HeaderRunStep(trace: seq<HeaderState>, g: Hash, c: Chooser, ops: seq<HeaderOp>, i: nat)
    requires i + 1 < |trace| && i < |ops|
  {
    && Linked(trace[i].store, g) && trace[i].header in trace[i].store && (ops[i].Write? ==> ops[i].batch != [])
    && HeaderEffect(trace[i], g, c, ops[i], trace[i + 1])
  }

  lemma {:induction false} HeaderRunOn(trace: seq<HeaderState>, g: Hash, c: Chooser, ops: seq<HeaderOp>, n: nat,
                                       y: HeaderState)
    requires HeaderRunOf(trace, g, c, ops, n) && n < |ops| && (ops[n].Write? ==> ops[n].batch != [])
    requires Linked(trace[n].store, g) && trace[n].header in trace[n].store && HeaderEffect(trace[n], g, c, ops[n], y)
    ensures HeaderRunOf(trace + [y], g, c, ops, n + 1)
  {
    var trace' := trace + [y];
    forall i | 0 <= i < n + 1
      ensures HeaderRunStep(trace', g, c, ops, i)
    {
      if i < n { assert HeaderRunStep(trace, g, c, ops, i); }
    }
  }

  // After every run of header batches, known, partly known or interrupted, and rewinds, each of
  // which has had its effect, the index is exactly the head header's path and every difficulty is
  // the path sum; batches alone never lower the head's rank.
  method HeaderRun(hc: HeaderChain, ops: seq<HeaderOp>, c: Chooser, ghost u: Store)
    returns (ghost trace: seq<HeaderState>)
    requires hc.Valid() && Linked(u, hc.genesis) && (forall h :: h in hc.store ==> h in u && hc.store[h] == u[h])
    requires forall i :: 0 <= i < |ops| ==> HeadersFrom(ops[i], u)
    modifies hc
    ensures hc.Valid() && forall h :: h in hc.store ==> h in u && hc.store[h] == u[h]
    ensures HeaderRunOf(trace, hc.genesis, c, ops, |ops|)
    ensures trace[0] == old(HeaderSnapshot(hc)) && trace[|ops|] == HeaderSnapshot(hc)
    ensures (c.terminal.None? && c.preserve.None? && forall i :: 0 <= i < |ops| ==> ops[i].Write?) ==>
              NoWorse(HeadRank(u, hc.genesis, c, old(hc.currentHeader)), HeadRank(u, hc.genesis, c, hc.currentHeader))
  {
    ghost var writing := forall i :: 0 <= i < |ops| ==> ops[i].Write?;
    trace := [HeaderSnapshot(hc)];
    for k := 0 to |ops|
      invariant hc.Valid() && forall h :: h in hc.store ==> h in u && hc.store[h] == u[h]
      invariant HeaderRunOf(trace, hc.genesis, c, ops, k)
      invariant trace[0] == old(HeaderSnapshot(hc)) && trace[k] == HeaderSnapshot(hc)
      invariant c.terminal.None? && c.preserve.None? && writing ==>
                  NoWorse(HeadRank(u, hc.genesis, c, old(hc.currentHeader)),
                          HeadRank(u, hc.genesis, c, hc.currentHeader))
    {
      HeaderStep(hc, ops[k], c, u);
      HeaderRunOn(trace, hc.genesis, c, ops, k, HeaderSnapshot(hc));
      trace := trace + [HeaderSnapshot(hc)];
    }
  }

  method HeaderStep(hc: HeaderChain, op: HeaderOp, c: Chooser, ghost u: Store)
    requires hc.Valid() && Linked(u, hc.genesis) && (forall h :: h in hc.store ==> h in u && hc.store[h] == u[h])
    requires HeadersFrom(op, u)
    modifies hc
    ensures hc.Valid() && forall h :: h in hc.store ==> h in u && hc.store[h] == u[h]
    ensures HeaderEffect(old(HeaderSnapshot(hc)), hc.genesis, c, op, HeaderSnapshot(hc))
    ensures op.Write? && c.terminal.None? && c.preserve.None? ==>
              NoWorse(HeadRank(u, hc.genesis, c, old(hc.currentHeader)), HeadRank(u, hc.genesis, c, hc.currentHeader))
  {
    ghost var s, cur := hc.store, hc.currentHeader;
    match op
    case Write(batch, coin, interrupted) =>
      DrawnIsCollisionFree(s, u, batch);
      TotalDifficultyFrame(s, u, hc.genesis, cur);
      var status := hc.WriteHeadersAndSetHead(batch, c, coin, interrupted);
      if !status.Failed? {
        BatchStaysWithin(s, map[], u, map[], batch, hc.store);
      }
      TotalDifficultyFrame(hc.store, u, hc.genesis, hc.currentHeader);
    case Cut(target) =>
      // Rewinding below the time of genesis is refused.
      if Done(target, hc.store[hc.genesis]) {
        hc.SetHead(target);
      }
  }

  /* Runs of all the writers of the header and difficulty tables */

  datatype TableOp =
    | WriteBatch(batch: seq<Sealed>, interrupted: bool)
    | WriteBlock(block: Block)
    | WriteSide(blocks: seq<Block>)

  ghost predicate TableDrawn(op: TableOp, g: Hash, u: Store, ub: Bodies) {
    match op
    case WriteBatch(batch, _) => BatchFrom(batch, u)
    case WriteBlock(b) => DrawnFrom(b, g, u, ub)
    case WriteSide(blocks) => Drawn(SideChain(blocks), g, u, ub)
  }

  ghost predicate TableEffect(x: ChainState, op: TableOp, y: ChainState) {
    match op
    case WriteBatch(batch, interrupted) =>
      if batch == [] || interrupted || !Rooted(x.store, batch) then y == x
      else GrewBy(x.store, y.store, batch) && y == x.(store := y.store)
    case WriteBlock(b) => y == if b.header.parent in x.store then Stored(x, b) else x
    case WriteSide(blocks) => SideImported(x, blocks, y)
  }

  // What the writers keep: links, every difficulty the path sum, and no header or body made up. The
  // canonical index may be anything.
  ghost predicate TablesKept(bc: BlockChain, u: Store, ub: Bodies)
    reads bc, bc.hc
  {
    && bc.hc.Sound() && bc.currentBlock in bc.hc.store && Linked(u, bc.hc.genesis)
    && Within(bc.hc.store, bc.bodies, u, ub)
  }

  method StoreBatch(bc: BlockChain, batch: seq<Sealed>, interrupted: bool, ghost u: Store, ghost ub: Bodies)
    requires TablesKept(bc, u, ub) && BatchFrom(batch, u)
    modifies bc.hc`store, bc.hc`td
    ensures TablesKept(bc, u, ub) && TableEffect(old(bc.Snapshot()), WriteBatch(batch, interrupted), bc.Snapshot())
  {
    DrawnIsCollisionFree(bc.hc.store, u, batch);
    ghost var s := bc.hc.store;
    var r := bc.hc.WriteHeaders(batch, interrupted);
    if r.Inserted? {
      BatchStaysWithin(s, bc.bodies, u, ub, batch, bc.hc.store);
    }
  }

  method StoreBlock(bc: BlockChain, b: Block, ghost u: Store, ghost ub: Bodies)
    requires TablesKept(bc, u, ub) && DrawnFrom(b, bc.hc.genesis, u, ub)
    modifies bc`bodies, bc`states, bc.hc`store, bc.hc`td
    ensures TablesKept(bc, u, ub) && TableEffect(old(bc.Snapshot()), WriteBlock(b), bc.Snapshot())
  {
    DrawnIsImportable(bc.hc.store, bc.hc.genesis, bc.bodies, u, ub, b);
    var ok := bc.WriteBlockWithState(b);
  }

  method WriteTables(bc: BlockChain, op: TableOp, ghost u: Store, ghost ub: Bodies)
    requires TablesKept(bc, u, ub) && TableDrawn(op, bc.hc.genesis, u, ub)
    modifies bc`bodies, bc`states, bc.hc`store, bc.hc`td
    ensures TablesKept(bc, u, ub) && TableEffect(old(bc.Snapshot()), op, bc.Snapshot())
  {
    match op
    case WriteBatch(batch, interrupted) => StoreBatch(bc, batch, interrupted, u, ub);
    case WriteBlock(b) => StoreBlock(bc, b, u, ub);
    case WriteSide(blocks) => StoreSideChain(bc, blocks, u, ub);
  }

  ghost predicate TableStep(trace: seq<ChainState>, ops: seq<TableOp>, i: nat)
    requires i + 1 < |trace| && i < |ops|
  {
    TableEffect(trace[i], ops[i], trace[i + 1])
  }

  // Whatever header batches, blocks and side chains are written in whatever order, and wherever the
  // canonical index points meanwhile, every stored difficulty is the sum along the path to genesis.
  method TableRun(bc: BlockChain, ops: seq<TableOp>, ghost u: Store, ghost ub: Bodies)
    returns (ghost trace: seq<ChainState>)
    requires TablesKept(bc, u, ub) && forall i :: 0 <= i < |ops| ==> TableDrawn(ops[i], bc.hc.genesis, u, ub)
    modifies bc`bodies, bc`states, bc.hc`store, bc.hc`td
    ensures TablesKept(bc, u, ub)
    ensures |trace| == |ops| + 1 && trace[0] == old(bc.Snapshot()) && trace[|ops|] == bc.Snapshot()
    ensures forall i :: 0 <= i < |ops| ==> TableStep(trace, ops, i)
  {
    trace := [bc.Snapshot()];
    for k := 0 to |ops|
      invariant TablesKept(bc, u, ub)
      invariant |trace| == k + 1 && trace[0] == old(bc.Snapshot()) && trace[k] == bc.Snapshot()
      invariant forall i :: 0 <= i < k ==> TableStep(trace, ops, i)
    {
      WriteTables(bc, ops[k], u, ub);
      ghost var longer := trace + [bc.Snapshot()];
      assert forall i :: 0 <= i < k ==> TableStep(trace, ops, i) ==> TableStep(longer, ops, i);
      trace := longer;
    }
  }
}
