/** The header chain: storing header batches, moving the canonical index to another branch,
    rewinding, and looking up ancestors. */
module HeaderChains {
  import opened Headers
  import opened ForkChoice

  datatype WriteResult = Inserted(count: nat) | UnknownParent | Aborted

  datatype WriteStatus = NonStat | SideStat | CanonStat | Failed

  // A batch as header validation leaves it: each header is the child of the one before.
  ghost predicate Contiguous(b: seq<Sealed>) {
    forall i {:trigger Child(b, i)} :: 0 < i < |b| ==> Child(b, i)
  }

  ghost predicate Child(b: seq<Sealed>, i: nat)
    requires 0 < i < |b|
  {
    b[i].header.parent == b[i - 1].hash && b[i].header.number == b[i - 1].header.number + 1
  }

  // Hashes do not collide: equal hashes mean equal headers, in the table and in the batch.
  ghost predicate CollisionFree(s: Store, b: seq<Sealed>) {
    && (forall i :: 0 <= i < |b| ==> b[i].hash != NO_HASH && (b[i].hash in s ==> s[b[i].hash] == b[i].header))
    && (forall i, j :: 0 <= i < j < |b| ==> b[i].hash != b[j].hash)
  }

  ghost predicate AllStored(s: Store, b: seq<Sealed>) {
    forall i :: 0 <= i < |b| ==> b[i].hash in s && s[b[i].hash] == b[i].header
  }

  ghost function Hashes(b: seq<Sealed>): (r: set<Hash>) {
    set i | 0 <= i < |b| :: b[i].hash
  }

  // The table grew from s0 to s by exactly the given headers.
  ghost predicate GrewBy(s0: Store, s: Store, b: seq<Sealed>) {
    && s.Keys == s0.Keys + Hashes(b)
    && (forall h :: h in s0 ==> s[h] == s0[h])
    && AllStored(s, b)
  }

  lemma {:induction false} GrewByOneMore(s0: Store, s: Store, b: seq<Sealed>, i: nat)
    requires i < |b| && CollisionFree(s0, b) && GrewBy(s0, s, b[..i])
    ensures b[i].hash in s ==> b[i].hash in s0
    ensures GrewBy(s0, s[b[i].hash := b[i].header], b[..i + 1])
  {
    assert b[..i + 1] == b[..i] + [b[i]];
    assert Hashes(b[..i + 1]) == Hashes(b[..i]) + {b[i].hash} by {
      assert b[i] == b[..i + 1][i];
      assert forall j :: 0 <= j < i ==> b[..i][j] == b[..i + 1][j];
    }
  }

  // The parent that header i of the batch hangs under.
  function ParentOf(b: seq<Sealed>, i: nat): Hash
    requires i <= |b| && 0 < |b|
  {
    if i == 0 then b[0].header.parent else b[i - 1].hash
  }

  // The tables after the first i headers of the batch: linked, right, grown by these headers,
  // with newTd the difficulty of the header that the next one hangs under.
  ghost predicate Writing(s0: Store, s: Store, g: Hash, t: map<Hash, int>, b: seq<Sealed>, i: nat, newTd: int)
    requires 0 < |b| && i <= |b|
  {
    && Linked(s, g) && TdCorrect(s, g, t) && GrewBy(s0, s, b[..i])
    && ParentOf(b, i) in s && newTd == t[ParentOf(b, i)]
    && (i < |b| ==> s[ParentOf(b, i)].number == b[i].header.number - 1)
  }

  // A header found in the table was there from the start, and so was its parent: skipping it
  // leaves the same tables as writing it would.
  lemma {:induction false} WriteStep(s0: Store, s: Store, g: Hash, t: map<Hash, int>, b: seq<Sealed>, i: nat,
                                     newTd: int)
    requires i < |b| && Contiguous(b) && CollisionFree(s0, b) && Linked(s0, g)
    requires Writing(s0, s, g, t, b, i, newTd)
    ensures Writing(s0, s[b[i].hash := b[i].header], g, t[b[i].hash := newTd + b[i].header.difficulty],
                    b, i + 1, newTd + b[i].header.difficulty)
    ensures b[i].hash in s ==> b[i].hash in s0 && ParentOf(b, i) in s0 && s[b[i].hash := b[i].header] == s &&
                               t[b[i].hash := newTd + b[i].header.difficulty] == t
  {
    var hash, header := b[i].hash, b[i].header;
    assert header.parent == ParentOf(b, i) by { assert i > 0 ==> Child(b, i); }
    GrewByOneMore(s0, s, b, i);
    if hash in s0 {
      assert Attached(s0, g, hash);
    }
    TdInsert(s, g, t, hash, header);
    if hash in s {
      assert TdAt(s, g, t, hash) && TdAt(s, g, t, header.parent);
      assert Attached(s, g, hash);
      assert s[hash := header] == s && t[hash := newTd + header.difficulty] == t;
    }
    assert i + 1 < |b| ==> Child(b, i + 1);
  }

  // In a stored contiguous batch every header lies on the last one's path.
  lemma {:induction false} BatchOnPath(s: Store, g: Hash, b: seq<Sealed>, i: nat)
    requires Linked(s, g) && Contiguous(b) && AllStored(s, b) && i < |b|
    ensures b[i].header.number <= b[|b| - 1].header.number
    ensures b[|b| - 1].header.number == b[i].header.number + (|b| - 1 - i)
    ensures Ancestor(s, g, b[|b| - 1].hash, b[i].header.number) == b[i].hash
    decreases |b| - i
  {
    if i < |b| - 1 {
      assert Child(b, i + 1);
      BatchOnPath(s, g, b, i + 1);
      AncestorStep(s, g, b[|b| - 1].hash, b[i + 1].header.number);
    }
  }

  // Batches one header with its difficulty; for a known header this changes nothing.
  method PutHeader(ghost store: Store, ghost genesis: Hash, b: seq<Sealed>, i: nat, s: Store, t: map<Hash, int>,
                   ghost parentTd: int, newTd: int)
    returns (s': Store, t': map<Hash, int>)
    requires i < |b| && Linked(store, genesis) && Contiguous(b) && CollisionFree(store, b)
    requires Writing(store, s, genesis, t, b, i, parentTd) && newTd == parentTd + b[i].header.difficulty
    ensures Writing(store, s', genesis, t', b, i + 1, newTd)
    ensures b[i].hash in s ==> b[i].hash in store && ParentOf(b, i) in store && s' == s && t' == t
    ensures b[i].hash !in s ==> |s'| == |s| + 1
  {
    s', t' := s[b[i].hash := b[i].header], t[b[i].hash := newTd];
    WriteStep(store, s, genesis, t, b, i, parentTd);
  }

  // The loop of WriteHeaders. Reads see the stored tables; the returned tables carry the
  // batched writes.
  method PrepareHeaders(store: Store, ghost genesis: Hash, td: map<Hash, int>, b: seq<Sealed>, ptd: int)
    returns (s: Store, t: map<Hash, int>, inserted: nat)
    requires Linked(store, genesis) && b != [] && Contiguous(b) && CollisionFree(store, b)
    requires Writing(store, store, genesis, td, b, 0, ptd)
    ensures Linked(s, genesis) && TdCorrect(s, genesis, t) && GrewBy(store, s, b) && |s| == |store| + inserted
  {
    var newTd := ptd;
    var parentKnown := true;
    s, t, inserted := store, td, 0;
    for i := 0 to |b|
      invariant !parentKnown ==> 0 < i && b[i - 1].hash !in store
      invariant Writing(store, s, genesis, t, b, i, newTd) && |s| == |store| + inserted
    {
      assert i < |b| - 1 ==> Child(b, i + 1);
      var hash := if i < |b| - 1 then b[i + 1].header.parent else b[i].hash;
      ghost var parentTd := newTd;
      newTd := newTd + b[i].header.difficulty;
      // Skipping and writing a known header come to the same.
      var s', t' := PutHeader(store, genesis, b, i, s, t, parentTd, newTd);
      var alreadyKnown := parentKnown && hash in store;
      if !alreadyKnown {
        s, t, inserted := s', t', inserted + 1;
      }
      parentKnown := alreadyKnown;
    }
    assert b[..|b|] == b;
  }

  // The index entries for the headers of a stored batch.
  method Extension(ghost s: Store, ghost g: Hash, b: seq<Sealed>) returns (ext: map<int, Hash>)
    requires Linked(s, g) && b != [] && Contiguous(b) && AllStored(s, b)
    ensures b[|b| - 1].header.number == b[0].header.number + |b| - 1
    ensures var lo, hi := b[0].header.number, b[|b| - 1].header.number;
            forall n :: n in ext <==> lo <= n <= hi
    ensures forall n :: n in ext ==> ext[n] == Ancestor(s, g, b[|b| - 1].hash, n)
  {
    BatchOnPath(s, g, b, 0);
    ghost var lo := b[0].header.number;
    ext := map[];
    for i := 0 to |b| - 1
      invariant forall n :: n in ext <==> lo <= n < lo + i
      invariant forall n :: n in ext ==> ext[n] == Ancestor(s, g, b[|b| - 1].hash, n)
    {
      assert Child(b, i + 1);
      BatchOnPath(s, g, b, i);
      ext := ext[b[i].header.number := b[i + 1].header.parent];
    }
    ext := ext[b[|b| - 1].header.number := b[|b| - 1].hash];
  }

  // What a rewind aims for: a block number, or a timestamp.
  datatype Target = ToNumber(number: nat) | ToTime(time: nat)

  predicate Done(t: Target, h: Header) {
    match t
    case ToNumber(n) => h.number <= n
    case ToTime(time) => h.time <= time
  }

  ghost function AtOrAbove(s: Store, n: int): set<Hash> {
    set h | h in s && s[h].number >= n
  }

  // The numbers above num that carry any header, found by probing upwards until the first
  // empty number. Parent closure makes the probe complete.
  method StoredAbove(s: Store, ghost g: Hash, num: nat) returns (nums: set<int>)
    requires Linked(s, g)
    ensures forall h :: h in s && s[h].number > num ==> s[h].number in nums
    ensures forall n :: n in nums ==> n > num && exists h :: h in s && s[h].number == n
  {
    var n := num + 1;
    nums := {};
    while exists h :: h in s && s[h].number == n
      invariant num < n
      invariant forall h :: h in s && num < s[h].number < n ==> s[h].number in nums
      invariant forall k :: k in nums ==> k > num && exists h :: h in s && s[h].number == k
      decreases AtOrAbove(s, n)
    {
      ghost var h0 :| h0 in s && s[h0].number == n;
      assert h0 in AtOrAbove(s, n) && h0 !in AtOrAbove(s, n + 1) && AtOrAbove(s, n + 1) <= AtOrAbove(s, n);
      nums := nums + {n};
      n := n + 1;
    }
    forall h | h in s && s[h].number > num
      ensures s[h].number in nums
    {
      if s[h].number >= n {
        NoGaps(s, g, h, n);
      }
    }
  }

  ghost predicate NoneAbove(s: Store, n: nat) {
    forall h :: h in s ==> s[h].number <= n
  }

  // When a rewind from the head to a number leaves nothing above it: the head is above it, or
  // nothing is.
  ghost predicate WipesAbove(s: Store, head: Hash, n: nat)
    requires head in s
  {
    s[head].number > n || NoneAbove(s, n)
  }

  // When the lookup of an ancestor gives up on a hash that it does not know by that number.
  predicate GivesUp(s: Store, head: Hash, hash: Hash, number: nat, ancestor: nat)
    requires head in s
  {
    hash != NO_HASH || ancestor == 1 || number <= s[head].number
  }

  // The noted numbers lie above the header, and all numbers there that carry a header are noted.
  ghost predicate Noted(s: Store, header: Hash, origin: bool, nums: set<int>, top: nat)
    requires header in s
  {
    var num := s[header].number;
    && (origin ==> nums == {} && num == top)
    && (!origin ==> forall h :: h in s && s[h].number > num ==> s[h].number in nums)
    && (forall n :: n in nums ==> n > num)
  }

  // One round of a rewind: a step to the parent, with the numbers whose data must go noted, on the
  // first round together with everything above.
  method StepBack(s: Store, g: Hash, header: Hash, origin: bool, nums: set<int>, ghost top: nat)
    returns (header': Hash, nums': set<int>)
    requires Linked(s, g) && header in s && header != g && s[header].number <= top
    requires Noted(s, header, origin, nums, top)
    ensures header' == Parent(s, g, header) && Noted(s, header', false, nums', top)
  {
    var num := s[header].number;
    nums' := nums + {num};
    if origin {
      var above := StoredAbove(s, g, num);
      nums' := nums' + above;
    }
    header' := Parent(s, g, header);
  }

  // The index entries above n, found by probing upwards until the first gap.
  method MarkersAbove(canon: map<int, Hash>, n: nat, ghost top: nat) returns (dels: set<int>)
    requires forall k :: k in canon <==> 0 <= k <= top
    requires forall k :: k in canon ==> canon[k] != NO_HASH
    ensures forall k :: k in dels <==> k in canon && n < k
  {
    var i := n + 1;
    dels := {};
    while ReadCanonical(canon, i) != NO_HASH
      invariant n < i && (i == n + 1 || i <= top + 1)
      invariant forall k :: k in dels <==> n < k < i
      decreases top + 1 - i
    {
      dels := dels + {i};
      i := i + 1;
    }
  }

  // Walks back from a header to the cross link with the canonical chain, collecting the
  // index entries to overwrite.
  method CrossLink(s: Store, g: Hash, canon: map<int, Hash>, ghost cur: Hash, first: Hash)
    returns (writes: map<int, Hash>, ghost m: nat)
    requires Linked(s, g) && cur in s && first in s && canon == PathMap(s, g, cur)
    ensures m == Crossing(s, g, cur, first)
    ensures var hi := s[first].number; forall n :: n in writes <==> m < n <= hi
    ensures forall n :: n in writes ==> writes[n] == Ancestor(s, g, first, n)
  {
    var headHash, headNumber := first, s[first].number;
    ghost var hi := headNumber;
    writes := map[];
    while ReadCanonical(canon, headNumber) != headHash
      invariant headHash in s && 0 <= headNumber == s[headHash].number <= s[first].number
      invariant headHash == Ancestor(s, g, first, headNumber)
      invariant Crossing(s, g, cur, first) == Crossing(s, g, cur, headHash)
      invariant forall n :: n in writes <==> headNumber < n <= hi
      invariant forall n :: n in writes ==> 0 <= n <= s[first].number && writes[n] == Ancestor(s, g, first, n)
      decreases headNumber
    {
      // Genesis is on both chains, so the walk stops before it.
      assert headNumber > 0 by { if headNumber == 0 { SharedGenesis(s, g, cur, headHash); } }
      AncestorStep(s, g, first, headNumber);
      writes := writes[headNumber := headHash];
      headHash, headNumber := Parent(s, g, headHash), headNumber - 1;
    }
    m := headNumber;
  }

  // Below m the old index, up to first the walked-back entries, up to last the batch.
  lemma {:induction false} Spliced(s: Store, g: Hash, cur: Hash, first: Hash, last: Hash, m: nat, dels: set<int>,
                writes: map<int, Hash>, ext: map<int, Hash>)
    requires Linked(s, g) && cur in s && first in s && last in s && s[first].number <= s[last].number
    requires Ancestor(s, g, last, s[first].number) == first
    requires m <= s[cur].number && m <= s[first].number && Ancestor(s, g, cur, m) == Ancestor(s, g, first, m)
    requires var lo, hi := s[last].number, s[cur].number; forall n :: n in dels <==> lo < n <= hi
    requires var hi := s[first].number; forall n :: n in writes <==> m < n <= hi
    requires forall n :: n in writes ==> writes[n] == Ancestor(s, g, first, n)
    requires var lo, hi := s[first].number, s[last].number; forall n :: n in ext <==> lo <= n <= hi
    requires forall n :: n in ext ==> ext[n] == Ancestor(s, g, last, n)
    ensures (PathMap(s, g, cur) - dels) + writes + ext == PathMap(s, g, last)
  {
    var c := (PathMap(s, g, cur) - dels) + writes + ext;
    AncestorOfAncestor(s, g, last, s[first].number, m);
    forall n | n in c
      ensures c[n] == if n <= m then Ancestor(s, g, cur, n) else Ancestor(s, g, last, n)
    {
      if n in writes {
        AncestorOfAncestor(s, g, last, s[first].number, n);
      }
    }
    SwitchBranch(s, g, cur, last, m, c);
  }

  // The canonical index after a reorg to the last header of a stored batch.
  method Redirect(s: Store, g: Hash, canon: map<int, Hash>, cur: Hash, b: seq<Sealed>)
    returns (updated: map<int, Hash>)
    requires Linked(s, g) && cur in s && canon == PathMap(s, g, cur)
    requires b != [] && Contiguous(b) && AllStored(s, b)
    ensures updated == PathMap(s, g, b[|b| - 1].hash)
  {
    var first, last := b[0], b[|b| - 1];
    var ext := Extension(s, g, b);
    BatchOnPath(s, g, b, 0);
    if first.header.parent != cur {
      var dels := MarkersAbove(canon, last.header.number, s[cur].number);
      var writes, m := CrossLink(s, g, canon, cur, first.hash);
      updated := (canon - dels) + writes + ext;
      Spliced(s, g, cur, first.hash, last.hash, m, dels, writes, ext);
    } else {
      assert Attached(s, g, first.hash);
      AncestorOfAncestor(s, g, last.hash, first.header.number, s[cur].number);
      updated := canon + ext;
      SwitchBranch(s, g, cur, last.hash, s[cur].number, updated);
    }
  }

  // The fork chooser's verdict on replacing cur by h, measured by the true path sums.
  ghost predicate Chosen(s: Store, g: Hash, c: Chooser, cur: Hash, h: Hash, coin: bool)
    requires Linked(s, g) && cur in s && h in s
  {
    Prefers(c, TotalDifficulty(s, g, cur), TotalDifficulty(s, g, h), Sealed(cur, s[cur]), Sealed(h, s[h]), coin)
  }

  // h outweighs cur by the true path sums.
  ghost predicate Heavier(s: Store, g: Hash, c: Chooser, cur: Hash, h: Hash)
    requires Linked(s, g) && cur in s && h in s
  {
    Outweighs(c, TotalDifficulty(s, g, cur), TotalDifficulty(s, g, h), Sealed(cur, s[cur]), Sealed(h, s[h]))
  }

  lemma {:induction false} HeavierIsChosen(s: Store, g: Hash, c: Chooser, cur: Hash, h: Hash, coin: bool)
    requires Linked(s, g) && cur in s && h in s
    ensures Heavier(s, g, c, cur, h) ==> Chosen(s, g, c, cur, h, coin)
    ensures c.terminal.None? && Heavier(s, g, c, h, cur) ==> !Chosen(s, g, c, cur, h, coin)
  {
    OutweighsWins(c, TotalDifficulty(s, g, cur), TotalDifficulty(s, g, h), Sealed(cur, s[cur]), Sealed(h, s[h]), coin);
  }

  // h lies on top's path, and no header above it there meets the target.
  ghost predicate RewoundTo(s: Store, g: Hash, top: Hash, target: Target, h: Hash)
    requires Linked(s, g) && top in s
  {
    && h in s && OnPathOf(s, g, top, h)
    && var lo, hi := s[h].number, s[top].number;
       forall k :: lo < k <= hi ==> !Done(target, s[Ancestor(s, g, top, k)])
  }

  // Steps back from a header to its highest ancestor that meets the target, or not at all, and notes
  // the numbers above.
  method StepDown(s: Store, g: Hash, top: Hash, target: Target) returns (header: Hash, nums: set<int>)
    requires Linked(s, g) && top in s && Done(target, s[g])
    ensures RewoundTo(s, g, top, target, header) && Done(target, s[header])
    ensures Noted(s, header, header == top, nums, s[top].number) && (header == top <==> Done(target, s[top]))
  {
    header, nums := top, {};
    while !Done(target, s[header])
      invariant RewoundTo(s, g, top, target, header) && Noted(s, header, header == top, nums, s[top].number)
      decreases s[header].number
    {
      assert s[Parent(s, g, header)].number == s[header].number - 1;
      AncestorStep(s, g, top, s[header].number);
      header, nums := StepBack(s, g, header, header == top, nums, s[top].number);
    }
  }

  // A rewind to a number below the head ends at the head's ancestor with just that number, one to a
  // time at the last ancestor that is no later.
  lemma {:induction false} RewoundMeans(s: Store, g: Hash, top: Hash, target: Target, h: Hash)
    requires Linked(s, g) && top in s && RewoundTo(s, g, top, target, h) && Done(target, s[h]) && !Done(target, s[top])
    ensures target.ToNumber? ==> target.number < s[top].number && h == Ancestor(s, g, top, target.number)
    ensures target.ToTime? ==>
              && s[h].time <= target.time && s[h].number < s[top].number
              && (forall n :: s[h].number < n <= s[top].number ==> s[Ancestor(s, g, top, n)].time > target.time)
  {
    assert target.ToNumber? ==> s[Ancestor(s, g, top, target.number)].number == target.number;
  }

  // Walks down a distance from a hash, one header after the other until the canonical index takes
  // over. The budget bounds the steps outside the canonical chain.
  method WalkBack(s: Store, ghost g: Hash, canon: map<int, Hash>, ghost cur: Hash, hash: Hash, number: nat,
                  ancestor: nat, maxNonCanonical: nat)
    returns (h: Hash, n: nat, budget: nat)
    requires Linked(s, g) && cur in s && canon == PathMap(s, g, cur) && ancestor <= number
    ensures GetHeader(s, hash, number).None? && 0 < ancestor ==>
              if hash == NO_HASH && number > s[cur].number
              then h == ReadCanonical(canon, number - ancestor) && n == number - ancestor && budget == maxNonCanonical
              else h == NO_HASH && n == 0 && budget == if maxNonCanonical == 0 then 0 else maxNonCanonical - 1
    ensures ancestor == 0 ==> h == hash && n == number && budget == maxNonCanonical
    ensures GetHeader(s, hash, number).Some? ==>
              var walk := number - Crossing(s, g, cur, hash);
              if ancestor == 0 || walk <= maxNonCanonical || ancestor <= maxNonCanonical
              then h == Ancestor(s, g, hash, number - ancestor) && n == number - ancestor &&
                   budget == maxNonCanonical - (if walk <= ancestor then walk else ancestor)
              else h == NO_HASH && n == 0 && budget == 0
  {
    ghost var known := GetHeader(s, hash, number).Some?;
    h, n, budget := hash, number, maxNonCanonical;
    var left := ancestor;
    while left != 0
      invariant 0 <= left <= n && n - left == number - ancestor && budget == maxNonCanonical - (ancestor - left)
      invariant !known ==> h == hash && left == ancestor
      invariant known ==> h in s && s[h].number == n && h == Ancestor(s, g, hash, n)
      invariant known ==> Crossing(s, g, cur, hash) == Crossing(s, g, cur, h)
      decreases left
    {
      if ReadCanonical(canon, n) == h {
        h, n := ReadCanonical(canon, n - left), n - left;
        if known {
          SharedBelow(s, g, cur, hash, n + left, n);
        }
        return;
      }
      if budget == 0 {
        return NO_HASH, 0, 0;
      }
      budget := budget - 1;
      left := left - 1;
      var header := GetHeader(s, h, n);
      if header.None? {
        return NO_HASH, 0, budget;
      }
      AncestorStep(s, g, hash, n);
      h, n := header.value.parent, n - 1;
    }
  }

  class HeaderChain {
    const genesis: Hash
    var store: Store
    var td: map<Hash, int>
    var canon: map<int, Hash>
    var currentHeader: Hash

    // The table is linked and every difficulty in it is the path sum.
    ghost predicate Sound()
      reads this
    {
      Linked(store, genesis) && TdCorrect(store, genesis, td) && currentHeader in store
    }

    // The canonical index is exactly the ancestor path of the head header.
    ghost predicate Valid()
      reads this
    {
      Sound() && canon == PathMap(store, genesis, currentHeader)
    }

    constructor (genesis: Hash, header: Header)
      requires genesis != NO_HASH && header.number == 0 && header.parent == NO_HASH
      ensures Valid()
      ensures this.genesis == genesis && store == map[genesis := header] && currentHeader == genesis
    {
      this.genesis := genesis;
      store := map[genesis := header];
      td := map[genesis := header.difficulty];
      canon := map[0 := genesis];
      currentHeader := genesis;
      new;
      assert Attached(store, genesis, genesis);
    }

    function Current(): Sealed
      requires currentHeader in store
      reads this
    {
      Sealed(currentHeader, store[currentHeader])
    }

    /* Writing headers */

    method WriteHeaders(b: seq<Sealed>, interrupted: bool) returns (r: WriteResult)
      requires Sound() && Contiguous(b) && CollisionFree(store, b)
      modifies this`store, this`td
      ensures Sound()
      ensures r.UnknownParent? <==>
                b != [] && GetTd(old(store), old(td), b[0].header.parent, b[0].header.number - 1).None?
      ensures r.Aborted? <==> b != [] && !r.UnknownParent? && interrupted
      ensures !r.Inserted? ==> store == old(store) && td == old(td)
      ensures r.Inserted? ==> GrewBy(old(store), store, b) && |store| == |old(store)| + r.count
    {
      if b == [] {
        return Inserted(0);
      }
      var ptd := GetTd(store, td, b[0].header.parent, b[0].header.number - 1);
      if ptd.None? {
        return UnknownParent;
      }
      var newStore, newTd, inserted := PrepareHeaders(store, genesis, td, b, ptd.value);
      if interrupted {
        return Aborted;
      }
      store, td := newStore, newTd;
      return Inserted(inserted);
    }

    // Stores one header under a stored parent with its difficulty, as block imports do.
    method Insert(h: Hash, hdr: Header, externTd: int)
      requires Sound() && Fits(store, genesis, h, hdr) && h != genesis && hdr.parent in store
      requires externTd == td[hdr.parent] + hdr.difficulty
      modifies this`store, this`td
      ensures Sound() && store == old(store)[h := hdr] && td == old(td)[h := externTd]
      ensures old(Valid()) ==> Valid()
    {
      TdInsert(store, genesis, td, h, hdr);
      PathFrame(store, store[h := hdr], genesis, currentHeader);
      store, td := store[h := hdr], td[h := externTd];
    }

    /* Switching branches */

    // Makes the last header of a stored batch the head of the canonical chain.
    method Reorg(b: seq<Sealed>)
      requires Valid() && Contiguous(b) && AllStored(store, b)
      modifies this`canon, this`currentHeader
      ensures Valid()
      ensures currentHeader == if b == [] then old(currentHeader) else b[|b| - 1].hash
    {
      if b != [] {
        canon := Redirect(store, genesis, canon, currentHeader, b);
        currentHeader := b[|b| - 1].hash;
      }
    }

    // Writes a batch and moves the head to its last header if the fork chooser agrees.
    method WriteHeadersAndSetHead(b: seq<Sealed>, c: Chooser, coin: bool, interrupted: bool)
      returns (status: WriteStatus)
      requires Valid() && b != [] && Contiguous(b) && CollisionFree(store, b)
      modifies this
      ensures Valid()
      ensures status.CanonStat? ==> currentHeader == b[|b| - 1].hash
      ensures !status.CanonStat? ==> currentHeader == old(currentHeader) && canon == old(canon)
      ensures status.Failed? <==>
                interrupted || GetTd(old(store), old(td), b[0].header.parent, b[0].header.number - 1).None?
      ensures status.Failed? ==> store == old(store) && td == old(td)
      ensures !status.Failed? ==> GrewBy(old(store), store, b)
      ensures !status.Failed? ==>
                var last := b[|b| - 1].hash;
                (status.CanonStat? <==>
                 Chosen(store, genesis, c, old(currentHeader), last, coin) &&
                 !OnPathOf(store, genesis, old(currentHeader), last))
      ensures status.SideStat? <==>
                !status.Failed? && |store| > |old(store)| &&
                !Chosen(store, genesis, c, old(currentHeader), b[|b| - 1].hash, coin)
      ensures c.terminal.None? && c.preserve.None? ==>
                NoWorse(RankOf(c, TotalDifficulty(old(store), genesis, old(currentHeader)), old(Current())),
                        RankOf(c, TotalDifficulty(store, genesis, currentHeader), Current()))
    {
      ghost var s0 := store;
      var r := WriteHeaders(b, interrupted);
      if !r.Inserted? {
        return Failed;
      }
      PathFrame(s0, store, genesis, currentHeader);
      TotalDifficultyFrame(s0, store, genesis, currentHeader);
      var last := b[|b| - 1];
      VerdictIsPrefers(c, store, genesis, td, Current(), last, coin);
      assert store[last.hash := last.header] == store;
      var choice := ReorgNeededWithFastFinality(c, store, td, Current(), last, coin);
      if choice.Keep? {
        return if r.count != 0 then SideStat else NonStat;
      }
      if ReadCanonical(canon, last.header.number) == last.hash && last.header.number <= store[currentHeader].number {
        return NonStat;
      }
      if c.terminal.None? && c.preserve.None? {
        SwitchRaisesRank(c, TotalDifficulty(store, genesis, currentHeader),
                         TotalDifficulty(store, genesis, last.hash), Current(), last, coin);
      }
      Reorg(b);
      return CanonStat;
    }

    /* Rewinding */

    // Stores the new head header and applies the batched deletions: all headers, difficulties and
    // index entries at the numbers.
    method Flush(header: Hash, nums: set<int>)
      requires Valid() && header in store && header != currentHeader && OnPathOf(store, genesis, currentHeader, header)
      requires Noted(store, header, false, nums, store[currentHeader].number)
      modifies this
      ensures currentHeader == header && Valid() && store == Below(old(store), old(store)[header].number)
    {
      ghost var num, top := store[header].number, currentHeader;
      ghost var below := Below(store, num);
      var newStore := map h | h in store && store[h].number !in nums :: store[h];
      var newTd := map h | h in td && h in store && store[h].number !in nums :: td[h];
      assert newStore == below;
      assert newTd == map h | h in td && h in below :: td[h];
      TdBelow(store, genesis, td, num);
      forall n | n in canon
        ensures n in nums <==> n > num
      {
        assert canon[n] in store;
      }
      PathCut(store, genesis, top, num);
      PathFrame(below, store, genesis, header);
      assert canon - nums == PathMap(below, genesis, header);
      store, td, canon, currentHeader := newStore, newTd, canon - nums, header;
    }

    // Rewinds the header chain. If the head already meets the target nothing happens at all;
    // otherwise the head becomes its highest ancestor that does, and every header above that
    // number goes, on all forks.
    method SetHead(target: Target)
      requires Valid() && Done(target, store[genesis])
      modifies this
      ensures Valid()
      ensures old(Done(target, store[currentHeader])) ==>
                store == old(store) && td == old(td) && canon == old(canon) && currentHeader == old(currentHeader)
      ensures old(!Done(target, store[currentHeader])) ==>
                Done(target, store[currentHeader]) &&
                store == Below(old(store), store[currentHeader].number) &&
                RewoundTo(old(store), genesis, old(currentHeader), target, currentHeader)
      ensures target.ToNumber? ==>
                (NoneAbove(store, target.number) <==> WipesAbove(old(store), old(currentHeader), target.number))
    {
      var header, nums := StepDown(store, genesis, currentHeader, target);
      if header != currentHeader {
        Flush(header, nums);
      }
    }

    /* Ancestors */

    // The number of an ancestor a given distance below a block, found through the canonical
    // index once the walk meets it. The budget bounds the walk outside the canonical chain.
    method GetAncestor(hash: Hash, number: nat, ancestor: nat, maxNonCanonical: nat)
      returns (h: Hash, n: nat, budget: nat)
      requires Valid()
      ensures GetHeader(store, hash, number).None? && 0 < ancestor <= number ==>
                (h == NO_HASH && n == 0 <==> GivesUp(store, currentHeader, hash, number, ancestor)) &&
                (h == NO_HASH && n == 0 ==>
                   budget == if ancestor == 1 || maxNonCanonical == 0 then maxNonCanonical else maxNonCanonical - 1)
      ensures ancestor == 0 ==> h == hash && n == number && budget == maxNonCanonical
      ensures hash == NO_HASH && 1 < ancestor <= number && number > store[currentHeader].number ==>
                h == ReadCanonical(canon, number - ancestor) && n == number - ancestor && budget == maxNonCanonical
      ensures GetHeader(store, hash, number).Some? && ancestor <= number ==>
                var walk := number - Crossing(store, genesis, currentHeader, hash);
                if ancestor <= 1 || walk <= maxNonCanonical || ancestor <= maxNonCanonical
                then h == Ancestor(store, genesis, hash, number - ancestor) && n == number - ancestor &&
                     budget == maxNonCanonical -
                               (if ancestor <= 1 then 0 else if walk <= ancestor then walk else ancestor)
                else h == NO_HASH && n == 0 && budget == 0
      ensures ancestor > number ==> h == NO_HASH && n == 0 && budget == maxNonCanonical
    {
      budget := maxNonCanonical;
      if ancestor > number {
        return NO_HASH, 0, budget;
      }
      if ancestor == 1 {
        var header := GetHeader(store, hash, number);
        if header.Some? {
          assert Attached(store, genesis, hash);
          return header.value.parent, number - 1, budget;
        }
        return NO_HASH, 0, budget;
      }
      h, n, budget := WalkBack(store, genesis, canon, currentHeader, hash, number, ancestor, maxNonCanonical);
    }
  }
}
