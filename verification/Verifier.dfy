/** The remote verification of blocks: a manager that keeps a task per block, tasks that judge the
    replies of peers, and a bounded cache of verified blocks. Every step of every goroutine is a
    method, and any sequence of them is a run. */
module Verifiers {
  import opened Basics
  import opened Headers

  const VERIFIED_CACHE_SIZE := 256
  const MAX_FORK_HEIGHT := 11
  const PRUNE_HEIGHT_DIFF := 15

  datatype Peer = Peer(id: nat)
  datatype Status = FullVerified | PartiallyVerified | Failed | NotYet
  datatype Reply = Reply(peer: Peer, status: Status, hash: Hash, root: Root)

  // A task judges replies about the block whose header it was made from. Tasks outlive their
  // entry in the table for as long as they are busy.
  datatype Task = Task(id: nat, hash: Hash, header: Header)
  datatype Busy = Busy(task: Task, reply: Reply)

  // All blocks there ever are: a hash determines its header and whether it has transactions.
  datatype Chain = Chain(store: Store, empty: set<Hash>)

  /* The verified cache: the least recently used hash is in front */

  function Without(c: seq<Hash>, h: Hash): seq<Hash> {
    if c == [] then []
    else if c[|c| - 1] == h then Without(c[..|c| - 1], h)
    else Without(c[..|c| - 1], h) + [c[|c| - 1]]
  }

  // A use moves the hash to the back.
  function Touch(c: seq<Hash>, h: Hash): seq<Hash> {
    Without(c, h) + [h]
  }

  function CacheVerified(c: seq<Hash>, h: Hash): seq<Hash> {
    Touch(if |c| >= VERIFIED_CACHE_SIZE then c[1..] else c, h)
  }

  // The hash is among the k last used.
  ghost predicate Recent(c: seq<Hash>, h: Hash, k: nat) {
    exists i :: 0 <= i < |c| && |c| - k <= i && c[i] == h
  }

  lemma {:induction false} WithoutLength(c: seq<Hash>, h: Hash)
    ensures |Without(c, h)| <= |c| && (h in c ==> |Without(c, h)| < |c|)
    ensures forall x :: x in Without(c, h) <==> x in c && x != h
    decreases |c|
  {
    if c != [] {
      WithoutLength(c[..|c| - 1], h);
      assert c == c[..|c| - 1] + [c[|c| - 1]];
    }
  }

  lemma {:induction false} WithoutRecent(c: seq<Hash>, h: Hash, x: Hash, k: nat)
    requires Recent(c, x, k) && x != h
    ensures Recent(Without(c, h), x, k)
    decreases |c|
  {
    var i :| 0 <= i < |c| && |c| - k <= i && c[i] == x;
    var before, last := c[..|c| - 1], c[|c| - 1];
    if i == |c| - 1 {
      var w := Without(c, h);
      assert w[|w| - 1] == x;
    } else if last == h {
      assert before[i] == x && |before| - k <= i;
      WithoutRecent(before, h, x, k);
    } else {
      assert before[i] == x && |before| - (k - 1) <= i;
      WithoutRecent(before, h, x, k - 1);
      var w := Without(before, h);
      var j :| 0 <= j < |w| && |w| - (k - 1) <= j && w[j] == x;
      assert (w + [last])[j] == x;
    }
  }

  // A use pushes the others at most one place to the front.
  lemma {:induction false} TouchRecent(c: seq<Hash>, h: Hash, x: Hash, k: nat)
    ensures Recent(Touch(c, h), h, 1)
    ensures Recent(c, x, k) ==> Recent(Touch(c, h), x, k + 1)
  {
    var t := Touch(c, h);
    assert t[|t| - 1] == h;
    if Recent(c, x, k) && x != h {
      WithoutRecent(c, h, x, k);
      var w := Without(c, h);
      var i :| 0 <= i < |w| && |w| - k <= i && w[i] == x;
      assert t[i] == x;
    }
  }

  lemma {:induction false} CacheRecent(c: seq<Hash>, h: Hash, x: Hash, k: nat)
    requires k < VERIFIED_CACHE_SIZE
    ensures Recent(CacheVerified(c, h), h, 1)
    ensures Recent(c, x, k) ==> Recent(CacheVerified(c, h), x, k + 1)
  {
    var d := if |c| >= VERIFIED_CACHE_SIZE then c[1..] else c;
    if Recent(c, x, k) {
      var i :| 0 <= i < |c| && |c| - k <= i && c[i] == x;
      assert |c| >= VERIFIED_CACHE_SIZE ==> d[i - 1] == x;
      assert |c| < VERIFIED_CACHE_SIZE ==> d[i] == x;
      assert Recent(d, x, k);
    }
    TouchRecent(d, h, x, k);
  }

  lemma {:induction false} CacheBounds(c: seq<Hash>, h: Hash)
    requires |c| <= VERIFIED_CACHE_SIZE
    ensures |CacheVerified(c, h)| <= VERIFIED_CACHE_SIZE
    ensures forall x :: x in CacheVerified(c, h) ==> x == h || x in c
  {
    WithoutLength(if |c| >= VERIFIED_CACHE_SIZE then c[1..] else c, h);
  }

  /* What may be recorded as verified */

  // A peer said so of that very block, with the root of the local header and, outside insecure
  // mode, with the full status.
  ghost predicate Confirms(r: Reply, chain: Chain, insecure: bool, h: Hash) {
    && r.hash == h && h in chain.store && r.root == chain.store[h].root
    && (r.status.FullVerified? || (insecure && r.status.PartiallyVerified?))
  }

  ghost predicate Confirmed(replies: set<Reply>, chain: Chain, insecure: bool, h: Hash) {
    exists r :: r in replies && Confirms(r, chain, insecure, h)
  }

  ghost predicate Justified(seeds: set<Hash>, replies: set<Reply>, chain: Chain, insecure: bool, h: Hash) {
    || h in seeds
    || (h in chain.store && (chain.store[h].number == 0 || h in chain.empty))
    || Confirmed(replies, chain, insecure, h)
  }

  ghost predicate TaskOf(chain: Chain, t: Task) {
    t.hash in chain.store && chain.store[t.hash] == t.header
  }

  /* The walk over the recent ancestors of a new head */

  // The cache and the table of tasks.
  datatype View = View(cache: seq<Hash>, tasks: map<Hash, Task>, nextId: nat)

  function Cached(v: View, h: Hash): View {
    v.(cache := CacheVerified(v.cache, h))
  }

  // Makes sure that a block above genesis is verified or being verified, if there is something
  // to verify it with.
  function Visit(v: View, chain: Chain, diffs: set<Hash>, h: Hash): View
    requires h in chain.store
  {
    if h in v.cache then v.(cache := Touch(v.cache, h))
    else if h in v.tasks then v
    else if h in chain.empty then Cached(v, h)
    else if h !in diffs then v
    else v.(tasks := v.tasks[h := Task(v.nextId, h, chain.store[h])], nextId := v.nextId + 1)
  }

  // One stop of the walk. Genesis counts as verified.
  function Stop(v: View, chain: Chain, diffs: set<Hash>, h: Hash): View
    requires h in chain.store
  {
    if chain.store[h].number == 0 then Cached(v, h) else Visit(v, chain, diffs, h)
  }

  // The walk over a block and so many of its ancestors, as far as the database has them.
  function WalkDown(v: View, chain: Chain, visible: set<Hash>, diffs: set<Hash>, h: Hash, n: nat): View
    requires visible <= chain.store.Keys && h in chain.store
    decreases n
  {
    var v', parent := Stop(v, chain, diffs, h), chain.store[h].parent;
    if n == 0 || chain.store[h].number == 0 || parent !in visible then v'
    else WalkDown(v', chain, visible, diffs, parent, n - 1)
  }

  ghost predicate Covered(v: View, chain: Chain, diffs: set<Hash>, h: Hash, k: nat) {
    Recent(v.cache, h, k) || h in v.tasks || (h !in chain.empty && h !in diffs)
  }

  ghost predicate GoodTasks(tasks: map<Hash, Task>, chain: Chain) {
    forall h :: h in tasks ==> tasks[h].hash == h && TaskOf(chain, tasks[h])
  }

  ghost predicate GoodCache(cache: seq<Hash>, ever: set<Hash>, seeds: set<Hash>, replies: set<Reply>, chain: Chain,
                            insecure: bool) {
    && |cache| <= VERIFIED_CACHE_SIZE
    && (forall h :: h in cache ==> h in ever)
    && (forall h :: h in ever ==> Justified(seeds, replies, chain, insecure, h))
  }

  lemma {:induction false} CachedGood(c: seq<Hash>, ever: set<Hash>, h: Hash, seeds: set<Hash>, replies: set<Reply>,
                                      chain: Chain, insecure: bool)
    requires GoodCache(c, ever, seeds, replies, chain, insecure)
    requires Justified(seeds, replies, chain, insecure, h)
    ensures GoodCache(CacheVerified(c, h), ever + {h}, seeds, replies, chain, insecure)
  {
    CacheBounds(c, h);
  }

  lemma {:induction false} TouchGood(c: seq<Hash>, ever: set<Hash>, h: Hash, seeds: set<Hash>, replies: set<Reply>,
                                     chain: Chain, insecure: bool)
    requires GoodCache(c, ever, seeds, replies, chain, insecure) && h in c
    ensures GoodCache(Touch(c, h), ever, seeds, replies, chain, insecure)
  {
    WithoutLength(c, h);
  }

  // No task is lost or replaced, and new ones are for blocks with a diff.
  ghost predicate TasksGrow(tasks: map<Hash, Task>, tasks': map<Hash, Task>, diffs: set<Hash>) {
    && (forall h :: h in tasks ==> h in tasks' && tasks'[h] == tasks[h])
    && (forall h :: h in tasks' ==> h in tasks || h in diffs)
  }

  // All that was ever cached, after a visit.
  ghost function EverAfter(ever: set<Hash>, v: View, h: Hash): set<Hash> {
    if h in v.cache then ever + {h} else ever
  }

  lemma {:induction false} VisitGood(v: View, ever: set<Hash>, diffs: set<Hash>, h: Hash, seeds: set<Hash>,
                                     replies: set<Reply>, chain: Chain, insecure: bool)
    requires h in chain.store && GoodTasks(v.tasks, chain) && GoodCache(v.cache, ever, seeds, replies, chain, insecure)
    ensures var v' := Visit(v, chain, diffs, h);
            GoodTasks(v'.tasks, chain) && GoodCache(v'.cache, EverAfter(ever, v', h), seeds, replies, chain, insecure)
  {
    if h in v.cache {
      TouchGood(v.cache, ever, h, seeds, replies, chain, insecure);
      assert ever + {h} == ever;
    } else if h !in v.tasks && h in chain.empty {
      CachedGood(v.cache, ever, h, seeds, replies, chain, insecure);
      assert h in Cached(v, h).cache;
    }
  }

  // The walk covers the block it visits and uncovers none of those it has visited.
  lemma {:induction false} VisitCovers(v: View, chain: Chain, diffs: set<Hash>, h: Hash, x: Hash, k: nat)
    requires h in chain.store && k < VERIFIED_CACHE_SIZE
    ensures Covered(Visit(v, chain, diffs, h), chain, diffs, h, 1)
    ensures Covered(v, chain, diffs, x, k) ==> Covered(Visit(v, chain, diffs, h), chain, diffs, x, k + 1)
  {
    TouchRecent(v.cache, h, x, k);
    CacheRecent(v.cache, h, x, k);
    if Recent(v.cache, x, k) {
      RecentMore(v.cache, x, k);
    }
  }

  lemma {:induction false} RecentMore(c: seq<Hash>, x: Hash, k: nat)
    requires Recent(c, x, k)
    ensures Recent(c, x, k + 1)
  {
  }

  // The block and its next ancestors, as far as the database has them.
  ghost function Down(chain: Chain, visible: set<Hash>, h: Hash, n: nat): seq<Hash>
    requires visible <= chain.store.Keys && h in chain.store
    decreases n
  {
    var parent := chain.store[h].parent;
    if n == 0 || chain.store[h].number == 0 || parent !in visible then [h]
    else [h] + Down(chain, visible, parent, n - 1)
  }

  ghost predicate AllCovered(v: View, chain: Chain, diffs: set<Hash>, walked: seq<Hash>) {
    forall j :: 0 <= j < |walked| ==> Covered(v, chain, diffs, walked[j], |walked| - j)
  }

  lemma {:induction false} VisitCoversAll(v: View, chain: Chain, diffs: set<Hash>, walked: seq<Hash>, h: Hash)
    requires h in chain.store && |walked| < VERIFIED_CACHE_SIZE && AllCovered(v, chain, diffs, walked)
    ensures AllCovered(Visit(v, chain, diffs, h), chain, diffs, walked + [h])
  {
    var v', w' := Visit(v, chain, diffs, h), walked + [h];
    forall j | 0 <= j < |w'| ensures Covered(v', chain, diffs, w'[j], |w'| - j) {
      if j < |walked| {
        assert Covered(v, chain, diffs, walked[j], |walked| - j);
        VisitCovers(v, chain, diffs, h, walked[j], |walked| - j);
      } else {
        VisitCovers(v, chain, diffs, h, h, 0);
      }
    }
  }

  lemma {:induction false} CachedCoversAll(v: View, chain: Chain, diffs: set<Hash>, walked: seq<Hash>, h: Hash)
    requires |walked| < VERIFIED_CACHE_SIZE && AllCovered(v, chain, diffs, walked)
    ensures AllCovered(Cached(v, h), chain, diffs, walked + [h])
  {
    var v', w' := Cached(v, h), walked + [h];
    forall j | 0 <= j < |w'| ensures Covered(v', chain, diffs, w'[j], |w'| - j) {
      if j < |walked| {
        assert Covered(v, chain, diffs, walked[j], |walked| - j);
        CacheRecent(v.cache, h, walked[j], |walked| - j);
      } else {
        CacheRecent(v.cache, h, h, 0);
      }
    }
  }

  // Where the walk has got from v0: everything visited is covered, everything cached justified.
  ghost predicate Walked(v0: View, ever0: set<Hash>, v: View, ever: set<Hash>, diffs: set<Hash>, walked: seq<Hash>,
                         seeds: set<Hash>, replies: set<Reply>, chain: Chain, insecure: bool) {
    && GoodTasks(v.tasks, chain) && GoodCache(v.cache, ever, seeds, replies, chain, insecure)
    && ever0 <= ever && TasksGrow(v0.tasks, v.tasks, diffs)
    && AllCovered(v, chain, diffs, walked)
  }

  // One stop of the walk.
  method VisitNext(v: View, diffs: set<Hash>, h: Hash, chain: Chain,
                   ghost v0: View, ghost ever0: set<Hash>, ghost ever: set<Hash>, ghost walked: seq<Hash>,
                   ghost seeds: set<Hash>, ghost replies: set<Reply>, ghost insecure: bool)
    returns (v': View, ghost ever': set<Hash>)
    requires h in chain.store && |walked| < VERIFIED_CACHE_SIZE
    requires Walked(v0, ever0, v, ever, diffs, walked, seeds, replies, chain, insecure)
    ensures Walked(v0, ever0, v', ever', diffs, walked + [h], seeds, replies, chain, insecure)
    ensures v' == Stop(v, chain, diffs, h)
  {
    if chain.store[h].number == 0 {
      CachedGood(v.cache, ever, h, seeds, replies, chain, insecure);
      CachedCoversAll(v, chain, diffs, walked, h);
      v', ever' := Cached(v, h), ever + {h};
    } else {
      VisitGood(v, ever, diffs, h, seeds, replies, chain, insecure);
      VisitCoversAll(v, chain, diffs, walked, h);
      v' := Visit(v, chain, diffs, h);
      ever' := EverAfter(ever, v', h);
    }
  }

  // Where the walk goes from a block: on to the parent, or no further.
  function Onward(chain: Chain, visible: set<Hash>, h: Hash): Option<Hash>
    requires h in chain.store
  {
    var parent := chain.store[h].parent;
    if chain.store[h].number > 0 && parent in visible then Some(parent) else None
  }

  // What is left of the walk from h once it has got to the header with the view v'.
  ghost predicate Halfway(v: View, v': View, chain: Chain, visible: set<Hash>, diffs: set<Hash>, h: Hash, depth: nat,
                          header: Option<Hash>, left: int, walked: seq<Hash>)
    requires visible <= chain.store.Keys && h in chain.store && (header.Some? ==> header.value in chain.store)
  {
    if header.Some? && 0 <= left then
      && Down(chain, visible, h, depth) == walked + Down(chain, visible, header.value, left)
      && WalkDown(v, chain, visible, diffs, h, depth) == WalkDown(v', chain, visible, diffs, header.value, left)
    else Down(chain, visible, h, depth) == walked && WalkDown(v, chain, visible, diffs, h, depth) == v'
  }

  lemma {:induction false} HalfwayOn(v: View, v': View, chain: Chain, visible: set<Hash>, diffs: set<Hash>, h: Hash,
                                     depth: nat, hash: Hash, left: nat, left': int, walked: seq<Hash>)
    requires visible <= chain.store.Keys && h in chain.store && hash in chain.store && left' == left - 1
    requires Halfway(v, v', chain, visible, diffs, h, depth, Some(hash), left, walked)
    ensures Halfway(v, Stop(v', chain, diffs, hash), chain, visible, diffs, h, depth,
                    Onward(chain, visible, hash), left', walked + [hash])
  {
    var next := Onward(chain, visible, hash);
    if 0 <= left' && next.Some? {
      var rest := Down(chain, visible, next.value, left');
      assert Down(chain, visible, hash, left) == [hash] + rest;
      assert walked + ([hash] + rest) == walked + [hash] + rest;
    } else {
      assert Down(chain, visible, hash, left) == [hash];
    }
  }

  // Visits the new head and so many of its ancestors. All of them end up verified or with a task,
  // unless there is no diff to verify them with; a full cache does not push any of them out.
  method NewBlockVerifyTask(chain: Chain, visible: set<Hash>, diffs: set<Hash>, h: Hash, depth: nat, v: View,
                            ghost ever: set<Hash>, ghost seeds: set<Hash>, ghost replies: set<Reply>,
                            ghost insecure: bool)
    returns (v': View, ghost ever': set<Hash>)
    requires visible <= chain.store.Keys && h in chain.store && depth < VERIFIED_CACHE_SIZE
    requires GoodTasks(v.tasks, chain) && GoodCache(v.cache, ever, seeds, replies, chain, insecure)
    ensures TasksGrow(v.tasks, v'.tasks, diffs) && AllCovered(v', chain, diffs, Down(chain, visible, h, depth))
    ensures Walked(v, ever, v', ever', diffs, Down(chain, visible, h, depth), seeds, replies, chain, insecure)
    ensures v' == WalkDown(v, chain, visible, diffs, h, depth)
  {
    v', ever' := v, ever;
    var header := Some(h);
    var i := 0;
    ghost var walked: seq<Hash>, left: int := [], depth;
    while header.Some? && i <= depth
      invariant 0 <= i <= depth + 1 && |walked| <= i && left == depth - i
      invariant header.Some? ==> header.value in chain.store
      invariant Walked(v, ever, v', ever', diffs, walked, seeds, replies, chain, insecure)
      invariant Halfway(v, v', chain, visible, diffs, h, depth, header, left, walked)
      decreases depth + 1 - i
    {
      var hash := header.value;
      HalfwayOn(v, v', chain, visible, diffs, h, depth, hash, left, left - 1, walked);
      v', ever' := VisitNext(v', diffs, hash, chain, v, ever, ever', walked, seeds, replies, insecure);
      header := Onward(chain, visible, hash);
      i := i + 1;
      walked, left := walked + [hash], left - 1;
    }
  }

  // The blocks a manager takes as verified when it starts: the block it rewinds to and the ten
  // below it, short of genesis.
  method SeedCache(s: Store, ghost g: Hash, top: Hash) returns (cache: seq<Hash>)
    requires Linked(s, g) && top in s
    ensures |cache| == if s[top].number < MAX_FORK_HEIGHT then s[top].number else MAX_FORK_HEIGHT
    ensures forall i :: 0 <= i < |cache| ==> cache[i] == Ancestor(s, g, top, s[top].number - i)
  {
    cache := [];
    var block := top;
    var i := 0;
    while i < MAX_FORK_HEIGHT && s[block].number > 0
      invariant 0 <= i <= MAX_FORK_HEIGHT && i <= s[top].number && |cache| == i
      invariant block in s && block == Ancestor(s, g, top, s[top].number - i)
      invariant forall j :: 0 <= j < |cache| ==> cache[j] == Ancestor(s, g, top, s[top].number - j)
    {
      AncestorStep(s, g, top, s[top].number - i);
      cache := cache + [block];
      block := s[block].parent;
      i := i + 1;
    }
  }

  /* The manager */

  ghost predicate GoodBusy(busy: seq<Busy>, replies: set<Reply>, chain: Chain) {
    forall i :: 0 <= i < |busy| ==>
      busy[i].reply in replies && busy[i].reply.hash == busy[i].task.hash && TaskOf(chain, busy[i].task)
  }

  ghost predicate GoodChannel(ch: seq<Hash>, seeds: set<Hash>, replies: set<Reply>, chain: Chain, insecure: bool) {
    |ch| <= MAX_FORK_HEIGHT && forall i :: 0 <= i < |ch| ==> Justified(seeds, replies, chain, insecure, ch[i])
  }

  lemma {:induction false} MoreReplies(r: Reply, cache: seq<Hash>, ever: set<Hash>, ch: seq<Hash>,
                                       seeds: set<Hash>, replies: set<Reply>, chain: Chain, insecure: bool)
    requires GoodCache(cache, ever, seeds, replies, chain, insecure) && GoodChannel(ch, seeds, replies, chain, insecure)
    ensures GoodCache(cache, ever, seeds, replies + {r}, chain, insecure)
    ensures GoodChannel(ch, seeds, replies + {r}, chain, insecure)
  {
    forall h | Justified(seeds, replies, chain, insecure, h)
      ensures Justified(seeds, replies + {r}, chain, insecure, h)
    {
      if Confirmed(replies, chain, insecure, h) {
        var q :| q in replies && Confirms(q, chain, insecure, h);
        assert q in replies + {r};
      }
    }
  }

  // The status counts as a verification, given the mode.
  predicate Accepts(r: Reply, insecure: bool) {
    r.status.FullVerified? || (insecure && r.status.PartiallyVerified?)
  }

  // The task passes the block on as verified.
  predicate Passes(b: Busy, insecure: bool) {
    Accepts(b.reply, insecure) && b.reply.root == b.task.header.root
  }

  // The peer is not asked again.
  predicate Blamed(b: Busy, insecure: bool) {
    b.reply.status.Failed? || (Accepts(b.reply, insecure) && b.reply.root != b.task.header.root)
  }

  // A task that passes a block on has been told the right root with a status it accepts.
  lemma {:induction false} Passed(b: Busy, seeds: set<Hash>, replies: set<Reply>, chain: Chain, insecure: bool)
    requires b.reply in replies && b.reply.hash == b.task.hash && TaskOf(chain, b.task) && Passes(b, insecure)
    ensures Justified(seeds, replies, chain, insecure, b.reply.hash)
  {
    assert Confirms(b.reply, chain, insecure, b.reply.hash);
  }

  // A task passes its block on if and only if the reply confirms it.
  lemma {:induction false} PassesIffConfirmed(b: Busy, chain: Chain, insecure: bool)
    requires TaskOf(chain, b.task) && b.reply.hash == b.task.hash
    ensures Passes(b, insecure) <==> Confirms(b.reply, chain, insecure, b.task.hash)
  {
  }

  // Otherwise the peer is blamed for a failure, and for a verification it vouches for, fully or, where
  // that is enough, partially, under another root; never for one that is not ready, nor for a partial
  // one where that does not count.
  lemma {:induction false} WhoIsBlamed(b: Busy, insecure: bool)
    ensures !(Passes(b, insecure) && Blamed(b, insecure))
    ensures match b.reply.status
            case FullVerified => Blamed(b, insecure) <==> b.reply.root != b.task.header.root
            case PartiallyVerified => Blamed(b, insecure) <==> insecure && b.reply.root != b.task.header.root
            case Failed => Blamed(b, insecure)
            case NotYet => !Blamed(b, insecure) && !Passes(b, insecure)
  {
  }

  function Obsolete(t: Task, current: nat, stopped: bool): bool {
    stopped || (current > t.header.number && current - t.header.number > PRUNE_HEIGHT_DIFF)
  }

  // A task is kept while the head is no more than fifteen above its block, until the node stops.
  lemma {:induction false} KeptWhileRecent(t: Task, current: nat)
    ensures !Obsolete(t, current, false) <==> current <= t.header.number + 15
    ensures Obsolete(t, current, true)
  {
  }

  // The 64-bit number eleven below.
  function ForkNumber(number: nat): int {
    (number - MAX_FORK_HEIGHT) % TWO_64
  }

  // The canonical block eleven below, unless there is none in the database or it is empty.
  function ForkAncestor(canon: map<int, Hash>, visible: set<Hash>, empty: set<Hash>, number: nat): Option<Hash> {
    var n := ForkNumber(number);
    if n in canon && canon[n] in visible && canon[n] !in empty then Some(canon[n]) else None
  }

  // On a canonical chain that is the ancestor of its head eleven below the number. Close to genesis
  // there is none: the subtraction wraps far beyond the chain.
  lemma {:induction false} ElevenBelow(chain: Chain, g: Hash, head: Hash, visible: set<Hash>, number: nat)
    requires Linked(chain.store, g) && head in chain.store
    requires number < TWO_64 && chain.store[head].number < TWO_64 - MAX_FORK_HEIGHT
    ensures var r := ForkAncestor(PathMap(chain.store, g, head), visible, chain.empty, number);
            if MAX_FORK_HEIGHT <= number <= chain.store[head].number + MAX_FORK_HEIGHT then
              var a := Ancestor(chain.store, g, head, number - MAX_FORK_HEIGHT);
              r == if a in visible && a !in chain.empty then Some(a) else None
            else r == None
  {
    if number >= MAX_FORK_HEIGHT {
      assert ForkNumber(number) == number - MAX_FORK_HEIGHT;
    } else {
      assert ForkNumber(number) == number - MAX_FORK_HEIGHT + TWO_64;
    }
  }

  // The blocks taken as verified at the start: the eleventh below the head and the ten below that,
  // short of genesis.
  ghost function StartBlocks(s: Store, g: Hash, head: Hash): set<Hash>
    requires Linked(s, g) && head in s
  {
    var start := s[head].number - MAX_FORK_HEIGHT;
    set n: int | start - MAX_FORK_HEIGHT < n <= start && 0 < n :: Ancestor(s, g, head, n)
  }

  method StartCache(s: Store, ghost g: Hash, canon: map<int, Hash>, head: Hash) returns (cache: seq<Hash>)
    requires Linked(s, g) && head in s && canon == PathMap(s, g, head)
    ensures |cache| <= MAX_FORK_HEIGHT && (set i | 0 <= i < |cache| :: cache[i]) == StartBlocks(s, g, head)
  {
    cache := [];
    var start := s[head].number - MAX_FORK_HEIGHT;
    if start >= 0 {
      cache := SeedCache(s, g, canon[start]);
      forall i | 0 <= i < |cache|
        ensures cache[i] == Ancestor(s, g, head, start - i)
      {
        AncestorOfAncestor(s, g, head, start, start - i);
      }
      forall n: int | start - MAX_FORK_HEIGHT < n <= start && 0 < n
        ensures Ancestor(s, g, head, n) in (set i | 0 <= i < |cache| :: cache[i])
      {
        assert cache[start - n] == Ancestor(s, g, head, n);
      }
    }
  }

  datatype Event =
    | NewBlock(hash: Hash, diffs: set<Hash>)
    | Receive(reply: Reply)
    | Judge(index: nat)
    | TakeVerified
    | Prune(current: nat, stopped: bool)
    | ChainMoves(visible: set<Hash>, canon: map<int, Hash>)

  /* The manager as a machine of atomic steps */

  // What the goroutines share: what the database shows, the cache and the table of tasks, the
  // replies being judged, the peers blamed by each task, and the blocks passed on.
  datatype State = State(
    visible: set<Hash>,
    canon: map<int, Hash>,
    view: View,
    busy: seq<Busy>,
    badPeers: map<nat, set<Peer>>,
    verifyCh: seq<Hash>)

  function BlamedBy(badPeers: map<nat, set<Peer>>, id: nat): set<Peer> {
    if id in badPeers then badPeers[id] else {}
  }

  // A task judges the reply it has taken. It waits while the channel is full.
  function Judged(s: State, k: nat, insecure: bool): State
    requires k < |s.busy|
  {
    var b, rest := s.busy[k], DeleteAt(s.busy, k);
    if Passes(b, insecure) then
      if |s.verifyCh| == MAX_FORK_HEIGHT then s
      else s.(busy := rest, verifyCh := s.verifyCh + [b.task.hash])
    else if Blamed(b, insecure) then
      s.(busy := rest, badPeers := s.badPeers[b.task.id := BlamedBy(s.badPeers, b.task.id) + {b.reply.peer}])
    else s.(busy := rest)
  }

  function Recorded(v: View, h: Hash): View {
    Cached(v, h).(tasks := v.tasks - {h})
  }

  function Pruned(v: View, current: nat, stopped: bool): View {
    v.(tasks := map h | h in v.tasks && !Obsolete(v.tasks[h], current, stopped) :: v.tasks[h])
  }

  function Delivered(s: State, reply: Reply): State {
    var tasks := s.view.tasks;
    s.(busy := s.busy + if reply.hash in tasks then [Busy(tasks[reply.hash], reply)] else [])
  }

  // One step of any goroutine; a step that is not possible now leaves everything as it is.
  function Next(chain: Chain, insecure: bool, s: State, e: Event): State {
    match e
    case NewBlock(h, diffs) =>
      if h in chain.store && s.visible <= chain.store.Keys
      then s.(view := WalkDown(s.view, chain, s.visible, diffs, h, MAX_FORK_HEIGHT)) else s
    case Receive(reply) => Delivered(s, reply)
    case Judge(k) => if k < |s.busy| then Judged(s, k, insecure) else s
    case TakeVerified =>
      if s.verifyCh != [] then s.(view := Recorded(s.view, s.verifyCh[0]), verifyCh := s.verifyCh[1..]) else s
    case Prune(current, stopped) => s.(view := Pruned(s.view, current, stopped))
    case ChainMoves(visible, canon) =>
      if visible <= chain.store.Keys then s.(visible := visible, canon := canon) else s
  }

  // The state after so many of the events.
  function After(chain: Chain, insecure: bool, s: State, events: seq<Event>, n: nat): State
    requires n <= |events|
  {
    if n == 0 then s else Next(chain, insecure, After(chain, insecure, s, events, n - 1), events[n - 1])
  }

  // The task that the hash had in the first state is still its task in the second.
  predicate StillOpen(s: State, s': State, h: Hash)
    requires h in s.view.tasks
  {
    h in s'.view.tasks && s'.view.tasks[h] == s.view.tasks[h]
  }

  function Used(s: State, h: Hash): State {
    s.(view := s.view.(cache := Touch(s.view.cache, h)))
  }

  // Exactly the replies that arrived have been added.
  ghost predicate Heard(before: set<Reply>, events: seq<Event>, n: nat, after: set<Reply>)
    requires n <= |events|
  {
    forall r :: r in after <==> r in before || Receive(r) in events[..n]
  }

  /* What the machine is for */

  // Genesis is recorded wherever the walk gets to it.
  lemma {:induction false} GenesisIsRecorded(v: View, chain: Chain, visible: set<Hash>, diffs: set<Hash>, h: Hash,
                                             n: nat)
    requires visible <= chain.store.Keys && h in chain.store
    ensures var walked := Down(chain, visible, h, n);
            var last := walked[|walked| - 1];
            last in chain.store && (chain.store[last].number == 0 ==>
                                      last in WalkDown(v, chain, visible, diffs, h, n).cache)
    decreases n
  {
    var parent := chain.store[h].parent;
    if !(n == 0 || chain.store[h].number == 0 || parent !in visible) {
      GenesisIsRecorded(Stop(v, chain, diffs, h), chain, visible, diffs, parent, n - 1);
      var rest := Down(chain, visible, parent, n - 1);
      assert ([h] + rest)[|rest|] == rest[|rest| - 1];
    }
  }

  // The task is in the table or at work on a reply.
  ghost predicate Alive(s: State, t: Task) {
    (t.hash in s.view.tasks && s.view.tasks[t.hash] == t) || exists i :: 0 <= i < |s.busy| && s.busy[i].task == t
  }

  // No two of the tasks share a number, and nobody is blamed under a number not given out yet.
  ghost predicate Numbered(s: State) {
    && (forall h :: h in s.view.tasks ==> s.view.tasks[h].hash == h)
    && (forall t {:trigger Alive(s, t)} :: Alive(s, t) ==> t.id < s.view.nextId)
    && (forall t, u {:trigger Alive(s, t), Alive(s, u)} :: Alive(s, t) && Alive(s, u) && t.id == u.id ==> t == u)
    && (forall id :: id in s.badPeers ==> id < s.view.nextId)
  }

  // A stop of the walk gives out at most the next number, to a task with nobody blamed.
  lemma {:induction false} StopNumbers(s: State, chain: Chain, diffs: set<Hash>, h: Hash)
    requires Numbered(s) && h in chain.store
    ensures Numbered(s.(view := Stop(s.view, chain, diffs, h)))
    ensures var v' := Stop(s.view, chain, diffs, h);
            h in v'.tasks && h !in s.view.tasks ==> BlamedBy(s.badPeers, v'.tasks[h].id) == {}
  {
    var s' := s.(view := Stop(s.view, chain, diffs, h));
    forall t | Alive(s', t)
      ensures Alive(s, t) || (t == s'.view.tasks[t.hash] && t.hash == h && t.id == s.view.nextId < s'.view.nextId)
    {
    }
  }

  lemma {:induction false} WalkNumbers(s: State, chain: Chain, visible: set<Hash>, diffs: set<Hash>, h: Hash, n: nat)
    requires Numbered(s) && visible <= chain.store.Keys && h in chain.store
    ensures Numbered(s.(view := WalkDown(s.view, chain, visible, diffs, h, n)))
    decreases n
  {
    StopNumbers(s, chain, diffs, h);
    var parent := chain.store[h].parent;
    if !(n == 0 || chain.store[h].number == 0 || parent !in visible) {
      WalkNumbers(s.(view := Stop(s.view, chain, diffs, h)), chain, visible, diffs, parent, n - 1);
    }
  }

  lemma {:induction false} AliveIn(s: State, s': State, t: Task)
    requires Alive(s', t)
    requires forall h :: h in s'.view.tasks ==> h in s.view.tasks && s'.view.tasks[h] == s.view.tasks[h]
    requires forall i :: 0 <= i < |s'.busy| ==> Alive(s, s'.busy[i].task)
    ensures Alive(s, t)
  {
  }

  lemma {:induction false} JudgedAlive(s: State, k: nat, insecure: bool, i: nat)
    requires k < |s.busy| && i < |Judged(s, k, insecure).busy|
    ensures Alive(s, Judged(s, k, insecure).busy[i].task)
  {
    var busy := Judged(s, k, insecure).busy;
    assert busy[i] == s.busy[if busy == s.busy || i < k then i else i + 1];
  }

  lemma {:induction false} DeliveredAlive(s: State, reply: Reply, i: nat)
    requires Numbered(s) && i < |Delivered(s, reply).busy|
    ensures Alive(s, Delivered(s, reply).busy[i].task)
  {
    if i < |s.busy| {
      assert Delivered(s, reply).busy[i] == s.busy[i];
    }
  }

  // Every other step makes no task.
  lemma {:induction false} NoneMade(chain: Chain, insecure: bool, s: State, e: Event, t: Task)
    requires Numbered(s) && !e.NewBlock? && Alive(Next(chain, insecure, s, e), t)
    ensures Alive(s, t)
  {
    var s' := Next(chain, insecure, s, e);
    forall i | 0 <= i < |s'.busy|
      ensures Alive(s, s'.busy[i].task)
    {
      if e.Judge? && e.index < |s.busy| {
        JudgedAlive(s, e.index, insecure, i);
      } else if e.Receive? {
        DeliveredAlive(s, e.reply, i);
      } else {
        assert s'.busy[i] == s.busy[i];
      }
    }
    AliveIn(s, s', t);
  }

  lemma {:induction false} NextNumbered(chain: Chain, insecure: bool, s: State, e: Event)
    requires Numbered(s)
    ensures Numbered(Next(chain, insecure, s, e))
  {
    if e.NewBlock? {
      if e.hash in chain.store && s.visible <= chain.store.Keys {
        WalkNumbers(s, chain, s.visible, e.diffs, e.hash, MAX_FORK_HEIGHT);
      }
    } else {
      var s' := Next(chain, insecure, s, e);
      forall t | Alive(s', t)
        ensures Alive(s, t)
      {
        NoneMade(chain, insecure, s, e, t);
      }
      if e.Judge? && e.index < |s.busy| {
        assert Alive(s, s.busy[e.index].task);
      }
    }
  }

  // In every run each task has its number for itself, so a peer that one task blames is still asked by
  // the others.
  lemma {:induction false} TasksAreNumbered(chain: Chain, insecure: bool, s: State, events: seq<Event>, n: nat)
    requires Numbered(s) && n <= |events|
    ensures Numbered(After(chain, insecure, s, events, n))
  {
    if n > 0 {
      TasksAreNumbered(chain, insecure, s, events, n - 1);
      NextNumbered(chain, insecure, After(chain, insecure, s, events, n - 1), events[n - 1]);
    }
  }

  // So many blocks recorded one after the other.
  function Taking(n: nat): (events: seq<Event>)
    ensures |events| == n && forall i :: 0 <= i < n ==> events[i] == TakeVerified
  {
    seq(n, i => TakeVerified)
  }

  lemma {:induction false} AfterConcat(chain: Chain, insecure: bool, s: State, x: seq<Event>, y: seq<Event>, n: nat)
    requires n <= |y|
    ensures After(chain, insecure, s, x + y, |x| + n) ==
            After(chain, insecure, After(chain, insecure, s, x, |x|), y, n)
    decreases n
  {
    if n == 0 {
      AfterPrefix(chain, insecure, s, x, y, |x|);
    } else {
      AfterConcat(chain, insecure, s, x, y, n - 1);
    }
  }

  lemma {:induction false} AfterPrefix(chain: Chain, insecure: bool, s: State, x: seq<Event>, y: seq<Event>, n: nat)
    requires n <= |x|
    ensures After(chain, insecure, s, x + y, n) == After(chain, insecure, s, x, n)
    decreases n
  {
    if n > 0 {
      AfterPrefix(chain, insecure, s, x, y, n - 1);
    }
  }

  // The blocks passed on are recorded in turn, and their tasks go.
  lemma {:induction false} TakesInTurn(chain: Chain, insecure: bool, s: State, events: seq<Event>, n: nat)
    requires n <= |s.verifyCh| && events == Taking(|s.verifyCh|)
    ensures var s' := After(chain, insecure, s, events, n);
            && s'.verifyCh == s.verifyCh[n..] && s'.busy == s.busy
            && (n > 0 ==> s.verifyCh[n - 1] in s'.view.cache && s.verifyCh[n - 1] !in s'.view.tasks)
    decreases n
  {
    if n > 0 {
      TakesInTurn(chain, insecure, s, events, n - 1);
    }
  }

  // A confirming reply that has been delivered and judged has its block passed on.
  lemma {:induction false} ConfirmedPasses(chain: Chain, insecure: bool, s: State, r: Reply, events: seq<Event>)
    requires r.hash in s.view.tasks && s.view.tasks[r.hash].hash == r.hash && TaskOf(chain, s.view.tasks[r.hash])
    requires Confirms(r, chain, insecure, r.hash) && |s.verifyCh| < MAX_FORK_HEIGHT
    requires events == [Receive(r), Judge(|s.busy|)]
    ensures After(chain, insecure, s, events, |events|) == s.(verifyCh := s.verifyCh + [r.hash])
  {
    var b := Busy(s.view.tasks[r.hash], r);
    var s1 := s.(busy := s.busy + [b]);
    PassesIffConfirmed(b, chain, insecure);
    assert After(chain, insecure, s, events, 0) == s;
    assert After(chain, insecure, s, events, 1) == s1;
    assert DeleteAt(s1.busy, |s.busy|) == s.busy;
  }

  // A confirming reply gets its block verified: once it has been delivered to the block's task, judged,
  // and the channel with room for it read to its end, the block is recorded and its task is gone.
  lemma {:induction false} ConfirmedIsRecorded(chain: Chain, insecure: bool, s: State, r: Reply)
    requires r.hash in s.view.tasks && s.view.tasks[r.hash].hash == r.hash && TaskOf(chain, s.view.tasks[r.hash])
    requires Confirms(r, chain, insecure, r.hash) && |s.verifyCh| < MAX_FORK_HEIGHT
    ensures var events := [Receive(r), Judge(|s.busy|)] + Taking(|s.verifyCh| + 1);
            var s' := After(chain, insecure, s, events, |events|);
            && r.hash in s'.view.cache && r.hash !in s'.view.tasks && s'.verifyCh == [] && s'.busy == s.busy
            && s'.badPeers == s.badPeers
  {
    var first, rest := [Receive(r), Judge(|s.busy|)], Taking(|s.verifyCh| + 1);
    ConfirmedPasses(chain, insecure, s, r, first);
    AfterConcat(chain, insecure, s, first, rest, |rest|);
    AllTaken(chain, insecure, s.(verifyCh := s.verifyCh + [r.hash]), rest, r.hash);
  }

  lemma {:induction false} AllTaken(chain: Chain, insecure: bool, s: State, events: seq<Event>, h: Hash)
    requires s.verifyCh != [] && s.verifyCh[|s.verifyCh| - 1] == h && events == Taking(|s.verifyCh|)
    ensures var s' := After(chain, insecure, s, events, |events|);
            && h in s'.view.cache && h !in s'.view.tasks && s'.verifyCh == [] && s'.busy == s.busy
            && s'.badPeers == s.badPeers
  {
    TakesInTurn(chain, insecure, s, events, |events|);
    TakingBlamesNobody(chain, insecure, s, events, |events|);
  }

  lemma {:induction false} TakingBlamesNobody(chain: Chain, insecure: bool, s: State, events: seq<Event>, n: nat)
    requires n <= |events| && forall i :: 0 <= i < |events| ==> events[i] == TakeVerified
    ensures After(chain, insecure, s, events, n).badPeers == s.badPeers
    decreases n
  {
    if n > 0 {
      TakingBlamesNobody(chain, insecure, s, events, n - 1);
    }
  }

  // A reply that gets its peer blamed adds exactly that peer to those its task avoids, and one that
  // neither passes nor blames changes nothing but being done with.
  lemma {:induction false} BlameIsExact(s: State, k: nat, insecure: bool, id: nat)
    requires k < |s.busy| && !Passes(s.busy[k], insecure)
    ensures var s', b := Judged(s, k, insecure), s.busy[k];
            && s'.view == s.view && s'.verifyCh == s.verifyCh && s'.busy == s.busy[..k] + s.busy[k + 1..]
            && BlamedBy(s'.badPeers, id) ==
               BlamedBy(s.badPeers, id) + if Blamed(b, insecure) && id == b.task.id then {b.reply.peer} else {}
  {
  }

  // A prune drops exactly the tasks whose blocks lie more than fifteen below the head.
  lemma {:induction false} PruneKeepsRecent(v: View, current: nat, h: Hash)
    ensures var v' := Pruned(v, current, false);
            && v'.cache == v.cache && (h in v'.tasks ==> h in v.tasks && v'.tasks[h] == v.tasks[h])
            && (h in v'.tasks <==> h in v.tasks && current <= v.tasks[h].header.number + 15)
    ensures Pruned(v, current, true).tasks == map[]
  {
  }

  class VerifyManager {
    const chain: Chain
    const insecure: bool
    ghost const seeds: set<Hash>

    var visible: set<Hash>
    var canon: map<int, Hash>
    var verifiedCache: seq<Hash>
    var tasks: map<Hash, Task>
    var nextId: nat
    var busy: seq<Busy>
    var badPeers: map<nat, set<Peer>>
    var verifyCh: seq<Hash>
    ghost var ever: set<Hash>
    ghost var replies: set<Reply>

    ghost predicate Valid()
      reads this
    {
      && visible <= chain.store.Keys
      && GoodTasks(tasks, chain)
      && GoodBusy(busy, replies, chain)
      && GoodCache(verifiedCache, ever, seeds, replies, chain, insecure)
      && GoodChannel(verifyCh, seeds, replies, chain, insecure)
    }

    function Snapshot(): State
      reads this
    {
      State(visible, canon, View(verifiedCache, tasks, nextId), busy, badPeers, verifyCh)
    }

    // What has been cached stays justified, and what peers have said stays said.
    twostate predicate Grows()
      reads this
    {
      old(ever) <= ever && old(replies) <= replies
    }

    // Rewinds the chain by eleven blocks and takes those below as verified.
    constructor (chain: Chain, ghost g: Hash, insecure: bool, canon: map<int, Hash>, head: Hash, visible: set<Hash>)
      requires Linked(chain.store, g) && head in chain.store && canon == PathMap(chain.store, g, head)
      requires visible <= chain.store.Keys
      ensures Valid() && this.chain == chain && this.insecure == insecure
      ensures seeds == ever == StartBlocks(chain.store, g, head)
      ensures (set i | 0 <= i < |verifiedCache| :: verifiedCache[i]) == seeds
      ensures var start := chain.store[head].number - MAX_FORK_HEIGHT;
              this.canon == map n | n in canon && (n <= start || n == 0) :: canon[n]
      ensures Numbered(Snapshot()) && replies == {}
      ensures Snapshot() == State(visible, this.canon, View(verifiedCache, map[], 0), [], map[], [])
    {
      var seed := StartCache(chain.store, g, canon, head);
      var start := chain.store[head].number - MAX_FORK_HEIGHT;
      this.chain, this.insecure, this.visible := chain, insecure, visible;
      this.canon := map n | n in canon && (n <= start || n == 0) :: canon[n];
      seeds := StartBlocks(chain.store, g, head);
      ever := StartBlocks(chain.store, g, head);
      verifiedCache, tasks, busy, verifyCh, badPeers := seed, map[], [], [], map[];
      nextId, replies := 0, {};
      new;
      forall h | h in verifiedCache
        ensures h in ever
      {
        assert h in (set i | 0 <= i < |verifiedCache| :: verifiedCache[i]);
      }
    }

    method OnNewBlock(hash: Hash, diffs: set<Hash>)
      requires Valid() && hash in chain.store
      modifies this`verifiedCache, this`tasks, this`nextId, this`ever
      ensures Valid() && Grows()
      ensures TasksGrow(old(tasks), tasks, diffs)
      ensures AllCovered(View(verifiedCache, tasks, nextId), chain, diffs, Down(chain, visible, hash, MAX_FORK_HEIGHT))
      ensures Snapshot() == Next(chain, insecure, old(Snapshot()), NewBlock(hash, diffs))
    {
      var v;
      v, ever := NewBlockVerifyTask(chain, visible, diffs, hash, MAX_FORK_HEIGHT, View(verifiedCache, tasks, nextId),
                                    ever, seeds, replies, insecure);
      verifiedCache, tasks, nextId := v.cache, v.tasks, v.nextId;
    }

    // A peer's reply reaches the task of its block; without such a task it is dropped.
    method OnReply(reply: Reply)
      requires Valid()
      modifies this`busy, this`replies
      ensures Valid() && Grows() && replies == old(replies) + {reply}
      ensures busy == old(busy) + if reply.hash in tasks then [Busy(tasks[reply.hash], reply)] else []
      ensures Snapshot() == Delivered(old(Snapshot()), reply)
    {
      MoreReplies(reply, verifiedCache, ever, verifyCh, seeds, replies, chain, insecure);
      replies := replies + {reply};
      if reply.hash in tasks {
        busy := busy + [Busy(tasks[reply.hash], reply)];
      }
    }

    // A task judges the reply it has taken, whether or not it is still in the table. It waits
    // while the channel is full.
    method OnJudge(k: nat)
      requires Valid() && k < |busy|
      modifies this`busy, this`badPeers, this`verifyCh
      ensures Valid() && Grows()
      ensures var b := old(busy)[k];
              && (Passes(b, insecure) && |old(verifyCh)| == MAX_FORK_HEIGHT ==>
                    busy == old(busy) && verifyCh == old(verifyCh))
              && (Passes(b, insecure) && |old(verifyCh)| < MAX_FORK_HEIGHT ==>
                    busy == old(DeleteAt(busy, k)) && verifyCh == old(verifyCh) + [b.task.hash])
              && (!Passes(b, insecure) ==> busy == old(DeleteAt(busy, k)) && verifyCh == old(verifyCh))
              && (Blamed(b, insecure) ==> b.task.id in badPeers && b.reply.peer in badPeers[b.task.id])
              && (!Blamed(b, insecure) ==> badPeers == old(badPeers))
      ensures Snapshot() == Judged(old(Snapshot()), k, insecure)
    {
      var Busy(task, reply) := busy[k];
      if Passes(busy[k], insecure) {
        if |verifyCh| == MAX_FORK_HEIGHT {
          return;
        }
        Passed(busy[k], seeds, replies, chain, insecure);
        verifyCh := verifyCh + [reply.hash];
      } else if Blamed(busy[k], insecure) {
        badPeers := badPeers[task.id := BlamedBy(badPeers, task.id) + {reply.peer}];
      }
      busy := DeleteAt(busy, k);
    }

    // The manager records the next block that some task has passed on, and drops its task.
    method OnVerified()
      requires Valid() && verifyCh != []
      modifies this`verifiedCache, this`verifyCh, this`tasks, this`ever
      ensures Valid() && Grows()
      ensures verifyCh == old(verifyCh[1..]) && ever == old(ever) + {old(verifyCh)[0]}
      ensures old(verifyCh)[0] in verifiedCache && tasks == old(tasks) - {old(verifyCh)[0]}
      ensures verifiedCache == CacheVerified(old(verifiedCache), old(verifyCh)[0])
    {
      var hash := verifyCh[0];
      CachedGood(verifiedCache, ever, hash, seeds, replies, chain, insecure);
      verifyCh := verifyCh[1..];
      verifiedCache := CacheVerified(verifiedCache, hash);
      ever := ever + {hash};
      tasks := tasks - {hash};
    }

    // Drops the tasks of blocks that lie too far behind.
    method OnPrune(current: nat, stopped: bool)
      requires Valid()
      modifies this`tasks
      ensures Valid() && Grows()
      ensures tasks == map h | h in old(tasks) && !Obsolete(old(tasks)[h], current, stopped) :: old(tasks)[h]
    {
      var todo, kept := tasks.Keys, tasks;
      while todo != {}
        invariant todo <= tasks.Keys
        invariant forall h :: h in kept <==> h in tasks && (h in todo || !Obsolete(tasks[h], current, stopped))
        invariant forall h :: h in kept ==> kept[h] == tasks[h]
      {
        var h :| h in todo;
        if Obsolete(kept[h], current, stopped) {
          kept := kept - {h};
        }
        todo := todo - {h};
      }
      tasks := kept;
    }

    method OnChainMoves(visible: set<Hash>, canon: map<int, Hash>)
      requires Valid() && visible <= chain.store.Keys
      modifies this`visible, this`canon
      ensures Valid() && Grows() && this.visible == visible && this.canon == canon
    {
      this.visible, this.canon := visible, canon;
    }

    // One step of any goroutine, exactly as the machine takes it.
    method Step(e: Event)
      requires Valid()
      modifies this
      ensures Valid() && Grows()
      ensures Snapshot() == Next(chain, insecure, old(Snapshot()), e)
      ensures replies == old(replies) + if e.Receive? then {e.reply} else {}
      ensures e.NewBlock? && e.hash in chain.store ==>
                AllCovered(View(verifiedCache, tasks, nextId), chain, e.diffs,
                           Down(chain, visible, e.hash, MAX_FORK_HEIGHT))
    {
      match e
      case NewBlock(hash, diffs) => if hash in chain.store { OnNewBlock(hash, diffs); }
      case Receive(reply) => OnReply(reply);
      case Judge(k) => if k < |busy| { OnJudge(k); }
      case TakeVerified => if verifyCh != [] { OnVerified(); }
      case Prune(current, stopped) => OnPrune(current, stopped);
      case ChainMoves(visible, canon) => if visible <= chain.store.Keys { OnChainMoves(visible, canon); }
    }

    // Whatever happens in whatever order, everything ever recorded as verified is a seed, genesis,
    // an empty block, or confirmed by a reply that arrived, for that very block.
    method Run(events: seq<Event>)
      requires Valid()
      modifies this
      ensures Valid() && Grows()
      ensures Snapshot() == After(chain, insecure, old(Snapshot()), events, |events|)
      ensures Heard(old(replies), events, |events|, replies)
      ensures forall n, h ::
                0 <= n <= |events| && h in After(chain, insecure, old(Snapshot()), events, n).view.cache ==> h in ever
      ensures forall h :: h in ever ==> Justified(seeds, replies, chain, insecure, h)
    {
      ghost var s, heard := Snapshot(), replies;
      for i := 0 to |events|
        invariant Valid() && Grows()
        invariant Snapshot() == After(chain, insecure, s, events, i) && Heard(heard, events, i, replies)
        invariant forall n, h :: 0 <= n <= i && h in After(chain, insecure, s, events, n).view.cache ==> h in ever
      {
        assert events[..i + 1] == events[..i] + [events[i]];
        Step(events[i]);
      }
      assert events[..|events|] == events;
    }

    // Waits for the task of the ancestor, while everything else goes on, until the task is closed
    // or the time is up, and says yes exactly for an ancestor that is missing, empty or recorded as
    // verified by then.
    method AncestorVerified(number: nat, timeout: bool, meanwhile: seq<Event>) returns (ok: bool)
      requires Valid()
      modifies this
      ensures Valid() && Grows()
      ensures var s, h := old(Snapshot()), old(ForkAncestor(canon, visible, chain.empty, number));
              var waits := h.Some? && h.value in s.view.tasks;
              var s' := if waits then After(chain, insecure, s, meanwhile, |meanwhile|) else s;
              && (ok <==> h.None? || (h.value in s'.view.cache && !(waits && (timeout || StillOpen(s, s', h.value)))))
              && Snapshot() == (if ok && h.Some? then Used(s', h.value) else s')
              && (if waits then Heard(old(replies), meanwhile, |meanwhile|, replies) else replies == old(replies))
              && (ok && h.Some? ==> Justified(seeds, replies, chain, insecure, h.value))
    {
      var h := ForkAncestor(canon, visible, chain.empty, number);
      if h.None? {
        return true;
      }
      if h.value in tasks {
        var task := tasks[h.value];
        Run(meanwhile);
        if timeout || (h.value in tasks && tasks[h.value] == task) {
          return false;
        }
      }
      ok := h.value in verifiedCache;
      if ok {
        TouchGood(verifiedCache, ever, h.value, seeds, replies, chain, insecure);
        verifiedCache := Touch(verifiedCache, h.value);
      }
    }
  }
}
