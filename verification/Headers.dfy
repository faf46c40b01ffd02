/** The header table shared by all chain components: headers linked by parent hash
    down to genesis, the ancestor path of a header, and the difficulty summed along it. */
module Headers {

  // Hashes are opaque identifiers; the all-zero hash never names a stored header.
  datatype Hash = Hash(id: nat)
  const NO_HASH: Hash := Hash(0)

  datatype Root = Root(id: nat)
  const NO_ROOT: Root := Root(0)

  datatype Option<+T> = None | Some(value: T)

  datatype Header = Header(
    parent: Hash,
    number: nat,
    difficulty: int,
    root: Root,
    time: nat,
    coinbase: nat)

  // A header together with its hash.
  datatype Sealed = Sealed(hash: Hash, header: Header)

  type Store = map<Hash, Header>

  // A database read of a header by hash and number.
  function GetHeader(s: Store, h: Hash, n: int): (r: Option<Header>)
    ensures r.Some? <==> h in s && s[h].number == n
  {
    if h in s && s[h].number == n then Some(s[h]) else None
  }

  // A database read of a total difficulty by hash and number.
  function GetTd(s: Store, td: map<Hash, int>, h: Hash, n: int): (r: Option<int>)
    ensures r.Some? <==> h in s && s[h].number == n && h in td
    ensures r.Some? ==> r.value == td[h]
  {
    if h in s && s[h].number == n && h in td then Some(td[h]) else None
  }

  // A database read of the canonical index; missing entries read as the zero hash.
  function ReadCanonical(canon: map<int, Hash>, n: int): (r: Hash)
    ensures r != NO_HASH ==> n in canon && canon[n] == r
  {
    if n in canon then canon[n] else NO_HASH
  }

  ghost predicate Attached(s: Store, g: Hash, h: Hash)
    requires h in s
  {
    h != g ==> s[h].number > 0 && s[h].parent in s && s[s[h].parent].number == s[h].number - 1
  }

  // Every stored header except genesis has its parent stored one number below.
  ghost predicate Linked(s: Store, g: Hash) {
    && NO_HASH !in s
    && g in s && s[g].number == 0 && s[g].parent == NO_HASH
    && forall h {:trigger Attached(s, g, h)} :: h in s ==> Attached(s, g, h)
  }

  function Parent(s: Store, ghost g: Hash, h: Hash): (p: Hash)
    requires Linked(s, g) && h in s && h != g
    ensures p in s && s[h].number > 0 && s[p].number == s[h].number - 1
  {
    assert Attached(s, g, h);
    s[h].parent
  }

  // The ancestor of h at number n, by following parent links.
  ghost function Ancestor(s: Store, g: Hash, h: Hash, n: int): (a: Hash)
    requires Linked(s, g) && h in s && 0 <= n <= s[h].number
    ensures a in s && s[a].number == n
    decreases s[h].number
  {
    if n == s[h].number then h else Ancestor(s, g, Parent(s, g, h), n)
  }

  // h is cur or one of its ancestors.
  ghost predicate OnPathOf(s: Store, g: Hash, cur: Hash, h: Hash)
    requires Linked(s, g) && cur in s && h in s
  {
    s[h].number <= s[cur].number && h == Ancestor(s, g, cur, s[h].number)
  }

  lemma {:induction false} NumberZeroIsGenesis(s: Store, g: Hash, h: Hash)
    requires Linked(s, g) && h in s && s[h].number == 0
    ensures h == g
  {
    assert Attached(s, g, h);
  }

  lemma {:induction false} SharedGenesis(s: Store, g: Hash, cur: Hash, h: Hash)
    requires Linked(s, g) && cur in s && h in s && s[h].number == 0
    ensures Ancestor(s, g, cur, 0) == h
  {
    NumberZeroIsGenesis(s, g, h);
    NumberZeroIsGenesis(s, g, Ancestor(s, g, cur, 0));
  }

  lemma {:induction false} AncestorOfAncestor(s: Store, g: Hash, h: Hash, m: nat, n: nat)
    requires Linked(s, g) && h in s && n <= m <= s[h].number
    ensures Ancestor(s, g, Ancestor(s, g, h, m), n) == Ancestor(s, g, h, n)
    decreases s[h].number
  {
    if m < s[h].number {
      AncestorOfAncestor(s, g, Parent(s, g, h), m, n);
    }
  }

  lemma {:induction false} AncestorStep(s: Store, g: Hash, h: Hash, n: nat)
    requires Linked(s, g) && h in s && 0 < n <= s[h].number
    ensures Ancestor(s, g, h, n) != g
    ensures Parent(s, g, Ancestor(s, g, h, n)) == Ancestor(s, g, h, n - 1)
  {
    AncestorOfAncestor(s, g, h, n, n - 1);
  }

  // Two headers that share an ancestor share everything below it.
  lemma {:induction false} SharedBelow(s: Store, g: Hash, h1: Hash, h2: Hash, m: nat, n: nat)
    requires Linked(s, g) && h1 in s && h2 in s && n <= m <= s[h1].number && m <= s[h2].number
    requires Ancestor(s, g, h1, m) == Ancestor(s, g, h2, m)
    ensures Ancestor(s, g, h1, n) == Ancestor(s, g, h2, n)
  {
    AncestorOfAncestor(s, g, h1, m, n);
    AncestorOfAncestor(s, g, h2, m, n);
  }

  // Ancestors only depend on the part of the table below the header.
  lemma {:induction false} AncestorFrame(s: Store, s': Store, g: Hash, h: Hash, n: nat)
    requires Linked(s, g) && Linked(s', g) && h in s && n <= s[h].number
    requires forall k :: k in s && s[k].number <= s[h].number ==> k in s' && s'[k] == s[k]
    ensures Ancestor(s', g, h, n) == Ancestor(s, g, h, n)
    decreases s[h].number
  {
    if n < s[h].number {
      AncestorFrame(s, s', g, Parent(s, g, h), n);
    }
  }

  /* The canonical index */

  // The index that a head asks for: its whole ancestor path and nothing else.
  ghost function PathMap(s: Store, g: Hash, head: Hash): (m: map<int, Hash>)
    requires Linked(s, g) && head in s
    ensures var top := s[head].number; forall n :: n in m <==> 0 <= n <= top
    ensures forall n :: n in m ==> m[n] == Ancestor(s, g, head, n)
  {
    var top := s[head].number;
    map n | 0 <= n <= top :: Ancestor(s, g, head, n)
  }

  lemma {:induction false} PathExtend(s: Store, g: Hash, head: Hash)
    requires Linked(s, g) && head in s && head != g
    ensures PathMap(s, g, Parent(s, g, head))[s[head].number := head] == PathMap(s, g, head)
  {
  }

  lemma {:induction false} PathFrame(s: Store, s': Store, g: Hash, head: Hash)
    requires Linked(s, g) && Linked(s', g) && head in s
    requires forall k :: k in s && s[k].number <= s[head].number ==> k in s' && s'[k] == s[k]
    ensures PathMap(s', g, head) == PathMap(s, g, head)
  {
    forall n | 0 <= n <= s[head].number
      ensures Ancestor(s', g, head, n) == Ancestor(s, g, head, n)
    {
      AncestorFrame(s, s', g, head, n);
    }
  }

  // Cutting a path at one of its own headers leaves exactly that header's path.
  lemma {:induction false} PathCut(s: Store, g: Hash, head: Hash, n: nat)
    requires Linked(s, g) && head in s && n <= s[head].number
    ensures PathMap(s, g, Ancestor(s, g, head, n)) == map k | 0 <= k <= n :: Ancestor(s, g, head, k)
  {
    forall k | 0 <= k <= n
      ensures Ancestor(s, g, Ancestor(s, g, head, n), k) == Ancestor(s, g, head, k)
    {
      AncestorOfAncestor(s, g, head, n, k);
    }
  }

  // An index that agrees with the old path up to a shared ancestor and follows the new head
  // above it is the new head's path.
  lemma {:induction false} SwitchBranch(s: Store, g: Hash, cur: Hash, head: Hash, m: nat, canon: map<int, Hash>)
    requires Linked(s, g) && cur in s && head in s && m <= s[cur].number && m <= s[head].number
    requires Ancestor(s, g, cur, m) == Ancestor(s, g, head, m)
    requires var top := s[head].number; forall n :: n in canon <==> 0 <= n <= top
    requires forall n :: n in canon ==>
               canon[n] == if n <= m then Ancestor(s, g, cur, n) else Ancestor(s, g, head, n)
    ensures canon == PathMap(s, g, head)
  {
    forall n | n in canon
      ensures canon[n] == Ancestor(s, g, head, n)
    {
      if n <= m { SharedBelow(s, g, cur, head, m, n); }
    }
  }

  // The highest number at which h and the head cur have the same ancestor.
  ghost function Crossing(s: Store, g: Hash, cur: Hash, h: Hash): (m: nat)
    requires Linked(s, g) && cur in s && h in s
    ensures m <= s[cur].number && m <= s[h].number
    ensures Ancestor(s, g, cur, m) == Ancestor(s, g, h, m)
    ensures var top, top' := s[cur].number, s[h].number;
            forall n :: m < n <= top && n <= top' ==> Ancestor(s, g, cur, n) != Ancestor(s, g, h, n)
    decreases s[h].number
  {
    if s[h].number <= s[cur].number && Ancestor(s, g, cur, s[h].number) == h then s[h].number
    else
      assert h != g by { if h == g { SharedGenesis(s, g, cur, h); } }
      Crossing(s, g, cur, Parent(s, g, h))
  }

  /* Growing and cutting the table */

  // A header may join the table when it names no other header and hangs under a stored parent.
  ghost predicate Fits(s: Store, g: Hash, h: Hash, hdr: Header) {
    && h != NO_HASH
    && (h in s ==> s[h] == hdr)
    && (h !in s ==> hdr.number > 0 && hdr.parent in s && s[hdr.parent].number == hdr.number - 1)
  }

  lemma {:induction false} LinkedInsert(s: Store, g: Hash, h: Hash, hdr: Header)
    requires Linked(s, g) && Fits(s, g, h, hdr)
    ensures Linked(s[h := hdr], g)
  {
    var s' := s[h := hdr];
    forall k | k in s'
      ensures Attached(s', g, k)
    {
      if k in s { assert Attached(s, g, k); }
    }
  }

  ghost function Below(s: Store, n: nat): (r: Store)
    ensures forall h :: h in r <==> h in s && s[h].number <= n
    ensures forall h :: h in r ==> r[h] == s[h]
  {
    map h | h in s && s[h].number <= n :: s[h]
  }

  lemma {:induction false} LinkedBelow(s: Store, g: Hash, n: nat)
    requires Linked(s, g)
    ensures Linked(Below(s, n), g)
  {
    var s' := Below(s, n);
    forall k | k in s'
      ensures Attached(s', g, k)
    {
      assert Attached(s, g, k);
    }
  }

  // Parent closure: a stored number has a stored header at every number below it.
  lemma {:induction false} NoGaps(s: Store, g: Hash, h: Hash, n: nat)
    requires Linked(s, g) && h in s && n <= s[h].number
    ensures exists k :: k in s && s[k].number == n
  {
    var a := Ancestor(s, g, h, n);
  }

  /* Total difficulty */

  // The sum of the difficulties on the path from h to genesis.
  ghost function TotalDifficulty(s: Store, g: Hash, h: Hash): (td: int)
    requires Linked(s, g) && h in s
    decreases s[h].number
  {
    s[h].difficulty + if h == g then 0 else TotalDifficulty(s, g, Parent(s, g, h))
  }

  lemma {:induction false} TotalDifficultyFrame(s: Store, s': Store, g: Hash, h: Hash)
    requires Linked(s, g) && Linked(s', g) && h in s
    requires forall k :: k in s && s[k].number <= s[h].number ==> k in s' && s'[k] == s[k]
    ensures TotalDifficulty(s', g, h) == TotalDifficulty(s, g, h)
    decreases s[h].number
  {
    if h != g {
      TotalDifficultyFrame(s, s', g, Parent(s, g, h));
    }
  }

  // Every stored header has its total difficulty recorded, and recorded right.
  ghost predicate TdCorrect(s: Store, g: Hash, td: map<Hash, int>)
    requires Linked(s, g)
  {
    && td.Keys == s.Keys
    && forall h {:trigger TdAt(s, g, td, h)} :: h in s ==> TdAt(s, g, td, h)
  }

  ghost predicate TdAt(s: Store, g: Hash, td: map<Hash, int>, h: Hash)
    requires Linked(s, g) && h in s && h in td
  {
    td[h] == TotalDifficulty(s, g, h)
  }

  lemma {:induction false} TdInsert(s: Store, g: Hash, td: map<Hash, int>, h: Hash, hdr: Header)
    requires Linked(s, g) && TdCorrect(s, g, td) && Fits(s, g, h, hdr) && h != g
    requires hdr.parent in s
    ensures Linked(s[h := hdr], g)
    ensures TdCorrect(s[h := hdr], g, td[h := td[hdr.parent] + hdr.difficulty])
  {
    LinkedInsert(s, g, h, hdr);
    var s' := s[h := hdr];
    var td' := td[h := td[hdr.parent] + hdr.difficulty];
    assert Attached(s', g, h);
    assert TdAt(s, g, td, hdr.parent);
    TotalDifficultyFrame(s, s', g, hdr.parent);
    forall k | k in s'
      ensures TdAt(s', g, td', k)
    {
      if k in s && k != h {
        assert TdAt(s, g, td, k);
        TotalDifficultyFrame(s, s', g, k);
      }
    }
  }

  lemma {:induction false} TdBelow(s: Store, g: Hash, td: map<Hash, int>, n: nat)
    requires Linked(s, g) && TdCorrect(s, g, td)
    ensures Linked(Below(s, n), g)
    ensures TdCorrect(Below(s, n), g, map h | h in td && h in Below(s, n) :: td[h])
  {
    LinkedBelow(s, g, n);
    var td' := map h | h in td && h in Below(s, n) :: td[h];
    forall k | k in Below(s, n)
      ensures TdAt(Below(s, n), g, td', k)
    {
      assert TdAt(s, g, td, k);
      TotalDifficultyFrame(Below(s, n), s, g, k);
    }
  }
}
