/** The block-hash lookup handed to the virtual machine: a walk from a reference header whose
    steps are remembered between queries. */
module HashLookups {
  import opened Headers

  // The hash at number n on the walk that starts at hash h with number num; none if a header
  // on the way is missing.
  function Walk(s: Store, h: Hash, num: nat, n: nat): Option<Hash>
    requires n <= num
    decreases num - n
  {
    if n == num then Some(h)
    else if GetHeader(s, h, num).None? then None
    else Walk(s, s[h].parent, num - 1, n)
  }

  // What a fresh walk from the reference header answers.
  function FreshAnswer(s: Store, ref: Header, n: nat): Hash {
    if ref.number <= n then NO_HASH
    else
      var r := Walk(s, ref.parent, ref.number - 1, n);
      if r.Some? then r.value else NO_HASH
  }

  lemma {:induction false} WalkOn(s: Store, h: Hash, num: nat, m: nat, n: nat)
    requires n <= m <= num
    ensures Walk(s, h, num, m).None? ==> Walk(s, h, num, n).None?
    ensures Walk(s, h, num, m).Some? ==> Walk(s, h, num, n) == Walk(s, Walk(s, h, num, m).value, m, n)
    decreases num - m
  {
    if m < num && GetHeader(s, h, num).Some? {
      WalkOn(s, s[h].parent, num - 1, m, n);
    }
  }

  // In a linked table a fresh walk answers with the ancestor.
  lemma {:induction false} WalkIsAncestor(s: Store, g: Hash, h: Hash, n: nat)
    requires Linked(s, g) && h in s && n <= s[h].number
    ensures Walk(s, h, s[h].number, n) == Some(Ancestor(s, g, h, n))
    decreases s[h].number
  {
    if n < s[h].number {
      WalkIsAncestor(s, g, Parent(s, g, h), n);
    }
  }

  // For a reference header whose parent is stored the answer is the parent's ancestor at the number,
  // and nothing at or above the header itself.
  lemma {:induction false} FreshIsAncestor(s: Store, g: Hash, ref: Header, n: nat)
    requires Linked(s, g) && ref.parent in s && s[ref.parent].number == ref.number - 1
    ensures n < ref.number ==> FreshAnswer(s, ref, n) == Ancestor(s, g, ref.parent, n)
    ensures n >= ref.number ==> FreshAnswer(s, ref, n) == NO_HASH
    ensures FreshAnswer(s, ref, ref.number - 1) == ref.parent
  {
    if n < ref.number {
      WalkIsAncestor(s, g, ref.parent, n);
    }
  }

  // The parent is answered even if it is not stored.
  lemma {:induction false} ParentIsKnown(s: Store, ref: Header)
    requires ref.number > 0
    ensures FreshAnswer(s, ref, ref.number - 1) == ref.parent
  {
  }

  class HashLookup {
    const store: Store
    const ref: Header
    var cache: seq<Hash>

    // The cache holds the walk's hashes below the reference header, nearest first.
    ghost predicate Valid()
      reads this
    {
      && |cache| <= ref.number
      && forall i :: 0 <= i < |cache| ==> Walk(store, ref.parent, ref.number - 1, ref.number - 1 - i) == Some(cache[i])
    }

    constructor (store: Store, ref: Header)
      ensures Valid() && this.store == store && this.ref == ref && cache == []
    {
      this.store, this.ref, this.cache := store, ref, [];
    }

    method Query(n: nat) returns (hash: Hash)
      requires Valid()
      modifies this
      ensures Valid()
      ensures hash == FreshAnswer(store, ref, n)
    {
      if ref.number <= n {
        return NO_HASH;
      }
      if |cache| == 0 {
        cache := cache + [ref.parent];
      }
      var idx := ref.number - n - 1;
      if idx < |cache| {
        return cache[idx];
      }
      var lastKnownHash := cache[|cache| - 1];
      var lastKnownNumber: nat := ref.number - |cache|;
      while GetHeader(store, lastKnownHash, lastKnownNumber).Some?
        invariant Valid() && 0 < |cache| && lastKnownNumber == ref.number - |cache| && n < lastKnownNumber
        invariant lastKnownHash == cache[|cache| - 1]
        decreases lastKnownNumber
      {
        WalkOn(store, ref.parent, ref.number - 1, lastKnownNumber, lastKnownNumber - 1);
        var header := store[lastKnownHash];
        cache := cache + [header.parent];
        lastKnownHash, lastKnownNumber := header.parent, header.number - 1;
        if n == lastKnownNumber {
          return lastKnownHash;
        }
      }
      WalkOn(store, ref.parent, ref.number - 1, lastKnownNumber, n);
      return NO_HASH;
    }

    // Any sequence of queries is answered as if each were the first.
    method QueryAll(ns: seq<nat>) returns (hashes: seq<Hash>)
      requires Valid()
      modifies this
      ensures Valid() && |hashes| == |ns|
      ensures forall i :: 0 <= i < |ns| ==> hashes[i] == FreshAnswer(store, ref, ns[i])
    {
      hashes := [];
      for i := 0 to |ns|
        invariant Valid() && |hashes| == i
        invariant forall j :: 0 <= j < i ==> hashes[j] == FreshAnswer(store, ref, ns[j])
      {
        var h := Query(ns[i]);
        hashes := hashes + [h];
      }
    }
  }
}
