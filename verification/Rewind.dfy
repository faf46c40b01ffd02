/** Rewinding the head block to an ancestor whose state can be used. */
module Rewinding {
  import opened Headers

  const FULL_IMMUTABILITY_THRESHOLD: nat := 90000

  // The requested root occurs on head's path at k or above; no root counts as crossed.
  ghost predicate Crossed(s: Store, g: Hash, head: Hash, root: Root, k: int)
    requires Linked(s, g) && head in s
  {
    root == NO_ROOT || exists j :: RootAt(s, g, head, root, j) && k <= j
  }

  ghost predicate RootAt(s: Store, g: Hash, head: Hash, root: Root, j: int)
    requires Linked(s, g) && head in s
  {
    0 <= j <= s[head].number && s[Ancestor(s, g, head, j)].root == root
  }

  // Some block on head's path at k or above has its state.
  ghost predicate StateSeen(s: Store, g: Hash, head: Hash, states: set<Root>, k: int)
    requires Linked(s, g) && head in s
  {
    exists j :: StateAt(s, g, head, states, j) && k <= j
  }

  ghost predicate StateAt(s: Store, g: Hash, head: Hash, states: set<Root>, j: int)
    requires Linked(s, g) && head in s
  {
    0 <= j <= s[head].number && s[Ancestor(s, g, head, j)].root in states
  }

  // The oldest number that the hash-scheme rewind searches.
  function SearchLimit(pivot: Option<nat>, number: nat): nat {
    if pivot.Some? then pivot.value
    else if number > FULL_IMMUTABILITY_THRESHOLD then number - FULL_IMMUTABILITY_THRESHOLD
    else 0
  }

  // With a pivot everything from the pivot up is searched, otherwise the last 90000 blocks.
  lemma {:induction false} SearchReach(pivot: Option<nat>, number: nat, k: nat)
    ensures SearchLimit(pivot, number) <= k <==>
            match pivot case Some(p) => p <= k case None => number <= k + 90000
  {
  }

  // A searched block above genesis, at or below the crossing of the root, with its state.
  ghost predicate HashCandidate(s: Store, g: Hash, head: Hash, root: Root, states: set<Root>, limit: nat, k: int)
    requires Linked(s, g) && head in s
  {
    1 <= k && limit <= k && StateAt(s, g, head, states, k) && Crossed(s, g, head, root, k)
  }

  // The same for the path scheme, where a state may also be recovered, where the pivot bounds
  // the search, and where an unattainable root stops mattering once any state was seen.
  ghost predicate PathCandidate(s: Store, g: Hash, head: Hash, root: Root, states: set<Root>, recoverable: set<Root>,
                                pivot: Option<nat>, k: int)
    requires Linked(s, g) && head in s
  {
    && 1 <= k && (k == s[head].number || pivot.None? || pivot.value <= k)
    && StateAt(s, g, head, states + recoverable, k)
    && (Crossed(s, g, head, root, k) || (root !in states + recoverable && StateSeen(s, g, head, states, k)))
  }

  // rootNumber is the highest number on head's path that has the requested root.
  ghost predicate HighestRoot(s: Store, g: Hash, head: Hash, root: Root, rootNumber: int)
    requires Linked(s, g) && head in s
  {
    RootAt(s, g, head, root, rootNumber) && forall j :: RootAt(s, g, head, root, j) ==> j <= rootNumber
  }

  // Returns the highest candidate, or genesis when there is none.
  method RewindHash(s: Store, g: Hash, head: Hash, root: Root, states: set<Root>, pivot: Option<nat>)
    returns (h: Hash, rootNumber: int)
    requires Linked(s, g) && head in s
    ensures h in s && OnPathOf(s, g, head, h)
    ensures h == g || HashCandidate(s, g, head, root, states, SearchLimit(pivot, s[head].number), s[h].number)
    ensures var limit := SearchLimit(pivot, s[head].number);
            forall k :: HashCandidate(s, g, head, root, states, limit, k) ==> k <= s[h].number
    ensures rootNumber == 0 || HighestRoot(s, g, head, root, rootNumber)
    ensures h != g && root != NO_ROOT ==> s[h].number <= rootNumber
  {
    var limit := SearchLimit(pivot, s[head].number);
    var beyondRoot := root == NO_ROOT;
    rootNumber := 0;
    h := head;
    SharedGenesis(s, g, head, g);
    while true
      invariant h in s && OnPathOf(s, g, head, h)
      invariant var n := s[h].number; forall k :: n < k ==> !HashCandidate(s, g, head, root, states, limit, k)
      invariant beyondRoot <==> Crossed(s, g, head, root, s[h].number + 1)
      invariant rootNumber != 0 ==> HighestRoot(s, g, head, root, rootNumber) && s[h].number < rootNumber
      invariant beyondRoot && root != NO_ROOT ==> rootNumber != 0
      decreases s[h].number
    {
      var number: int := s[h].number;
      if !beyondRoot && s[h].root == root {
        assert RootAt(s, g, head, root, number);
        beyondRoot, rootNumber := true, number;
      }
      if number < limit {
        return g, rootNumber;
      }
      if s[h].root !in states {
        if GetHeader(s, s[h].parent, number - 1).None? {
          assert h == g by { assert Attached(s, g, h); }
          return;
        }
        AncestorStep(s, g, head, number);
        h := s[h].parent;
        if s[h].number == 0 {
          NumberZeroIsGenesis(s, g, h);
          return;
        }
      } else if beyondRoot || number == 0 {
        if number == 0 { NumberZeroIsGenesis(s, g, h); }
        return;
      } else {
        AncestorStep(s, g, head, number);
        h := s[h].parent;
      }
    }
  }

  method RewindPath(s: Store, g: Hash, head: Hash, root: Root, states: set<Root>, recoverable: set<Root>,
                    pivot: Option<nat>)
    returns (h: Hash, rootNumber: int)
    requires Linked(s, g) && head in s
    ensures h in s && OnPathOf(s, g, head, h)
    ensures h == g || PathCandidate(s, g, head, root, states, recoverable, pivot, s[h].number)
    ensures forall k :: PathCandidate(s, g, head, root, states, recoverable, pivot, k) ==> k <= s[h].number
    ensures rootNumber == 0 || HighestRoot(s, g, head, root, rootNumber)
    ensures h != g && root != NO_ROOT && root in states + recoverable ==> s[h].number <= rootNumber
  {
    var beyondRoot := root == NO_ROOT;
    var noState := root !in states && root !in recoverable;
    rootNumber := 0;
    h := head;
    SharedGenesis(s, g, head, g);
    while true
      invariant h in s && OnPathOf(s, g, head, h)
      invariant var n := s[h].number;
                forall k :: n < k ==> !PathCandidate(s, g, head, root, states, recoverable, pivot, k)
      invariant s[h].number == s[head].number || pivot.None? || pivot.value <= s[h].number
      invariant beyondRoot <==> Crossed(s, g, head, root, s[h].number + 1) ||
                                (noState && StateSeen(s, g, head, states, s[h].number + 1))
      invariant rootNumber != 0 ==> HighestRoot(s, g, head, root, rootNumber) && s[h].number < rootNumber
      invariant beyondRoot && root != NO_ROOT && !noState ==> rootNumber != 0
      decreases s[h].number
    {
      var number: int := s[h].number;
      if !beyondRoot && s[h].root == root {
        assert RootAt(s, g, head, root, number);
        beyondRoot, rootNumber := true, number;
      }
      if !beyondRoot && noState && s[h].root in states {
        assert StateAt(s, g, head, states, number);
        beyondRoot := true;
      }
      if beyondRoot && (s[h].root in states || s[h].root in recoverable) {
        if number == 0 { NumberZeroIsGenesis(s, g, h); }
        return;
      }
      if pivot.Some? && pivot.value >= number {
        return g, rootNumber;
      }
      if GetHeader(s, s[h].parent, number - 1).None? {
        assert h == g by { assert Attached(s, g, h); }
        return;
      }
      AncestorStep(s, g, head, number);
      h := s[h].parent;
      if s[h].number == 0 {
        NumberZeroIsGenesis(s, g, h);
        return;
      }
    }
  }
}
