/** For every promise that holds only under a condition, one concrete state in which it fails. */
module Counterexamples {
  import opened Headers
  import opened ForkChoice
  import opened HeaderChains
  import opened Reorganisation
  import opened ChainIndexers
  import opened Messages
  import opened Basics

  /* Two branches of three blocks on genesis */

  const G := Hash(1)
  const A1 := Hash(11)
  const A2 := Hash(12)
  const A3 := Hash(13)
  const B1 := Hash(21)
  const B2 := Hash(22)
  const B3 := Hash(23)

  function At(parent: Hash, number: nat): Header {
    Header(parent, number, 1, Root(number + 1), number, 0)
  }

  function Forked(): Store {
    map[G := At(NO_HASH, 0), A1 := At(G, 1), A2 := At(A1, 2), A3 := At(A2, 3), B1 := At(G, 1), B2 := At(B1, 2),
        B3 := At(B2, 3)]
  }

  lemma {:induction false} ForkedIsLinked()
    ensures Linked(Forked(), G)
  {
    var s := Forked();
    forall h | h in s
      ensures Attached(s, G, h)
    {
    }
  }

  lemma {:induction false} ForkedPaths()
    ensures Linked(Forked(), G)
    ensures var s := Forked();
            && Ancestor(s, G, A3, 1) == A1 && Ancestor(s, G, A3, 2) == A2 && Ancestor(s, G, A3, 3) == A3
            && Ancestor(s, G, B3, 1) == B1 && Ancestor(s, G, B3, 2) == B2 && Ancestor(s, G, B3, 3) == B3
            && Ancestor(s, G, A3, 0) == G && Ancestor(s, G, A1, 0) == G && Ancestor(s, G, A1, 1) == A1
  {
    ForkedIsLinked();
    var s := Forked();
    SharedGenesis(s, G, A3, G);
    assert Parent(s, G, A3) == A2 && Parent(s, G, A2) == A1 && Parent(s, G, A1) == G;
    assert Parent(s, G, B3) == B2 && Parent(s, G, B2) == B1;
  }

  lemma {:induction false} ForkedCrossing()
    ensures Linked(Forked(), G) && Crossing(Forked(), G, A3, B3) == 0
  {
    ForkedPaths();
  }

  // Rewinding to genesis a chain whose head is genesis does not wipe the side headers above.
  lemma {:induction false} RewindKeepsSideHeader()
    ensures Linked(Forked(), G) && !WipesAbove(Forked(), G, 0)
  {
    ForkedIsLinked();
    assert Forked()[A1].number > 0;
  }

  // With a terminal difficulty, two heads that have reached it replace each other for ever.
  lemma {:induction false} HeadsSwapForEver()
    ensures var c := Chooser(false, (n: nat) => false, (x: Sealed) => 0, None, Some(0));
            var x, y := Sealed(A1, At(G, 1)), Sealed(B1, At(G, 1));
            Prefers(c, 2, 2, x, y, false) && Prefers(c, 2, 2, y, x, false)
  {
  }

  // The head block is genesis, the head header A3. Putting B1 on genesis leaves the markers of A2
  // and A3 above it.
  lemma {:induction false} ExtensionLeavesMarkers()
    ensures Linked(Forked(), G) && PathMap(Forked(), G, A3)[1 := B1] != PathMap(Forked(), G, B1)
  {
    ForkedPaths();
    ExtendIndex(Forked(), G, A3, B1);
  }

  // A reorg from A3 to B3 that finds no body of B2 has put B1 under A2.
  lemma {:induction false} InterruptionLeavesNoPath(h: Hash)
    requires h in Forked()
    ensures Linked(Forked(), G)
    ensures Overlay(Forked(), G, B3, PathMap(Forked(), G, A3), 0, 2) != PathMap(Forked(), G, h)
  {
    ForkedPaths();
    ForkedCrossing();
    InterruptedReorg(Forked(), G, A3, A3, B3, 2);
  }

  // The same reorg leaves the lookup of a transaction of A1 that B1 does not carry.
  lemma {:induction false} InterruptionLeavesLookup()
    ensures Linked(Forked(), G)
    ensures var s, t := Forked(), Tx(7);
            var bodies := map[A1 := [t], A2 := [], A3 := [], B1 := []];
            && HaveBodies(s, G, bodies, A3, 0, 3) && FirstMissing(s, G, bodies, B3, 0, 2)
            && !Rewritten(s, G, bodies, A3, B3, 0, 2)
  {
    ForkedPaths();
    var s, t := Forked(), Tx(7);
    var bodies := map[A1 := [t], A2 := [], A3 := [], B1 := []];
    assert OnPath(s, G, bodies, A3, t, 1);
    assert Txs(bodies, B1) == {};
  }

  // A transaction of A1 is still looked up at number 1 after a rewind to genesis.
  lemma {:induction false} RewindLeavesLookup()
    ensures var s, t := Forked(), Tx(7);
            var bodies, lookup := map[A1 := [t]], map[t := 1];
            Linked(s, G) && Indexed(s, G, bodies, A1, lookup) &&
            Linked(Below(s, 0), G) && !Indexed(Below(s, 0), G, map[], G, lookup)
  {
    ForkedPaths();
    var s, t := Forked(), Tx(7);
    var bodies, lookup := map[A1 := [t]], map[t := 1];
    LinkedBelow(s, G, 0);
    forall u, n: int
      ensures IndexedAt(s, G, bodies, A1, lookup, u, n)
    {
      assert 0 <= n <= 1 ==> n == 0 || n == 1;
    }
    assert OnPath(s, G, bodies, A1, t, 1);
    LookupsAfterRewind(s, G, bodies, A1, 0, lookup, Below(s, 0), map[]);
  }

  // After a reorg from A3 to B3 an index of one section on the first branch has no canonical one, and
  // neither has an empty index: both report a last header number of 2^64 - 1.
  lemma {:induction false} NoSectionLeft()
    ensures Linked(Forked(), G)
    ensures var c, canon := Config(2, 0, Forked()), PathMap(Forked(), G, B3);
            var one, empty := State(1, 1, map[0 := A1], Idle), State(0, 0, map[], Idle);
            Inv(c, one) && NoneCanonical(c, one, canon) && Inv(c, empty) && NoneCanonical(c, empty, canon)
  {
    ForkedPaths();
    var c, s, canon := Config(2, 0, Forked()), State(1, 1, map[0 := A1], Idle), PathMap(Forked(), G, B3);
    assert Descends(c.headers, G, 1, NO_HASH) && Descends(c.headers, A1, 2, NO_HASH);
    assert Stored(c, s.heads, 0);
    assert ReadCanonical(canon, 1) == B1;
  }

  // An access list whose cost passes 64 bits is charged next to nothing. A list of that length is a
  // value of its type, but it is far longer than any message that could be received.
  lemma {:induction false} ListCostsWrap()
    ensures var list := Some(AccessList(7686143364045647, 0));
            Add64(TX_GAS, ListGas(list, None)) == 22184 && TX_GAS + ListGas(list, None) >= TWO_64
  {
  }

  // One such list makes the intrinsic gas vanish, and then nothing keeps the gas used above zero.
  lemma {:induction false} IntrinsicGasVanishes()
    ensures Add64(TX_GAS, ListGas(Some(AccessList(192153584101141146, 10)), None)) == 0
  {
  }

  // Two above a chain of genesis alone, the lookup of an ancestor does not give up on the zero hash,
  // and neither does it three above a chain of three.
  lemma {:induction false} ZeroHashHasAncestor()
    ensures var s := map[G := At(NO_HASH, 0)];
            GetHeader(s, NO_HASH, 2).None? && !GivesUp(s, G, NO_HASH, 2, 2)
    ensures GetHeader(Forked(), NO_HASH, 6).None? && !GivesUp(Forked(), A3, NO_HASH, 6, 3)
  {
  }
}
