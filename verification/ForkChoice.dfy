/** The fork chooser: whether an external header should replace the current head. */
module ForkChoice {
  import opened Headers

  // What the chooser asks of the chain configuration and the consensus engine. The preserve
  // hook, when set, names the headers the local node mined itself.
  datatype Chooser = Chooser(
    posa: bool,
    plato: nat -> bool,
    justified: Sealed -> nat,
    preserve: Option<Sealed -> bool>,
    terminal: Option<int>)
  {
    function Justified(x: Sealed): nat {
      if posa && plato(x.header.number) then justified(x) else 0
    }

    predicate Preserves(x: Sealed) {
      preserve.Some? && preserve.value(x)
    }
  }

  datatype Choice = Keep | Switch | MissingTd | UnknownAncestor

  // The tie-break between two headers of equal difficulty and number.
  predicate ChoiceRules(current: Sealed, extern: Sealed, coin: bool) {
    if extern.header.time == current.header.time then
      if extern.header.coinbase == current.header.coinbase then extern.hash.id < current.hash.id else coin
    else extern.header.time < current.header.time
  }

  predicate TdPrefers(c: Chooser, localTd: int, externTd: int, current: Sealed, extern: Sealed, coin: bool) {
    if c.terminal.Some? && c.terminal.value <= externTd then true
    else if externTd > localTd then true
    else if externTd < localTd then false
    else if extern.header.number < current.header.number then true
    else if extern.header.number == current.header.number then
      !c.Preserves(current) && (c.Preserves(extern) || ChoiceRules(current, extern, coin))
    else false
  }

  predicate Prefers(c: Chooser, localTd: int, externTd: int, current: Sealed, extern: Sealed, coin: bool) {
    if c.Justified(extern) == c.Justified(current)
    then TdPrefers(c, localTd, externTd, current, extern, coin)
    else c.Justified(extern) > c.Justified(current)
  }

  // The difficulty comparison with its database reads: an external header that is not stored
  // yet is measured by its parent's difficulty plus its own.
  function ReorgNeeded(c: Chooser, s: Store, td: map<Hash, int>, current: Sealed, extern: Sealed, coin: bool): Choice {
    var localTd := GetTd(s, td, current.hash, current.header.number);
    var externTd := GetTd(s, td, extern.hash, extern.header.number);
    var parentTd := GetTd(s, td, extern.header.parent, extern.header.number - 1);
    if localTd.None? then MissingTd
    else if externTd.None? && parentTd.None? then UnknownAncestor
    else
      var e := if externTd.Some? then externTd.value else parentTd.value + extern.header.difficulty;
      if TdPrefers(c, localTd.value, e, current, extern, coin) then Switch else Keep
  }

  function ReorgNeededWithFastFinality(c: Chooser, s: Store, td: map<Hash, int>, current: Sealed, extern: Sealed,
                                       coin: bool): Choice {
    if !c.posa then ReorgNeeded(c, s, td, current, extern, coin)
    else
      var justifiedNumber := if c.plato(extern.header.number) then c.justified(extern) else 0;
      var curJustifiedNumber := if c.plato(current.header.number) then c.justified(current) else 0;
      if justifiedNumber == curJustifiedNumber then ReorgNeeded(c, s, td, current, extern, coin)
      else if justifiedNumber > curJustifiedNumber then Switch else Keep
  }

  // With every stored difficulty right, the verdict is the comparison of the true path sums,
  // for an external header that is stored or whose parent is.
  lemma {:induction false} VerdictIsPrefers(c: Chooser, s: Store, g: Hash, td: map<Hash, int>, current: Sealed,
                                            extern: Sealed, coin: bool)
    requires Linked(s, g) && TdCorrect(s, g, td)
    requires current.hash in s && s[current.hash] == current.header
    requires Fits(s, g, extern.hash, extern.header)
    ensures Linked(s[extern.hash := extern.header], g)
    ensures ReorgNeededWithFastFinality(c, s, td, current, extern, coin) ==
            if Prefers(c, TotalDifficulty(s, g, current.hash),
                       TotalDifficulty(s[extern.hash := extern.header], g, extern.hash), current, extern, coin)
            then Switch else Keep
  {
    LinkedInsert(s, g, extern.hash, extern.header);
    var s' := s[extern.hash := extern.header];
    assert TdAt(s, g, td, current.hash);
    if extern.hash in s {
      assert s' == s;
      assert TdAt(s, g, td, extern.hash);
    } else {
      assert TdAt(s, g, td, extern.header.parent);
      assert Attached(s', g, extern.hash);
      TotalDifficultyFrame(s, s', g, extern.header.parent);
    }
  }

  /* Order */

  lemma {:induction false} PrefersTransitive(c: Chooser, td: Sealed -> int, x: Sealed, y: Sealed, z: Sealed)
    requires Prefers(c, td(x), td(y), x, y, false)
    requires Prefers(c, td(y), td(z), y, z, false)
    ensures Prefers(c, td(x), td(z), x, z, false)
  {
  }

  // Two headers (or one header twice) each replace the other exactly when they are equally
  // justified and both have reached the terminal difficulty.
  lemma {:induction false} MutualPreference(c: Chooser, td: Sealed -> int, x: Sealed, y: Sealed)
    ensures Prefers(c, td(x), td(y), x, y, false) && Prefers(c, td(y), td(x), y, x, false) <==>
            c.Justified(x) == c.Justified(y) &&
            c.terminal.Some? && c.terminal.value <= td(x) && c.terminal.value <= td(y)
  {
  }

  // With no terminal difficulty the chooser is a strict partial order, whatever the hook.
  lemma {:induction false} StrictPartialOrder(c: Chooser, td: Sealed -> int)
    requires c.terminal.None?
    ensures forall x :: !Prefers(c, td(x), td(x), x, x, false)
    ensures forall x, y :: Prefers(c, td(x), td(y), x, y, false) ==> !Prefers(c, td(y), td(x), y, x, false)
    ensures forall x, y, z :: Prefers(c, td(x), td(y), x, y, false) && Prefers(c, td(y), td(z), y, z, false)
              ==> Prefers(c, td(x), td(z), x, z, false)
  {
    forall x, y
      ensures !(Prefers(c, td(x), td(y), x, y, false) && Prefers(c, td(y), td(x), y, x, false))
    {
      MutualPreference(c, td, x, y);
    }
    forall x, y, z | Prefers(c, td(x), td(y), x, y, false) && Prefers(c, td(y), td(z), y, z, false)
      ensures Prefers(c, td(x), td(z), x, z, false)
    {
      PrefersTransitive(c, td, x, y, z);
    }
  }

  /* Rank */

  datatype Rank = Rank(justified: nat, td: int, number: nat, time: nat)

  // Lexicographic: more justified, then heavier, then lower, then earlier.
  predicate NoWorse(a: Rank, b: Rank) {
    if b.justified != a.justified then b.justified > a.justified
    else if b.td != a.td then b.td > a.td
    else if b.number != a.number then b.number < a.number
    else b.time <= a.time
  }

  function RankOf(c: Chooser, td: int, x: Sealed): Rank {
    Rank(c.Justified(x), td, x.header.number, x.header.time)
  }

  // Without hook and terminal difficulty the rank decides: of two headers of different rank the
  // better one is chosen, whatever the coin.
  lemma {:induction false} RankDecides(c: Chooser, localTd: int, externTd: int, current: Sealed, extern: Sealed,
                                       coin: bool)
    requires c.terminal.None? && c.preserve.None?
    requires RankOf(c, localTd, current) != RankOf(c, externTd, extern)
    ensures Prefers(c, localTd, externTd, current, extern, coin) <==>
            NoWorse(RankOf(c, localTd, current), RankOf(c, externTd, extern))
  {
  }

  // At equal rank the smaller hash wins between two headers of one validator, the coin otherwise.
  lemma {:induction false} TieBreak(c: Chooser, localTd: int, externTd: int, current: Sealed, extern: Sealed,
                                    coin: bool)
    requires c.terminal.None? && c.preserve.None?
    requires RankOf(c, localTd, current) == RankOf(c, externTd, extern)
    ensures Prefers(c, localTd, externTd, current, extern, coin) <==>
            if current.header.coinbase == extern.header.coinbase then extern.hash.id < current.hash.id else coin
  {
  }

  // The hook matters only between headers that are equally justified, heavy and high. A current
  // header of one's own then stays, and against another one's own external header wins.
  lemma {:induction false} HookDecides(c: Chooser, localTd: int, externTd: int, current: Sealed, extern: Sealed,
                                       coin: bool)
    requires c.terminal.None?
    ensures var level := c.Justified(current) == c.Justified(extern) && localTd == externTd &&
                         current.header.number == extern.header.number;
            Prefers(c, localTd, externTd, current, extern, coin) <==>
            if level && c.Preserves(current) then false
            else if level && c.Preserves(extern) then true
            else Prefers(c.(preserve := None), localTd, externTd, current, extern, coin)
  {
  }

  // An equally justified external header that has reached the terminal difficulty is chosen. In all
  // other cases the terminal difficulty does not matter.
  lemma {:induction false} TerminalDecides(c: Chooser, terminal: int, localTd: int, externTd: int, current: Sealed,
                                           extern: Sealed, coin: bool)
    requires c.terminal == Some(terminal)
    ensures Prefers(c, localTd, externTd, current, extern, coin) <==>
            if c.Justified(current) == c.Justified(extern) && terminal <= externTd then true
            else Prefers(c.(terminal := None), localTd, externTd, current, extern, coin)
  {
  }

  // What no hook, terminal difficulty or coin can stand up to: more justified, or as justified and
  // heavier.
  predicate Outweighs(c: Chooser, localTd: int, externTd: int, current: Sealed, extern: Sealed) {
    if c.Justified(extern) != c.Justified(current) then c.Justified(extern) > c.Justified(current)
    else externTd > localTd
  }

  // Only the headers past Plato of a chain with finality count as justified.
  lemma {:induction false} OutweighsWins(c: Chooser, localTd: int, externTd: int, current: Sealed, extern: Sealed,
                                         coin: bool)
    ensures Outweighs(c, localTd, externTd, current, extern) ==>
              Prefers(c, localTd, externTd, current, extern, coin)
    ensures c.terminal.None? && Outweighs(c, externTd, localTd, extern, current) ==>
              !Prefers(c, localTd, externTd, current, extern, coin)
    ensures c.posa && c.plato(extern.header.number) &&
            c.justified(extern) > (if c.plato(current.header.number) then c.justified(current) else 0) ==>
              Outweighs(c, localTd, externTd, current, extern)
    ensures !c.posa || !(c.plato(current.header.number) || c.plato(extern.header.number)) ==>
              (Outweighs(c, localTd, externTd, current, extern) <==> externTd > localTd)
  {
  }

  // Any two ranks compare, and comparisons chain.
  lemma {:induction false} NoWorseIsTotalOrder(x: Rank, y: Rank, z: Rank)
    ensures NoWorse(x, x) && (NoWorse(x, y) || NoWorse(y, x))
    ensures NoWorse(x, y) && NoWorse(y, x) ==> x == y
    ensures NoWorse(x, y) && NoWorse(y, z) ==> NoWorse(x, z)
  {
  }

  // Whatever the coin, a switch never lowers the rank when there is no hook and no terminal
  // difficulty.
  lemma {:induction false} SwitchRaisesRank(c: Chooser, localTd: int, externTd: int, current: Sealed, extern: Sealed,
                                            coin: bool)
    requires c.terminal.None? && c.preserve.None?
    requires Prefers(c, localTd, externTd, current, extern, coin)
    ensures NoWorse(RankOf(c, localTd, current), RankOf(c, externTd, extern))
  {
  }
}
