/** Select-case lists: finding, deleting and deactivating cases. Slot 0 of a send list is the
    channel on which removals arrive; the rest are subscriber channels. */
module CaseLists {
  import opened Basics

  datatype Chan = Chan(id: nat)
  datatype Case = RemoveSub | Sub(ch: Chan)

  // The first case that carries the channel, or -1.
  function FindCase(cs: seq<Case>, ch: Chan): (i: int)
    ensures -1 <= i < |cs|
    ensures i >= 0 ==> cs[i] == Sub(ch) && Sub(ch) !in cs[..i]
    ensures i == -1 <==> Sub(ch) !in cs
    decreases |cs|
  {
    if cs == [] then -1
    else
      var i := FindCase(cs[..|cs| - 1], ch);
      assert cs == cs[..|cs| - 1] + [cs[|cs| - 1]];
      if i >= 0 then
        assert cs[..i] == cs[..|cs| - 1][..i]; i
      else if cs[|cs| - 1] == Sub(ch) then |cs| - 1 else -1
  }

  // The case at index i trades places with the last of the first k.
  function SwapOut(cs: seq<Case>, i: nat, k: nat): seq<Case>
    requires i < k <= |cs|
  {
    cs[i := cs[k - 1]][k - 1 := cs[i]]
  }

  /* Counting */

  ghost function Occurrences<T>(s: seq<T>, x: T): nat {
    if s == [] then 0 else Occurrences(s[..|s| - 1], x) + if s[|s| - 1] == x then 1 else 0
  }

  // How many cases carry the channel.
  ghost function Count(cs: seq<Case>, ch: Chan): nat {
    Occurrences(cs, Sub(ch))
  }

  ghost function Times(chs: seq<Chan>, ch: Chan): nat {
    Occurrences(chs, ch)
  }

  lemma {:induction false} OccurrencesConcat<T>(a: seq<T>, b: seq<T>, x: T)
    ensures Occurrences(a + b, x) == Occurrences(a, x) + Occurrences(b, x)
    decreases |b|
  {
    if b == [] {
      assert a + b == a;
    } else {
      assert (a + b)[..|a + b| - 1] == a + b[..|b| - 1];
      OccurrencesConcat(a, b[..|b| - 1], x);
    }
  }

  lemma {:induction false} OccurrencesIn<T>(s: seq<T>, x: T)
    ensures Occurrences(s, x) > 0 <==> x in s
    decreases |s|
  {
    if s != [] {
      OccurrencesIn(s[..|s| - 1], x);
      assert s == s[..|s| - 1] + [s[|s| - 1]];
    }
  }

  lemma {:induction false} OccurrencesAround<T>(s: seq<T>, i: nat, x: T)
    requires i < |s|
    ensures Occurrences(s, x) == Occurrences(s[..i], x) + Occurrences(s[i + 1..], x) + if s[i] == x then 1 else 0
  {
    var a, m, b := s[..i], [s[i]], s[i + 1..];
    OccurrencesConcat(m, b, x);
    OccurrencesConcat(a, m + b, x);
    assert s == a + (m + b);
    assert m[..0] == [];
  }

  lemma {:induction false} OccurrencesDelete<T>(s: seq<T>, i: nat, x: T)
    requires i < |s|
    ensures Occurrences(s, x) == Occurrences(DeleteAt(s, i), x) + if s[i] == x then 1 else 0
  {
    OccurrencesAround(s, i, x);
    OccurrencesConcat(s[..i], s[i + 1..], x);
  }

  lemma {:induction false} OccurrencesUpdate<T>(s: seq<T>, i: nat, y: T, x: T)
    requires i < |s|
    ensures Occurrences(s[i := y], x) == Occurrences(s, x) - (if s[i] == x then 1 else 0) + if y == x then 1 else 0
  {
    OccurrencesAround(s, i, x);
    OccurrencesAround(s[i := y], i, x);
    assert s[i := y][..i] == s[..i] && s[i := y][i + 1..] == s[i + 1..];
  }

  lemma {:induction false} OccurrencesAppend<T>(s: seq<T>, y: T, x: T)
    ensures Occurrences(s + [y], x) == Occurrences(s, x) + if y == x then 1 else 0
  {
    assert (s + [y])[..|s|] == s;
  }

  // Deactivating a case takes exactly it out of the active prefix and keeps the whole list's
  // contents.
  lemma {:induction false} CountSwapOut(cs: seq<Case>, i: nat, k: nat, ch: Chan)
    requires i < k <= |cs|
    ensures Count(SwapOut(cs, i, k), ch) == Count(cs, ch)
    ensures Count(cs[..k], ch) == Count(SwapOut(cs, i, k)[..k - 1], ch) + if cs[i] == Sub(ch) then 1 else 0
  {
    OccurrencesUpdate(cs, i, cs[k - 1], Sub(ch));
    OccurrencesUpdate(cs[i := cs[k - 1]], k - 1, cs[i], Sub(ch));
    var t := cs[..k];
    var t' := t[i := t[k - 1]];
    OccurrencesUpdate(t, i, t[k - 1], Sub(ch));
    assert t'[k - 1] == t[k - 1];
    assert SwapOut(cs, i, k)[..k - 1] == t'[..k - 1];
  }

  // Deleting a case from the whole list deletes it from the active prefix if it lies there and
  // leaves the prefix alone if it does not, although both share the array.
  lemma {:induction false} PrefixDelete(cs: seq<Case>, i: nat, k: nat)
    requires i < |cs| && k <= |cs|
    ensures i < k ==> DeleteAt(cs, i)[..k - 1] == DeleteAt(cs[..k], i)
    ensures i >= k ==> DeleteAt(cs, i)[..k] == cs[..k]
  {
  }

  // Slot 0 takes removals and every other slot a subscriber.
  ghost predicate SendList(cs: seq<Case>) {
    |cs| > 0 && cs[0] == RemoveSub && forall i :: 0 < i < |cs| ==> cs[i].Sub?
  }

  function Cases(chs: seq<Chan>): (cs: seq<Case>)
    ensures |cs| == |chs| && forall i :: 0 <= i < |cs| ==> cs[i] == Sub(chs[i])
  {
    seq(|chs|, i requires 0 <= i < |chs| => Sub(chs[i]))
  }

  lemma {:induction false} CountCases(chs: seq<Chan>, ch: Chan)
    ensures Count(Cases(chs), ch) == Times(chs, ch)
    decreases |chs|
  {
    if chs != [] {
      CountCases(chs[..|chs| - 1], ch);
      assert Cases(chs)[..|chs| - 1] == Cases(chs[..|chs| - 1]);
    }
  }

  /* The same on an array, in place */

  // A slice of an array that starts at its first slot.
  method Find(a: array<Case>, len: nat, ch: Chan) returns (index: int)
    requires len <= a.Length
    ensures index == FindCase(a[..len], ch)
  {
    var i := 0;
    while i < len
      invariant 0 <= i <= len && Sub(ch) !in a[..i]
    {
      if a[i] == Sub(ch) {
        FindUnique(a[..len], ch, i);
        return i;
      }
      i := i + 1;
    }
    return -1;
  }

  lemma {:induction false} FindUnique(cs: seq<Case>, ch: Chan, i: nat)
    requires i < |cs| && cs[i] == Sub(ch) && Sub(ch) !in cs[..i]
    ensures FindCase(cs, ch) == i
  {
  }

  // Shifts the tail one slot down over the deleted case.
  method Delete(a: array<Case>, len: nat, index: nat) returns (len': nat)
    requires index < len <= a.Length
    modifies a
    ensures len' == len - 1 && a[..len'] == DeleteAt(old(a[..len]), index)
  {
    var i := index;
    while i + 1 < len
      invariant index <= i < len
      invariant forall j :: 0 <= j < index ==> a[j] == old(a[j])
      invariant forall j :: index <= j < i ==> a[j] == old(a[j + 1])
      invariant forall j :: i <= j < len ==> a[j] == old(a[j])
    {
      a[i] := a[i + 1];
      i := i + 1;
    }
    len' := len - 1;
  }

  // Moves a case out of the first k into the slot behind them.
  method Deactivate(a: array<Case>, ghost len: nat, k: nat, index: nat) returns (k': nat)
    requires index < k <= len <= a.Length
    modifies a
    ensures k' == k - 1 && a[..len] == SwapOut(old(a[..len]), index, k)
  {
    a[index], a[k - 1] := a[k - 1], a[index];
    k' := k - 1;
  }
}
