/** The section indexer: a background worker indexes fixed-size sections of the canonical chain
    one header at a time without holding the lock, while head notices grow and shrink what is
    known. The canonical index may change between any two steps. */
module ChainIndexers {
  import opened Basics
  import opened Headers

  // What the worker is doing: idle, or part way through a section that starts on oldHead, with
  // next the number to read and last the hash read before it.
  datatype Work = Idle | Busy(section: nat, oldHead: Hash, next: int, last: Hash)

  datatype State = State(stored: nat, known: nat, heads: map<int, Hash>, work: Work)

  // Section size, required confirmations, and the table of all headers that ever exist.
  datatype Config = Config(size: nat, confirms: nat, headers: Store)

  function SectionHead(heads: map<int, Hash>, section: int): Hash {
    if section in heads then heads[section] else NO_HASH
  }

  /* Steps */

  // Cutting back to the given number of sections drops the heads above; growing only counts.
  function SetValid(s: State, sections: nat): State {
    s.(stored := sections, heads := map k | k in s.heads && !(sections <= k < s.stored) :: s.heads[k])
  }

  function NewHead(c: Config, s: State, head: nat, reorg: bool): State
    requires c.size > 0
  {
    if reorg then
      var known := (head + 1) / c.size;
      var s' := if known < s.known then s.(known := known) else s;
      if known < s.stored then SetValid(s', known) else s'
    else if head >= c.confirms && (head + 1 - c.confirms) / c.size > s.known then
      s.(known := (head + 1 - c.confirms) / c.size)
    else s
  }

  predicate LastIsCanonical(c: Config, s: State, canon: map<int, Hash>)
    requires s.stored > 0
  {
    SectionHead(s.heads, s.stored - 1) == ReadCanonical(canon, s.stored * c.size - 1)
  }

  function VerifyLast(c: Config, s: State, canon: map<int, Hash>): State
    decreases s.stored
  {
    if s.stored == 0 || LastIsCanonical(c, s, canon) then s
    else VerifyLast(c, SetValid(s, s.stored - 1), canon)
  }

  // The worker wakes: it drops reorged sections and takes the next one, then lets the lock go.
  function Start(c: Config, s: State, canon: map<int, Hash>): State {
    if s.work != Idle || s.known <= s.stored then s
    else
      var s' := VerifyLast(c, s, canon);
      var oldHead := if s'.stored > 0 then SectionHead(s'.heads, s'.stored - 1) else NO_HASH;
      s'.(work := Busy(s'.stored, oldHead, s'.stored * c.size, oldHead))
  }

  // The worker reads one header through whatever the canonical index is now. Any break in the
  // hash links ends the section with an error.
  function Read(c: Config, s: State, canon: map<int, Hash>): State {
    if s.work == Idle || s.work.next >= (s.work.section + 1) * c.size then s
    else
      var hash := ReadCanonical(canon, s.work.next);
      var header := GetHeader(c.headers, hash, s.work.next);
      if hash == NO_HASH || header.None? || header.value.parent != s.work.last then Fail(c, s, canon)
      else s.(work := s.work.(next := s.work.next + 1, last := hash))
  }

  // A failed section: roll back what is not canonical and wait for the next notice.
  function Fail(c: Config, s: State, canon: map<int, Hash>): State {
    var s' := VerifyLast(c, s, canon);
    s'.(known := s'.stored, work := Idle)
  }

  // The worker is through: the section counts if the one it was built on is still there.
  function Finish(c: Config, s: State, canon: map<int, Hash>): State {
    if s.work == Idle || s.work.next != (s.work.section + 1) * c.size then s
    else
      var section := s.work.section;
      if section == 0 || s.work.oldHead == SectionHead(s.heads, section - 1)
      then SetValid(s.(heads := s.heads[section := s.work.last]), section + 1).(work := Idle)
      else Fail(c, s, canon)
  }

  datatype Event =
    | Notice(head: nat, reorg: bool)
    | Wake(canon: map<int, Hash>)
    | ReadNext(canon: map<int, Hash>)
    | Done(canon: map<int, Hash>)
    | BackendFailed(canon: map<int, Hash>, resetFailed: bool)
    | Ask(canon: map<int, Hash>)

  // A reset failure drops every section before the error is handled.
  function Next(c: Config, s: State, e: Event): State
    requires c.size > 0
  {
    match e
    case Notice(head, reorg) => NewHead(c, s, head, reorg)
    case Wake(canon) => Start(c, s, canon)
    case ReadNext(canon) => Read(c, s, canon)
    case Done(canon) => Finish(c, s, canon)
    case BackendFailed(canon, resetFailed) =>
      if s.work == Idle then s else Fail(c, if resetFailed then SetValid(s, 0) else s, canon)
    case Ask(canon) => VerifyLast(c, s, canon)
  }

  function Run(c: Config, s: State, events: seq<Event>): State
    requires c.size > 0
    decreases |events|
  {
    if events == [] then s else Next(c, Run(c, s, events[..|events| - 1]), events[|events| - 1])
  }

  /* The linking invariant */

  // Following k parent links from h leads to a.
  ghost predicate Descends(t: Store, h: Hash, k: nat, a: Hash)
    decreases k
  {
    if k == 0 then h == a else h in t && Descends(t, t[h].parent, k - 1, a)
  }

  ghost predicate Stored(c: Config, heads: map<int, Hash>, i: int)
    requires i in heads
  {
    && heads[i] in c.headers && c.headers[heads[i]].number == (i + 1) * c.size - 1
    && Descends(c.headers, heads[i], c.size, SectionHead(heads, i - 1))
  }

  // Every stored section head descends from the one before by exactly size parent links.
  ghost predicate Chained(c: Config, s: State) {
    && (forall i :: i in s.heads <==> 0 <= i < s.stored)
    && (forall i {:trigger Stored(c, s.heads, i)} :: i in s.heads ==> Stored(c, s.heads, i))
  }

  // The worker's hashes so far link up to the section head it started on.
  ghost predicate Linking(c: Config, s: State) {
    s.work.Busy? ==>
      var w := s.work;
      && s.stored <= w.section && (w.section == 0 <==> w.oldHead == NO_HASH)
      && w.section * c.size <= w.next <= (w.section + 1) * c.size
      && Descends(c.headers, w.last, w.next - w.section * c.size, w.oldHead)
      && (w.next > w.section * c.size ==> w.last in c.headers && c.headers[w.last].number == w.next - 1)
  }

  ghost predicate Inv(c: Config, s: State) {
    c.size > 0 && NO_HASH !in c.headers && Chained(c, s) && Linking(c, s)
  }

  lemma {:induction false} DescendsMore(t: Store, h: Hash, k: nat, a: Hash)
    requires h in t && Descends(t, t[h].parent, k, a)
    ensures Descends(t, h, k + 1, a)
  {
  }

  lemma {:induction false} SectionSpan(section: int, size: int)
    ensures (section + 1) * size == section * size + size
  {
  }

  lemma {:induction false} Multiples(m: nat, n: nat, size: nat)
    requires m <= n
    ensures m * size <= n * size
  {
  }

  lemma {:induction false} SetValidKeeps(c: Config, s: State, n: nat)
    requires Inv(c, s) && n <= s.stored
    ensures Inv(c, SetValid(s, n))
    ensures forall i :: 0 <= i < n ==> SetValid(s, n).heads[i] == s.heads[i]
  {
    var s' := SetValid(s, n);
    forall i | i in s'.heads
      ensures Stored(c, s'.heads, i)
    {
      assert Stored(c, s.heads, i);
    }
  }

  lemma {:induction false} VerifyLastKeeps(c: Config, s: State, canon: map<int, Hash>)
    requires Inv(c, s)
    ensures var s' := VerifyLast(c, s, canon);
            Inv(c, s') && s'.stored <= s.stored && s'.work == s.work && s'.known == s.known &&
            forall i :: 0 <= i < s'.stored ==> s'.heads[i] == s.heads[i]
    decreases s.stored
  {
    if s.stored > 0 && !LastIsCanonical(c, s, canon) {
      SetValidKeeps(c, s, s.stored - 1);
      VerifyLastKeeps(c, SetValid(s, s.stored - 1), canon);
    }
  }

  lemma {:induction false} StartKeeps(c: Config, s: State, canon: map<int, Hash>)
    requires Inv(c, s)
    ensures Inv(c, Start(c, s, canon))
  {
    VerifyLastKeeps(c, s, canon);
    var s' := VerifyLast(c, s, canon);
    if s'.stored > 0 {
      assert Stored(c, s'.heads, s'.stored - 1);
    }
  }

  lemma {:induction false} ReadKeeps(c: Config, s: State, canon: map<int, Hash>)
    requires Inv(c, s)
    ensures Inv(c, Read(c, s, canon))
  {
    VerifyLastKeeps(c, s, canon);
    if s.work.Busy? {
      var hash := ReadCanonical(canon, s.work.next);
      if GetHeader(c.headers, hash, s.work.next).Some? && c.headers[hash].parent == s.work.last {
        DescendsMore(c.headers, hash, s.work.next - s.work.section * c.size, s.work.oldHead);
      }
    }
  }

  lemma {:induction false} FinishKeeps(c: Config, s: State, canon: map<int, Hash>)
    requires Inv(c, s)
    ensures Inv(c, Finish(c, s, canon))
  {
    VerifyLastKeeps(c, s, canon);
    if s.work.Busy? && s.work.next == (s.work.section + 1) * c.size {
      var section: int := s.work.section;
      if section == 0 || s.work.oldHead == SectionHead(s.heads, section - 1) {
        assert section == s.stored;
        var s' := Finish(c, s, canon);
        assert s'.heads == s.heads[section := s.work.last];
        SectionSpan(section, c.size);
        assert SectionHead(s'.heads, section - 1) == s.work.oldHead;
        forall i: int | i in s'.heads
          ensures Stored(c, s'.heads, i)
        {
          if i < section {
            assert Stored(c, s.heads, i);
            assert SectionHead(s'.heads, i - 1) == SectionHead(s.heads, i - 1);
          } else {
            assert i == section;
          }
        }
      }
    }
  }

  // Every step keeps the linking invariant, whatever the canonical index holds at that step.
  lemma {:induction false} NextKeeps(c: Config, s: State, e: Event)
    requires Inv(c, s)
    ensures Inv(c, Next(c, s, e))
  {
    match e
    case Notice(head, reorg) =>
      var known := (head + 1) / c.size;
      if reorg && known < s.stored {
        SetValidKeeps(c, if known < s.known then s.(known := known) else s, known);
      }
    case Wake(canon) => StartKeeps(c, s, canon);
    case ReadNext(canon) => ReadKeeps(c, s, canon);
    case Done(canon) => FinishKeeps(c, s, canon);
    case BackendFailed(canon, resetFailed) =>
      SetValidKeeps(c, s, 0);
      VerifyLastKeeps(c, if resetFailed then SetValid(s, 0) else s, canon);
    case Ask(canon) => VerifyLastKeeps(c, s, canon);
  }

  lemma {:induction false} RunKeeps(c: Config, s: State, events: seq<Event>)
    requires Inv(c, s)
    ensures Inv(c, Run(c, s, events))
    decreases |events|
  {
    if events != [] {
      RunKeeps(c, s, events[..|events| - 1]);
      NextKeeps(c, Run(c, s, events[..|events| - 1]), events[|events| - 1]);
    }
  }

  /* Why checking the last head is enough */

  lemma {:induction false} DescendsIsAncestor(t: Store, g: Hash, h: Hash, k: nat, a: Hash)
    requires Linked(t, g) && h in t && k <= t[h].number && Descends(t, h, k, a)
    ensures a == Ancestor(t, g, h, t[h].number - k)
    decreases k
  {
    if k > 0 {
      assert Attached(t, g, h);
      DescendsIsAncestor(t, g, t[h].parent, k - 1, a);
    }
  }

  ghost predicate IsCanonical(c: Config, heads: map<int, Hash>, canon: map<int, Hash>, i: int)
    requires i in heads
  {
    heads[i] == ReadCanonical(canon, (i + 1) * c.size - 1)
  }

  ghost predicate NoneCanonical(c: Config, s: State, canon: map<int, Hash>) {
    forall i :: 0 <= i < s.stored ==> i in s.heads && !IsCanonical(c, s.heads, canon, i)
  }

  // With the canonical index a header's path, a canonical section head has a canonical one below.
  lemma {:induction false} CanonicalBelow(c: Config, s: State, g: Hash, top: Hash, i: int)
    requires Inv(c, s) && Linked(c.headers, g) && top in c.headers && 0 < i < s.stored
    requires IsCanonical(c, s.heads, PathMap(c.headers, g, top), i)
    ensures IsCanonical(c, s.heads, PathMap(c.headers, g, top), i - 1)
  {
    var t, n := c.headers, (i + 1) * c.size - 1;
    assert Stored(c, s.heads, i) && Stored(c, s.heads, i - 1);
    SectionSpan(i, c.size);
    assert 0 <= n - c.size;
    assert n in PathMap(t, g, top);
    DescendsIsAncestor(t, g, s.heads[i], c.size, s.heads[i - 1]);
    AncestorOfAncestor(t, g, top, n, n - c.size);
  }

  lemma {:induction false} CanonicalAllBelow(c: Config, s: State, g: Hash, top: Hash, i: int, j: int)
    requires Inv(c, s) && Linked(c.headers, g) && top in c.headers && 0 <= j <= i < s.stored
    requires IsCanonical(c, s.heads, PathMap(c.headers, g, top), i)
    ensures IsCanonical(c, s.heads, PathMap(c.headers, g, top), j)
    decreases i - j
  {
    if j < i {
      CanonicalBelow(c, s, g, top, i);
      CanonicalAllBelow(c, s, g, top, i - 1, j);
    }
  }

  // The check of the last head leaves exactly the longest canonical prefix of the sections.
  lemma {:induction false} VerifyLastExact(c: Config, s: State, g: Hash, top: Hash)
    requires Inv(c, s) && Linked(c.headers, g) && top in c.headers
    ensures var canon := PathMap(c.headers, g, top);
            var s' := VerifyLast(c, s, canon);
            s'.stored <= s.stored &&
            (forall i :: 0 <= i < s'.stored ==> i in s.heads && IsCanonical(c, s.heads, canon, i)) &&
            (forall i :: s'.stored <= i < s.stored ==> i in s.heads && !IsCanonical(c, s.heads, canon, i))
    decreases s.stored
  {
    var canon := PathMap(c.headers, g, top);
    if s.stored > 0 {
      if LastIsCanonical(c, s, canon) {
        forall j | 0 <= j < s.stored
          ensures IsCanonical(c, s.heads, canon, j)
        {
          CanonicalAllBelow(c, s, g, top, s.stored - 1, j);
        }
      } else {
        var s1 := SetValid(s, s.stored - 1);
        SetValidKeeps(c, s, s.stored - 1);
        VerifyLastExact(c, s1, g, top);
        var s' := VerifyLast(c, s1, canon);
        forall i: int | 0 <= i < s.stored
          ensures i in s.heads && (i < s'.stored <==> IsCanonical(c, s.heads, canon, i))
        {
          if i < s1.stored {
            assert s1.heads[i] == s.heads[i];
            assert i < s'.stored <==> IsCanonical(c, s1.heads, canon, i);
          }
        }
      }
    }
  }

  // The reported sections s2 of a state s1: all are canonical, and no dropped one is.
  ghost predicate ExactReport(c: Config, s1: State, s2: State, canon: map<int, Hash>) {
    && s2.stored <= s1.stored
    && (forall i :: 0 <= i < s2.stored ==> i in s2.heads && IsCanonical(c, s2.heads, canon, i))
    && (forall i :: s2.stored <= i < s1.stored ==> i in s1.heads && !IsCanonical(c, s1.heads, canon, i))
  }

  lemma {:induction false} AskIsExact(c: Config, s: State, g: Hash, top: Hash)
    requires Inv(c, s) && Linked(c.headers, g) && top in c.headers
    ensures ExactReport(c, s, VerifyLast(c, s, PathMap(c.headers, g, top)), PathMap(c.headers, g, top))
  {
    var canon := PathMap(c.headers, g, top);
    var s' := VerifyLast(c, s, canon);
    VerifyLastKeeps(c, s, canon);
    VerifyLastExact(c, s, g, top);
    forall i | 0 <= i < s'.stored
      ensures i in s'.heads && IsCanonical(c, s'.heads, canon, i)
    {
      assert IsCanonical(c, s.heads, canon, i) && s'.heads[i] == s.heads[i];
    }
  }

  // After any interleaving of notices, worker steps and queries, asking for the sections while
  // the canonical index is some header's path reports exactly the canonical ones.
  lemma {:induction false} ReportedAreCanonical(c: Config, s: State, events: seq<Event>, g: Hash, top: Hash)
    requires Inv(c, s) && Linked(c.headers, g) && top in c.headers
    ensures var canon := PathMap(c.headers, g, top);
            ExactReport(c, Run(c, s, events), Next(c, Run(c, s, events), Ask(canon)), canon)
  {
    RunKeeps(c, s, events);
    AskIsExact(c, Run(c, s, events), g, top);
  }

  /* What notices count, and that sections get done */

  lemma {:induction false} FullSections(x: nat, size: nat, k: nat)
    requires size > 0
    ensures k < x / size <==> (k + 1) * size <= x
  {
    var q, r := x / size, x % size;
    assert x == q * size + r;
    if k < q {
      assert (k + 1) * size <= q * size;
    } else {
      assert (k + 1) * size >= (q + 1) * size;
    }
  }

  // A new head makes known exactly the sections whose last header has its confirmations. A reorg
  // notice keeps known and stored exactly the sections that end at or below the new head.
  lemma {:induction false} NoticeCounts(c: Config, s: State, head: nat, k: nat)
    requires c.size > 0
    ensures k < NewHead(c, s, head, false).known <==> k < s.known || (k + 1) * c.size - 1 + c.confirms <= head
    ensures k < NewHead(c, s, head, true).known <==> k < s.known && (k + 1) * c.size - 1 <= head
    ensures k < NewHead(c, s, head, true).stored <==> k < s.stored && (k + 1) * c.size - 1 <= head
  {
    FullSections(head + 1, c.size, k);
    if head >= c.confirms {
      FullSections(head + 1 - c.confirms, c.size, k);
    } else {
      assert (k + 1) * c.size >= 1;
    }
  }

  // A head notice touches nothing but what is known. A reorg notice keeps the heads of the sections
  // that stay, and what the worker is doing.
  lemma {:induction false} NoticeFrame(c: Config, s: State, head: nat)
    requires c.size > 0 && Chained(c, s)
    ensures NewHead(c, s, head, false) == s.(known := NewHead(c, s, head, false).known)
    ensures var s' := NewHead(c, s, head, true);
            && s'.work == s.work && s'.stored <= s.stored
            && (forall i :: i in s'.heads <==> 0 <= i < s'.stored)
            && (forall i :: 0 <= i < s'.stored ==> s'.heads[i] == s.heads[i])
  {
  }

  // The section ends at or below the number.
  predicate EndsBy(c: Config, k: nat, n: int) {
    (k + 1) * c.size - 1 <= n
  }

  // A reorg notice keeps known and stored exactly what ends at or below the head; a head notice makes
  // known exactly what does so with its confirmations.
  ghost predicate Noticed(c: Config, s: State, head: nat, reorg: bool, s': State) {
    forall k: nat {:trigger NoticedAt(c, s, head, reorg, s', k)} :: NoticedAt(c, s, head, reorg, s', k)
  }

  ghost predicate NoticedAt(c: Config, s: State, head: nat, reorg: bool, s': State, k: nat) {
    && (k < s'.stored <==> k < s.stored && (reorg ==> EndsBy(c, k, head)))
    && (k < s'.known <==> if reorg then k < s.known && EndsBy(c, k, head)
                          else k < s.known || EndsBy(c, k, head - c.confirms))
  }

  lemma {:induction false} NoticeIsNoticed(c: Config, s: State, head: nat, reorg: bool)
    requires c.size > 0 && Chained(c, s)
    ensures Noticed(c, s, head, reorg, NewHead(c, s, head, reorg))
  {
    forall k: nat
      ensures NoticedAt(c, s, head, reorg, NewHead(c, s, head, reorg), k)
    {
      NoticeFrame(c, s, head);
      NoticeCounts(c, s, head, k);
    }
  }

  // The index an event reads, if any.
  function IndexOf(e: Event): Option<map<int, Hash>> {
    match e
    case Notice(_, _) => None
    case Wake(canon) => Some(canon)
    case ReadNext(canon) => Some(canon)
    case Done(canon) => Some(canon)
    case BackendFailed(canon, _) => Some(canon)
    case Ask(canon) => Some(canon)
  }

  // The events that may drop sections without looking at them.
  predicate Drops(e: Event) {
    (e.Notice? && e.reorg) || (e.BackendFailed? && e.resetFailed)
  }

  // The section stays as it was.
  ghost predicate Stays(s: State, s': State, i: int) {
    i < s'.stored && i in s.heads && i in s'.heads && s'.heads[i] == s.heads[i]
  }

  lemma {:induction false} VerifyLastSpares(c: Config, s: State, canon: map<int, Hash>, i: int)
    requires Inv(c, s) && 0 <= i < s.stored && IsCanonical(c, s.heads, canon, i)
    ensures Stays(s, VerifyLast(c, s, canon), i)
    decreases s.stored
  {
    if !LastIsCanonical(c, s, canon) {
      SetValidKeeps(c, s, s.stored - 1);
      VerifyLastSpares(c, SetValid(s, s.stored - 1), canon, i);
    }
  }

  // No event but a reorg notice or a failed reset drops a stored section that is canonical under the
  // index it reads, and a head notice drops none at all.
  lemma {:induction false} CanonicalStays(c: Config, s: State, e: Event, i: int)
    requires Inv(c, s) && !Drops(e) && 0 <= i < s.stored
    requires IndexOf(e).Some? ==> IsCanonical(c, s.heads, IndexOf(e).value, i)
    ensures Stays(s, Next(c, s, e), i)
  {
    match e
    case Notice(head, _) => NoticeFrame(c, s, head);
    case Wake(canon) => VerifyLastSpares(c, s, canon, i);
    case ReadNext(canon) => VerifyLastSpares(c, s, canon, i);
    case Done(canon) => VerifyLastSpares(c, s, canon, i); FinishSpares(c, s, canon, i);
    case BackendFailed(canon, _) => VerifyLastSpares(c, s, canon, i);
    case Ask(canon) => VerifyLastSpares(c, s, canon, i);
  }

  lemma {:induction false} FinishSpares(c: Config, s: State, canon: map<int, Hash>, i: int)
    requires Inv(c, s) && 0 <= i < s.stored && Stays(s, VerifyLast(c, s, canon), i)
    ensures Stays(s, Finish(c, s, canon), i)
  {
    if s.work.Busy? && s.work.next == (s.work.section + 1) * c.size {
      var section: int := s.work.section;
      if section == 0 || s.work.oldHead == SectionHead(s.heads, section - 1) {
        assert section == s.stored;
      }
    }
  }

  // So do all sections canonical under every index that a run reads, if the run has no such event.
  lemma {:induction false} CanonicalStaysOn(c: Config, s: State, events: seq<Event>, i: int)
    requires Inv(c, s) && 0 <= i < s.stored
    requires forall e :: e in events ==>
               !Drops(e) && (IndexOf(e).Some? ==> IsCanonical(c, s.heads, IndexOf(e).value, i))
    ensures Stays(s, Run(c, s, events), i)
    decreases |events|
  {
    if events != [] {
      var before, e := events[..|events| - 1], events[|events| - 1];
      assert e in events && forall x :: x in before ==> x in events;
      CanonicalStaysOn(c, s, before, i);
      RunKeeps(c, s, before);
      CanonicalStays(c, Run(c, s, before), e, i);
    }
  }

  // A section that fails leaves the worker idle, with nothing to do until the next head notice.
  lemma {:induction false} FailRests(c: Config, s: State, canon: map<int, Hash>, canon': map<int, Hash>)
    ensures var s' := Fail(c, s, canon);
            s'.work == Idle && Start(c, s', canon') == s' && Read(c, s', canon') == s' && Finish(c, s', canon') == s'
  {
  }

  // There is one section at a time: a busy worker does not start another, and an idle one has nothing
  // to read, finish or fail.
  lemma {:induction false} OneAtATime(c: Config, s: State, canon: map<int, Hash>, resetFailed: bool)
    requires c.size > 0
    ensures s.work.Busy? || s.known <= s.stored ==> Next(c, s, Wake(canon)) == s
    ensures s.work == Idle ==>
              Next(c, s, ReadNext(canon)) == s && Next(c, s, Done(canon)) == s &&
              Next(c, s, BackendFailed(canon, resetFailed)) == s
  {
  }

  // A worker that wakes with something to do, and one that fails, leave exactly the canonical sections;
  // a failed reset leaves none.
  lemma {:induction false} WorkerIsExact(c: Config, s: State, g: Hash, top: Hash)
    requires Inv(c, s) && Linked(c.headers, g) && top in c.headers
    ensures var canon := PathMap(c.headers, g, top);
            && (s.work == Idle && s.known > s.stored ==> ExactReport(c, s, Start(c, s, canon), canon))
            && ExactReport(c, s, Fail(c, s, canon), canon)
            && (s.work.Busy? ==> ExactReport(c, s, Next(c, s, BackendFailed(canon, false)), canon) &&
                                 Next(c, s, BackendFailed(canon, true)) == State(0, 0, map[], Idle))
  {
    AskIsExact(c, s, g, top);
    SetValidKeeps(c, s, 0);
    assert SetValid(s, 0).heads == map[];
  }

  // So many headers read one after the other.
  function Reads(c: Config, s: State, canon: map<int, Hash>, n: nat): State {
    if n == 0 then s else Read(c, Reads(c, s, canon, n - 1), canon)
  }

  // While the canonical index stays some header's path, the worker reads on along it.
  lemma {:induction false} ReadsAlong(c: Config, s: State, g: Hash, top: Hash, n: nat)
    requires c.size > 0 && Linked(c.headers, g) && top in c.headers && s.work.Busy? && n <= c.size
    requires s.work.next == s.work.section * c.size && (s.work.section + 1) * c.size <= c.headers[top].number + 1
    requires s.work.last == if s.work.section == 0 then NO_HASH
                            else ReadCanonical(PathMap(c.headers, g, top), s.work.next - 1)
    ensures var w, canon := s.work, PathMap(c.headers, g, top);
            var last := if n == 0 then w.last else ReadCanonical(canon, w.next + n - 1);
            Reads(c, s, canon, n) == s.(work := w.(next := w.next + n, last := last))
  {
    if n > 0 {
      ReadsAlong(c, s, g, top, n - 1);
      SectionSpan(s.work.section, c.size);
      var canon, next := PathMap(c.headers, g, top), s.work.next + n - 1;
      assert next in canon;
      if next > 0 {
        AncestorStep(c.headers, g, top, next);
        assert next - 1 in canon;
      } else {
        NumberZeroIsGenesis(c.headers, g, canon[next]);
      }
    }
  }

  lemma {:induction false} VerifyLastStops(c: Config, s: State, canon: map<int, Hash>)
    ensures var s' := VerifyLast(c, s, canon); s'.stored > 0 ==> LastIsCanonical(c, s', canon)
    decreases s.stored
  {
    if s.stored > 0 && !LastIsCanonical(c, s, canon) {
      VerifyLastStops(c, SetValid(s, s.stored - 1), canon);
    }
  }

  // One round of the worker, undisturbed.
  function Round(c: Config, s: State, canon: map<int, Hash>): State {
    Finish(c, Reads(c, Start(c, s, canon), canon, c.size), canon)
  }

  // With a section to do and an index that stays some header's path throughout, one round of the
  // worker stores one more section, and it is canonical.
  lemma {:induction false} SectionCompletes(c: Config, s: State, g: Hash, top: Hash)
    requires Inv(c, s) && Linked(c.headers, g) && top in c.headers && s.work == Idle && s.known > s.stored
    requires (VerifyLast(c, s, PathMap(c.headers, g, top)).stored + 1) * c.size <= c.headers[top].number + 1
    ensures var canon := PathMap(c.headers, g, top);
            var section := VerifyLast(c, s, canon).stored;
            var s' := Round(c, s, canon);
            && s'.stored == section + 1 && s'.work == Idle && s'.known == s.known
            && section in s'.heads && IsCanonical(c, s'.heads, canon, section)
  {
    var canon := PathMap(c.headers, g, top);
    var s1 := VerifyLast(c, s, canon);
    VerifyLastKeeps(c, s, canon);
    VerifyLastStops(c, s, canon);
    SectionSpan(s1.stored, c.size);
    ReadsAlong(c, Start(c, s, canon), g, top, c.size);
  }

  function Rounds(c: Config, s: State, canon: map<int, Hash>, n: nat): State {
    if n == 0 then s else Round(c, Rounds(c, s, canon, n - 1), canon)
  }

  ghost predicate AllCanonical(c: Config, s: State, canon: map<int, Hash>) {
    forall i :: 0 <= i < s.stored ==> i in s.heads && IsCanonical(c, s.heads, canon, i)
  }

  lemma {:induction false} ReadsKeep(c: Config, s: State, canon: map<int, Hash>, n: nat)
    requires Inv(c, s)
    ensures Inv(c, Reads(c, s, canon, n))
  {
    if n > 0 {
      ReadsKeep(c, s, canon, n - 1);
      ReadKeeps(c, Reads(c, s, canon, n - 1), canon);
    }
  }

  lemma {:induction false} RoundKeeps(c: Config, s: State, canon: map<int, Hash>)
    requires Inv(c, s)
    ensures Inv(c, Round(c, s, canon))
  {
    StartKeeps(c, s, canon);
    ReadsKeep(c, Start(c, s, canon), canon, c.size);
    FinishKeeps(c, Reads(c, Start(c, s, canon), canon, c.size), canon);
  }

  lemma {:induction false} LastMakesAll(c: Config, s: State, g: Hash, top: Hash)
    requires Inv(c, s) && Linked(c.headers, g) && top in c.headers
    requires s.stored > 0 ==> IsCanonical(c, s.heads, PathMap(c.headers, g, top), s.stored - 1)
    ensures AllCanonical(c, s, PathMap(c.headers, g, top))
  {
    forall i | 0 <= i < s.stored
      ensures IsCanonical(c, s.heads, PathMap(c.headers, g, top), i)
    {
      CanonicalAllBelow(c, s, g, top, s.stored - 1, i);
    }
  }

  // A round with something to do drops what is not canonical and adds one section; all are canonical
  // then.
  lemma {:induction false} RoundAdds(c: Config, s: State, g: Hash, top: Hash)
    requires Inv(c, s) && Linked(c.headers, g) && top in c.headers && s.work == Idle && s.known > s.stored
    requires s.known * c.size <= c.headers[top].number + 1
    ensures var canon := PathMap(c.headers, g, top);
            var s' := Round(c, s, canon);
            && Inv(c, s') && s'.work == Idle && s'.known == s.known && AllCanonical(c, s', canon)
            && s'.stored == VerifyLast(c, s, canon).stored + 1
  {
    var canon := PathMap(c.headers, g, top);
    VerifyLastKeeps(c, s, canon);
    Multiples(VerifyLast(c, s, canon).stored + 1, s.known, c.size);
    SectionCompletes(c, s, g, top);
    RoundKeeps(c, s, canon);
    LastMakesAll(c, Round(c, s, canon), g, top);
  }

  // Left undisturbed, the worker stores every known section that the chain has, one a round, and all
  // stored are canonical then.
  lemma {:induction false} RoundsComplete(c: Config, s: State, g: Hash, top: Hash, n: nat)
    requires Inv(c, s) && Linked(c.headers, g) && top in c.headers && s.work == Idle && s.known > s.stored && n > 0
    requires s.known * c.size <= c.headers[top].number + 1
    ensures var canon := PathMap(c.headers, g, top);
            var s', first := Rounds(c, s, canon, n), VerifyLast(c, s, canon).stored;
            && Inv(c, s') && s'.work == Idle && s'.known == s.known && AllCanonical(c, s', canon)
            && s'.stored == if first + n <= s.known then first + n else s.known
  {
    var canon := PathMap(c.headers, g, top);
    VerifyLastKeeps(c, s, canon);
    if n == 1 {
      RoundAdds(c, s, g, top);
      assert Rounds(c, s, canon, 0) == s;
    } else {
      RoundsComplete(c, s, g, top, n - 1);
      var s1 := Rounds(c, s, canon, n - 1);
      if s1.stored < s1.known {
        RoundAdds(c, s1, g, top);
      } else {
        IdleRound(c, s1, canon, c.size);
      }
    }
  }

  lemma {:induction false} IdleRound(c: Config, s: State, canon: map<int, Hash>, n: nat)
    requires s.work == Idle && s.known <= s.stored
    ensures Reads(c, Start(c, s, canon), canon, n) == s && Finish(c, s, canon) == s
  {
    if n > 0 {
      IdleRound(c, s, canon, n - 1);
    }
  }

  /* The indexer itself */

  const MAX_UINT64: int := TWO_64 - 1

  class ChainIndexer {
    const config: Config
    var storedSections: nat
    var knownSections: nat
    var heads: map<int, Hash>
    var work: Work

    function Abs(): State
      reads this
    {
      State(storedSections, knownSections, heads, work)
    }

    constructor (config: Config)
      requires config.size > 0 && NO_HASH !in config.headers
      ensures this.config == config && Abs() == State(0, 0, map[], Idle) && Inv(config, Abs())
    {
      this.config := config;
      storedSections, knownSections, heads, work := 0, 0, map[], Idle;
    }

    method SetValidSections(sections: nat)
      modifies this`storedSections, this`heads
      ensures Abs() == SetValid(old(Abs()), sections)
    {
      while storedSections > sections
        invariant storedSections <= old(storedSections)
        invariant storedSections == old(storedSections) || sections <= storedSections
        invariant heads == map k | k in old(heads) && !(storedSections <= k < old(storedSections)) :: old(heads)[k]
      {
        storedSections := storedSections - 1;
        heads := heads - {storedSections};
      }
      storedSections := sections;
    }

    // Compares only the last stored head with the canonical chain, dropping it until it agrees.
    method VerifyLastHead(canon: map<int, Hash>)
      modifies this`storedSections, this`heads
      ensures Abs() == VerifyLast(config, old(Abs()), canon)
    {
      while storedSections > 0
        invariant VerifyLast(config, Abs(), canon) == VerifyLast(config, old(Abs()), canon)
        decreases storedSections
      {
        if SectionHead(heads, storedSections - 1) == ReadCanonical(canon, storedSections * config.size - 1) {
          return;
        }
        SetValidSections(storedSections - 1);
      }
    }

    method NewHeadNotice(head: nat, reorg: bool)
      requires Inv(config, Abs())
      modifies this`storedSections, this`knownSections, this`heads
      ensures Abs() == NewHead(config, old(Abs()), head, reorg) && Inv(config, Abs())
      ensures !reorg ==> Abs() == old(Abs()).(known := knownSections)
      ensures forall i :: 0 <= i < storedSections ==> i in old(heads) && heads[i] == old(heads)[i]
      ensures Noticed(config, old(Abs()), head, reorg, Abs())
    {
      NoticeFrame(config, Abs(), head);
      NoticeIsNoticed(config, Abs(), head, reorg);
      NextKeeps(config, Abs(), Notice(head, reorg));
      if reorg {
        var known := (head + 1) / config.size;
        if known < knownSections {
          knownSections := known;
        }
        if known < storedSections {
          SetValidSections(known);
        }
      } else if head >= config.confirms {
        var sections := (head + 1 - config.confirms) / config.size;
        if sections > knownSections {
          knownSections := sections;
        }
      }
    }

    // The locked head of a worker round.
    method StartSection(canon: map<int, Hash>)
      requires Inv(config, Abs())
      modifies this
      ensures Abs() == Start(config, old(Abs()), canon) && Inv(config, Abs())
    {
      StartKeeps(config, Abs(), canon);
      if work == Idle && knownSections > storedSections {
        VerifyLastHead(canon);
        var oldHead := if storedSections > 0 then SectionHead(heads, storedSections - 1) else NO_HASH;
        work := Busy(storedSections, oldHead, storedSections * config.size, oldHead);
      }
    }

    // One header of the unlocked section loop.
    method ReadHeader(canon: map<int, Hash>)
      requires Inv(config, Abs())
      modifies this
      ensures Abs() == Read(config, old(Abs()), canon) && Inv(config, Abs())
    {
      ReadKeeps(config, Abs(), canon);
      if work == Idle || work.next >= (work.section + 1) * config.size {
        return;
      }
      var hash := ReadCanonical(canon, work.next);
      var header := GetHeader(config.headers, hash, work.next);
      if hash == NO_HASH || header.None? || header.value.parent != work.last {
        SectionFailed(canon);
      } else {
        work := work.(next := work.next + 1, last := hash);
      }
    }

    method SectionFailed(canon: map<int, Hash>)
      modifies this
      ensures Abs() == Fail(config, old(Abs()), canon)
    {
      VerifyLastHead(canon);
      knownSections, work := storedSections, Idle;
    }

    // The locked tail of a worker round: the section counts only if the head it was built on is
    // still the stored one.
    method FinishSection(canon: map<int, Hash>)
      requires Inv(config, Abs())
      modifies this
      ensures Abs() == Finish(config, old(Abs()), canon) && Inv(config, Abs())
    {
      FinishKeeps(config, Abs(), canon);
      if work == Idle || work.next != (work.section + 1) * config.size {
        return;
      }
      var section := work.section;
      if section == 0 || work.oldHead == SectionHead(heads, section - 1) {
        heads := heads[section := work.last];
        SetValidSections(section + 1);
        work := Idle;
      } else {
        SectionFailed(canon);
      }
    }

    // The sections, the number of the last indexed header and its hash. With no section stored
    // the number wraps around.
    method Sections(canon: map<int, Hash>, ghost g: Hash, ghost top: Hash) returns (n: nat, last: int, head: Hash)
      requires Inv(config, Abs()) && Linked(config.headers, g) && top in config.headers
      requires canon == PathMap(config.headers, g, top)
      modifies this`storedSections, this`heads
      ensures Inv(config, Abs()) && n == storedSections && ExactReport(config, old(Abs()), Abs(), canon)
      ensures n == 0 <==> NoneCanonical(config, old(Abs()), canon)
      ensures if n == 0 then last == MAX_UINT64 && head == NO_HASH
              else last == n * config.size - 1 && 0 <= last <= config.headers[top].number &&
                   head == Ancestor(config.headers, g, top, last)
    {
      VerifyLastKeeps(config, Abs(), canon);
      AskIsExact(config, Abs(), g, top);
      VerifyLastExact(config, Abs(), g, top);
      VerifyLastHead(canon);
      n := storedSections;
      last := if n == 0 then MAX_UINT64 else n * config.size - 1;
      head := SectionHead(heads, n - 1);
      if n > 0 {
        assert Stored(config, heads, n - 1) && IsCanonical(config, heads, canon, n - 1);
      }
    }
  }
}
