/** The subscribe, unsubscribe and send protocol of the event feed, as atomic steps that any
    number of goroutines interleave. */
module FeedProtocol {
  import opened Basics
  import opened CaseLists

  // A send in progress: the list it started with, the length of the active prefix, and what
  // was delivered, removed, and removed while still active.
  datatype Send = Send(initial: seq<Case>, active: nat, delivered: seq<Chan>, removed: seq<Chan>, unsent: seq<Chan>)

  datatype Phase = Quiet | Sending(send: Send)

  // The subscriptions are told apart by how far their removal has got: open (not unsubscribed
  // yet) or past the inbox check and waiting for the send lock or a running send.
  datatype State = State(
    inbox: seq<Chan>,
    cases: seq<Case>,
    phase: Phase,
    open: seq<Chan>,
    pending: seq<Chan>,
    finished: seq<Send>)

  datatype Event =
    | Subscribe(ch: Chan)
    | Unsubscribe(ch: Chan)
    | RemoveIdle(ch: Chan)
    | BeginSend
    | Deliver(index: nat)
    | RemoveDuring(ch: Chan)
    | EndSend

  // Deleting a case that is not there would panic.
  datatype Outcome = Running(state: State) | Panic

  function IndexOf(chs: seq<Chan>, ch: Chan): (i: nat)
    requires ch in chs
    ensures i < |chs| && chs[i] == ch
  {
    if chs[0] == ch then 0 else 1 + IndexOf(chs[1..], ch)
  }

  function Drop(chs: seq<Chan>, ch: Chan): seq<Chan>
    requires ch in chs
  {
    DeleteAt(chs, IndexOf(chs, ch))
  }

  // A case removed from the active prefix shrinks it; one behind it was sent already.
  function AfterRemoval(d: Send, index: nat, ch: Chan): Send {
    if index < d.active
    then Send(d.initial, d.active - 1, d.delivered, d.removed + [ch], d.unsent + [ch])
    else Send(d.initial, d.active, d.delivered, d.removed + [ch], d.unsent)
  }

  function Next(s: State, e: Event): Outcome {
    match e
    case Subscribe(ch) =>
      Running(s.(inbox := s.inbox + [ch], open := s.open + [ch]))
    case Unsubscribe(ch) =>
      if ch !in s.open then Running(s)
      else if ch in s.inbox then Running(s.(inbox := Drop(s.inbox, ch), open := Drop(s.open, ch)))
      else Running(s.(open := Drop(s.open, ch), pending := s.pending + [ch]))
    case RemoveIdle(ch) =>
      if s.phase != Quiet || ch !in s.pending then Running(s)
      else
        var index := FindCase(s.cases, ch);
        if index < 0 then Panic
        else Running(s.(cases := DeleteAt(s.cases, index), pending := Drop(s.pending, ch)))
    case BeginSend =>
      if s.phase != Quiet then Running(s)
      else
        var cases := s.cases + Cases(s.inbox);
        Running(s.(inbox := [], cases := cases, phase := Sending(Send(cases, |cases|, [], [], []))))
    case Deliver(i) =>
      if s.phase == Quiet || !(1 <= i < s.phase.send.active <= |s.cases|) || s.cases[i] == RemoveSub then Running(s)
      else
        var d := s.phase.send;
        Running(s.(cases := SwapOut(s.cases, i, d.active),
                   phase := Sending(d.(active := d.active - 1, delivered := d.delivered + [s.cases[i].ch]))))
    case RemoveDuring(ch) =>
      if s.phase == Quiet || s.phase.send.active <= 1 || ch !in s.pending then Running(s)
      else
        var d := s.phase.send;
        var index := FindCase(s.cases, ch);
        if index < 0 then Panic
        else
          Running(s.(cases := DeleteAt(s.cases, index), pending := Drop(s.pending, ch),
                     phase := Sending(AfterRemoval(d, index, ch))))
    case EndSend =>
      if s.phase == Quiet || s.phase.send.active != 1 then Running(s)
      else Running(s.(phase := Quiet, finished := s.finished + [s.phase.send]))
  }

  function Run(s: State, events: seq<Event>): Outcome
    decreases |events|
  {
    if events == [] then Running(s)
    else
      var r := Run(s, events[..|events| - 1]);
      if r.Panic? then Panic else Next(r.state, events[|events| - 1])
  }

  /* Invariants, channel by channel */

  // Inbox and send list hold exactly the subscriptions not removed yet, and the send list holds
  // at least those whose removers are past the inbox check.
  ghost predicate Accounted(s: State, ch: Chan) {
    && Times(s.inbox, ch) + Count(s.cases, ch) == Times(s.open, ch) + Times(s.pending, ch)
    && Times(s.pending, ch) <= Count(s.cases, ch)
  }

  // The active prefix is what is neither sent nor removed unsent; the whole list is what is not
  // removed.
  ghost predicate Tracked(cases: seq<Case>, d: Send, ch: Chan)
    requires d.active <= |cases|
  {
    && Count(cases[..d.active], ch) + Times(d.delivered, ch) + Times(d.unsent, ch) == Count(d.initial, ch)
    && Count(cases, ch) + Times(d.removed, ch) == Count(d.initial, ch)
    && Times(d.unsent, ch) <= Times(d.removed, ch)
  }

  // A finished send delivered once for each subscription of a channel, except for those that
  // were removed during it, which got at most one each.
  ghost predicate Complete(d: Send, ch: Chan) {
    Count(d.initial, ch) - Times(d.removed, ch) <= Times(d.delivered, ch) <= Count(d.initial, ch)
  }

  ghost predicate Inv(s: State) {
    && SendList(s.cases)
    && (forall ch :: Accounted(s, ch))
    && (s.phase.Sending? ==>
          1 <= s.phase.send.active <= |s.cases| && forall ch :: Tracked(s.cases, s.phase.send, ch))
    && (forall i, ch :: 0 <= i < |s.finished| ==> Complete(s.finished[i], ch))
  }

  lemma {:induction false} DropTimes(chs: seq<Chan>, x: Chan, ch: Chan)
    requires x in chs
    ensures Times(Drop(chs, x), ch) == Times(chs, ch) - if x == ch then 1 else 0
  {
    OccurrencesDelete(chs, IndexOf(chs, x), ch);
  }

  lemma {:induction false} UnsubscribeKeeps(s: State, x: Chan, ch: Chan)
    requires Accounted(s, ch) && Accounted(s, x) && x in s.open
    ensures Accounted(Next(s, Unsubscribe(x)).state, ch)
  {
    DropTimes(s.open, x, ch);
    if x in s.inbox {
      DropTimes(s.inbox, x, ch);
    } else {
      OccurrencesIn(s.inbox, x);
      OccurrencesIn(s.open, x);
      OccurrencesAppend(s.pending, x, ch);
    }
  }

  // A remover past the inbox check always finds its case.
  lemma {:induction false} FindNeverMisses(s: State, x: Chan)
    requires Accounted(s, x) && x in s.pending
    ensures FindCase(s.cases, x) >= 0
  {
    OccurrencesIn(s.pending, x);
    OccurrencesIn(s.cases, Sub(x));
  }

  lemma {:induction false} RemovalKeeps(s: State, x: Chan, ch: Chan)
    requires Accounted(s, ch) && Accounted(s, x) && x in s.pending
    ensures FindCase(s.cases, x) >= 0
    ensures Accounted(s.(cases := DeleteAt(s.cases, FindCase(s.cases, x)), pending := Drop(s.pending, x)), ch)
  {
    FindNeverMisses(s, x);
    OccurrencesDelete(s.cases, FindCase(s.cases, x), Sub(ch));
    DropTimes(s.pending, x, ch);
  }

  lemma {:induction false} BeginKeeps(s: State, ch: Chan)
    requires Accounted(s, ch) && s.phase == Quiet
    ensures var s' := Next(s, BeginSend).state;
            Accounted(s', ch) && Tracked(s'.cases, s'.phase.send, ch)
  {
    CountCases(s.inbox, ch);
    OccurrencesConcat(s.cases, Cases(s.inbox), Sub(ch));
    var cases := s.cases + Cases(s.inbox);
    assert cases[..|cases|] == cases;
  }

  lemma {:induction false} DeliverKeeps(cases: seq<Case>, d: Send, i: nat, ch: Chan)
    requires 1 <= i < d.active <= |cases| && cases[i].Sub? && Tracked(cases, d, ch)
    ensures Tracked(SwapOut(cases, i, d.active),
                    d.(active := d.active - 1, delivered := d.delivered + [cases[i].ch]), ch)
    ensures Count(SwapOut(cases, i, d.active), ch) == Count(cases, ch)
  {
    CountSwapOut(cases, i, d.active, ch);
    OccurrencesAppend(d.delivered, cases[i].ch, ch);
    var out := SwapOut(cases, i, d.active);
    assert Count(out[..d.active - 1], ch) + Times(d.delivered + [cases[i].ch], ch) + Times(d.unsent, ch)
           == Count(d.initial, ch);
  }

  // One case removed from the prefix shortens it by just that case.
  lemma {:induction false} PrefixCount(cases: seq<Case>, index: nat, k: nat, k': nat, ch: Chan)
    requires index < k <= |cases| && k' == k - 1
    ensures Count(cases[..k], ch) == Count(DeleteAt(cases, index)[..k'], ch) + if cases[index] == Sub(ch) then 1 else 0
  {
    PrefixDelete(cases, index, k);
    OccurrencesDelete(cases[..k], index, Sub(ch));
  }

  // What is taken off the list and the prefix is entered as removed, and as unsent.
  lemma {:induction false} TakenIsEntered(cases: seq<Case>, d: Send, rest: seq<Case>, d': Send, n: nat, m: nat,
                                          ch: Chan)
    requires d.active <= |cases| && d'.active <= |rest| && Tracked(cases, d, ch) && m <= n
    requires d'.initial == d.initial && d'.delivered == d.delivered
    requires Count(cases, ch) == Count(rest, ch) + n && Times(d'.removed, ch) == Times(d.removed, ch) + n
    requires Count(cases[..d.active], ch) == Count(rest[..d'.active], ch) + m
    requires Times(d'.unsent, ch) == Times(d.unsent, ch) + m
    ensures Tracked(rest, d', ch)
  {
  }

  // A removal is entered rightly wherever the case lay; one from the prefix was not sent.
  lemma {:induction false} RemoveKeepsTracked(cases: seq<Case>, d: Send, index: nat, x: Chan, ch: Chan)
    requires index < |cases| && cases[index] == Sub(x) && 1 <= d.active <= |cases| && Tracked(cases, d, ch)
    ensures AfterRemoval(d, index, x).active <= |cases| - 1
    ensures Tracked(DeleteAt(cases, index), AfterRemoval(d, index, x), ch)
  {
    var rest, d', n := DeleteAt(cases, index), AfterRemoval(d, index, x), if x == ch then 1 else 0;
    OccurrencesDelete(cases, index, Sub(ch));
    OccurrencesAppend(d.removed, x, ch);
    if index < d.active {
      PrefixCount(cases, index, d.active, d'.active, ch);
      OccurrencesAppend(d.unsent, x, ch);
      TakenIsEntered(cases, d, rest, d', n, n, ch);
    } else {
      PrefixDelete(cases, index, d.active);
      TakenIsEntered(cases, d, rest, d', n, 0, ch);
    }
  }

  lemma {:induction false} EndIsComplete(cases: seq<Case>, d: Send, ch: Chan)
    requires SendList(cases) && d.active == 1 && Tracked(cases, d, ch)
    ensures Complete(d, ch)
    ensures Times(d.removed, ch) == 0 ==> Times(d.delivered, ch) == Count(d.initial, ch)
  {
    assert cases[..1] == [RemoveSub] && [RemoveSub][..0] == [];
  }

  lemma {:induction false} SendListDelete(cases: seq<Case>, i: nat)
    requires SendList(cases) && 0 < i < |cases|
    ensures SendList(DeleteAt(cases, i))
  {
  }

  lemma {:induction false} SubscribeInv(s: State, x: Chan)
    requires Inv(s)
    ensures Inv(Next(s, Subscribe(x)).state)
  {
    var s' := Next(s, Subscribe(x)).state;
    forall ch ensures Accounted(s', ch) {
      assert Accounted(s, ch);
      OccurrencesAppend(s.inbox, x, ch);
      OccurrencesAppend(s.open, x, ch);
    }
  }

  lemma {:induction false} UnsubscribeInv(s: State, x: Chan)
    requires Inv(s) && x in s.open
    ensures Inv(Next(s, Unsubscribe(x)).state)
  {
    forall ch ensures Accounted(Next(s, Unsubscribe(x)).state, ch) {
      assert Accounted(s, ch) && Accounted(s, x);
      UnsubscribeKeeps(s, x, ch);
    }
  }

  lemma {:induction false} RemoveIdleInv(s: State, x: Chan)
    requires Inv(s) && s.phase == Quiet && x in s.pending
    ensures Next(s, RemoveIdle(x)).Running? && Inv(Next(s, RemoveIdle(x)).state)
  {
    assert Accounted(s, x);
    FindNeverMisses(s, x);
    SendListDelete(s.cases, FindCase(s.cases, x));
    forall ch ensures Accounted(Next(s, RemoveIdle(x)).state, ch) {
      assert Accounted(s, ch);
      RemovalKeeps(s, x, ch);
    }
  }

  lemma {:induction false} BeginInv(s: State)
    requires Inv(s) && s.phase == Quiet
    ensures Inv(Next(s, BeginSend).state)
  {
    var s' := Next(s, BeginSend).state;
    forall ch ensures Accounted(s', ch) && Tracked(s'.cases, s'.phase.send, ch) {
      assert Accounted(s, ch);
      BeginKeeps(s, ch);
    }
  }

  lemma {:induction false} DeliverInv(s: State, i: nat)
    requires Inv(s) && s.phase.Sending? && 1 <= i < s.phase.send.active
    ensures Inv(Next(s, Deliver(i)).state)
  {
    var s' := Next(s, Deliver(i)).state;
    forall ch ensures Accounted(s', ch) && Tracked(s'.cases, s'.phase.send, ch) {
      assert Accounted(s, ch) && Tracked(s.cases, s.phase.send, ch);
      DeliverKeeps(s.cases, s.phase.send, i, ch);
    }
  }

  lemma {:induction false} RemoveDuringKeeps(s: State, x: Chan, ch: Chan)
    requires SendList(s.cases) && s.phase.Sending? && 1 < s.phase.send.active <= |s.cases| && x in s.pending
    requires Accounted(s, x) && Accounted(s, ch) && Tracked(s.cases, s.phase.send, ch)
    ensures Next(s, RemoveDuring(x)).Running?
    ensures var s' := Next(s, RemoveDuring(x)).state;
            Accounted(s', ch) && s'.phase.send.active <= |s'.cases| && Tracked(s'.cases, s'.phase.send, ch)
  {
    var d, index := s.phase.send, FindCase(s.cases, x);
    RemovalKeeps(s, x, ch);
    RemoveKeepsTracked(s.cases, d, index, x, ch);
    var s1 := s.(cases := DeleteAt(s.cases, index), pending := Drop(s.pending, x));
    assert Accounted(s1, ch);
    assert Next(s, RemoveDuring(x)) == Running(s1.(phase := Sending(AfterRemoval(d, index, x))));
  }

  lemma {:induction false} RemoveDuringInv(s: State, x: Chan)
    requires Inv(s) && s.phase.Sending? && s.phase.send.active > 1 && x in s.pending
    ensures Next(s, RemoveDuring(x)).Running? && Inv(Next(s, RemoveDuring(x)).state)
  {
    assert Accounted(s, x) && Tracked(s.cases, s.phase.send, x);
    RemoveDuringKeeps(s, x, x);
    SendListDelete(s.cases, FindCase(s.cases, x));
    var s' := Next(s, RemoveDuring(x)).state;
    forall ch
      ensures Accounted(s', ch) && Tracked(s'.cases, s'.phase.send, ch)
    {
      assert Accounted(s, ch) && Tracked(s.cases, s.phase.send, ch);
      RemoveDuringKeeps(s, x, ch);
    }
  }

  lemma {:induction false} EndInv(s: State)
    requires Inv(s) && s.phase.Sending? && s.phase.send.active == 1
    ensures Inv(Next(s, EndSend).state)
  {
    forall ch ensures Complete(s.phase.send, ch) {
      EndIsComplete(s.cases, s.phase.send, ch);
    }
    forall ch ensures Accounted(Next(s, EndSend).state, ch) {
      assert Accounted(s, ch);
    }
  }

  // Every step keeps the invariants and no step panics.
  lemma {:induction false} NextKeeps(s: State, e: Event)
    requires Inv(s)
    ensures Next(s, e).Running? && Inv(Next(s, e).state)
  {
    match e
    case Subscribe(x) => SubscribeInv(s, x);
    case Unsubscribe(x) => if x in s.open { UnsubscribeInv(s, x); }
    case RemoveIdle(x) => if s.phase == Quiet && x in s.pending { RemoveIdleInv(s, x); }
    case BeginSend => if s.phase == Quiet { BeginInv(s); }
    case Deliver(i) => if s.phase.Sending? && 1 <= i < s.phase.send.active { DeliverInv(s, i); }
    case RemoveDuring(x) =>
      if s.phase.Sending? && s.phase.send.active > 1 && x in s.pending { RemoveDuringInv(s, x); }
    case EndSend => if s.phase.Sending? && s.phase.send.active == 1 { EndInv(s); }
  }

  // No run of the protocol, however interleaved, panics or loses an invariant.
  lemma {:induction false} RunKeeps(s: State, events: seq<Event>)
    requires Inv(s)
    ensures Run(s, events).Running? && Inv(Run(s, events).state)
    decreases |events|
  {
    if events != [] {
      RunKeeps(s, events[..|events| - 1]);
      NextKeeps(Run(s, events[..|events| - 1]).state, events[|events| - 1]);
    }
  }

  // The event hands the value to the channel.
  predicate Delivers(s: State, e: Event, ch: Chan) {
    && e.Deliver? && s.phase.Sending? && 1 <= e.index < s.phase.send.active <= |s.cases|
    && s.cases[e.index] == Sub(ch)
  }

  // Nobody holds a subscription of the channel, and none is on its way out.
  predicate Gone(s: State, ch: Chan) {
    ch !in s.open && ch !in s.pending
  }

  lemma {:induction false} GoneIsUnlisted(s: State, ch: Chan)
    requires Accounted(s, ch) && Gone(s, ch)
    ensures Sub(ch) !in s.cases && ch !in s.inbox
  {
    OccurrencesIn(s.open, ch);
    OccurrencesIn(s.pending, ch);
    OccurrencesIn(s.inbox, ch);
    OccurrencesIn(s.cases, Sub(ch));
  }

  lemma {:induction false} GoneStays(s: State, e: Event, ch: Chan)
    requires Accounted(s, ch) && Gone(s, ch) && e != Subscribe(ch) && Next(s, e).Running?
    ensures Gone(Next(s, e).state, ch) && !Delivers(s, e, ch)
  {
    GoneIsUnlisted(s, ch);
  }

  // Once every Unsubscribe of a channel is through, no later send delivers to it, until it is
  // subscribed again.
  lemma {:induction false} SilentAfterUnsubscribe(s: State, events: seq<Event>, ch: Chan)
    requires Inv(s) && Gone(s, ch) && Subscribe(ch) !in events
    ensures Run(s, events).Running? && Gone(Run(s, events).state, ch)
    ensures forall k | 0 <= k < |events| ::
              Run(s, events[..k]).Running? && !Delivers(Run(s, events[..k]).state, events[k], ch)
    decreases |events|
  {
    if events != [] {
      var before, e := events[..|events| - 1], events[|events| - 1];
      assert e in events;
      SilentAfterUnsubscribe(s, before, ch);
      SilentStep(s, before, e, ch);
      forall k | 0 <= k < |events|
        ensures Run(s, events[..k]).Running? && !Delivers(Run(s, events[..k]).state, events[k], ch)
      {
        if k < |before| {
          assert events[..k] == before[..k] && events[k] == before[k];
        }
      }
    }
  }

  lemma {:induction false} SilentStep(s: State, before: seq<Event>, e: Event, ch: Chan)
    requires Inv(s) && Run(s, before).Running? && Gone(Run(s, before).state, ch) && e != Subscribe(ch)
    ensures Next(Run(s, before).state, e).Running? && Gone(Next(Run(s, before).state, e).state, ch)
    ensures !Delivers(Run(s, before).state, e, ch)
  {
    RunKeeps(s, before);
    var t := Run(s, before).state;
    assert Accounted(t, ch);
    NextKeeps(t, e);
    GoneStays(t, e, ch);
  }

  /* What the steps are for */

  // How often a channel waits in the inbox, is listed for sending, is subscribed and not cancelled,
  // and is on its way out.
  datatype Books = Books(waiting: nat, listed: nat, open: nat, leaving: nat)

  ghost function BooksOf(s: State, ch: Chan): Books {
    Books(Times(s.inbox, ch), Count(s.cases, ch), Times(s.open, ch), Times(s.pending, ch))
  }

  ghost function One(x: Chan, ch: Chan): nat {
    if x == ch then 1 else 0
  }

  // A subscription is entered once, in the inbox, and touches nothing else.
  lemma {:induction false} SubscribeCounts(s: State, x: Chan, ch: Chan)
    ensures var s', b := Next(s, Subscribe(x)).state, BooksOf(s, ch);
            && BooksOf(s', ch) == b.(waiting := b.waiting + One(x, ch), open := b.open + One(x, ch))
            && s'.phase == s.phase && s'.finished == s.finished
  {
    OccurrencesAppend(s.inbox, x, ch);
    OccurrencesAppend(s.open, x, ch);
  }

  // Cancelling takes one subscription away: out of the inbox if it is there, otherwise onto the way
  // out of the send list. Without a subscription nothing happens.
  lemma {:induction false} UnsubscribeCounts(s: State, x: Chan, ch: Chan)
    ensures x !in s.open ==> Next(s, Unsubscribe(x)) == Running(s)
    ensures x in s.open ==>
              var s', b := Next(s, Unsubscribe(x)).state, BooksOf(s, ch);
              && b.open >= One(x, ch) && (x in s.inbox ==> b.waiting >= One(x, ch))
              && BooksOf(s', ch) == (if x in s.inbox
                                     then b.(waiting := b.waiting - One(x, ch), open := b.open - One(x, ch))
                                     else b.(open := b.open - One(x, ch), leaving := b.leaving + One(x, ch)))
              && s'.cases == s.cases && s'.phase == s.phase && s'.finished == s.finished
  {
    if x in s.open {
      DropTimes(s.open, x, ch);
      if x in s.inbox {
        DropTimes(s.inbox, x, ch);
      } else {
        OccurrencesAppend(s.pending, x, ch);
      }
    }
  }

  // A remover that gets through takes one case off the list and is done; it gets through exactly
  // when nobody sends, or while a send still has active cases.
  predicate GetsThrough(s: State, e: Event) {
    match e
    case RemoveIdle(x) => s.phase == Quiet && x in s.pending
    case RemoveDuring(x) => s.phase.Sending? && s.phase.send.active > 1 && x in s.pending
    case _ => false
  }

  lemma {:induction false} RemoveCounts(s: State, e: Event, ch: Chan)
    requires Inv(s) && (e.RemoveIdle? || e.RemoveDuring?)
    ensures Next(s, e).Running? && (!GetsThrough(s, e) ==> Next(s, e) == Running(s))
    ensures GetsThrough(s, e) ==>
              var s', b := Next(s, e).state, BooksOf(s, ch);
              && b.listed >= One(e.ch, ch) && b.leaving >= One(e.ch, ch)
              && BooksOf(s', ch) == b.(listed := b.listed - One(e.ch, ch), leaving := b.leaving - One(e.ch, ch))
              && s'.inbox == s.inbox && s'.open == s.open && s'.finished == s.finished
              && (s.phase.Sending? ==>
                    && s'.phase.Sending? && s'.phase.send.initial == s.phase.send.initial
                    && s'.phase.send.delivered == s.phase.send.delivered
                    && s'.phase.send.removed == s.phase.send.removed + [e.ch])
              && (s.phase == Quiet ==> s'.phase == Quiet)
  {
    if GetsThrough(s, e) {
      assert Accounted(s, e.ch);
      FindNeverMisses(s, e.ch);
      OccurrencesDelete(s.cases, FindCase(s.cases, e.ch), Sub(ch));
      DropTimes(s.pending, e.ch, ch);
    }
  }

  // The same for all channels at once.
  ghost predicate Entered(s: State, s': State, ch: Chan) {
    forall x :: var b := BooksOf(s, x);
      BooksOf(s', x) == b.(waiting := b.waiting + One(ch, x), open := b.open + One(ch, x))
  }

  ghost predicate Cancelled(s: State, s': State, ch: Chan) {
    forall x :: var b, b' := BooksOf(s, x), BooksOf(s', x);
      && b'.open + One(ch, x) == b.open && b'.listed == b.listed
      && if ch in s.inbox then b'.waiting + One(ch, x) == b.waiting && b'.leaving == b.leaving
         else b'.waiting == b.waiting && b'.leaving == b.leaving + One(ch, x)
  }

  ghost predicate TakenOff(s: State, s': State, ch: Chan) {
    forall x :: var b, b' := BooksOf(s, x), BooksOf(s', x);
      && b'.listed + One(ch, x) == b.listed && b'.leaving + One(ch, x) == b.leaving
      && b'.waiting == b.waiting && b'.open == b.open
  }

  lemma {:induction false} SubscribeEnters(s: State, ch: Chan)
    ensures Entered(s, Next(s, Subscribe(ch)).state, ch)
  {
    forall x ensures var b := BooksOf(s, x);
                     BooksOf(Next(s, Subscribe(ch)).state, x) ==
                     b.(waiting := b.waiting + One(ch, x), open := b.open + One(ch, x))
    {
      SubscribeCounts(s, ch, x);
    }
  }

  lemma {:induction false} UnsubscribeCancels(s: State, ch: Chan)
    requires ch in s.open
    ensures Cancelled(s, Next(s, Unsubscribe(ch)).state, ch)
  {
    forall x {
      UnsubscribeCounts(s, ch, x);
    }
  }

  lemma {:induction false} RemoveTakesOff(s: State, e: Event)
    requires Inv(s) && GetsThrough(s, e)
    ensures Next(s, e).Running? && TakenOff(s, Next(s, e).state, e.ch)
  {
    NextKeeps(s, e);
    forall x {
      RemoveCounts(s, e, x);
    }
  }

  // A send starts with all that is listed or waiting, delivered to nobody, all of it active.
  lemma {:induction false} BeginCounts(s: State, ch: Chan)
    requires s.phase == Quiet
    ensures var s', b := Next(s, BeginSend).state, BooksOf(s, ch);
            && BooksOf(s', ch) == b.(waiting := 0, listed := b.listed + b.waiting)
            && s'.phase.Sending? && s'.phase.send == Send(s'.cases, |s'.cases|, [], [], [])
            && s'.open == s.open && s'.pending == s.pending && s'.finished == s.finished
  {
    CountCases(s.inbox, ch);
    OccurrencesConcat(s.cases, Cases(s.inbox), Sub(ch));
  }

  // A delivery hands the value to the channel of the case, once, and makes one case inactive.
  lemma {:induction false} DeliverCounts(s: State, i: nat, ch: Chan)
    requires Inv(s) && s.phase.Sending? && 1 <= i < s.phase.send.active
    ensures var s' := Next(s, Deliver(i)).state;
            && Next(s, Deliver(i)).Running? && BooksOf(s', ch) == BooksOf(s, ch) && s'.phase.Sending?
            && s'.phase.send == s.phase.send.(active := s.phase.send.active - 1,
                                              delivered := s.phase.send.delivered + [s.cases[i].ch])
            && s'.inbox == s.inbox && s'.open == s.open && s'.pending == s.pending && s'.finished == s.finished
  {
    CountSwapOut(s.cases, i, s.phase.send.active, ch);
  }

  // A send ends exactly when only the removal slot is active, keeps its record, and changes nothing
  // else; while one is under way no other begins.
  lemma {:induction false} EndCounts(s: State)
    ensures s.phase.Sending? && s.phase.send.active == 1 ==>
              Next(s, EndSend) == Running(s.(phase := Quiet, finished := s.finished + [s.phase.send]))
    ensures s.phase == Quiet || s.phase.send.active != 1 ==> Next(s, EndSend) == Running(s)
    ensures s.phase.Sending? ==> Next(s, BeginSend) == Running(s)
  {
  }

  // How many of the events cancel a subscription of the channel that is there to cancel.
  ghost function Cancellations(s: State, events: seq<Event>, ch: Chan): nat
    decreases |events|
  {
    if events == [] then 0
    else
      var before, e := events[..|events| - 1], events[|events| - 1];
      var r := Run(s, before);
      Cancellations(s, before, ch) + if e == Unsubscribe(ch) && r.Running? && ch in r.state.open then 1 else 0
  }

  // In every run the subscriptions of a channel are those it started with and those made, less those
  // cancelled.
  lemma {:induction false} SubscriptionsBalance(s: State, events: seq<Event>, ch: Chan)
    requires Inv(s)
    ensures Run(s, events).Running?
    ensures Times(Run(s, events).state.open, ch) + Cancellations(s, events, ch) ==
            Times(s.open, ch) + Occurrences(events, Subscribe(ch))
    decreases |events|
  {
    RunKeeps(s, events);
    if events != [] {
      var before, e := events[..|events| - 1], events[|events| - 1];
      SubscriptionsBalance(s, before, ch);
      RunKeeps(s, before);
      OpenAfter(Run(s, before).state, e, ch);
    }
  }

  lemma {:induction false} OpenAfter(s: State, e: Event, ch: Chan)
    requires Inv(s)
    ensures Next(s, e).Running?
    ensures Times(Next(s, e).state.open, ch) + (if e == Unsubscribe(ch) && ch in s.open then 1 else 0) ==
            Times(s.open, ch) + if e == Subscribe(ch) then 1 else 0
  {
    NextKeeps(s, e);
    match e
    case Subscribe(x) => SubscribeCounts(s, x, ch);
    case Unsubscribe(x) => UnsubscribeCounts(s, x, ch);
    case RemoveIdle(_) =>
    case BeginSend =>
    case Deliver(_) =>
    case RemoveDuring(_) =>
    case EndSend =>
  }

  // Cancelling the only subscription of a channel and letting the remover through, if it has to wait,
  // leaves the channel gone, whether a send is under way or not.
  lemma {:induction false} UnsubscribeEnds(s: State, ch: Chan, e: Event)
    requires Inv(s) && Times(s.open, ch) == 1 && ch !in s.pending
    requires if s.phase == Quiet then e == RemoveIdle(ch) else e == RemoveDuring(ch) && s.phase.send.active > 1
    ensures var s' := Next(s, Unsubscribe(ch)).state;
            Next(s', e).Running? && Gone(Next(s', e).state, ch)
  {
    OccurrencesIn(s.open, ch);
    OccurrencesIn(s.pending, ch);
    UnsubscribeCounts(s, ch, ch);
    NextKeeps(s, Unsubscribe(ch));
    var s1 := Next(s, Unsubscribe(ch)).state;
    OccurrencesIn(s1.open, ch);
    OccurrencesIn(s1.pending, ch);
    RemoveCounts(s1, e, ch);
    var s2 := Next(s1, e).state;
    OccurrencesIn(s2.open, ch);
    OccurrencesIn(s2.pending, ch);
  }

  // The events of a send between its begin and its end, in which nobody cancels the channel.
  ghost predicate Undisturbed(trace: seq<Event>, ch: Chan) {
    forall e :: e in trace ==> e != BeginSend && e != EndSend && e != Unsubscribe(ch)
  }

  lemma {:induction false} StaysListed(s: State, trace: seq<Event>, ch: Chan)
    requires Inv(s) && s.phase.Sending? && Times(s.pending, ch) == 0 && Times(s.phase.send.removed, ch) == 0
    requires Undisturbed(trace, ch)
    ensures Run(s, trace).Running?
    ensures var t := Run(s, trace).state;
            && t.phase.Sending? && t.phase.send.initial == s.phase.send.initial
            && Times(t.pending, ch) == 0 && Times(t.phase.send.removed, ch) == 0
    decreases |trace|
  {
    if trace != [] {
      var before, e := trace[..|trace| - 1], trace[|trace| - 1];
      assert e in trace && forall x :: x in before ==> x in trace;
      StaysListed(s, before, ch);
      RunKeeps(s, before);
      StaysListedStep(Run(s, before).state, e, ch);
    }
  }

  lemma {:induction false} StaysListedStep(s: State, e: Event, ch: Chan)
    requires Inv(s) && s.phase.Sending? && Times(s.pending, ch) == 0 && Times(s.phase.send.removed, ch) == 0
    requires e != BeginSend && e != EndSend && e != Unsubscribe(ch)
    ensures Next(s, e).Running?
    ensures var t := Next(s, e).state;
            && t.phase.Sending? && t.phase.send.initial == s.phase.send.initial
            && Times(t.pending, ch) == 0 && Times(t.phase.send.removed, ch) == 0
  {
    NextKeeps(s, e);
    OccurrencesIn(s.pending, ch);
    match e
    case Subscribe(x) => SubscribeCounts(s, x, ch);
    case Unsubscribe(x) => UnsubscribeCounts(s, x, ch);
    case RemoveIdle(x) => RemoveCounts(s, e, ch);
    case RemoveDuring(x) =>
      RemoveCounts(s, e, ch);
      OccurrencesAppend(s.phase.send.removed, x, ch);
    case Deliver(i) => if 1 <= i < s.phase.send.active { DeliverCounts(s, i, ch); }
  }

  // A send delivers to a channel exactly once for each subscription it had when the send began, if
  // none of them was on its way out then and none is cancelled meanwhile; subscriptions made meanwhile
  // get nothing of it.
  lemma {:induction false} DeliveredOnceEach(s: State, trace: seq<Event>, ch: Chan)
    requires Inv(s) && s.phase == Quiet && Times(s.pending, ch) == 0 && Undisturbed(trace, ch)
    ensures Run(Next(s, BeginSend).state, trace).Running?
    ensures var t := Run(Next(s, BeginSend).state, trace).state;
            t.phase.Sending? && (t.phase.send.active == 1 ==> Times(t.phase.send.delivered, ch) == Times(s.open, ch))
  {
    assert Accounted(s, ch);
    BeginInv(s);
    BeginCounts(s, ch);
    var s1 := Next(s, BeginSend).state;
    StaysListed(s1, trace, ch);
    RunKeeps(s1, trace);
    var t := Run(s1, trace).state;
    if t.phase.send.active == 1 {
      assert Tracked(t.cases, t.phase.send, ch);
      EndIsComplete(t.cases, t.phase.send, ch);
    }
  }

  // Every delivery and every removal during a send shrinks the send list and the active prefix
  // together.
  ghost function Size(s: State): nat
    requires s.phase.Sending?
  {
    |s.cases| + s.phase.send.active
  }

  lemma {:induction false} SelectRoundShrinks(s: State, e: Event)
    requires Inv(s) && s.phase.Sending? && (e.Deliver? || e.RemoveDuring?) && Next(s, e) != Running(s)
    ensures Next(s, e).Running? && Next(s, e).state.phase.Sending? && Size(Next(s, e).state) < Size(s)
  {
    NextKeeps(s, e);
  }
}
