/** The event feed itself: one case list in an array, updated in place by subscribing, removing
    and sending. Every method is shown to be a run of the protocol. */
module Feeds {
  import opened CaseLists
  import opened FeedProtocol

  lemma {:induction false} RunOneMore(s: State, trace: seq<Event>, t: State, e: Event)
    requires Run(s, trace) == Running(t)
    ensures Run(s, trace + [e]) == Next(t, e)
  {
    assert (trace + [e])[..|trace|] == trace;
  }

  // What other goroutines change while a send is under way: new subscriptions, removers that wait
  // for the send, and the subscriptions nobody has cancelled yet.
  datatype Others = Others(inbox: seq<Chan>, removers: seq<Chan>, open: seq<Chan>)

  // The variables of a send that is under way, as a protocol state.
  ghost predicate Shows(t: State, a: array<Case>, len: nat, active: nat, nsent: nat, o: Others)
    reads a
  {
    && len <= a.Length && t.cases == a[..len] && Others(t.inbox, t.pending, t.open) == o
    && t.phase.Sending? && t.phase.send.active == active && |t.phase.send.delivered| == nsent
    && Inv(t)
  }

  // A step of another goroutine that does not need the send lock.
  predicate Outside(e: Event) {
    e.Subscribe? || e.Unsubscribe?
  }

  // What a stretch of the send loop may see: deliveries, removals, and steps from outside.
  ghost predicate Stretch(s: State, trace: seq<Event>, t: State) {
    && Run(s, trace) == Running(t)
    && forall e :: e in trace ==> e.Deliver? || e.RemoveDuring? || Outside(e)
  }

  lemma {:induction false} StretchConcat(s: State, x: seq<Event>, t: State, y: seq<Event>, u: State)
    requires Stretch(s, x, t) && Stretch(t, y, u)
    ensures Stretch(s, x + y, u)
    decreases |y|
  {
    if y == [] {
      assert x + y == x;
    } else {
      var before := y[..|y| - 1];
      assert (x + y)[..|x + y| - 1] == x + before;
      StretchConcat(s, x, t, before, Run(t, before).state);
    }
  }

  // The stretch leaves alone what belongs to other sends, and without steps from outside the
  // subscriptions as well.
  lemma {:induction false} StretchKeeps(s: State, trace: seq<Event>, t: State)
    requires Stretch(s, trace, t) && s.phase.Sending?
    ensures t.finished == s.finished && t.phase.Sending? && t.phase.send.initial == s.phase.send.initial
    ensures (forall e :: e in trace ==> !Outside(e)) ==> t.inbox == s.inbox && t.open == s.open
    decreases |trace|
  {
    if trace != [] {
      var before := trace[..|trace| - 1];
      StretchKeeps(s, before, Run(s, before).state);
      assert trace[|trace| - 1] in trace;
    }
  }

  // What is left of the list are the cases it started with, less those removed.
  ghost predicate Survivors(cases: seq<Case>, d: Send) {
    forall ch :: Count(cases, ch) + Times(d.removed, ch) == Count(d.initial, ch)
  }

  lemma {:induction false} EndSurvivors(u: State)
    requires Inv(u) && u.phase.Sending?
    ensures Survivors(u.cases, u.phase.send)
  {
    forall ch ensures Count(u.cases, ch) + Times(u.phase.send.removed, ch) == Count(u.phase.send.initial, ch) {
      assert Tracked(u.cases, u.phase.send, ch);
    }
  }

  lemma {:induction false} ServedOnceEach(s: State, trace: seq<Event>, u: State)
    requires Inv(s) && s.phase == Quiet && Stretch(Next(s, BeginSend).state, trace, u)
    requires u.phase.Sending? && u.phase.send.active == 1
    ensures forall ch :: ch !in s.pending && Event.Unsubscribe(ch) !in trace ==>
              Times(u.phase.send.delivered, ch) == Times(s.open, ch)
  {
    forall ch | ch !in s.pending && Event.Unsubscribe(ch) !in trace
      ensures Times(u.phase.send.delivered, ch) == Times(s.open, ch)
    {
      OccurrencesIn(s.pending, ch);
      DeliveredOnceEach(s, trace, ch);
    }
  }

  lemma {:induction false} Bracket(s: State, t: State, trace: seq<Event>, u: State)
    requires Next(s, BeginSend) == Running(t) && Stretch(t, trace, u)
    ensures Run(s, [BeginSend] + trace + [EndSend]) == Next(u, EndSend)
  {
    BracketOpen(s, t, trace);
    RunOneMore(s, [BeginSend] + trace, u, EndSend);
  }

  lemma {:induction false} BracketOpen(s: State, t: State, trace: seq<Event>)
    requires Next(s, BeginSend) == Running(t)
    ensures Run(s, [BeginSend] + trace) == Run(t, trace)
    decreases |trace|
  {
    if trace == [] {
      assert [BeginSend] + trace == [] + [BeginSend];
      RunOneMore(s, [], s, BeginSend);
    } else {
      var before := trace[..|trace| - 1];
      assert ([BeginSend] + trace)[..|trace|] == [BeginSend] + before;
      BracketOpen(s, t, before);
    }
  }

  // A send that got through to the active case at the index.
  method Sent(a: array<Case>, len: nat, active: nat, nsent: nat, index: nat, ghost o: Others, ghost t: State)
    returns (active': nat, nsent': nat, ghost t': State)
    requires Shows(t, a, len, active, nsent, o) && 1 <= index < active
    modifies a
    ensures active' == active - 1 && nsent' == nsent + 1
    ensures Shows(t', a, len, active', nsent', o) && Stretch(t, [Deliver(index)], t')
  {
    active' := Deactivate(a, len, active, index);
    nsent' := nsent + 1;
    t' := Next(t, Deliver(index)).state;
    NextKeeps(t, Deliver(index));
    RunOneMore(t, [], t, Deliver(index));
    assert [] + [Deliver(index)] == [Deliver(index)];
  }

  // The fast path: one pass over the active cases, sending wherever that does not block. Which
  // channels have room is up to the receivers.
  method TrySends(a: array<Case>, len: nat, active: nat, nsent: nat, ghost o: Others, ghost s: State)
    returns (active': nat, nsent': nat, ghost t: State, ghost trace: seq<Event>)
    requires Shows(s, a, len, active, nsent, o)
    modifies a
    ensures active' <= active
    ensures Shows(t, a, len, active', nsent', o) && Stretch(s, trace, t)
  {
    active', nsent', t, trace := active, nsent, s, [];
    var i: nat := 1;
    while i < active'
      invariant 1 <= i && active' <= active
      invariant Shows(t, a, len, active', nsent', o) && Stretch(s, trace, t)
      decreases active' - i
    {
      var room: bool := *;
      if room {
        ghost var t0 := t;
        active', nsent', t := Sent(a, len, active', nsent', i, o, t);
        StretchConcat(s, trace, t0, [Deliver(i)], t);
        trace := trace + [Deliver(i)];
      } else {
        i := i + 1;
      }
    }
  }

  // A removal that interrupts the send.
  method Removed(a: array<Case>, len: nat, active: nat, ghost nsent: nat, o: Others, k: nat, ghost t: State)
    returns (len': nat, active': nat, o': Others, ghost t': State)
    requires Shows(t, a, len, active, nsent, o) && 1 < active && k < |o.removers|
    modifies a
    ensures len' < len && active' <= active
    ensures Shows(t', a, len', active', nsent, o') && Stretch(t, [RemoveDuring(o.removers[k])], t')
  {
    var ch := o.removers[k];
    assert Accounted(t, ch);
    FindNeverMisses(t, ch);
    var index := Find(a, len, ch);
    t' := Next(t, RemoveDuring(ch)).state;
    NextKeeps(t, RemoveDuring(ch));
    RunOneMore(t, [], t, RemoveDuring(ch));
    assert [] + [RemoveDuring(ch)] == [RemoveDuring(ch)];
    len' := Delete(a, len, index);
    active' := if index < active then active - 1 else active;
    o' := o.(removers := Drop(o.removers, ch));
  }

  // Waits until some receiver takes the value or some remover gets through.
  method Select(a: array<Case>, len: nat, active: nat, nsent: nat, o: Others, ghost t: State)
    returns (len': nat, active': nat, nsent': nat, o': Others, ghost t': State, ghost trace: seq<Event>)
    requires Shows(t, a, len, active, nsent, o) && 1 < active
    modifies a
    ensures len' <= len && active' <= active && len' + active' < len + active
    ensures Shows(t', a, len', active', nsent', o') && Stretch(t, trace, t')
  {
    var chosen: nat :| chosen < active && (chosen == 0 ==> o.removers != []);
    len', active', nsent', o' := len, active, nsent, o;
    if chosen == 0 {
      var k: nat :| k < |o.removers|;
      len', active', o', t' := Removed(a, len, active, nsent, o, k, t);
      trace := [RemoveDuring(o.removers[k])];
    } else {
      active', nsent', t' := Sent(a, len, active, nsent, chosen, o, t);
      trace := [Deliver(chosen)];
    }
  }

  // Subscribing, or the half of unsubscribing that needs no send lock.
  function Stepped(o: Others, e: Event): Others
    requires Outside(e)
  {
    if e.Subscribe? then o.(inbox := o.inbox + [e.ch], open := o.open + [e.ch])
    else if e.ch !in o.open then o
    else if e.ch in o.inbox then o.(inbox := Drop(o.inbox, e.ch), open := Drop(o.open, e.ch))
    else o.(open := Drop(o.open, e.ch), removers := o.removers + [e.ch])
  }

  lemma {:induction false} SteppedOutside(t: State, e: Event)
    requires Inv(t) && Outside(e)
    ensures Next(t, e).Running? && Inv(Next(t, e).state)
    ensures var t' := Next(t, e).state;
            && t'.cases == t.cases && t'.phase == t.phase
            && Others(t'.inbox, t'.pending, t'.open) == Stepped(Others(t.inbox, t.pending, t.open), e)
  {
    NextKeeps(t, e);
  }

  // Whatever the other goroutines do in the meantime.
  method Interleave(a: array<Case>, ghost len: nat, ghost active: nat, ghost nsent: nat, o: Others, ghost s: State)
    returns (o': Others, ghost t: State, ghost trace: seq<Event>)
    requires Shows(s, a, len, active, nsent, o)
    ensures Shows(t, a, len, active, nsent, o') && Stretch(s, trace, t)
  {
    o', t, trace := o, s, [];
    var steps: seq<Event> := *;
    for i := 0 to |steps|
      invariant Shows(t, a, len, active, nsent, o') && Stretch(s, trace, t)
    {
      if Outside(steps[i]) {
        SteppedOutside(t, steps[i]);
        RunOneMore(s, trace, t, steps[i]);
        t, trace := Next(t, steps[i]).state, trace + [steps[i]];
        o' := Stepped(o', steps[i]);
      }
    }
  }

  // One round of the loop that does not end it: other goroutines, one wait, one fast pass.
  method Round(a: array<Case>, len: nat, active: nat, nsent: nat, o: Others, ghost s: State)
    returns (len': nat, active': nat, nsent': nat, o': Others, ghost t: State, ghost trace: seq<Event>)
    requires Shows(s, a, len, active, nsent, o) && 1 < active
    modifies a
    ensures len' <= len && active' <= active && len' + active' < len + active
    ensures Shows(t, a, len', active', nsent', o') && Stretch(s, trace, t)
  {
    ghost var t1, more;
    o', t1, trace := Interleave(a, len, active, nsent, o, s);
    len', active', nsent', o', t, more := Select(a, len, active, nsent, o', t1);
    StretchConcat(s, trace, t1, more, t);
    trace, t1 := trace + more, t;
    active', nsent', t, more := TrySends(a, len', active', nsent', o', t);
    StretchConcat(s, trace, t1, more, t);
    trace := trace + more;
  }

  // The send loop: it ends, with every case of the list served.
  method SendAll(a: array<Case>, len: nat, o: Others, ghost s: State)
    returns (len': nat, nsent: nat, o': Others, ghost t: State, ghost trace: seq<Event>)
    requires 1 <= len && Shows(s, a, len, len, 0, o)
    modifies a
    ensures len' <= len
    ensures Shows(t, a, len', 1, nsent, o') && Stretch(s, trace, t)
  {
    var active := len;
    len', o' := len, o;
    active, nsent, t, trace := TrySends(a, len, active, 0, o, s);
    while active != 1
      invariant 1 <= active <= len' <= len
      invariant Shows(t, a, len', active, nsent, o') && Stretch(s, trace, t)
      decreases len' + active
    {
      ghost var t0, more := t, [];
      len', active, nsent, o', t, more := Round(a, len', active, nsent, o', t);
      StretchConcat(s, trace, t0, more, t);
      trace := trace + more;
    }
  }

  // Appends to a slice, in place when its array has room and in a new array otherwise.
  method Append(a: array<Case>, len: nat, chs: seq<Chan>) returns (b: array<Case>)
    requires len <= a.Length
    modifies a
    ensures b == a || fresh(b)
    ensures len + |chs| <= b.Length && b[..len + |chs|] == old(a[..len]) + Cases(chs)
  {
    b := a;
    if len + |chs| > a.Length {
      b := new Case[len + |chs|](i => RemoveSub);
      forall i | 0 <= i < len {
        b[i] := a[i];
      }
    }
    var news := Cases(chs);
    forall i | 0 <= i < |chs| {
      b[len + i] := news[i];
    }
  }

  class Feed {
    var sendCases: array<Case>
    var len: nat
    var inbox: seq<Chan>
    var removers: seq<Chan>
    var open: seq<Chan>
    ghost var finished: seq<Send>

    ghost function Abs(): State
      requires len <= sendCases.Length
      reads this, sendCases
    {
      State(inbox, sendCases[..len], Quiet, open, removers, finished)
    }

    ghost predicate Valid()
      reads this, sendCases
    {
      len <= sendCases.Length && Inv(Abs())
    }

    constructor ()
      ensures Valid() && fresh(sendCases)
      ensures inbox == [] && removers == [] && open == [] && finished == [] && sendCases[..len] == [RemoveSub]
    {
      sendCases := new Case[1](i => RemoveSub);
      len, inbox, removers, open, finished := 1, [], [], [], [];
      new;
      assert sendCases[..len] == [RemoveSub];
      forall ch ensures Accounted(Abs(), ch) {
        assert [RemoveSub][..0] == [];
      }
    }

    method Subscribe(ch: Chan)
      requires Valid()
      modifies this
      ensures Valid() && sendCases == old(sendCases)
      ensures Run(old(Abs()), [Event.Subscribe(ch)]) == Running(Abs())
      ensures Entered(old(Abs()), Abs(), ch)
    {
      SubscribeEnters(Abs(), ch);
      SubscribeInv(Abs(), ch);
      RunOneMore(Abs(), [], Abs(), Event.Subscribe(ch));
      assert [] + [Event.Subscribe(ch)] == [Event.Subscribe(ch)];
      inbox := inbox + [ch];
      open := open + [ch];
    }

    // The first half of removing a subscription: past this the subscription is either gone or
    // waiting on the send list.
    method Unsubscribe(ch: Chan) returns (waiting: bool)
      requires Valid()
      requires ch in open
      modifies this
      ensures Valid() && sendCases == old(sendCases)
      ensures Run(old(Abs()), [Event.Unsubscribe(ch)]) == Running(Abs())
      ensures waiting <==> ch !in old(inbox)
      ensures Cancelled(old(Abs()), Abs(), ch)
    {
      UnsubscribeCancels(Abs(), ch);
      UnsubscribeInv(Abs(), ch);
      RunOneMore(Abs(), [], Abs(), Event.Unsubscribe(ch));
      assert [] + [Event.Unsubscribe(ch)] == [Event.Unsubscribe(ch)];
      waiting := ch !in inbox;
      if waiting {
        removers := removers + [ch];
      } else {
        inbox := Drop(inbox, ch);
      }
      open := Drop(open, ch);
    }

    // The second half, when the remover gets the send lock.
    method RemoveIdle(ch: Chan)
      requires Valid() && ch in removers
      modifies this, sendCases
      ensures Valid() && sendCases == old(sendCases)
      ensures Run(old(Abs()), [Event.RemoveIdle(ch)]) == Running(Abs())
      ensures TakenOff(old(Abs()), Abs(), ch)
    {
      RemoveTakesOff(Abs(), Event.RemoveIdle(ch));
      RemoveIdleInv(Abs(), ch);
      RunOneMore(Abs(), [], Abs(), Event.RemoveIdle(ch));
      assert [] + [Event.RemoveIdle(ch)] == [Event.RemoveIdle(ch)];
      var index := Find(sendCases, len, ch);
      len := Delete(sendCases, len, index);
      removers := Drop(removers, ch);
    }

    // Sends one value: a run of the protocol from taking the lock to handing it back, with whatever
    // other goroutines do meanwhile.
    method Send() returns (nsent: nat, ghost trace: seq<Event>)
      requires Valid()
      modifies this, sendCases
      ensures Valid() && (sendCases == old(sendCases) || fresh(sendCases))
      ensures Run(old(Abs()), [BeginSend] + trace + [EndSend]) == Running(Abs())
      ensures forall e :: e in trace ==> e.Deliver? || e.RemoveDuring? || Outside(e)
      ensures (forall e :: e in trace ==> !Outside(e)) ==> inbox == [] && open == old(open)
      ensures |finished| == old(|finished|) + 1 && finished[..old(|finished|)] == old(finished)
      ensures var d := finished[old(|finished|)];
              && d.initial == old(sendCases[..len] + Cases(inbox))
              && nsent == |d.delivered|
              && (forall ch :: Complete(d, ch))
              && (forall ch :: ch !in old(removers) && Event.Unsubscribe(ch) !in trace ==>
                    Times(d.delivered, ch) == Times(old(open), ch))
              && Survivors(sendCases[..len], d)
    {
      ghost var s := Abs();
      var a := Append(sendCases, len, inbox);
      var n := len + |inbox|;
      ghost var t := Next(s, BeginSend).state;
      BeginInv(s);
      var n', o;
      ghost var u;
      n', nsent, o, u, trace := SendAll(a, n, Others([], removers, open), t);
      EndInv(u);
      EndSurvivors(u);
      Bracket(s, t, trace, u);
      StretchKeeps(t, trace, u);
      ServedOnceEach(s, trace, u);
      sendCases, len, inbox, removers, open, finished :=
        a, n', o.inbox, o.removers, o.open, finished + [u.phase.send];
    }
  }
}
