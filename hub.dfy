/** Optional values: an event slot that has not been filled holds None. */
module Wrappers {
  datatype Option<+T> = None | Some(value: T)
}

/**
 A sequential model of the per-build event hub: an append-only log of event
 slots plus a closed flag. Every slot but the last has been filled and
 signalled; the last slot is the open one that subscribers wait on, and it is
 signalled, without an event, when the hub is closed.
 */
module EventHub {
  import opened Wrappers

  /** One eventOccurrence: its event once filled, and whether its `occurred`
      channel has been closed. */
  datatype Slot<E> = Slot(ev: Option<E>, signalled: bool)

  /** The point at which a subscriber's `stop` channel wins a select: never, in
      the wait on slot `at`, or in the send of slot `at`'s event. */
  datatype Stop = Never | WhileWaiting(at: nat) | WhileSending(at: nat)

  /** How a subscription loop ends: `dest` closed, returned on `stop` (dest left
      open), or blocked waiting on unsignalled slot `at`. */
  datatype Ending = DestClosed | Stopped | Blocked(at: nat)

  /** What a subscription delivers to `dest`, and how it ends. */
  datatype Delivery<E> = Delivery(sent: seq<E>, ending: Ending)

  predicate FiresAt(stop: Stop, i: nat)
  {
    !stop.Never? && stop.at == i
  }

  /** Every slot but the last is signalled and holds an event. */
  predicate Filled<E>(log: seq<Slot<E>>)
  {
    |log| >= 1 &&
    forall i :: 0 <= i < |log| - 1 ==> log[i].signalled && log[i].ev.Some?
  }

  /** The hub invariant: the last slot holds no event and is signalled exactly
      when the hub is closed. */
  predicate WellFormed<E>(log: seq<Slot<E>>, closed: bool)
  {
    Filled(log) &&
    log[|log| - 1].ev.None? &&
    (log[|log| - 1].signalled <==> closed)
  }

  /** The events emitted so far, in order. */
  function Emitted<E>(log: seq<Slot<E>>): (r: seq<E>)
    requires Filled(log)
    ensures |r| == |log| - 1
    ensures forall i :: 0 <= i < |r| ==> log[i].ev == Some(r[i])
  {
    seq(|log| - 1, i requires 0 <= i < |log| - 1 => log[i].ev.value)
  }

  /** The value a subscriber sends for a slot: the slot's `event` field, which
      is the zero Event when the slot was never filled. */
  function Payload<E>(s: Slot<E>, zero: E): (r: E)
    ensures s.ev == Some(r) || (s.ev == None && r == zero)
  {
    match s.ev
    case Some(e) => e
    case None => zero
  }

  /** The log of a fresh hub. */
  function NewLog<E>(): (r: seq<Slot<E>>)
    ensures WellFormed(r, false) && Emitted(r) == []
  {
    [Slot(None, false)]
  }

  /** The log after EmitEvent on an open hub: one slot longer, earlier slots
      unchanged, the former open slot filled with `e` and signalled, and a
      fresh open slot at the end. On a well-formed open log it keeps the
      invariant and appends `e` to the emitted events. */
  function EmitSlots<E>(log: seq<Slot<E>>, e: E): (r: seq<Slot<E>>)
    requires |log| >= 1
    ensures |r| == |log| + 1
    ensures r[..|log| - 1] == log[..|log| - 1]
    ensures r[|log| - 1] == Slot(Some(e), true) && r[|log|] == Slot(None, false)
    ensures WellFormed(log, false) ==>
      WellFormed(r, false) && Emitted(r) == Emitted(log) + [e]
  {
    log[..|log| - 1] + [Slot(Some(e), true), Slot(None, false)]
  }

  /** The log after Close on an open hub: same length, earlier slots
      unchanged, and the last slot signalled without being given an event.
      On a well-formed open log it gives a well-formed closed log with the
      same emitted events. */
  function CloseSlots<E>(log: seq<Slot<E>>): (r: seq<Slot<E>>)
    requires |log| >= 1
    ensures |r| == |log|
    ensures r[..|log| - 1] == log[..|log| - 1]
    ensures r[|log| - 1] == Slot(log[|log| - 1].ev, true)
    ensures WellFormed(log, false) ==>
      WellFormed(r, true) && r[|log| - 1] == Slot(None, true) && Emitted(r) == Emitted(log)
  {
    log[..|log| - 1] + [log[|log| - 1].(signalled := true)]
  }

  /** The log after emitting `es` in order into an open hub: one slot more
      per event, and on a well-formed open log still well-formed and open,
      with exactly `es` appended to the emitted events. */
  function EmitAll<E>(log: seq<Slot<E>>, es: seq<E>): (r: seq<Slot<E>>)
    requires |log| >= 1
    ensures |r| == |log| + |es|
    ensures WellFormed(log, false) ==>
      WellFormed(r, false) && Emitted(r) == Emitted(log) + es
    decreases |es|
  {
    if es == [] then log
    else
      var r := EmitAll(EmitSlots(log, es[0]), es[1..]);
      assert [es[0]] + es[1..] == es;
      r
  }

  /**
   What Subscribe(from, dest, stop) does on the log `log`, from index `i` on:
   past the end it closes `dest`; otherwise it waits on slot i (giving up on
   stop, blocking on an unsignalled slot), then sends slot i's value whether
   or not the slot holds an event, then moves to i + 1. From an offset at or
   past the end it closes `dest` at once and sends nothing.
   */
  function Feed<E>(log: seq<Slot<E>>, i: nat, stop: Stop, zero: E): (d: Delivery<E>)
    ensures |log| <= i ==> d == Delivery([], DestClosed)
    decreases |log| - i
  {
    if |log| <= i then Delivery([], DestClosed)
    else if stop == WhileWaiting(i) then Delivery([], Stopped)
    else if !log[i].signalled then Delivery([], Blocked(i))
    else if stop == WhileSending(i) then Delivery([], Stopped)
    else
      var rest := Feed(log, i + 1, stop, zero);
      Delivery([Payload(log[i], zero)] + rest.sent, rest.ending)
  }

  /** A subscription from index i sends the values of consecutive signalled
      slots i, i+1, ..., each once and in index order, at none of which stop
      fires; and it ends exactly where the loop leaves: past the end of the log
      (dest closed), at the slot where stop fires, or at the first unsignalled
      slot. */
  lemma {:induction false} FeedShape<E>(log: seq<Slot<E>>, i: nat, stop: Stop, zero: E)
    ensures var d := Feed(log, i, stop, zero);
      (i + |d.sent| <= |log| || d.sent == []) &&
      (d.ending == DestClosed <==> i + |d.sent| >= |log|) &&
      (forall j :: i <= j < i + |d.sent| ==>
         log[j].signalled && !FiresAt(stop, j) && d.sent[j - i] == Payload(log[j], zero)) &&
      (d.ending == Stopped ==> i + |d.sent| < |log| && FiresAt(stop, i + |d.sent|)) &&
      (d.ending.Blocked? ==> d.ending.at == i + |d.sent| < |log| && !log[d.ending.at].signalled)
    decreases |log| - i
  {
    if i < |log| && !FiresAt(stop, i) && log[i].signalled {
      FeedShape(log, i + 1, stop, zero);
    }
  }

  /** The values sent for a run of slots. */
  function Payloads<E>(s: seq<Slot<E>>, zero: E): (r: seq<E>)
    ensures |r| == |s|
    ensures forall j :: 0 <= j < |s| ==> r[j] == Payload(s[j], zero)
  {
    seq(|s|, j requires 0 <= j < |s| => Payload(s[j], zero))
  }

  class Hub<E> {
    var events: seq<Slot<E>>
    var closed: bool
    /** The zero value of the Event type, left in every slot not yet filled. */
    const zero: E

    ghost predicate Valid()
      reads this
    {
      WellFormed(events, closed)
    }

    /** NewHub: one open slot, not closed. */
    constructor (zero: E)
      ensures Valid()
      ensures events == NewLog() && !closed && this.zero == zero
    {
      this.zero := zero;
      events := NewLog();
      closed := false;
    }

    /** Fills the open slot with `e`, appends a fresh open slot and signals the
        filled one; does nothing once the hub is closed. */
    method EmitEvent(e: E)
      requires Valid()
      modifies this
      ensures Valid()
      ensures closed == old(closed)
      ensures old(closed) ==> events == old(events)
      ensures !old(closed) ==> events == EmitSlots(old(events), e)
      ensures !old(closed) ==> Emitted(events) == Emitted(old(events)) + [e]
    {
      if closed {
        return;
      }
      var last := |events| - 1;
      events := events[last := events[last].(ev := Some(e))];
      events := events + [Slot(None, false)];
      events := events[last := events[last].(signalled := true)];
    }

    /** Marks the hub closed and signals the open slot without an event; a
        second Close does nothing. */
    method Close()
      requires Valid()
      modifies this
      ensures Valid()
      ensures closed
      ensures old(closed) ==> events == old(events)
      ensures !old(closed) ==> events == CloseSlots(old(events))
      ensures Emitted(events) == Emitted(old(events))
    {
      if closed {
        return;
      }
      closed := true;
      var last := |events| - 1;
      events := events[last := events[last].(signalled := true)];
    }

    /** Walks a snapshot of the log from index `from`, sending each slot's
        value to `dest` (`sent`), until the index passes the end (dest closed),
        `stop` fires, or an unsignalled slot is reached. */
    method Subscribe(from: nat, stop: Stop) returns (sent: seq<E>, ending: Ending)
      ensures Delivery(sent, ending) == Feed(events, from, stop, zero)
    {
      var log := events;
      sent := [];
      var i := from;
      ghost var whole := Feed(log, from, stop, zero);
      while true
        invariant from <= i
        invariant whole.sent == sent + Feed(log, i, stop, zero).sent
        invariant whole.ending == Feed(log, i, stop, zero).ending
        decreases |log| - i
      {
        if |log| <= i {
          ending := DestClosed;
          return;
        }
        if stop == WhileWaiting(i) {
          ending := Stopped;
          return;
        }
        if !log[i].signalled {
          ending := Blocked(i);
          return;
        }
        if stop == WhileSending(i) {
          ending := Stopped;
          return;
        }
        ghost var rest := Feed(log, i + 1, stop, zero);
        assert Feed(log, i, stop, zero) == Delivery([Payload(log[i], zero)] + rest.sent, rest.ending);
        assert sent + ([Payload(log[i], zero)] + rest.sent) == (sent + [Payload(log[i], zero)]) + rest.sent;
        sent := sent + [Payload(log[i], zero)];
        i := i + 1;
      }
    }
  }

  /** Through a run of signalled slots where stop does not fire, a subscription
      sends their values and then carries on as one started after the run. */
  lemma {:induction false} FeedSplit<E>(log: seq<Slot<E>>, i: nat, k: nat, stop: Stop, zero: E)
    requires i <= k <= |log|
    requires forall j :: i <= j < k ==> log[j].signalled
    requires forall j :: i <= j < k ==> !FiresAt(stop, j)
    ensures Feed(log, i, stop, zero).sent == Payloads(log[i..k], zero) + Feed(log, k, stop, zero).sent
    ensures Feed(log, i, stop, zero).ending == Feed(log, k, stop, zero).ending
    decreases k - i
  {
    if i < k {
      assert !FiresAt(stop, i) && log[i].signalled;
      var rest := Feed(log, i + 1, stop, zero);
      assert Feed(log, i, stop, zero) == Delivery([Payload(log[i], zero)] + rest.sent, rest.ending);
      FeedSplit(log, i + 1, k, stop, zero);
      var run := Payloads(log[i + 1..k], zero);
      assert Payloads(log[i..k], zero) == [Payload(log[i], zero)] + run;
      assert [Payload(log[i], zero)] + (run + Feed(log, k, stop, zero).sent)
          == ([Payload(log[i], zero)] + run) + Feed(log, k, stop, zero).sent;
    }
  }

  /** The filled slots of a log send exactly the emitted events. */
  lemma FilledPayloads<E>(log: seq<Slot<E>>, k: nat, zero: E)
    requires Filled(log) && k <= |log| - 1
    ensures Payloads(log[k..|log| - 1], zero) == Emitted(log)[k..]
  {
  }

  /** Replay: a subscription from offset k delivers the suffix from k of what a
      subscription from offset 0 delivers, and ends the same way. */
  lemma ReplayIsSuffix<E>(log: seq<Slot<E>>, closed: bool, k: nat, stop: Stop, zero: E)
    requires WellFormed(log, closed)
    requires k < |log|
    requires forall j :: 0 <= j < k ==> !FiresAt(stop, j)
    ensures k <= |Feed(log, 0, stop, zero).sent|
    ensures Feed(log, k, stop, zero).sent == Feed(log, 0, stop, zero).sent[k..]
    ensures Feed(log, k, stop, zero).ending == Feed(log, 0, stop, zero).ending
  {
    FeedSplit(log, 0, k, stop, zero);
  }

  /** On a closed hub, a subscription from k <= n (n events emitted) delivers
      events k..n-1 in order, then the close marker's zero event, and closes
      `dest`. */
  lemma ClosedReplay<E>(log: seq<Slot<E>>, k: nat, stop: Stop, zero: E)
    requires WellFormed(log, true)
    requires k <= |log| - 1
    requires forall j :: k <= j < |log| ==> !FiresAt(stop, j)
    ensures Feed(log, k, stop, zero) == Delivery(Emitted(log)[k..] + [zero], DestClosed)
  {
    var n := |log| - 1;
    FeedSplit(log, k, |log|, stop, zero);
    assert log[k..|log|] == log[k..n] + [log[n]];
    FilledPayloads(log, k, zero);
    assert Payloads(log[k..|log|], zero) == Payloads(log[k..n], zero) + [zero];
  }

  /** On an open hub, a subscription from k <= n delivers events k..n-1 in
      order and then waits on the open slot n. */
  lemma OpenReplay<E>(log: seq<Slot<E>>, k: nat, stop: Stop, zero: E)
    requires WellFormed(log, false)
    requires k <= |log| - 1
    requires forall j :: k <= j < |log| ==> !FiresAt(stop, j)
    ensures Feed(log, k, stop, zero) == Delivery(Emitted(log)[k..], Blocked(|log| - 1))
  {
    var n := |log| - 1;
    FeedSplit(log, k, n, stop, zero);
    FilledPayloads(log, k, zero);
    assert !FiresAt(stop, n);
    assert Feed(log, n, stop, zero) == Delivery([], Blocked(n));
    assert Payloads(log[k..n], zero) + [] == Emitted(log)[k..];
  }

  /** When stop fires at slot j (in the wait, or in the send of a signalled
      slot), the subscription delivers events from..j-1 and returns without
      closing `dest`: nothing further is delivered. */
  lemma StoppedDelivery<E>(log: seq<Slot<E>>, closed: bool, from: nat, stop: Stop, zero: E)
    requires WellFormed(log, closed)
    requires !stop.Never? && from <= stop.at < |log|
    requires stop.WhileSending? && stop.at == |log| - 1 ==> closed
    ensures Feed(log, from, stop, zero) == Delivery(Emitted(log)[from..stop.at], Stopped)
  {
    var j := stop.at;
    FeedSplit(log, from, j, stop, zero);
    assert Payloads(log[from..j], zero) == Emitted(log)[from..j];
  }

  /** A subscriber that caught up with an open hub and waits on its open slot,
      once resumed on a later state of the same hub, ends up with exactly what a
      subscription started on the later state delivers. */
  lemma ResumeAfterBlock<E>(before: seq<Slot<E>>, after: seq<Slot<E>>, closedAfter: bool,
                            k: nat, stop: Stop, zero: E)
    requires WellFormed(before, false) && WellFormed(after, closedAfter)
    requires |before| <= |after|
    requires Emitted(after)[..|before| - 1] == Emitted(before)
    requires k <= |before| - 1
    requires forall j :: k <= j < |before| - 1 ==> !FiresAt(stop, j)
    requires stop != WhileWaiting(|before| - 1)
    ensures Feed(before, k, stop, zero).ending == Blocked(|before| - 1)
    ensures Feed(before, k, stop, zero).sent + Feed(after, |before| - 1, stop, zero).sent
            == Feed(after, k, stop, zero).sent
    ensures Feed(after, |before| - 1, stop, zero).ending == Feed(after, k, stop, zero).ending
  {
    var n := |before| - 1;
    FeedSplit(before, k, n, stop, zero);
    FilledPayloads(before, k, zero);
    FeedSplit(after, k, n, stop, zero);
    assert Payloads(after[k..n], zero) == Emitted(before)[k..];
  }

  /** A whole build: a fresh hub, events `es` emitted, then closed. A
      subscriber from offset 0 gets every event once, in emission order, then
      the close marker's zero event, and then `dest` is closed. */
  lemma BuildStream<E>(es: seq<E>, zero: E)
    ensures WellFormed(CloseSlots(EmitAll(NewLog(), es)), true)
    ensures Feed(CloseSlots(EmitAll(NewLog(), es)), 0, Never, zero) == Delivery(es + [zero], DestClosed)
  {
    var log: seq<Slot<E>> := NewLog();
    ClosedReplay(CloseSlots(EmitAll(log, es)), 0, Never, zero);
  }

  /** A hub that receives three events and is closed (twice, with an emit in
      between that is dropped): a subscriber from offset 0 gets the three
      events and the close marker's zero event; one from offset 3 gets only
      the zero event; one from offset 4, past the end, gets nothing. Each of
      them then sees `dest` closed. */
  method ReplayAfterClose<E>(e1: E, e2: E, e3: E, late: E, zero: E)
    returns (fromStart: Delivery<E>, fromThree: Delivery<E>, fromFour: Delivery<E>)
    ensures fromStart == Delivery([e1, e2, e3, zero], DestClosed)
    ensures fromThree == Delivery([zero], DestClosed)
    ensures fromFour == Delivery([], DestClosed)
  {
    var hub := new Hub(zero);
    hub.EmitEvent(e1);
    hub.EmitEvent(e2);
    hub.EmitEvent(e3);
    ghost var emitted := Emitted(hub.events);
    assert emitted == [e1, e2, e3];
    hub.Close();
    hub.EmitEvent(late);
    hub.Close();
    assert |hub.events| == 4 && Emitted(hub.events) == emitted;
    var sent, ending := hub.Subscribe(0, Never);
    fromStart := Delivery(sent, ending);
    ClosedReplay(hub.events, 0, Never, zero);
    sent, ending := hub.Subscribe(3, Never);
    fromThree := Delivery(sent, ending);
    ClosedReplay(hub.events, 3, Never, zero);
    sent, ending := hub.Subscribe(4, Never);
    fromFour := Delivery(sent, ending);
  }
}
