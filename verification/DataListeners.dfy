/**
  From forwarded events to the listeners of a feed. Events go through a bounded queue: a listener
  that has fallen behind by more than the queue holds finds its next event gone, and its loop ends.
 */
module DataListeners {
  import opened FeedEvents

  /** `start` counts the events sent before the listener was added, `next` those it has passed. */
  datatype Listener = Listener(start: nat, next: nat, heard: seq<Event>, stopped: bool)

  /** `sent` is everything that was ever forwarded. */
  datatype Hub = Hub(capacity: nat, sent: seq<Event>, listeners: seq<Listener>)

  datatype Step = Send(e: Event) | Add | Receive(i: nat)

  function Init(capacity: nat): Hub {
    Hub(capacity, [], [])
  }

  function Received(h: Hub, l: Listener): Listener {
    if l.stopped || l.next >= |h.sent| then l
    else if |h.sent| - l.next > h.capacity then l.(stopped := true)
    else l.(next := l.next + 1, heard := l.heard + [h.sent[l.next]])
  }

  /** A listener that has nothing to receive waits, and one that has stopped does nothing. */
  function Next(h: Hub, step: Step): Hub {
    match step
    case Send(e) => h.(sent := h.sent + [e])
    case Add => h.(listeners := h.listeners + [Listener(|h.sent|, |h.sent|, [], false)])
    case Receive(i) =>
      if i < |h.listeners| then h.(listeners := h.listeners[i := Received(h, h.listeners[i])]) else h
  }

  function Run(h: Hub, steps: seq<Step>): Hub
    decreases |steps|
  {
    if steps == [] then h else Run(Next(h, steps[0]), steps[1..])
  }

  /** How far a listener is behind. */
  function Lag(h: Hub, i: nat): int
    requires i < |h.listeners|
  {
    |h.sent| - h.listeners[i].next
  }

  ghost predicate Inv(h: Hub) {
    forall i :: 0 <= i < |h.listeners| ==> ListenerInv(h, h.listeners[i])
  }

  /** What was heard is a gapless part of what was sent, and only a listener that has fallen too far
      behind has stopped. */
  ghost predicate ListenerInv(h: Hub, l: Listener) {
    && l.start <= l.next <= |h.sent|
    && l.heard == h.sent[l.start..l.next]
    && (l.stopped ==> |h.sent| - l.next > h.capacity)
  }

  lemma ReceivedKeepsInv(h: Hub, l: Listener)
    requires ListenerInv(h, l)
    ensures ListenerInv(h, Received(h, l))
  {
    if l.next < |h.sent| {
      assert h.sent[l.start..l.next + 1] == h.sent[l.start..l.next] + [h.sent[l.next]];
    }
  }

  lemma NextKeepsInv(h: Hub, step: Step)
    requires Inv(h)
    ensures Inv(Next(h, step))
  {
    match step
    case Send(e) =>
      forall i | 0 <= i < |h.listeners| ensures ListenerInv(Next(h, step), h.listeners[i]) {
        var l := h.listeners[i];
        assert ListenerInv(h, l);
        assert (h.sent + [e])[l.start..l.next] == h.sent[l.start..l.next];
      }
    case Add =>
    case Receive(i) => if i < |h.listeners| { ReceivedKeepsInv(h, h.listeners[i]); }
  }

  lemma {:induction false} RunKeepsInv(h: Hub, steps: seq<Step>)
    requires Inv(h)
    ensures Inv(Run(h, steps))
    decreases |steps|
  {
    hide Next, Inv;
    if steps != [] {
      NextKeepsInv(h, steps[0]);
      RunKeepsInv(Next(h, steps[0]), steps[1..]);
    }
  }

  lemma {:induction false} CapacityStays(h: Hub, steps: seq<Step>)
    ensures Run(h, steps).capacity == h.capacity
    decreases |steps|
  {
    if steps != [] {
      CapacityStays(Next(h, steps[0]), steps[1..]);
    }
  }

  /** Over every run, what a listener has heard is what was sent from the moment it was added up to
      some point, in order and without gaps. */
  lemma HeardWithoutGaps(capacity: nat, steps: seq<Step>, i: nat)
    requires i < |Run(Init(capacity), steps).listeners|
    ensures var h := Run(Init(capacity), steps);
            var l := h.listeners[i];
            l.start <= l.next <= |h.sent| && l.heard == h.sent[l.start..l.next]
  {
    RunKeepsInv(Init(capacity), steps);
    assert ListenerInv(Run(Init(capacity), steps), Run(Init(capacity), steps).listeners[i]);
  }

  /** The listener has heard everything since it was added. */
  ghost predicate UpToDate(h: Hub, i: nat) {
    && i < |h.listeners|
    && h.listeners[i].start <= |h.sent|
    && h.listeners[i].heard == h.sent[h.listeners[i].start..]
  }

  ghost predicate CatchesUp(h: Hub, i: nat) {
    exists more :: UpToDate(Run(h, more), i)
  }

  lemma {:induction false} CloseCatchesUp(h: Hub, i: nat)
    requires Inv(h) && i < |h.listeners| && Lag(h, i) <= h.capacity
    ensures CatchesUp(h, i)
    decreases Lag(h, i)
  {
    var l := h.listeners[i];
    assert ListenerInv(h, l);
    if Lag(h, i) == 0 {
      assert h.sent[l.start..l.next] == h.sent[l.start..];
      assert UpToDate(Run(h, []), i);
    } else {
      var t := Next(h, Receive(i));
      NextKeepsInv(h, Receive(i));
      CloseCatchesUp(t, i);
      var more :| UpToDate(Run(t, more), i);
      assert ([Receive(i)] + more)[1..] == more;
      assert Run(h, [Receive(i)] + more) == Run(t, more);
    }
  }

  lemma FarStaysFar(h: Hub, step: Step, i: nat)
    requires Inv(h) && i < |h.listeners| && Lag(h, i) > h.capacity
    ensures var t := Next(h, step);
            && t.capacity == h.capacity && i < |t.listeners|
            && t.listeners[i].heard == h.listeners[i].heard && Lag(t, i) > t.capacity
  {
    assert ListenerInv(h, h.listeners[i]);
  }

  lemma {:induction false} FarForEver(h: Hub, more: seq<Step>, i: nat)
    requires Inv(h) && i < |h.listeners| && Lag(h, i) > h.capacity
    ensures var t := Run(h, more);
            && Inv(t) && t.capacity == h.capacity && i < |t.listeners|
            && t.listeners[i].heard == h.listeners[i].heard && Lag(t, i) > t.capacity
    decreases |more|
  {
    hide Next, Inv, Lag;
    if more != [] {
      FarStaysFar(h, more[0], i);
      NextKeepsInv(h, more[0]);
      FarForEver(Next(h, more[0]), more[1..], i);
    }
  }

  lemma FarIsNotUpToDate(h: Hub, i: nat)
    requires Inv(h) && i < |h.listeners| && Lag(h, i) > h.capacity
    ensures !UpToDate(h, i)
  {
    assert ListenerInv(h, h.listeners[i]);
  }

  /** Exactly when a listener can still hear everything, at any moment of any run and whatever is still
      to be sent: when it is behind by no more than the queue holds. Otherwise it has heard the last it
      will ever hear. */
  lemma CatchesUpIff(capacity: nat, steps: seq<Step>, i: nat)
    requires i < |Run(Init(capacity), steps).listeners|
    ensures var h := Run(Init(capacity), steps);
            && (CatchesUp(h, i) <==> Lag(h, i) <= capacity)
            && (Lag(h, i) > capacity ==> forall more ::
                  var t := Run(h, more); i < |t.listeners| && t.listeners[i].heard == h.listeners[i].heard)
  {
    RunKeepsInv(Init(capacity), steps);
    CapacityStays(Init(capacity), steps);
    var h := Run(Init(capacity), steps);
    hide Lag, UpToDate, Inv;
    if Lag(h, i) <= h.capacity {
      CloseCatchesUp(h, i);
    } else {
      forall more
        ensures !UpToDate(Run(h, more), i)
        ensures i < |Run(h, more).listeners| && Run(h, more).listeners[i].heard == h.listeners[i].heard
      {
        FarForEver(h, more, i);
        FarIsNotUpToDate(Run(h, more), i);
      }
    }
  }

  /** The events of the sends, in order. */
  function Events(steps: seq<Step>): seq<Event> {
    if steps == [] then []
    else (if steps[0].Send? then [steps[0].e] else []) + Events(steps[1..])
  }

  /** Everything that is forwarded gets into the queue, in order, and nothing else does. */
  lemma {:induction false} SentIsForwarded(h: Hub, steps: seq<Step>)
    ensures Run(h, steps).sent == h.sent + Events(steps)
    decreases |steps|
  {
    if steps != [] {
      SentIsForwarded(Next(h, steps[0]), steps[1..]);
    }
  }

  lemma StartStays(h: Hub, step: Step, i: nat)
    requires i < |h.listeners|
    ensures i < |Next(h, step).listeners| && Next(h, step).listeners[i].start == h.listeners[i].start
  {
  }

  lemma {:induction false} StartStaysInRun(h: Hub, steps: seq<Step>, i: nat)
    requires i < |h.listeners|
    ensures i < |Run(h, steps).listeners| && Run(h, steps).listeners[i].start == h.listeners[i].start
    decreases |steps|
  {
    hide Next;
    if steps != [] {
      StartStays(h, steps[0], i);
      StartStaysInRun(Next(h, steps[0]), steps[1..], i);
    }
  }

  /** A new listener hears what is forwarded from then on, from its first event to some later one, and
      nothing that was forwarded before. */
  lemma NewListenerHears(h: Hub, steps: seq<Step>)
    requires Inv(h)
    ensures var i := |h.listeners|;
            var t := Run(Next(h, Add), steps);
            && i < |t.listeners|
            && t.listeners[i].heard <= Events(steps)
  {
    var i := |h.listeners|;
    var t := Run(Next(h, Add), steps);
    NextKeepsInv(h, Add);
    RunKeepsInv(Next(h, Add), steps);
    SentIsForwarded(Next(h, Add), steps);
    StartStaysInRun(Next(h, Add), steps, i);
    assert ListenerInv(t, t.listeners[i]);
    assert t.sent == h.sent + Events(steps);
  }
}
