/**
  One channel of a connection: its state machine, its listeners, and the queue of messages it
  hands to the connection.

  ChanStep gives every region of code that holds a lock, or that queues a message, as one step on a
  value; a change of state holds the state until its listeners have been told. The class Channel is
  the object itself, and each of its methods is proved to take such steps.
 */
module ChannelModel {
  import opened JsonModel
  import opened Runs
  import opened Wrappers

  datatype ChannelState = Requested | Opened | Closed

  type ListenerId = nat

  /** A message handed to a channel to be sent. */
  datatype ChannelMessage = ChannelMessage(mtype: string, payload: Json)

  /** Which operation queued a message. */
  datatype Origin = FromSend | FromClose | FromRequest

  /** A queued message, with the channel it names. */
  datatype Outgoing = Outgoing(mtype: string, channel: nat, origin: Origin)

  /** A state change, and the listeners that were told. */
  datatype Notice = Notice(newState: ChannelState, prevState: ChannelState, to: set<ListenerId>)

  /** A message passed on to the listeners that were registered. */
  datatype Delivery = Delivery(message: ChannelMessage, to: set<ListenerId>)

  datatype ChannelError =
    | NotReady(state: ChannelState)
    | UnsupportedMessageType
    | InvalidPayload
    | AlreadyClosed
    | SendError
    | Timeout

  /** What the queue does with a message: take it, refuse it, or not take it in time. */
  datatype QueueOutcome = Taken | Refused | Late

  function QueueResult(outcome: QueueOutcome): Result<(), ChannelError> {
    match outcome
    case Taken => Ok(())
    case Refused => Err(SendError)
    case Late => Err(Timeout)
  }

  /** A channel and its history. `inFlight` holds messages whose sender has passed its checks but has
      not queued them yet. */
  datatype Chan = Chan(
    id: nat,
    state: ChannelState,
    notices: seq<Notice>,
    inFlight: seq<Outgoing>,
    outbox: seq<Outgoing>,
    deliveries: seq<Delivery>,
    messageListeners: set<ListenerId>,
    stateListeners: set<ListenerId>,
    errorListeners: set<ListenerId>)

  function NewChan(id: nat): Chan {
    Chan(id, Requested, [], [], [], [], {}, {}, {})
  }

  // ---------- Steps ----------

  predicate Allowed(from: ChannelState, to: ChannelState) {
    || (from == Requested && to == Opened)
    || (from == Requested && to == Closed)
    || (from == Opened && to == Closed)
  }

  function WithState(c: Chan, newState: ChannelState): Chan {
    if !Allowed(c.state, newState) then c
    else c.(state := newState, notices := c.notices + [Notice(newState, c.state, c.stateListeners)])
  }

  predicate Supported(mtype: string) {
    mtype in ["FEED_SUBSCRIPTION", "FEED_SETUP", "DOM_SETUP", "CHANNEL_REQUEST", "CHANNEL_CANCEL", "ERROR"]
  }

  /** The checks of a send, in the order in which they are made. `decodes` says whether the payload
      is one of the message type; a cancel has no payload to decode. */
  function SendCheck(c: Chan, m: ChannelMessage, decodes: bool): Result<Outgoing, ChannelError> {
    if c.state != Opened then Err(NotReady(c.state))
    else if !Supported(m.mtype) then Err(UnsupportedMessageType)
    else if m.mtype != "CHANNEL_CANCEL" && !decodes then Err(InvalidPayload)
    else Ok(Outgoing(m.mtype, c.id, FromSend))
  }

  function Without<T>(s: seq<T>, k: nat): seq<T>
    requires k < |s|
  {
    s[..k] + s[k + 1..]
  }

  datatype ChanAction =
    | SetOpened
    | SetRequested
    | SetClosed
    | ClearMessageListeners
    | ClearStateListeners
    | BeginSend(m: ChannelMessage, decodes: bool)
    | EndSend(k: nat)
    | DropSend(k: nat)
    | BeginClose
    | BeginRequest
    | Deliver(m: ChannelMessage)
    | AddMessageListener(l: ListenerId)
    | AddStateListener(l: ListenerId)
    | AddErrorListener(l: ListenerId)
    | RemoveMessageListener(l: ListenerId)
    | RemoveStateListener(l: ListenerId)
    | RemoveErrorListener(l: ListenerId)

  /** The message whose sending begins with a step, if any: a send's if it passes the checks, a
      cancel unless the channel is closed already, and a request. */
  function Begun(c: Chan, a: ChanAction): seq<Outgoing> {
    match a
    case BeginSend(m, decodes) =>
      (match SendCheck(c, m, decodes)
       case Ok(o) => [o]
       case Err(_) => [])
    case BeginClose => if c.state == Closed then [] else [Outgoing("CHANNEL_CANCEL", c.id, FromClose)]
    case BeginRequest => [Outgoing("CHANNEL_REQUEST", c.id, FromRequest)]
    case _ => []
  }

  /** Closing and requesting queue their message first and change the state in a later step, and
      listeners are cleared after that, so that anything may happen in between. */
  function ChanStep(c: Chan, a: ChanAction): Chan {
    match a
    case SetOpened => WithState(c, Opened)
    case SetRequested => WithState(c, Requested)
    case SetClosed => WithState(c, Closed)
    case ClearMessageListeners => c.(messageListeners := {})
    case ClearStateListeners => c.(stateListeners := {})
    case EndSend(k) =>
      if k < |c.inFlight|
      then c.(outbox := c.outbox + [c.inFlight[k]], inFlight := Without(c.inFlight, k))
      else c
    case DropSend(k) =>
      if k < |c.inFlight| then c.(inFlight := Without(c.inFlight, k)) else c
    case BeginSend(_, _) => c.(inFlight := c.inFlight + Begun(c, a))
    case BeginClose => c.(inFlight := c.inFlight + Begun(c, a))
    case BeginRequest => c.(inFlight := c.inFlight + Begun(c, a))
    case Deliver(m) => c.(deliveries := c.deliveries + [Delivery(m, c.messageListeners)])
    case AddMessageListener(l) => c.(messageListeners := c.messageListeners + {l})
    case AddStateListener(l) => c.(stateListeners := c.stateListeners + {l})
    case AddErrorListener(l) => c.(errorListeners := c.errorListeners + {l})
    case RemoveMessageListener(l) => c.(messageListeners := c.messageListeners - {l})
    case RemoveStateListener(l) => c.(stateListeners := c.stateListeners - {l})
    case RemoveErrorListener(l) => c.(errorListeners := c.errorListeners - {l})
  }

  function ChanRun(c: Chan, actions: seq<ChanAction>): Chan {
    if actions == [] then c
    else ChanStep(ChanRun(c, actions[..|actions| - 1]), actions[|actions| - 1])
  }

  // ---------- What every run keeps ----------

  function Rank(s: ChannelState): nat {
    match s
    case Requested => 0
    case Opened => 1
    case Closed => 2
  }

  /** The notices lead from one state to another without gaps, and every one of them climbs. */
  predicate Climbs(from: ChannelState, notices: seq<Notice>, to: ChannelState) {
    if notices == [] then from == to
    else
      var last := notices[|notices| - 1];
      && last.newState == to
      && Rank(last.prevState) < Rank(to)
      && Climbs(from, notices[..|notices| - 1], last.prevState)
  }

  predicate EverOpened(c: Chan) {
    exists i :: 0 <= i < |c.notices| && c.notices[i].newState == Opened
  }

  /** The messages that have been queued or are about to be. */
  function Queue(c: Chan): seq<Outgoing> {
    c.outbox + c.inFlight
  }

  ghost predicate ChanInv(c: Chan) {
    && Climbs(Requested, c.notices, c.state)
    && |c.notices| <= Rank(c.state)
    && (c.state == Opened ==> EverOpened(c))
    && (forall o :: o in Queue(c) ==> o.channel == c.id)
    && (forall o :: o in Queue(c) && o.origin == FromSend ==> EverOpened(c))
  }

  /** Of the messages of senders that are queued or about to be, none has been added. */
  ghost predicate NoNewSends(c: Chan, d: Chan) {
    forall o: Outgoing :: o.origin == FromSend ==> multiset(Queue(d))[o] <= multiset(Queue(c))[o]
  }

  /** The first channel is an earlier moment of the second: its state is no higher, its history is a
      part of the other's, and if it is closed, no sender has got a message past the checks since. */
  ghost predicate Earlier(c: Chan, d: Chan) {
    && c.id == d.id
    && Rank(c.state) <= Rank(d.state)
    && c.notices <= d.notices
    && c.outbox <= d.outbox
    && c.deliveries <= d.deliveries
    && (c.state == Closed ==> NoNewSends(c, d))
  }

  lemma WithStateKeepsInv(c: Chan, newState: ChannelState)
    requires ChanInv(c)
    ensures ChanInv(WithState(c, newState))
  {
    if Allowed(c.state, newState) {
      var d := WithState(c, newState);
      assert d.notices[..|d.notices| - 1] == c.notices;
      assert d.notices[|d.notices| - 1].newState == newState;
      assert EverOpened(c) ==> EverOpened(d) by {
        if i :| 0 <= i < |c.notices| && c.notices[i].newState == Opened {
          assert d.notices[i].newState == Opened;
        }
      }
    }
  }

  /** A step that changes neither state nor notices, and queues only what it may. */
  lemma QueueKeepsInv(c: Chan, d: Chan)
    requires ChanInv(c) && d.id == c.id && d.state == c.state && d.notices == c.notices
    requires forall o :: o in Queue(d) ==>
               o in Queue(c) || (o.channel == c.id && (o.origin == FromSend ==> c.state == Opened))
    ensures ChanInv(d)
  {
    hide Climbs, Queue;
  }

  lemma RemovedFrom<T>(s: seq<T>, k: nat)
    requires k < |s|
    ensures multiset(s) == multiset{s[k]} + multiset(Without(s, k))
  {
    assert s == s[..k] + [s[k]] + s[k + 1..];
  }

  /** Whatever is queued or about to be was so before, or has begun to be sent with this step. */
  lemma QueueOfStep(c: Chan, a: ChanAction)
    ensures multiset(Queue(ChanStep(c, a))) <= multiset(Queue(c)) + multiset(Begun(c, a))
  {
    hide WithState, Begun, Without;
    var d := ChanStep(c, a);
    if (a.EndSend? || a.DropSend?) && a.k < |c.inFlight| {
      RemovedFrom(c.inFlight, a.k);
      assert multiset(d.outbox) <= multiset(c.outbox) + multiset{c.inFlight[a.k]};
      assert multiset(d.inFlight) == multiset(Without(c.inFlight, a.k));
    } else if a.BeginSend? || a.BeginClose? || a.BeginRequest? {
      assert Queue(d) == Queue(c) + Begun(c, a);
    } else {
      OtherStepsKeepQueue(c, a);
    }
  }

  lemma OtherStepsKeepQueue(c: Chan, a: ChanAction)
    requires !a.BeginSend? && !a.BeginClose? && !a.BeginRequest?
    requires a.EndSend? || a.DropSend? ==> a.k >= |c.inFlight|
    ensures ChanStep(c, a).outbox == c.outbox && ChanStep(c, a).inFlight == c.inFlight
  {
  }

  /** A step adds at most one message of a sender, and only when it begins to be sent on an open
      channel. */
  lemma SendsBeginWhileOpen(c: Chan, a: ChanAction)
    ensures !(a.BeginSend? && c.state == Opened) ==> NoNewSends(c, ChanStep(c, a))
    ensures forall o :: o in Begun(c, a) ==> o.channel == c.id && (o.origin == FromSend ==> c.state == Opened)
    ensures |Begun(c, a)| <= 1
  {
    QueueOfStep(c, a);
    hide ChanStep, Queue;
    assert forall o :: o in multiset(Begun(c, a)) ==> o in Begun(c, a);
  }

  lemma QueueMembersOfStep(c: Chan, a: ChanAction)
    ensures forall o :: o in Queue(ChanStep(c, a)) ==>
              o in Queue(c) || (o.channel == c.id && (o.origin == FromSend ==> c.state == Opened))
  {
    QueueOfStep(c, a);
    SendsBeginWhileOpen(c, a);
    hide ChanStep, Queue, Begun;
    forall o | o in Queue(ChanStep(c, a)) && o !in Queue(c) ensures o in Begun(c, a) {
      assert o in multiset(Queue(ChanStep(c, a))) && o !in multiset(Queue(c));
      assert o in multiset(Begun(c, a));
    }
  }

  lemma StepKeepsChanInv(c: Chan, a: ChanAction)
    requires ChanInv(c)
    ensures ChanInv(ChanStep(c, a))
  {
    hide ChanInv, Queue, Begun, Without, WithState;
    match a
    case SetOpened => WithStateKeepsInv(c, Opened);
    case SetRequested => WithStateKeepsInv(c, Requested);
    case SetClosed => WithStateKeepsInv(c, Closed);
    case _ =>
      QueueMembersOfStep(c, a);
      QueueKeepsInv(c, ChanStep(c, a));
  }

  lemma StepKeepsInv(c: Chan, a: ChanAction)
    requires ChanInv(c)
    ensures ChanInv(ChanStep(c, a)) && Earlier(c, ChanStep(c, a))
  {
    StepKeepsChanInv(c, a);
    SendsBeginWhileOpen(c, a);
    hide ChanInv, NoNewSends, Begun, Without;
  }

  /** Over any run from a new channel, with senders, closers and incoming messages interleaved in
      any way: the state only climbs, the notices are a gapless chain of at most two climbing
      changes that ends in the current state, every queued message names this channel, and nothing
      is queued by a send before the channel has been opened. */
  lemma {:induction false} RunKeepsInv(id: nat, actions: seq<ChanAction>)
    ensures var c := ChanRun(NewChan(id), actions);
            && ChanInv(c)
            && c.id == id
            && |c.notices| <= 2
  {
    if actions != [] {
      RunKeepsInv(id, actions[..|actions| - 1]);
      StepKeepsInv(ChanRun(NewChan(id), actions[..|actions| - 1]), actions[|actions| - 1]);
    }
  }

  lemma EarlierIsTransitive(c: Chan, d: Chan, e: Chan)
    requires Earlier(c, d) && Earlier(d, e)
    ensures Earlier(c, e)
  {
  }

  /** What happens later never takes anything back. */
  lemma {:induction false} RunsOnlyAdvance(id: nat, before: seq<ChanAction>, after: seq<ChanAction>)
    ensures Earlier(ChanRun(NewChan(id), before), ChanRun(NewChan(id), before + after))
  {
    hide ChanInv, ChanStep;
    if after == [] {
      assert before + after == before;
    } else {
      var front, last := after[..|after| - 1], after[|after| - 1];
      RunsOnlyAdvance(id, before, front);
      assert (before + after)[..|before + after| - 1] == before + front;
      RunKeepsInv(id, before + front);
      StepKeepsInv(ChanRun(NewChan(id), before + front), last);
      EarlierIsTransitive(ChanRun(NewChan(id), before), ChanRun(NewChan(id), before + front),
                          ChanRun(NewChan(id), before + after));
    }
  }

  /** Once the channel is closed, whatever runs: no message of a sender gets past the checks any more,
      and no more of them are ever queued than were in flight when it closed. */
  lemma NoSendsAfterClosing(id: nat, before: seq<ChanAction>, after: seq<ChanAction>, o: Outgoing)
    requires ChanRun(NewChan(id), before).state == Closed && o.origin == FromSend
    ensures var c, d := ChanRun(NewChan(id), before), ChanRun(NewChan(id), before + after);
            && multiset(Queue(d))[o] <= multiset(Queue(c))[o]
            && multiset(d.outbox)[o] <= multiset(c.outbox)[o] + multiset(c.inFlight)[o]
  {
    RunsOnlyAdvance(id, before, after);
  }

  /** An opened channel is never moved back: asking for it again changes nothing at all. */
  lemma OpenedIsNotMovedBack(c: Chan)
    requires c.state != Requested
    ensures ChanStep(c, SetRequested) == c
    ensures c.state == Closed ==> ChanStep(c, SetOpened) == c
  {
  }

  // ---------- What the actions do ----------

  lemma StateOfStep(c: Chan, a: ChanAction)
    ensures ChanStep(c, a).state ==
            if a == SetClosed then Closed
            else if a == SetOpened && c.state == Requested then Opened
            else c.state
  {
  }

  /** Closing closes and opening opens: after any run, a channel is closed exactly if it was closed at
      some point, and open exactly if it was opened at some point and never closed. */
  lemma {:induction false} StateIff(id: nat, actions: seq<ChanAction>)
    ensures var state := ChanRun(NewChan(id), actions).state;
            && (state == Closed <==> Occurs(actions, SetClosed))
            && (state == Opened <==> Occurs(actions, SetOpened) && !Occurs(actions, SetClosed))
  {
    hide ChanStep, Occurs;
    if actions == [] {
      assert !Occurs([], SetOpened) && !Occurs([], SetClosed) by {
        NothingOccurs<ChanAction>();
      }
    } else {
      StateIff(id, actions[..|actions| - 1]);
      StateOfStep(ChanRun(NewChan(id), actions[..|actions| - 1]), actions[|actions| - 1]);
      OccursSnoc(actions, SetOpened);
      OccursSnoc(actions, SetClosed);
    }
  }

  /** Whoever listens to the state is told of every change, once, and of nothing else. */
  lemma ChangesAreTold(c: Chan, a: ChanAction)
    ensures var d := ChanStep(c, a);
            d.notices == if d.state == c.state then c.notices
                         else c.notices + [Notice(d.state, c.state, c.stateListeners)]
  {
  }

  /** A message that comes in is passed on once, to whoever listens to messages then; nothing else is. */
  lemma MessagesArePassedOn(c: Chan, a: ChanAction)
    ensures ChanStep(c, a).deliveries ==
            if a.Deliver? then c.deliveries + [Delivery(a.m, c.messageListeners)] else c.deliveries
  {
  }

  lemma ListenersOfStep(c: Chan, a: ChanAction, l: ListenerId)
    ensures l in ChanStep(c, a).messageListeners <==>
            a == AddMessageListener(l) ||
            (l in c.messageListeners && a != RemoveMessageListener(l) && a != ClearMessageListeners)
    ensures l in ChanStep(c, a).stateListeners <==>
            a == AddStateListener(l) ||
            (l in c.stateListeners && a != RemoveStateListener(l) && a != ClearStateListeners)
    ensures l in ChanStep(c, a).errorListeners <==>
            a == AddErrorListener(l) || (l in c.errorListeners && a != RemoveErrorListener(l))
  {
  }

  /** After any run, exactly those listen that were added and neither removed nor cleared since; error
      listeners are never cleared. */
  lemma {:induction false} ListensIff(id: nat, actions: seq<ChanAction>, l: ListenerId)
    ensures var c := ChanRun(NewChan(id), actions);
            && (l in c.messageListeners <==>
                AddedSince(actions, AddMessageListener(l), RemoveMessageListener(l), ClearMessageListeners))
            && (l in c.stateListeners <==>
                AddedSince(actions, AddStateListener(l), RemoveStateListener(l), ClearStateListeners))
            && (l in c.errorListeners <==>
                AddedSince(actions, AddErrorListener(l), RemoveErrorListener(l), RemoveErrorListener(l)))
  {
    hide ChanStep, AddedSince;
    if actions == [] {
      NothingAdded<ChanAction>();
    } else {
      ListensIff(id, actions[..|actions| - 1], l);
      ListenersOfStep(ChanRun(NewChan(id), actions[..|actions| - 1]), actions[|actions| - 1], l);
      AddedSinceSnoc(actions, AddMessageListener(l), RemoveMessageListener(l), ClearMessageListeners);
      AddedSinceSnoc(actions, AddStateListener(l), RemoveStateListener(l), ClearStateListeners);
      AddedSinceSnoc(actions, AddErrorListener(l), RemoveErrorListener(l), RemoveErrorListener(l));
    }
  }

  /** Exactly when a send passes its checks, and why it does not: the state comes first, then the type,
      then the payload. */
  lemma SendVerdict(c: Chan, m: ChannelMessage, decodes: bool)
    ensures var r := SendCheck(c, m, decodes);
            var known := m.mtype in {"FEED_SUBSCRIPTION", "FEED_SETUP", "DOM_SETUP", "CHANNEL_REQUEST",
                                     "CHANNEL_CANCEL", "ERROR"};
            && (c.state != Opened ==> r == Err(NotReady(c.state)))
            && (c.state == Opened && !known ==> r == Err(UnsupportedMessageType))
            && (c.state == Opened && known && m.mtype != "CHANNEL_CANCEL" && !decodes ==> r == Err(InvalidPayload))
            && (c.state == Opened && known && (decodes || m.mtype == "CHANNEL_CANCEL") ==>
                  r == Ok(Outgoing(m.mtype, c.id, FromSend)))
  {
  }

  /** And what becomes of a send then is up to the queue. */
  lemma QueueVerdict(outcome: QueueOutcome)
    ensures QueueResult(outcome).Ok? <==> outcome == Taken
    ensures outcome == Refused ==> QueueResult(outcome) == Err(SendError)
    ensures outcome == Late ==> QueueResult(outcome) == Err(Timeout)
  {
  }

  /** A channel that has been closed refuses every send. */
  lemma ClosedRefusesSends(c: Chan, m: ChannelMessage, decodes: bool)
    ensures SendCheck(ChanStep(c, SetClosed), m, decodes) == Err(NotReady(Closed))
  {
  }

  /** What the steps of a sender do to the messages: one that has passed the checks is in flight; it
      then goes to the end of the queue, or is dropped. */
  lemma MessagesMove(c: Chan, a: ChanAction)
    ensures var d := ChanStep(c, a);
            && (a.EndSend? && a.k < |c.inFlight| ==>
                  && d.outbox == c.outbox + [c.inFlight[a.k]]
                  && multiset(c.inFlight) == multiset(d.inFlight) + multiset{c.inFlight[a.k]})
            && (a.DropSend? && a.k < |c.inFlight| ==>
                  && d.outbox == c.outbox
                  && multiset(c.inFlight) == multiset(d.inFlight) + multiset{c.inFlight[a.k]})
            && (a.BeginSend? && SendCheck(c, a.m, a.decodes).Ok? ==>
                  d.outbox == c.outbox && d.inFlight == c.inFlight + [Outgoing(a.m.mtype, c.id, FromSend)])
            && (a.BeginClose? && c.state != Closed ==>
                  d.outbox == c.outbox && d.inFlight == c.inFlight + [Outgoing("CHANNEL_CANCEL", c.id, FromClose)])
            && (a.BeginRequest? ==>
                  d.outbox == c.outbox && d.inFlight == c.inFlight + [Outgoing("CHANNEL_REQUEST", c.id, FromRequest)])
  {
    if (a.EndSend? || a.DropSend?) && a.k < |c.inFlight| {
      RemovedFrom(c.inFlight, a.k);
    }
    hide Without;
  }

  // ---------- The object ----------

  /** The steps that end a send, if nothing else is in flight. */
  function Finish(c: Chan, outcome: QueueOutcome): Chan {
    ChanStep(c, if outcome == Taken then EndSend(0) else DropSend(0))
  }

  function Cleared(c: Chan): Chan {
    ChanStep(ChanStep(c, ClearMessageListeners), ClearStateListeners)
  }

  class Channel {
    const id: nat
    var state: ChannelState
    var outbox: seq<Outgoing>
    var messageListeners: set<ListenerId>
    var stateListeners: set<ListenerId>
    var errorListeners: set<ListenerId>
    /** What the listeners have been told. */
    var notices: seq<Notice>
    var deliveries: seq<Delivery>

    ghost function View(): Chan
      reads this
    {
      Chan(id, state, notices, [], outbox, deliveries, messageListeners, stateListeners, errorListeners)
    }

    constructor (id: nat)
      ensures View() == NewChan(id)
    {
      this.id := id;
      state := Requested;
      outbox := [];
      messageListeners, stateListeners, errorListeners := {}, {}, {};
      notices, deliveries := [], [];
    }

    method SetState(newState: ChannelState)
      modifies this`state, this`notices
      ensures Allowed(old(state), newState) ==>
                state == newState && notices == old(notices) + [Notice(newState, old(state), stateListeners)]
      ensures !Allowed(old(state), newState) ==> state == old(state) && notices == old(notices)
      ensures View() == WithState(old(View()), newState)
    {
      if state == newState {
        return;
      }
      var valid := match (state, newState)
        case (Requested, Opened) => true
        case (Requested, Closed) => true
        case (Opened, Closed) => true
        case (Closed, _) => false
        case _ => false;
      if !valid {
        return;
      }
      var prevState := state;
      state := newState;
      var told := {};
      var todo := stateListeners;
      while todo != {}
        invariant told + todo == stateListeners
      {
        var l :| l in todo;
        told := told + {l};
        todo := todo - {l};
      }
      notices := notices + [Notice(newState, prevState, told)];
    }

    method ProcessStatusOpened()
      modifies this`state, this`notices
      ensures state == if old(state) == Requested then Opened else old(state)
      ensures View() == ChanStep(old(View()), SetOpened)
    {
      SetState(Opened);
    }

    method ProcessStatusRequested()
      modifies this`state, this`notices
      ensures state == old(state)
      ensures View() == ChanStep(old(View()), SetRequested)
    {
      SetState(Requested);
    }

    method ProcessStatusClosed()
      modifies this
      ensures state == Closed && messageListeners == {} && stateListeners == {} && outbox == old(outbox)
      ensures View() == Cleared(ChanStep(old(View()), SetClosed))
    {
      SetState(Closed);
      Clear();
    }

    method Clear()
      modifies this`messageListeners, this`stateListeners
      ensures View() == Cleared(old(View()))
    {
      messageListeners := {};
      stateListeners := {};
    }

    /** A send that nothing interrupts. */
    method Send(m: ChannelMessage, decodes: bool, outcome: QueueOutcome) returns (r: Result<(), ChannelError>)
      modifies this`outbox
      ensures r == (match SendCheck(old(View()), m, decodes)
                    case Err(error) => Err(error)
                    case Ok(_) => QueueResult(outcome))
      ensures View() == Finish(ChanStep(old(View()), BeginSend(m, decodes)), outcome)
      ensures state != Opened ==> r == Err(NotReady(state))
      ensures outbox == if r.Ok? then old(outbox) + [Outgoing(m.mtype, id, FromSend)] else old(outbox)
    {
      if state != Opened {
        return Err(NotReady(state));
      }
      if !Supported(m.mtype) {
        return Err(UnsupportedMessageType);
      }
      if m.mtype != "CHANNEL_CANCEL" && !decodes {
        return Err(InvalidPayload);
      }
      r := QueueResult(outcome);
      if r.Ok? {
        outbox := outbox + [Outgoing(m.mtype, id, FromSend)];
      }
    }

    /** The cancel message goes out before the state changes; a channel that is already closed sends
        nothing, and one whose message is not taken stays as it is. */
    method Close(outcome: QueueOutcome) returns (r: Result<(), ChannelError>)
      modifies this
      ensures r == if old(state) == Closed then Err(AlreadyClosed) else QueueResult(outcome)
      ensures var sent := Finish(ChanStep(old(View()), BeginClose), outcome);
              View() == if r.Ok? then Cleared(ChanStep(sent, SetClosed)) else sent
      ensures r.Ok? ==> state == Closed && outbox == old(outbox) + [Outgoing("CHANNEL_CANCEL", id, FromClose)]
      ensures r.Err? ==> state == old(state) && outbox == old(outbox)
    {
      if state == Closed {
        return Err(AlreadyClosed);
      }
      r := QueueResult(outcome);
      if r.Ok? {
        outbox := outbox + [Outgoing("CHANNEL_CANCEL", id, FromClose)];
        ProcessStatusClosed();
      }
    }

    method Request(outcome: QueueOutcome) returns (r: Result<(), ChannelError>)
      modifies this
      ensures r == QueueResult(outcome)
      ensures var sent := Finish(ChanStep(old(View()), BeginRequest), outcome);
              View() == if r.Ok? then ChanStep(sent, SetRequested) else sent
      ensures state == old(state)
      ensures outbox == if r.Ok? then old(outbox) + [Outgoing("CHANNEL_REQUEST", id, FromRequest)] else old(outbox)
    {
      r := QueueResult(outcome);
      if r.Ok? {
        outbox := outbox + [Outgoing("CHANNEL_REQUEST", id, FromRequest)];
        ProcessStatusRequested();
      }
    }

    method ProcessPayloadMessage(m: ChannelMessage)
      modifies this`deliveries
      ensures deliveries == old(deliveries) + [Delivery(m, messageListeners)]
      ensures View() == ChanStep(old(View()), Deliver(m))
    {
      var told := {};
      var todo := messageListeners;
      while todo != {}
        invariant told + todo == messageListeners
      {
        var l :| l in todo;
        told := told + {l};
        todo := todo - {l};
      }
      deliveries := deliveries + [Delivery(m, told)];
    }

    method AddMessageListener(l: ListenerId)
      modifies this`messageListeners
      ensures View() == ChanStep(old(View()), ChanAction.AddMessageListener(l))
    {
      messageListeners := messageListeners + {l};
    }

    method RemoveMessageListener(l: ListenerId) returns (removed: bool)
      modifies this`messageListeners
      ensures View() == ChanStep(old(View()), ChanAction.RemoveMessageListener(l))
      ensures removed <==> l in old(messageListeners)
    {
      var lenBefore := |messageListeners|;
      RetainedIsSmaller(messageListeners, l);
      messageListeners := messageListeners - {l};
      removed := lenBefore > |messageListeners|;
    }

    method AddStateChangeListener(l: ListenerId)
      modifies this`stateListeners
      ensures View() == ChanStep(old(View()), AddStateListener(l))
    {
      stateListeners := stateListeners + {l};
    }

    method RemoveStateChangeListener(l: ListenerId) returns (removed: bool)
      modifies this`stateListeners
      ensures View() == ChanStep(old(View()), RemoveStateListener(l))
      ensures removed <==> l in old(stateListeners)
    {
      var lenBefore := |stateListeners|;
      RetainedIsSmaller(stateListeners, l);
      stateListeners := stateListeners - {l};
      removed := lenBefore > |stateListeners|;
    }

    method AddErrorListener(l: ListenerId)
      modifies this`errorListeners
      ensures View() == ChanStep(old(View()), ChanAction.AddErrorListener(l))
    {
      errorListeners := errorListeners + {l};
    }

    method RemoveErrorListener(l: ListenerId) returns (removed: bool)
      modifies this`errorListeners
      ensures View() == ChanStep(old(View()), ChanAction.RemoveErrorListener(l))
      ensures removed <==> l in old(errorListeners)
    {
      var lenBefore := |errorListeners|;
      RetainedIsSmaller(errorListeners, l);
      errorListeners := errorListeners - {l};
      removed := lenBefore > |errorListeners|;
    }
  }

  lemma RetainedIsSmaller(s: set<ListenerId>, l: ListenerId)
    ensures |s - {l}| == if l in s then |s| - 1 else |s|
  {
    if l !in s {
      assert s - {l} == s;
    }
  }
}
