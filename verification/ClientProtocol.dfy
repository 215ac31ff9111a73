/**
  Opening channels on one connection and routing messages to them.

  Many parties share the client: openers that are part of the way through opening a channel, the
  router of incoming messages, and users of the channels. Each region of code that holds a lock
  is one step, and the steps of different tasks interleave in any way. Registry is the shared data,
  Client adds the openers, and ClientRegistry is the object whose methods are the regions.
 */
module ClientProtocol {
  import opened ChannelModel
  import JsonModel
  import opened Runs
  import opened Wrappers

  /** A message from the server, with the channel it is addressed to. */
  datatype Incoming = Incoming(channel: nat, message: ChannelMessage)

  predicate IsOpened(m: Incoming) {
    m.message.mtype == "CHANNEL_OPENED"
  }

  // ---------- The shared data ----------

  /** How far the router has got with a CHANNEL_OPENED: it has updated the channel and not passed the
      message on, or has passed it on and not looked for a waiting opener. It holds the registry all
      the while. */
  datatype Routing = AtRest | Delivering(m: Incoming) | Signalling(id: nat)

  /** `openedIds` and `signals` record the channels opened by the server and the openers woken. */
  datatype Registry = Registry(
    next: nat,
    pending: set<nat>,
    channels: map<nat, Chan>,
    routing: Routing,
    openedIds: set<nat>,
    signals: seq<nat>)

  const EMPTY := Registry(1, {}, map[], AtRest, {}, [])

  function OnChannel(r: Registry, id: nat, a: ChanAction): Registry {
    if id in r.channels then r.(channels := r.channels[id := ChanStep(r.channels[id], a)]) else r
  }

  /** A CHANNEL_OPENED for a registered channel moves the channel first. */
  function ReceiveOpened(r: Registry, m: Incoming): Registry {
    OnChannel(r, m.channel, SetOpened).(openedIds := r.openedIds + {m.channel}, routing := Delivering(m))
  }

  /** An error for a registered channel is not passed on, and everything else is. A message that is
      not for a registered channel does not concern the registry. */
  function Receive(r: Registry, m: Incoming): Registry {
    if m.channel == 0 || m.channel !in r.channels || r.routing != AtRest then r
    else if IsOpened(m) then ReceiveOpened(r, m)
    else if m.message.mtype == "ERROR" then r
    else OnChannel(r, m.channel, Deliver(m.message))
  }

  /** Then the CHANNEL_OPENED is passed on. */
  function PassOn(r: Registry): Registry {
    match r.routing
    case Delivering(m) => OnChannel(r, m.channel, Deliver(m.message)).(routing := Signalling(m.channel))
    case _ => r
  }

  /** Finally the waiting opener is removed and woken, if there is one. */
  function Signal(r: Registry): Registry {
    match r.routing
    case Signalling(id) =>
      if id in r.pending
      then r.(pending := r.pending - {id}, signals := r.signals + [id], routing := AtRest)
      else r.(routing := AtRest)
    case _ => r
  }

  /** Reconnecting asks for every channel that is not closed again. */
  function Sweep(r: Registry): Registry {
    if r.routing != AtRest then r
    else r.(channels := map k | k in r.channels :: SweepOne(r.channels[k]))
  }

  function SweepOne(c: Chan): Chan {
    if c.state != Closed then ChanStep(c, SetRequested) else c
  }

  // ---------- The openers ----------

  /** How far an opener has got. A returned opener has the channel as its result; one that returns
      early was not connected and authorized, and has not waited. */
  datatype Phase =
    | Allocated
    | Stored
    | Registered
    | Asking
    | Waiting
    | Signalled
    | ReturnedWaited
    | ReturnedEarly
    | Failed

  datatype Opener = Opener(id: nat, phase: Phase)

  datatype Client = Client(registry: Registry, openers: seq<Opener>)

  const INIT := Client(EMPTY, [])

  datatype Step =
    | Allocate
    | Store(i: nat)
    | Register(i: nat)
    | CheckReady(i: nat, ready: bool)
    | Ask(i: nat, sent: bool)
    | GiveUp(i: nat)
    | Wake(i: nat)
    | Confirm(i: nat)
    | RouterReceive(m: Incoming)
    | RouterPassOn
    | RouterSignal
    | Reconnect
    | UserAction(id: nat, a: ChanAction)

  predicate At(s: Client, i: nat, phase: Phase) {
    i < |s.openers| && s.openers[i].phase == phase
  }

  function Moved(s: Client, i: nat, phase: Phase): seq<Opener>
    requires i < |s.openers|
  {
    s.openers[i := s.openers[i].(phase := phase)]
  }

  /** A step that is not possible in the current state does nothing. */
  function Next(s: Client, step: Step): Client {
    var r := s.registry;
    match step
    case Allocate =>
      Client(r.(next := r.next + 1), s.openers + [Opener(r.next, Allocated)])
    case Store(i) =>
      if At(s, i, Allocated)
      then Client(r.(pending := r.pending + {s.openers[i].id}), Moved(s, i, Stored))
      else s
    case Register(i) =>
      if At(s, i, Stored) && r.routing == AtRest
      then Client(r.(channels := r.channels[s.openers[i].id := NewChan(s.openers[i].id)]), Moved(s, i, Registered))
      else s
    case CheckReady(i, ready) =>
      if At(s, i, Registered) then Client(r, Moved(s, i, if ready then Asking else ReturnedEarly)) else s
    case Ask(i, sent) =>
      if At(s, i, Asking) then Client(r, Moved(s, i, if sent then Waiting else Failed)) else s
    case GiveUp(i) =>
      if At(s, i, Waiting) then Client(r, Moved(s, i, Failed)) else s
    case Wake(i) =>
      if At(s, i, Waiting) && s.openers[i].id in r.signals then Client(r, Moved(s, i, Signalled)) else s
    case Confirm(i) =>
      if At(s, i, Signalled)
      then Client(OnChannel(r, s.openers[i].id, SetOpened), Moved(s, i, ReturnedWaited))
      else s
    case RouterReceive(m) => Client(Receive(r, m), s.openers)
    case RouterPassOn => Client(PassOn(r), s.openers)
    case RouterSignal => Client(Signal(r), s.openers)
    case Reconnect => Client(Sweep(r), s.openers)
    case UserAction(id, a) => Client(OnChannel(r, id, a), s.openers)
  }

  function Run(steps: seq<Step>): Client {
    if steps == [] then INIT else Next(Run(steps[..|steps| - 1]), steps[|steps| - 1])
  }

  // ---------- What every run keeps ----------

  predicate Unregistered(p: Phase) {
    p == Allocated || p == Stored
  }

  /** Channels sit under their own positive ids, below the next one. */
  ghost predicate ChannelsInv(r: Registry) {
    && 1 <= r.next
    && forall k :: k in r.channels ==> 1 <= k < r.next && r.channels[k].id == k && ChanInv(r.channels[k])
  }

  /** The router is in the middle of opening the channel. */
  predicate IsRouting(r: Registry, id: nat) {
    (r.routing.Delivering? && r.routing.m.channel == id) || r.routing == Signalling(id)
  }

  /** Only registered channels are opened, and they are past Requested from then on; only opened
      channels are signalled, once, and then nobody is waiting for them any more; and somebody waits
      for an opened channel only until the router is done with it. */
  ghost predicate SignalsInv(r: Registry) {
    && (forall k :: k in r.openedIds ==> k in r.channels && r.channels[k].state != Requested)
    && (r.routing.Delivering? ==> r.routing.m.channel in r.openedIds)
    && (r.routing.Signalling? ==> r.routing.id in r.openedIds)
    && (forall k :: k in r.signals ==> k in r.openedIds && k !in r.pending)
    && (forall i, j :: 0 <= i < j < |r.signals| ==> r.signals[i] != r.signals[j])
    && (forall k :: k in r.openedIds && k in r.pending ==> IsRouting(r, k))
  }

  ghost predicate OpenerInv(r: Registry, o: Opener) {
    && 1 <= o.id < r.next
    && (Unregistered(o.phase) <==> o.id !in r.channels)
    && (o.phase == Allocated ==> o.id !in r.pending)
    && (o.phase == Stored ==> o.id in r.pending)
    && (o.phase in {Registered, Asking, Waiting} ==> o.id in r.pending || o.id in r.signals)
    && (o.phase in {Signalled, ReturnedWaited} ==> o.id in r.signals)
  }

  /** Every pending entry belongs to an opener. */
  ghost predicate PendingInv(s: Client) {
    forall k :: k in s.registry.pending ==>
      exists i :: 0 <= i < |s.openers| && s.openers[i].id == k
  }

  predicate DistinctIds(openers: seq<Opener>) {
    forall i, j :: 0 <= i < j < |openers| ==> openers[i].id != openers[j].id
  }

  ghost predicate OpenersInv(s: Client) {
    && DistinctIds(s.openers)
    && forall i :: 0 <= i < |s.openers| ==> OpenerInv(s.registry, s.openers[i])
  }

  ghost predicate Inv(s: Client) {
    ChannelsInv(s.registry) && SignalsInv(s.registry) && OpenersInv(s) && PendingInv(s)
  }

  /** The first state is an earlier moment of the second. */
  ghost predicate Before(s: Client, t: Client) {
    && s.registry.next <= t.registry.next
    && (forall k :: k in s.registry.channels ==>
          k in t.registry.channels && Earlier(s.registry.channels[k], t.registry.channels[k]))
    && s.registry.openedIds <= t.registry.openedIds
    && s.registry.signals <= t.registry.signals
    && |s.openers| <= |t.openers|
    && (forall i :: 0 <= i < |s.openers| ==> s.openers[i].id == t.openers[i].id)
  }

  // ---------- Steps of the router and of the users ----------

  /** What a step that is not an opener's does to the shared data: nothing is registered or put in
      wait, channels move forward, and whoever stops waiting has been signalled. */
  ghost predicate Progress(r: Registry, t: Registry) {
    && t.next == r.next
    && t.channels.Keys == r.channels.Keys
    && (forall k :: k in r.channels ==> Earlier(r.channels[k], t.channels[k]))
    && t.pending <= r.pending
    && (forall k :: k in r.pending && k !in t.pending ==> k in t.signals)
    && r.openedIds <= t.openedIds
    && r.signals <= t.signals
  }

  lemma PastRequested(c: Chan, d: Chan)
    requires Earlier(c, d) && c.state != Requested
    ensures d.state != Requested
  {
  }

  lemma StepKeepsId(c: Chan, a: ChanAction)
    ensures ChanStep(c, a).id == c.id
  {
  }

  lemma UpdateKeeps(r: Registry, id: nat, a: ChanAction)
    requires ChannelsInv(r) && SignalsInv(r)
    ensures var t := OnChannel(r, id, a); ChannelsInv(t) && SignalsInv(t) && Progress(r, t)
  {
    hide ChanInv, ChanStep, Earlier;
    UnchangedIsEarlier(r);
    if id in r.channels {
      StepKeepsInv(r.channels[id], a);
      StepKeepsId(r.channels[id], a);
      var t := OnChannel(r, id, a);
      forall k | k in r.openedIds ensures t.channels[k].state != Requested {
        PastRequested(r.channels[k], t.channels[k]);
      }
    }
  }

  lemma SetOpenedIsPastRequested(c: Chan)
    ensures ChanStep(c, SetOpened).state != Requested
  {
  }

  /** Recording that a channel past Requested was opened by the server. */
  lemma MarkKeeps(r: Registry, m: Incoming)
    requires ChannelsInv(r) && SignalsInv(r)
    requires m.channel in r.channels && r.channels[m.channel].state != Requested && r.routing == AtRest
    ensures var t := r.(openedIds := r.openedIds + {m.channel}, routing := Delivering(m));
            ChannelsInv(t) && SignalsInv(t) && Progress(r, t)
  {
    hide ChanInv, Earlier;
    UnchangedIsEarlier(r);
  }

  lemma ProgressIsTransitive(r: Registry, t: Registry, u: Registry)
    requires Progress(r, t) && Progress(t, u)
    ensures Progress(r, u)
  {
    forall k | k in r.channels ensures Earlier(r.channels[k], u.channels[k]) {
      EarlierIsTransitive(r.channels[k], t.channels[k], u.channels[k]);
    }
  }

  lemma ReceiveOpenedKeeps(r: Registry, m: Incoming)
    requires ChannelsInv(r) && SignalsInv(r) && m.channel in r.channels && r.routing == AtRest
    ensures var t := ReceiveOpened(r, m); ChannelsInv(t) && SignalsInv(t) && Progress(r, t)
  {
    hide ChanStep, ChannelsInv, SignalsInv, Progress, Earlier;
    var moved := OnChannel(r, m.channel, SetOpened);
    UpdateKeeps(r, m.channel, SetOpened);
    SetOpenedIsPastRequested(r.channels[m.channel]);
    MarkKeeps(moved, m);
    ProgressIsTransitive(r, moved, ReceiveOpened(r, m));
  }

  lemma PassOnKeeps(r: Registry)
    requires ChannelsInv(r) && SignalsInv(r)
    ensures var t := PassOn(r); ChannelsInv(t) && SignalsInv(t) && Progress(r, t)
  {
    hide ChanInv, ChanStep, Earlier;
    UnchangedIsEarlier(r);
    if r.routing.Delivering? {
      UpdateKeeps(r, r.routing.m.channel, Deliver(r.routing.m.message));
    }
  }

  lemma ReceiveKeeps(r: Registry, m: Incoming)
    requires ChannelsInv(r) && SignalsInv(r)
    ensures var t := Receive(r, m); ChannelsInv(t) && SignalsInv(t) && Progress(r, t)
  {
    hide ChanStep, ChannelsInv, SignalsInv, Progress, OnChannel, ReceiveOpened;
    UnchangedIsEarlier(r);
    UpdateKeeps(r, m.channel, Deliver(m.message));
    if m.channel in r.channels && r.routing == AtRest {
      ReceiveOpenedKeeps(r, m);
    }
  }

  lemma UnchangedIsEarlier(r: Registry)
    ensures Progress(r, r)
  {
  }

  lemma SignalKeeps(r: Registry)
    requires ChannelsInv(r) && SignalsInv(r)
    ensures var t := Signal(r); ChannelsInv(t) && SignalsInv(t) && Progress(r, t)
  {
    hide ChanInv;
    assert Progress(r, r);
    var t := Signal(r);
    if r.routing.Signalling? && r.routing.id in r.pending {
      var id := r.routing.id;
      assert t.signals == r.signals + [id];
      assert id !in r.signals;
      forall k | k in t.signals ensures k in t.openedIds && k !in t.pending {
        assert k == id || k in r.signals;
      }
      forall i, j | 0 <= i < j < |t.signals| ensures t.signals[i] != t.signals[j] {
        assert t.signals[i] in r.signals;
      }
    }
  }

  lemma SweepKeeps(r: Registry)
    requires ChannelsInv(r) && SignalsInv(r)
    ensures var t := Sweep(r); ChannelsInv(t) && SignalsInv(t) && Progress(r, t)
  {
    hide ChanInv, ChanStep, Earlier;
    UnchangedIsEarlier(r);
    var t := Sweep(r);
    forall k | k in r.channels
      ensures ChanInv(t.channels[k]) && Earlier(r.channels[k], t.channels[k])
      ensures t.channels[k].id == r.channels[k].id
    {
      StepKeepsInv(r.channels[k], SetRequested);
      StepKeepsId(r.channels[k], SetRequested);
    }
    forall k | k in r.openedIds ensures t.channels[k].state != Requested {
      PastRequested(r.channels[k], t.channels[k]);
    }
  }

  lemma ProgressKeepsOpeners(s: Client, t: Registry)
    requires Inv(s) && ChannelsInv(t) && SignalsInv(t) && Progress(s.registry, t)
    ensures Inv(Client(t, s.openers)) && Before(s, Client(t, s.openers))
  {
    hide ChanInv, Earlier;
    var r := s.registry;
    forall i | 0 <= i < |s.openers| ensures OpenerInv(t, s.openers[i]) {
      assert OpenerInv(r, s.openers[i]);
      assert forall k :: k in r.signals ==> k in t.signals;
    }
  }

  // ---------- Steps of the openers ----------

  /** Everything but the opener's phase stays. */
  lemma MoveKeeps(s: Client, i: nat, phase: Phase)
    requires Inv(s) && i < |s.openers|
    requires OpenerInv(s.registry, s.openers[i].(phase := phase))
    ensures var t := Client(s.registry, Moved(s, i, phase)); Inv(t) && Before(s, t)
  {
    hide ChannelsInv, SignalsInv;
    var t := Client(s.registry, Moved(s, i, phase));
    assert forall j :: 0 <= j < |s.openers| ==> t.openers[j].id == s.openers[j].id;
    assert Progress(s.registry, s.registry);
    forall k | k in s.registry.pending
      ensures exists j :: 0 <= j < |t.openers| && t.openers[j].id == k
    {
      var j :| 0 <= j < |s.openers| && s.openers[j].id == k;
      assert t.openers[j].id == k;
    }
  }

  lemma AllocateKeeps(s: Client)
    requires Inv(s)
    ensures Inv(Next(s, Allocate)) && Before(s, Next(s, Allocate))
  {
    hide ChanInv;
    var t := Next(s, Allocate);
    var n := |s.openers|;
    assert forall j :: 0 <= j < n ==> t.openers[j] == s.openers[j];
    forall j | 0 <= j < n ensures OpenerInv(t.registry, t.openers[j]) {
      assert OpenerInv(s.registry, s.openers[j]);
    }
    forall k | k in t.registry.pending
      ensures k < s.registry.next && exists j :: 0 <= j < |t.openers| && t.openers[j].id == k
    {
      var j :| 0 <= j < n && s.openers[j].id == k;
      assert t.openers[j].id == k;
      assert OpenerInv(s.registry, s.openers[j]);
    }
    assert OpenerInv(t.registry, t.openers[n]);
  }

  lemma StoreKeeps(s: Client, i: nat)
    requires Inv(s) && At(s, i, Allocated)
    ensures Inv(Next(s, Store(i))) && Before(s, Next(s, Store(i)))
  {
    hide ChanInv;
    var id := s.openers[i].id;
    var t := Next(s, Store(i));
    assert OpenerInv(s.registry, s.openers[i]);
    forall j | 0 <= j < |s.openers|
      ensures t.openers[j].id == s.openers[j].id && OpenerInv(t.registry, t.openers[j])
    {
      assert OpenerInv(s.registry, s.openers[j]);
      assert j != i ==> s.openers[j].id != id;
    }
    forall k | k in t.registry.pending
      ensures exists j :: 0 <= j < |t.openers| && t.openers[j].id == k
    {
      if k == id {
        assert t.openers[i].id == k;
      } else {
        var j :| 0 <= j < |s.openers| && s.openers[j].id == k;
        assert t.openers[j].id == k;
      }
    }
  }

  lemma NewChanInv(id: nat)
    ensures ChanInv(NewChan(id))
  {
  }

  lemma RegisterKeeps(s: Client, i: nat)
    requires Inv(s) && At(s, i, Stored) && s.registry.routing == AtRest
    ensures Inv(Next(s, Register(i))) && Before(s, Next(s, Register(i)))
  {
    hide ChanInv, Earlier, ChanStep;
    UnchangedIsEarlier(s.registry);
    var id := s.openers[i].id;
    var t := Next(s, Register(i));
    NewChanInv(id);
    assert OpenerInv(s.registry, s.openers[i]);
    forall j | 0 <= j < |s.openers|
      ensures t.openers[j].id == s.openers[j].id && OpenerInv(t.registry, t.openers[j])
    {
      assert OpenerInv(s.registry, s.openers[j]);
      assert j != i ==> s.openers[j].id != id;
    }
    forall k | k in t.registry.pending
      ensures exists j :: 0 <= j < |t.openers| && t.openers[j].id == k
    {
      var j :| 0 <= j < |s.openers| && s.openers[j].id == k;
      assert t.openers[j].id == k;
    }
  }

  lemma StayKeeps(s: Client)
    requires Inv(s)
    ensures Before(s, s)
  {
  }

  lemma NextKeepsInv(s: Client, step: Step)
    requires Inv(s)
    ensures Inv(Next(s, step)) && Before(s, Next(s, step))
  {
    hide ChanInv, ChannelsInv, SignalsInv, PendingInv, Receive, PassOn, Signal, Sweep, OnChannel, Before;
    StayKeeps(s);
    match step
    case Allocate => AllocateKeeps(s);
    case Store(i) => if At(s, i, Allocated) { StoreKeeps(s, i); }
    case Register(i) => if At(s, i, Stored) && s.registry.routing == AtRest { RegisterKeeps(s, i); }
    case CheckReady(i, ready) => if At(s, i, Registered) { MoveKeeps(s, i, if ready then Asking else ReturnedEarly); }
    case Ask(i, sent) => if At(s, i, Asking) { MoveKeeps(s, i, if sent then Waiting else Failed); }
    case GiveUp(i) => if At(s, i, Waiting) { MoveKeeps(s, i, Failed); }
    case Wake(i) => if At(s, i, Waiting) && s.openers[i].id in s.registry.signals { MoveKeeps(s, i, Signalled); }
    case Confirm(i) =>
      if At(s, i, Signalled) {
        MoveKeeps(s, i, ReturnedWaited);
        var mid := Client(s.registry, Moved(s, i, ReturnedWaited));
        UpdateKeeps(s.registry, s.openers[i].id, SetOpened);
        ProgressKeepsOpeners(mid, OnChannel(s.registry, s.openers[i].id, SetOpened));
        BeforeIsTransitive(s, mid, Next(s, step));
      }
    case RouterReceive(m) => ReceiveKeeps(s.registry, m); ProgressKeepsOpeners(s, Receive(s.registry, m));
    case RouterPassOn => PassOnKeeps(s.registry); ProgressKeepsOpeners(s, PassOn(s.registry));
    case RouterSignal => SignalKeeps(s.registry); ProgressKeepsOpeners(s, Signal(s.registry));
    case Reconnect => SweepKeeps(s.registry); ProgressKeepsOpeners(s, Sweep(s.registry));
    case UserAction(id, a) => UpdateKeeps(s.registry, id, a); ProgressKeepsOpeners(s, OnChannel(s.registry, id, a));
  }

  lemma BeforeIsTransitive(s: Client, t: Client, u: Client)
    requires Before(s, t) && Before(t, u)
    ensures Before(s, u)
  {
    forall k | k in s.registry.channels
      ensures k in u.registry.channels && Earlier(s.registry.channels[k], u.registry.channels[k])
    {
      EarlierIsTransitive(s.registry.channels[k], t.registry.channels[k], u.registry.channels[k]);
    }
  }

  // ---------- Over whole runs ----------

  lemma {:induction false} RunKeepsInv(steps: seq<Step>)
    ensures Inv(Run(steps))
  {
    if steps != [] {
      RunKeepsInv(steps[..|steps| - 1]);
      NextKeepsInv(Run(steps[..|steps| - 1]), steps[|steps| - 1]);
    }
  }

  /** The registry only grows, and every channel in it only moves forward. */
  lemma {:induction false} RunsOnlyAdvance(before: seq<Step>, after: seq<Step>)
    ensures Before(Run(before), Run(before + after))
  {
    hide Inv, Before, Next;
    if after == [] {
      RunKeepsInv(before);
      StayKeeps(Run(before));
      assert before + after == before;
    } else {
      var front, last := after[..|after| - 1], after[|after| - 1];
      assert (before + after)[..|before + after| - 1] == before + front;
      RunsOnlyAdvance(before, front);
      RunKeepsInv(before + front);
      NextKeepsInv(Run(before + front), last);
      BeforeIsTransitive(Run(before), Run(before + front), Run(before + after));
    }
  }

  /** However openers interleave: ids are positive and no two openers get the same one, every
      channel is registered under its own id below the next one, and whoever is waited for is a
      registered channel or belongs to an opener between its two insertions. */
  lemma IdsAreUnique(steps: seq<Step>)
    ensures var s := Run(steps);
            && (forall i :: 0 <= i < |s.openers| ==> 1 <= s.openers[i].id < s.registry.next)
            && (forall i, j :: 0 <= i < j < |s.openers| ==> s.openers[i].id != s.openers[j].id)
            && (forall k :: k in s.registry.channels ==>
                  1 <= k < s.registry.next && s.registry.channels[k].id == k)
            && (forall k :: k in s.registry.pending ==>
                  k in s.registry.channels ||
                  exists i :: 0 <= i < |s.openers| && s.openers[i] == Opener(k, Stored))
  {
    RunKeepsInv(steps);
    var s := Run(steps);
    forall i | 0 <= i < |s.openers| ensures 1 <= s.openers[i].id < s.registry.next {
      assert OpenerInv(s.registry, s.openers[i]);
    }
    forall k | k in s.registry.pending && k !in s.registry.channels
      ensures exists i :: 0 <= i < |s.openers| && s.openers[i] == Opener(k, Stored)
    {
      var i :| 0 <= i < |s.openers| && s.openers[i].id == k;
      assert OpenerInv(s.registry, s.openers[i]);
      assert s.openers[i] == Opener(k, Stored);
    }
  }

  /** Every id in `openedIds` stems from a CHANNEL_OPENED message for that very channel. */
  lemma {:induction false} OpenedMeansReceived(steps: seq<Step>, id: nat)
    requires id in Run(steps).registry.openedIds
    ensures exists j :: 0 <= j < |steps| && steps[j].RouterReceive? && steps[j].m.channel == id && IsOpened(steps[j].m)
  {
    var front, last := steps[..|steps| - 1], steps[|steps| - 1];
    if id in Run(front).registry.openedIds {
      OpenedMeansReceived(front, id);
      var j :| 0 <= j < |front| && front[j].RouterReceive? && front[j].m.channel == id && IsOpened(front[j].m);
      assert steps[j] == front[j];
    } else {
      hide ChanStep;
      assert last.RouterReceive? && last.m.channel == id && IsOpened(last.m);
    }
  }

  /** A CHANNEL_OPENED for the registered channel begins to be processed with this step. */
  ghost predicate OpensAt(steps: seq<Step>, j: nat, id: nat)
    requires j < |steps|
  {
    Opening(Run(steps[..j]).registry, steps[j], id)
  }

  predicate Opening(r: Registry, step: Step, id: nat) {
    && step.RouterReceive? && step.m.channel == id && IsOpened(step.m)
    && id != 0 && id in r.channels && r.routing == AtRest
  }

  lemma OpenedIdsOfNext(s: Client, step: Step, id: nat)
    ensures id in Next(s, step).registry.openedIds <==> id in s.registry.openedIds || Opening(s.registry, step, id)
  {
    hide ChanStep;
  }

  lemma {:induction false} OpenedIffReceived(steps: seq<Step>, id: nat)
    ensures id in Run(steps).registry.openedIds <==> exists j :: 0 <= j < |steps| && OpensAt(steps, j, id)
  {
    hide Next, Opening;
    if steps != [] {
      var front, last := steps[..|steps| - 1], steps[|steps| - 1];
      OpenedIffReceived(front, id);
      OpenedIdsOfNext(Run(front), last, id);
      forall j | 0 <= j < |front| ensures OpensAt(front, j, id) == OpensAt(steps, j, id) {
        assert front[..j] == steps[..j];
      }
      assert OpensAt(steps, |front|, id) == Opening(Run(front).registry, last, id);
    }
  }

  /** Whenever the router is at rest, an opener that waits has been woken if and only if a
      CHANNEL_OPENED for its channel has been processed since the channel was registered. So it times
      out only if there was none in time. */
  lemma WokenIffOpened(steps: seq<Step>, i: nat)
    requires At(Run(steps), i, Waiting) && Run(steps).registry.routing == AtRest
    ensures var id := Run(steps).openers[i].id;
            id in Run(steps).registry.signals <==> exists j :: 0 <= j < |steps| && OpensAt(steps, j, id)
  {
    RunKeepsInv(steps);
    var s := Run(steps);
    assert OpenerInv(s.registry, s.openers[i]);
    OpenedIffReceived(steps, s.openers[i].id);
    hide Run, OpensAt;
  }

  /** An opener that waited and returned its channel was woken after a CHANNEL_OPENED for its own
      id had been received, and its channel is open or closed, never still requested. */
  lemma WaitedMeansOpened(steps: seq<Step>, i: nat)
    requires At(Run(steps), i, ReturnedWaited)
    ensures var s := Run(steps);
            var id := s.openers[i].id;
            && id in s.registry.channels
            && s.registry.channels[id].state != Requested
            && exists j :: 0 <= j < |steps| && steps[j].RouterReceive? && steps[j].m.channel == id
                 && IsOpened(steps[j].m)
  {
    RunKeepsInv(steps);
    var s := Run(steps);
    assert OpenerInv(s.registry, s.openers[i]);
    OpenedMeansReceived(steps, s.openers[i].id);
  }

  /** No waiting opener is signalled twice. One that still waits has been signalled already or can
      still be: its sender is never lost, so the only way to fail while waiting is the timeout. */
  lemma SignalledAtMostOnce(steps: seq<Step>)
    ensures var s := Run(steps);
            && (forall i, j :: 0 <= i < j < |s.registry.signals| ==> s.registry.signals[i] != s.registry.signals[j])
            && (forall i :: 0 <= i < |s.openers| && s.openers[i].phase == Waiting ==>
                  (s.openers[i].id in s.registry.pending <==> s.openers[i].id !in s.registry.signals))
  {
    RunKeepsInv(steps);
    var s := Run(steps);
    forall i | 0 <= i < |s.openers| && s.openers[i].phase == Waiting
      ensures s.openers[i].id in s.registry.pending <==> s.openers[i].id !in s.registry.signals
    {
      assert OpenerInv(s.registry, s.openers[i]);
    }
  }

  /** The life of every registered channel, whatever openers, users, the router and reconnects do:
      its notices climb without gaps in at most two changes to its current state, its messages name
      it, and its sends are queued only after it was opened. */
  lemma ChannelsKeepTheirInvariant(steps: seq<Step>, k: nat)
    requires k in Run(steps).registry.channels
    ensures var c := Run(steps).registry.channels[k];
            && Climbs(Requested, c.notices, c.state) && |c.notices| <= 2
            && (forall o :: o in c.outbox ==> o.channel == k && (o.origin == FromSend ==> EverOpened(c)))
  {
    RunKeepsInv(steps);
    var c := Run(steps).registry.channels[k];
    assert ChanInv(c);
    forall o | o in c.outbox ensures o in Queue(c) {
    }
  }

  /** Once a channel is closed, nothing that openers, users, the router or reconnects do gets another
      message of a sender past its checks, or more of them queued than were in flight already. */
  lemma ClosedChannelsSendNothing(before: seq<Step>, after: seq<Step>, k: nat, o: Outgoing)
    requires k in Run(before).registry.channels && Run(before).registry.channels[k].state == Closed
    requires o.origin == FromSend
    ensures k in Run(before + after).registry.channels
    ensures var c, d := Run(before).registry.channels[k], Run(before + after).registry.channels[k];
            && d.state == Closed
            && multiset(Queue(d))[o] <= multiset(Queue(c))[o]
            && multiset(d.outbox)[o] <= multiset(c.outbox)[o] + multiset(c.inFlight)[o]
  {
    RunsOnlyAdvance(before, after);
    hide Run;
    var c, d := Run(before).registry.channels[k], Run(before + after).registry.channels[k];
    assert Earlier(c, d);
  }

  // ---------- Routing ----------

  /** One message processed from beginning to end. */
  function Route(r: Registry, m: Incoming): Registry {
    Signal(PassOn(Receive(r, m)))
  }

  function RouteAll(r: Registry, messages: seq<Incoming>): Registry {
    if messages == [] then r
    else Route(RouteAll(r, messages[..|messages| - 1]), messages[|messages| - 1])
  }

  /** The messages addressed to one channel. */
  function For(messages: seq<Incoming>, d: nat): seq<Incoming> {
    if messages == [] then []
    else
      var last := messages[|messages| - 1];
      For(messages[..|messages| - 1], d) + if last.channel == d then [last] else []
  }

  /** What the registry holds about one channel. */
  predicate SameFor(r: Registry, t: Registry, d: nat) {
    && (d in r.channels <==> d in t.channels)
    && (d in r.channels ==> r.channels[d] == t.channels[d])
    && (d in r.pending <==> d in t.pending)
    && (d in r.openedIds <==> d in t.openedIds)
    && (d in r.signals <==> d in t.signals)
    && r.routing == t.routing
  }

  /** A message leaves everything about every other channel as it was. */
  lemma RouteIsLocal(r: Registry, m: Incoming, d: nat)
    requires r.routing == AtRest && d != m.channel
    ensures SameFor(r, Route(r, m), d)
  {
    hide ChanStep;
  }

  /** What a message does to its channel depends on nothing else. */
  lemma RouteDependsOnItsChannel(r: Registry, t: Registry, m: Incoming)
    requires r.routing == AtRest && SameFor(r, t, m.channel)
    ensures SameFor(Route(r, m), Route(t, m), m.channel)
  {
    hide ChanStep;
  }

  lemma SameForTransitive(r: Registry, t: Registry, u: Registry, d: nat)
    requires SameFor(r, t, d) && SameFor(t, u, d)
    ensures SameFor(r, u, d)
  {
  }

  lemma {:induction false} RoutingReleases(r: Registry, messages: seq<Incoming>)
    requires r.routing == AtRest
    ensures RouteAll(r, messages).routing == AtRest
  {
    hide ChanStep;
    if messages != [] {
      RoutingReleases(r, messages[..|messages| - 1]);
    }
  }

  /** Isolation: after any sequence of messages, a channel's state, its log of delivered messages
      and its waiting opener are exactly what the messages addressed to it alone would have made
      them. */
  lemma {:induction false} RoutingIsIsolated(r: Registry, messages: seq<Incoming>, d: nat)
    requires r.routing == AtRest
    ensures SameFor(RouteAll(r, messages), RouteAll(r, For(messages, d)), d)
  {
    hide Route, SameFor;
    if messages == [] {
      assert SameFor(r, r, d) by {
        SameForReflexive(r, d);
      }
    } else {
      var front, last := messages[..|messages| - 1], messages[|messages| - 1];
      var a, b := RouteAll(r, front), RouteAll(r, For(front, d));
      RoutingIsIsolated(r, front, d);
      RoutingReleases(r, front);
      if last.channel == d {
        RouteDependsOnItsChannel(a, b, last);
        var mine := For(front, d) + [last];
        assert mine[..|mine| - 1] == For(front, d);
      } else {
        RouteIsLocal(a, last, d);
        SameForSymmetric(a, Route(a, last), d);
        SameForTransitive(Route(a, last), a, b, d);
        assert For(front, d) + [] == For(front, d);
      }
    }
  }

  lemma SameForReflexive(r: Registry, d: nat)
    ensures SameFor(r, r, d)
  {
  }

  lemma SameForSymmetric(r: Registry, t: Registry, d: nat)
    requires SameFor(r, t, d)
    ensures SameFor(t, r, d)
  {
  }

  /** A message for the connection itself, on channel 0, reaches no channel: in any run, no channel
      is registered under 0, and such a message changes nothing in the registry. */
  lemma ConnectionMessagesReachNoChannel(steps: seq<Step>, m: Incoming)
    requires m.channel == 0
    ensures 0 !in Run(steps).registry.channels
    ensures Next(Run(steps), RouterReceive(m)) == Run(steps)
  {
    RunKeepsInv(steps);
  }

  // ---------- What routing does ----------

  /** A message for a channel that is not registered, and an error, change nothing. Any other message is
      passed on to whoever listens on its channel; a CHANNEL_OPENED first opens the channel if it was
      requested, and finally wakes the opener that waits for it. */
  lemma RouteMeans(r: Registry, m: Incoming)
    requires r.routing == AtRest
    ensures var t := Route(r, m);
            var k := m.channel;
            if k == 0 || k !in r.channels || m.message.mtype == "ERROR" then t == r
            else
              var c, d := r.channels[k], t.channels[k];
              && t.channels == r.channels[k := d] && t.routing == AtRest && t.next == r.next
              && d.deliveries == c.deliveries + [Delivery(m.message, c.messageListeners)]
              && d.outbox == c.outbox && d.inFlight == c.inFlight && d.messageListeners == c.messageListeners
              && if m.message.mtype == "CHANNEL_OPENED" then
                   && d.state == (if c.state == Requested then Opened else c.state)
                   && t.pending == r.pending - {k}
                   && t.signals == r.signals + (if k in r.pending then [k] else [])
                 else
                   d.state == c.state && d.notices == c.notices && t.pending == r.pending && t.signals == r.signals
  {
  }

  /** A reconnect asks every open and requested channel to be requested, which changes none of them. */
  lemma ReconnectChangesNothing(r: Registry)
    ensures Sweep(r) == r
  {
    if r.routing == AtRest {
      forall k | k in r.channels ensures SweepOne(r.channels[k]) == r.channels[k] {
      }
      assert Sweep(r).channels == r.channels;
    }
  }

  /** What a user does to a channel happens to it, and to no other. */
  lemma UsersAct(s: Client, id: nat, a: ChanAction)
    ensures var t := Next(s, UserAction(id, a));
            && t.openers == s.openers && t.registry.channels.Keys == s.registry.channels.Keys
            && (forall k :: k in s.registry.channels && k != id ==> t.registry.channels[k] == s.registry.channels[k])
            && (id in s.registry.channels ==> t.registry.channels[id] == ChanStep(s.registry.channels[id], a))
  {
  }

  // ---------- What becomes of an opener ----------

  /** Ids are given out one after the other from 1. */
  lemma {:induction false} IdsAreConsecutive(steps: seq<Step>)
    ensures var s := Run(steps);
            s.registry.next == |s.openers| + 1 && forall i :: 0 <= i < |s.openers| ==> s.openers[i].id == i + 1
  {
    if steps != [] {
      IdsAreConsecutive(steps[..|steps| - 1]);
      NextIsConsecutive(Run(steps[..|steps| - 1]), steps[|steps| - 1]);
    }
  }

  ghost predicate Consecutive(s: Client) {
    s.registry.next == |s.openers| + 1 && forall i :: 0 <= i < |s.openers| ==> s.openers[i].id == i + 1
  }

  lemma NextIsConsecutive(s: Client, step: Step)
    requires Consecutive(s)
    ensures Consecutive(Next(s, step))
  {
    hide ChanStep;
  }

  /** How an opener can have come to where it is. */
  predicate Explained(phase: Phase, foundReady: bool, foundNotReady: bool, asked: bool, failed: bool) {
    match phase
    case Allocated => true
    case Stored => true
    case Registered => true
    case Asking => foundReady
    case Waiting => foundReady && asked
    case Signalled => foundReady && asked
    case ReturnedWaited => foundReady && asked
    case ReturnedEarly => foundNotReady
    case Failed => foundReady && failed
  }

  ghost predicate ExplainedBy(steps: seq<Step>, i: nat, phase: Phase) {
    Explained(phase, Occurs(steps, CheckReady(i, true)), Occurs(steps, CheckReady(i, false)),
              Occurs(steps, Ask(i, true)), Occurs(steps, Ask(i, false)) || Occurs(steps, GiveUp(i)))
  }

  lemma ExplainedMore(steps: seq<Step>, i: nat, phase: Phase)
    requires steps != [] && ExplainedBy(steps[..|steps| - 1], i, phase)
    ensures ExplainedBy(steps, i, phase)
  {
    OccursSnoc(steps, CheckReady(i, true));
    OccursSnoc(steps, CheckReady(i, false));
    OccursSnoc(steps, Ask(i, true));
    OccursSnoc(steps, Ask(i, false));
    OccursSnoc(steps, GiveUp(i));
  }

  /** An opener moves only with its own steps. */
  lemma PhaseOfNext(s: Client, step: Step, i: nat)
    requires i < |s.openers|
    ensures var p, q := s.openers[i].phase, Next(s, step).openers[i].phase;
            || q == p
            || (step == Store(i) && p == Allocated && q == Stored)
            || (step == Register(i) && p == Stored && q == Registered)
            || (step == CheckReady(i, true) && p == Registered && q == Asking)
            || (step == CheckReady(i, false) && p == Registered && q == ReturnedEarly)
            || (step == Ask(i, true) && p == Asking && q == Waiting)
            || (step == Ask(i, false) && p == Asking && q == Failed)
            || (step == GiveUp(i) && p == Waiting && q == Failed)
            || (step == Wake(i) && p == Waiting && q == Signalled)
            || (step == Confirm(i) && p == Signalled && q == ReturnedWaited)
  {
    hide ChanStep, Receive, PassOn, Signal, Sweep, OnChannel;
  }

  /** Over every run: an opener returns early only if it has found the client not connected or not
      authorized; it fails only if the request could not be sent or its time was up; and whoever waits,
      or has waited, has found the client ready and has asked. */
  lemma {:induction false} OpenersAreExplained(steps: seq<Step>, i: nat)
    requires i < |Run(steps).openers|
    ensures ExplainedBy(steps, i, Run(steps).openers[i].phase)
  {
    hide Next, ExplainedBy;
    var front, last := steps[..|steps| - 1], steps[|steps| - 1];
    if i < |Run(front).openers| {
      OpenersAreExplained(front, i);
      PhaseOfNext(Run(front), last, i);
      ExplainedMore(steps, i, Run(front).openers[i].phase);
      ExplainedStep(steps, i, Run(front).openers[i].phase, Run(steps).openers[i].phase);
    } else {
      NewOpeners(Run(front), last, i);
      JustAllocated(steps, i);
    }
  }

  lemma JustAllocated(steps: seq<Step>, i: nat)
    ensures ExplainedBy(steps, i, Allocated)
  {
  }

  lemma NewOpeners(s: Client, step: Step, i: nat)
    requires |s.openers| <= i < |Next(s, step).openers|
    ensures Next(s, step).openers[i].phase == Allocated
  {
    hide ChanStep, Receive, PassOn, Signal, Sweep, OnChannel;
  }

  lemma ExplainedStep(steps: seq<Step>, i: nat, p: Phase, q: Phase)
    requires steps != [] && ExplainedBy(steps, i, p)
    requires var step := steps[|steps| - 1];
             || q == p || q == Stored || q == Registered
             || (step == CheckReady(i, true) && q == Asking)
             || (step == CheckReady(i, false) && q == ReturnedEarly)
             || (step == Ask(i, true) && p == Asking && q == Waiting)
             || (step == Ask(i, false) && p == Asking && q == Failed)
             || (step == GiveUp(i) && p == Waiting && q == Failed)
             || (p == Waiting && q == Signalled)
             || (p == Signalled && q == ReturnedWaited)
    ensures ExplainedBy(steps, i, q)
  {
    OccursSnoc(steps, CheckReady(i, true));
    OccursSnoc(steps, CheckReady(i, false));
    OccursSnoc(steps, Ask(i, true));
    OccursSnoc(steps, Ask(i, false));
    OccursSnoc(steps, GiveUp(i));
  }

  /** And it works: from every state the client can be in, with the router at rest, a new opener that
      finds the client ready and is answered gets its channel, open. */
  lemma OpeningSucceeds(s: Client, payload: JsonModel.Json)
    requires Inv(s) && s.registry.routing == AtRest
    ensures var i, id := |s.openers|, s.registry.next;
            var ready := Next(Next(Next(Next(s, Allocate), Store(i)), Register(i)), CheckReady(i, true));
            var asked := Next(ready, Ask(i, true));
            var answer := Incoming(id, ChannelMessage("CHANNEL_OPENED", payload));
            var routed := Client(Route(asked.registry, answer), asked.openers);
            var t := Next(Next(routed, Wake(i)), Confirm(i));
            && At(asked, i, Waiting) && asked.registry.channels[id].state == Requested
            && At(t, i, ReturnedWaited) && t.openers[i].id == id
            && id in t.registry.channels && t.registry.channels[id].state == Opened
  {
    hide Inv;
    var i, id := |s.openers|, s.registry.next;
    var a1 := Next(s, Allocate);
    assert a1 == Client(s.registry.(next := id + 1), s.openers + [Opener(id, Allocated)]);
    var a2 := Next(a1, Store(i));
    assert a2.openers == s.openers + [Opener(id, Stored)];
    var a3 := Next(a2, Register(i));
    assert a3.openers == s.openers + [Opener(id, Registered)] && a3.registry.channels[id] == NewChan(id);
    var a4 := Next(a3, CheckReady(i, true));
    assert a4.openers == s.openers + [Opener(id, Asking)] && a4.registry == a3.registry;
    var asked := Next(a4, Ask(i, true));
    assert asked.openers == s.openers + [Opener(id, Waiting)] && asked.registry == a3.registry;
    assert id in asked.registry.pending && asked.registry.routing == AtRest;
    NextIsPositive(s);
    var answer := Incoming(id, ChannelMessage("CHANNEL_OPENED", payload));
    RouteMeans(asked.registry, answer);
    hide Next, Route;
    var routed := Client(Route(asked.registry, answer), asked.openers);
    assert routed.registry.signals == asked.registry.signals + [id];
    WakeAndConfirm(routed, i, id);
  }

  lemma NextIsPositive(s: Client)
    requires Inv(s)
    ensures s.registry.next >= 1
  {
  }

  lemma WakeAndConfirm(s: Client, i: nat, id: nat)
    requires At(s, i, Waiting) && s.openers[i].id == id && id in s.registry.signals
    requires id in s.registry.channels && s.registry.channels[id].state == Opened
    ensures var t := Next(Next(s, Wake(i)), Confirm(i));
            && At(t, i, ReturnedWaited) && t.openers[i].id == id
            && id in t.registry.channels && t.registry.channels[id].state == Opened
  {
  }

  /** An opener that waits can give up at any moment, and then has failed, and nothing else changes. */
  lemma GivingUp(s: Client, i: nat)
    requires At(s, i, Waiting)
    ensures Next(s, GiveUp(i)) == Client(s.registry, s.openers[i := Opener(s.openers[i].id, Failed)])
  {
  }

  /** Before it returns, an opener that was woken opens its channel once more, which never changes
      anything: in every reachable state, whoever was woken finds the channel opened or closed. */
  lemma ConfirmingChangesNoChannel(steps: seq<Step>, i: nat)
    requires At(Run(steps), i, Signalled)
    ensures Next(Run(steps), Confirm(i)).registry == Run(steps).registry
  {
    RunKeepsInv(steps);
    var s := Run(steps);
    hide Run;
    assert OpenerInv(s.registry, s.openers[i]);
    var id := s.openers[i].id;
    assert ChanStep(s.registry.channels[id], SetOpened) == s.registry.channels[id];
    assert s.registry.channels[id := s.registry.channels[id]] == s.registry.channels;
  }
}
