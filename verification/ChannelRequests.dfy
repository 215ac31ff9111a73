/**
  Who asks the server for a channel.

  An opener that has registered its channel asks for it if it finds the client connected and
  authorized. An answer that authorizes the client spawns the change of the authorization state,
  looks at the connection, and then goes over the registered channels and asks for those that are
  still requested. Whoever holds the channel can ask for it as well, and can close it. The opener
  reads the two states and the answer changes one of them at separate moments, so a channel can fall
  between the two.

  A sweep holds the registry from its first channel to its last, but not the channels: they can be
  opened and closed meanwhile. Answers are processed concurrently.
 */
module ChannelRequests {
  import opened ChannelModel
  import opened Wrappers

  /** How far an opener has got after registering its channel. */
  datatype Phase = Registered | Connected | Asking | Finished

  /** How far the processing of an answer that authorizes has got: past spawning the change of state;
      past finding the client connected; in the middle of the sweep, with these channels still to be
      visited; or over. */
  datatype Pass = Arrived | Looked | Sweeping(todo: set<nat>) | Over

  datatype Held = Held(state: ChannelState, opener: Phase)

  /** `writes` counts the spawned changes to authorized that have not been made yet. `sweeper` is the
      pass that holds the registry. `sent` holds the channels asked for, as often as they were. */
  datatype Requests = Requests(
    connected: bool,
    authorized: bool,
    writes: nat,
    passes: seq<Pass>,
    sweeper: Option<nat>,
    channels: map<nat, Held>,
    sent: multiset<nat>)

  const INIT := Requests(false, false, 0, [], None, map[], multiset{})

  /** SetterAuthorizes is a use of the public setter of the authorization state. */
  datatype Step =
    | ConnectionChanges(up: bool)
    | AuthorizationIsLost
    | AuthorizationIsWritten
    | SetterAuthorizes
    | Answer
    | AnswerLooks(i: nat)
    | SweepBegins(i: nat)
    | SweepVisits(i: nat, id: nat)
    | SweepEnds(i: nat)
    | Register(id: nat)
    | LookAtConnection(id: nat)
    | LookAtAuthorization(id: nat)
    | OpenerAsks(id: nat)
    | ChannelMoves(id: nat, to: ChannelState)
    | HolderRequests(id: nat)
    | HolderSends(id: nat)

  predicate At(s: Requests, id: nat, phase: Phase) {
    id in s.channels && s.channels[id].opener == phase
  }

  predicate InState(s: Requests, id: nat, state: ChannelState) {
    id in s.channels && s.channels[id].state == state
  }

  predicate PassAt(s: Requests, i: nat, pass: Pass) {
    i < |s.passes| && s.passes[i] == pass
  }

  predicate WillVisit(s: Requests, i: nat, id: nat) {
    i < |s.passes| && s.passes[i].Sweeping? && id in s.passes[i].todo
  }

  function WithPhase(s: Requests, id: nat, phase: Phase): Requests
    requires id in s.channels
  {
    s.(channels := s.channels[id := s.channels[id].(opener := phase)])
  }

  function Moved(s: Requests, id: nat, to: ChannelState): Requests {
    if id in s.channels && Allowed(s.channels[id].state, to)
    then s.(channels := s.channels[id := s.channels[id].(state := to)])
    else s
  }

  function Visited(s: Requests, i: nat, id: nat): Requests
    requires WillVisit(s, i, id)
  {
    s.(passes := s.passes[i := Sweeping(s.passes[i].todo - {id})],
       sent := if InState(s, id, Requested) then s.sent + multiset{id} else s.sent)
  }

  /** A step that is not possible does nothing. A request of the holder is made in any state; a request
      sent as a message, only on an open channel. */
  function Next(s: Requests, step: Step): Requests {
    match step
    case ConnectionChanges(up) => s.(connected := up)
    case AuthorizationIsLost => s.(authorized := false)
    case AuthorizationIsWritten => if s.writes == 0 then s else s.(writes := s.writes - 1, authorized := true)
    case SetterAuthorizes => s.(writes := s.writes + 1)
    case Answer => s.(writes := s.writes + 1, passes := s.passes + [Arrived])
    case AnswerLooks(i) =>
      if PassAt(s, i, Arrived) then s.(passes := s.passes[i := if s.connected then Looked else Over]) else s
    case SweepBegins(i) =>
      if PassAt(s, i, Looked) && s.sweeper == None
      then s.(passes := s.passes[i := Sweeping(s.channels.Keys)], sweeper := Some(i))
      else s
    case SweepVisits(i, id) => if WillVisit(s, i, id) then Visited(s, i, id) else s
    case SweepEnds(i) =>
      if PassAt(s, i, Sweeping({})) then s.(passes := s.passes[i := Over], sweeper := None) else s
    case Register(id) =>
      if id in s.channels || s.sweeper != None then s
      else s.(channels := s.channels[id := Held(Requested, Registered)])
    case LookAtConnection(id) =>
      if At(s, id, Registered) then WithPhase(s, id, if s.connected then Connected else Finished) else s
    case LookAtAuthorization(id) =>
      if At(s, id, Connected) then WithPhase(s, id, if s.authorized then Asking else Finished) else s
    case OpenerAsks(id) =>
      if At(s, id, Asking) then WithPhase(s, id, Finished).(sent := s.sent + multiset{id}) else s
    case ChannelMoves(id, to) => Moved(s, id, to)
    case HolderRequests(id) => if id in s.channels then s.(sent := s.sent + multiset{id}) else s
    case HolderSends(id) => if InState(s, id, Opened) then s.(sent := s.sent + multiset{id}) else s
  }

  function Run(steps: seq<Step>): Requests {
    if steps == [] then INIT else Next(Run(steps[..|steps| - 1]), steps[|steps| - 1])
  }

  // ---------- What every run keeps ----------

  predicate AskedOrPast(s: Requests, id: nat) {
    id in s.sent || !InState(s, id, Requested)
  }

  /** Only registered channels are asked for. A pass is sweeping exactly while it holds the registry,
      and then it has asked for whatever it has passed and is still requested. */
  ghost predicate Inv(s: Requests) {
    && (forall k :: k in s.sent ==> k in s.channels)
    && (forall i :: 0 <= i < |s.passes| ==> (s.passes[i].Sweeping? <==> s.sweeper == Some(i)))
    && (s.sweeper.Some? ==>
          && s.sweeper.value < |s.passes|
          && s.passes[s.sweeper.value].todo <= s.channels.Keys
          && forall k :: k in s.channels && k !in s.passes[s.sweeper.value].todo ==> AskedOrPast(s, k))
  }

  function Rank(phase: Phase): nat {
    match phase
    case Registered => 0
    case Connected => 1
    case Asking => 2
    case Finished => 3
  }

  /** Channels stay registered, and asked for once they were; they never come back to Requested; and
      openers only get further. */
  ghost predicate Later(s: Requests, t: Requests) {
    && s.channels.Keys <= t.channels.Keys
    && s.sent <= t.sent
    && (forall k :: k in s.channels && InState(t, k, Requested) ==> InState(s, k, Requested))
    && (forall k :: k in s.channels ==> Rank(s.channels[k].opener) <= Rank(t.channels[k].opener))
  }

  lemma NextIsLater(s: Requests, step: Step)
    ensures Later(s, Next(s, step))
  {
  }

  lemma ChannelStepKeepsInv(s: Requests, t: Requests)
    requires Inv(s) && Later(s, t) && t.passes == s.passes && t.sweeper == s.sweeper
    requires s.sweeper.Some? ==> t.channels.Keys == s.channels.Keys
    requires forall k :: k in t.sent ==> k in t.channels
    ensures Inv(t)
  {
    if s.sweeper.Some? {
      forall k | k in t.channels && k !in t.passes[t.sweeper.value].todo ensures AskedOrPast(t, k) {
        assert AskedOrPast(s, k);
      }
    }
  }

  lemma VisitKeepsInv(s: Requests, i: nat, id: nat)
    requires Inv(s) && WillVisit(s, i, id)
    ensures Inv(Visited(s, i, id))
  {
    var t := Visited(s, i, id);
    assert forall k :: InState(t, k, Requested) == InState(s, k, Requested);
    forall k | k in t.channels && k !in t.passes[i].todo ensures AskedOrPast(t, k) {
      assert k != id ==> AskedOrPast(s, k);
    }
  }

  predicate IsPassStep(step: Step) {
    step.Answer? || step.AnswerLooks? || step.SweepBegins? || step.SweepVisits? || step.SweepEnds?
  }

  lemma PassStepKeepsInv(s: Requests, step: Step)
    requires Inv(s) && IsPassStep(step)
    ensures Inv(Next(s, step))
  {
    hide AskedOrPast;
    if step.SweepVisits? {
      if WillVisit(s, step.i, step.id) {
        VisitKeepsInv(s, step.i, step.id);
      }
    } else {
      SameSentAndChannels(s, Next(s, step));
    }
  }

  lemma SameSentAndChannels(s: Requests, t: Requests)
    requires s.sent == t.sent && s.channels == t.channels
    ensures forall k :: AskedOrPast(t, k) == AskedOrPast(s, k)
  {
  }

  lemma OtherStepKeepsPasses(s: Requests, step: Step)
    requires !IsPassStep(step)
    ensures Next(s, step).passes == s.passes && Next(s, step).sweeper == s.sweeper
    ensures s.sweeper.Some? ==> Next(s, step).channels.Keys == s.channels.Keys
  {
  }

  lemma NextKeepsInv(s: Requests, step: Step)
    requires Inv(s)
    ensures Inv(Next(s, step))
  {
    NextIsLater(s, step);
    SentAreRegistered(s, step);
    hide Next, Inv, Later;
    if IsPassStep(step) {
      PassStepKeepsInv(s, step);
    } else {
      OtherStepKeepsPasses(s, step);
      ChannelStepKeepsInv(s, Next(s, step));
    }
  }

  lemma SentAreRegistered(s: Requests, step: Step)
    requires Inv(s)
    ensures forall k :: k in Next(s, step).sent ==> k in Next(s, step).channels
  {
  }

  lemma {:induction false} RunKeepsInv(steps: seq<Step>)
    ensures Inv(Run(steps))
  {
    hide Next, Inv;
    if steps == [] {
      assert Inv(INIT) by {
        InitInv();
      }
    } else {
      RunKeepsInv(steps[..|steps| - 1]);
      NextKeepsInv(Run(steps[..|steps| - 1]), steps[|steps| - 1]);
    }
  }

  lemma InitInv()
    ensures Inv(INIT)
  {
  }

  lemma {:induction false} RunIsLater(steps: seq<Step>, j: nat)
    requires j <= |steps|
    ensures Later(Run(steps[..j]), Run(steps))
  {
    hide Next, Later;
    if j == |steps| {
      assert steps[..j] == steps;
      assert Later(Run(steps), Run(steps)) by {
        NothingIsLater(Run(steps));
      }
    } else {
      var front := steps[..|steps| - 1];
      assert front[..j] == steps[..j];
      RunIsLater(front, j);
      NextIsLater(Run(front), steps[|front|]);
      LaterIsTransitive(Run(steps[..j]), Run(front), Run(steps));
    }
  }

  lemma NothingIsLater(s: Requests)
    ensures Later(s, s)
  {
  }

  lemma LaterIsTransitive(s: Requests, t: Requests, u: Requests)
    requires Later(s, t) && Later(t, u)
    ensures Later(s, u)
  {
  }

  // ---------- Exactly when somebody has asked ----------

  predicate Registers(s: Requests, step: Step, id: nat) {
    step == Register(id) && id !in s.channels && s.sweeper == None
  }

  /** A sweep comes to the channel and finds it still requested. */
  predicate SweepAsks(s: Requests, step: Step, id: nat) {
    step.SweepVisits? && step.id == id && WillVisit(s, step.i, id) && InState(s, id, Requested)
  }

  predicate OwnOpenerAsks(s: Requests, step: Step, id: nat) {
    step == OpenerAsks(id) && At(s, id, Asking)
  }

  predicate HolderAsks(s: Requests, step: Step, id: nat) {
    (step == HolderRequests(id) && id in s.channels) || (step == HolderSends(id) && InState(s, id, Opened))
  }

  predicate Asks(s: Requests, step: Step, id: nat) {
    SweepAsks(s, step, id) || OwnOpenerAsks(s, step, id) || HolderAsks(s, step, id)
  }

  lemma SentOfNext(s: Requests, step: Step, id: nat)
    ensures Next(s, step).sent[id] == s.sent[id] + if Asks(s, step, id) then 1 else 0
  {
  }

  /** How often the steps from r on ask for the channel. */
  function TimesAsked(steps: seq<Step>, r: nat, id: nat): nat
    requires r <= |steps|
  {
    if r == |steps| then 0
    else
      var front := steps[..|steps| - 1];
      TimesAsked(front, r, id) + if Asks(Run(front), steps[|front|], id) then 1 else 0
  }

  lemma {:induction false} SentSince(steps: seq<Step>, r: nat, id: nat)
    requires r <= |steps|
    ensures Run(steps).sent[id] == Run(steps[..r]).sent[id] + TimesAsked(steps, r, id)
  {
    hide Next, Asks;
    if r == |steps| {
      assert steps[..r] == steps;
    } else {
      var front := steps[..|steps| - 1];
      assert front[..r] == steps[..r];
      SentSince(front, r, id);
      SentOfNext(Run(front), steps[|front|], id);
    }
  }

  ghost predicate AsksAt(steps: seq<Step>, j: nat, id: nat)
    requires j < |steps|
  {
    Asks(Run(steps[..j]), steps[j], id)
  }

  lemma {:induction false} AskedAtSomePoint(steps: seq<Step>, r: nat, id: nat)
    requires r <= |steps|
    ensures TimesAsked(steps, r, id) > 0 <==> exists j :: r <= j < |steps| && AsksAt(steps, j, id)
  {
    hide Asks, Run;
    if r < |steps| {
      var front := steps[..|steps| - 1];
      AskedAtSomePoint(front, r, id);
      forall j | r <= j < |front| ensures AsksAt(front, j, id) == AsksAt(steps, j, id) {
        assert front[..j] == steps[..j];
      }
      assert AsksAt(steps, |front|, id) == Asks(Run(front), steps[|front|], id);
    }
  }

  lemma RegisteringIsFirst(s: Requests, step: Step, id: nat)
    requires Inv(s) && Registers(s, step, id)
    ensures s.sent[id] == 0 && !Asks(s, step, id)
  {
  }

  /** Over every run, a channel has been asked for as often as, since it was registered, a sweep has
      come to it while it was still requested, its opener has asked, or its holder has. */
  lemma RequestedAsOften(steps: seq<Step>, r: nat, id: nat)
    requires r < |steps| && Registers(Run(steps[..r]), steps[r], id)
    ensures Run(steps).sent[id] == TimesAsked(steps, r, id)
  {
    RunKeepsInv(steps[..r]);
    RegisteringIsFirst(Run(steps[..r]), steps[r], id);
    SentSince(steps, r, id);
  }

  /** So it has been asked for exactly if one of these has happened. */
  lemma RequestedIff(steps: seq<Step>, r: nat, id: nat)
    requires r < |steps| && Registers(Run(steps[..r]), steps[r], id)
    ensures id in Run(steps).sent <==> exists j :: r < j < |steps| && AsksAt(steps, j, id)
  {
    hide Run, Asks, Registers;
    RequestedAsOften(steps, r, id);
    AskedAtSomePoint(steps, r, id);
    assert !AsksAt(steps, r, id) by {
      RunKeepsInv(steps[..r]);
      RegisteringIsFirst(Run(steps[..r]), steps[r], id);
    }
  }

  // ---------- Sweeps ----------

  ghost predicate SweepReaches(s: Requests, i: nat, id: nat) {
    && i < |s.passes| && id in s.channels
    && (s.passes[i] == Over || s.passes[i].Sweeping?)
    && (WillVisit(s, i, id) || AskedOrPast(s, id))
  }

  lemma SweepGoesOn(s: Requests, step: Step, i: nat, id: nat)
    requires SweepReaches(s, i, id)
    ensures SweepReaches(Next(s, step), i, id)
  {
    NextIsLater(s, step);
    var t := Next(s, step);
    assert t.passes[i] == s.passes[i] || step == SweepEnds(i) || (step.SweepVisits? && step.i == i);
    assert AskedOrPast(s, id) ==> AskedOrPast(t, id);
  }

  lemma SweepStarts(s: Requests, i: nat, id: nat)
    requires PassAt(s, i, Looked) && s.sweeper == None && id in s.channels
    ensures SweepReaches(Next(s, SweepBegins(i)), i, id)
  {
    assert WillVisit(Next(s, SweepBegins(i)), i, id);
  }

  /** A sweep that is over has asked for every channel that was registered when it began, unless the
      channel was opened or closed before the sweep came to it. */
  lemma {:induction false} SweepsReachAll(steps: seq<Step>, b: nat, i: nat, id: nat)
    requires b < |steps| && steps[b] == SweepBegins(i)
    requires var s := Run(steps[..b]); PassAt(s, i, Looked) && s.sweeper == None && id in s.channels
    ensures SweepReaches(Run(steps), i, id)
    ensures PassAt(Run(steps), i, Over) ==> AskedOrPast(Run(steps), id)
  {
    hide Next, SweepReaches, AskedOrPast;
    var front := steps[..|steps| - 1];
    if b == |front| {
      SweepStarts(Run(front), i, id);
    } else {
      assert front[..b] == steps[..b];
      SweepsReachAll(front, b, i, id);
      SweepGoesOn(Run(front), steps[|front|], i, id);
    }
    ReachedWhenOver(Run(steps), i, id);
  }

  lemma ReachedWhenOver(s: Requests, i: nat, id: nat)
    requires SweepReaches(s, i, id)
    ensures PassAt(s, i, Over) ==> AskedOrPast(s, id)
  {
  }

  // ---------- Falling between the two ----------

  /** The connection stays up and the authorization, once written, stays. */
  ghost predicate Steady(steps: seq<Step>) {
    forall i :: 0 <= i < |steps| ==> steps[i] != ConnectionChanges(false) && steps[i] != AuthorizationIsLost
  }

  ghost predicate IsWritten(steps: seq<Step>, i: nat)
    requires i < |steps|
  {
    steps[i] == AuthorizationIsWritten && Run(steps[..i]).writes > 0
  }

  lemma AuthorizationOfNext(s: Requests, step: Step)
    requires step != AuthorizationIsLost
    ensures Next(s, step).authorized <==> s.authorized || (step == AuthorizationIsWritten && s.writes > 0)
  {
  }

  lemma {:induction false} AuthorizedIff(steps: seq<Step>)
    requires Steady(steps)
    ensures Run(steps).authorized <==> exists i :: 0 <= i < |steps| && IsWritten(steps, i)
  {
    hide Next;
    if steps != [] {
      var front, last := steps[..|steps| - 1], steps[|steps| - 1];
      AuthorizedIff(front);
      AuthorizationOfNext(Run(front), last);
      forall i | 0 <= i < |front| ensures IsWritten(front, i) == IsWritten(steps, i) {
        assert front[..i] == steps[..i];
      }
      assert IsWritten(steps, |front|) <==> last == AuthorizationIsWritten && Run(front).writes > 0;
    }
  }

  /** The opener of the channel looks at the authorization with this step. */
  ghost predicate LooksAt(steps: seq<Step>, l: nat, id: nat)
    requires l < |steps|
  {
    steps[l] == LookAtAuthorization(id) && At(Run(steps[..l]), id, Connected)
  }

  ghost predicate OpenerAsksAt(steps: seq<Step>, j: nat, id: nat)
    requires j < |steps|
  {
    OwnOpenerAsks(Run(steps[..j]), steps[j], id)
  }

  lemma PhaseOfNext(s: Requests, step: Step, id: nat)
    ensures At(s, id, Asking) ==> At(Next(s, step), id, if OwnOpenerAsks(s, step, id) then Finished else Asking)
    ensures At(s, id, Finished) ==> At(Next(s, step), id, Finished) && !OwnOpenerAsks(s, step, id)
    ensures step == LookAtAuthorization(id) && At(s, id, Connected) ==>
              At(Next(s, step), id, if s.authorized then Asking else Finished)
  {
  }

  /** After its look, the opener asks once if it has found the client authorized, and then has
      finished; and otherwise it has finished and does not ask. */
  lemma {:induction false} OpenerAsksIff(steps: seq<Step>, l: nat, id: nat)
    requires l < |steps| && LooksAt(steps, l, id)
    ensures At(Run(steps), id, Finished) || At(Run(steps), id, Asking)
    ensures At(Run(steps), id, Finished) <==>
              !Run(steps[..l]).authorized || exists j :: l < j < |steps| && OpenerAsksAt(steps, j, id)
    ensures !Run(steps[..l]).authorized ==> forall j :: l < j < |steps| ==> !OpenerAsksAt(steps, j, id)
  {
    hide Next, OwnOpenerAsks;
    var front, last := steps[..|steps| - 1], steps[|steps| - 1];
    PhaseOfNext(Run(front), last, id);
    if l < |front| {
      assert front[..l] == steps[..l];
      OpenerAsksIff(front, l, id);
      forall j | l < j < |front| ensures OpenerAsksAt(front, j, id) == OpenerAsksAt(steps, j, id) {
        assert front[..j] == steps[..j];
      }
      assert OpenerAsksAt(steps, |front|, id) == OwnOpenerAsks(Run(front), last, id);
    }
  }

  lemma AskingFinishes(s: Requests, step: Step, id: nat)
    requires OwnOpenerAsks(s, step, id)
    ensures At(Next(s, step), id, Finished)
  {
  }

  lemma FinishedIsLast(s: Requests, t: Requests, id: nat)
    requires Later(s, t) && At(s, id, Finished)
    ensures !At(t, id, Connected)
  {
  }

  /** The opener does not ask before it has looked. */
  lemma NoAskingBeforeLook(steps: seq<Step>, l: nat, j: nat, id: nat)
    requires l < |steps| && LooksAt(steps, l, id) && j <= l
    ensures !OpenerAsksAt(steps, j, id)
  {
    hide Next, Later, At;
    if j == l {
      assert steps[l] == LookAtAuthorization(id);
    } else if OpenerAsksAt(steps, j, id) {
      AskingFinishes(Run(steps[..j]), steps[j], id);
      assert steps[..j + 1][..j] == steps[..j];
      assert steps[..l][..j + 1] == steps[..j + 1];
      RunIsLater(steps[..l], j + 1);
      FinishedIsLast(Run(steps[..j + 1]), Run(steps[..l]), id);
    }
  }

  ghost predicate SweepAsksAt(steps: seq<Step>, j: nat, id: nat)
    requires j < |steps|
  {
    SweepAsks(Run(steps[..j]), steps[j], id)
  }

  ghost predicate HolderAsksAt(steps: seq<Step>, j: nat, id: nat)
    requires j < |steps|
  {
    HolderAsks(Run(steps[..j]), steps[j], id)
  }

  ghost predicate SweptSince(steps: seq<Step>, r: nat, id: nat) {
    exists j :: r < j < |steps| && SweepAsksAt(steps, j, id)
  }

  ghost predicate OpenerAskedSince(steps: seq<Step>, r: nat, id: nat) {
    exists j :: r < j < |steps| && OpenerAsksAt(steps, j, id)
  }

  ghost predicate HolderAskedSince(steps: seq<Step>, r: nat, id: nat) {
    exists j :: r < j < |steps| && HolderAsksAt(steps, j, id)
  }

  lemma AskedBySomebody(steps: seq<Step>, r: nat, id: nat)
    requires r < |steps| && Registers(Run(steps[..r]), steps[r], id)
    ensures id in Run(steps).sent <==>
            SweptSince(steps, r, id) || OpenerAskedSince(steps, r, id) || HolderAskedSince(steps, r, id)
  {
    RequestedIff(steps, r, id);
    hide Run, Registers, SweepAsks, OwnOpenerAsks, HolderAsks;
    forall j | r < j < |steps|
      ensures AsksAt(steps, j, id) <==>
              SweepAsksAt(steps, j, id) || OpenerAsksAt(steps, j, id) || HolderAsksAt(steps, j, id)
    {
    }
    hide AsksAt, SweepAsksAt, OpenerAsksAt, HolderAsksAt;
  }

  lemma OpenerAsksIffAuthorized(steps: seq<Step>, r: nat, l: nat, id: nat)
    requires r < l < |steps| && LooksAt(steps, l, id) && At(Run(steps), id, Finished)
    ensures OpenerAskedSince(steps, r, id) <==> Run(steps[..l]).authorized
  {
    OpenerAsksIff(steps, l, id);
    hide Run, LooksAt, OpenerAsksAt;
    forall j | r < j <= l ensures !OpenerAsksAt(steps, j, id) {
      NoAskingBeforeLook(steps, l, j, id);
    }
  }

  lemma WrittenBeforeIff(steps: seq<Step>, l: nat)
    requires Steady(steps) && l <= |steps|
    ensures Run(steps[..l]).authorized <==> exists i :: 0 <= i < l && IsWritten(steps, i)
  {
    AuthorizedIff(steps[..l]);
    hide Run;
    forall i | 0 <= i < l ensures IsWritten(steps[..l], i) == IsWritten(steps, i) {
      assert steps[..l][..i] == steps[..i];
    }
  }

  /** While the connection stays up and the authorization is not lost, a channel whose opener has
      finished is never asked for exactly if, since it was registered, no sweep has come to it while it
      was still requested and its holder has not asked, and the authorization was not yet written when
      its opener looked. */
  lemma LostIff(steps: seq<Step>, r: nat, l: nat, id: nat)
    requires Steady(steps) && r < l < |steps|
    requires Registers(Run(steps[..r]), steps[r], id)
    requires LooksAt(steps, l, id) && At(Run(steps), id, Finished)
    ensures id !in Run(steps).sent <==>
            && !SweptSince(steps, r, id) && !HolderAskedSince(steps, r, id)
            && (forall i :: 0 <= i < l ==> !IsWritten(steps, i))
  {
    hide Run, LooksAt, Registers, At, SweptSince, OpenerAskedSince, HolderAskedSince, IsWritten;
    AskedBySomebody(steps, r, id);
    OpenerAsksIffAuthorized(steps, r, l, id);
    WrittenBeforeIff(steps, l);
  }

  lemma RunSnoc(front: seq<Step>, s: Requests, step: Step, t: Requests)
    requires Run(front) == s && Next(s, step) == t
    ensures Run(front + [step]) == t
  {
    assert (front + [step])[..|front|] == front;
  }

  lemma AfterLook() returns (steps: seq<Step>)
    ensures steps == [ConnectionChanges(true), Answer, AnswerLooks(0)]
    ensures Run(steps) == Requests(true, false, 1, [Looked], None, map[], multiset{})
  {
    assert Run([]) == INIT;
    hide Run, Visited, Moved, WithPhase;
    var s1 := [] + [ConnectionChanges(true)];
    var a1 := INIT.(connected := true);
    RunSnoc([], INIT, ConnectionChanges(true), a1);
    var s2 := s1 + [Answer];
    var a2 := a1.(writes := 1, passes := [Arrived]);
    RunSnoc(s1, a1, Answer, a2);
    steps := s2 + [AnswerLooks(0)];
    RunSnoc(s2, a2, AnswerLooks(0), a2.(passes := [Looked]));
  }

  lemma AfterSweep() returns (steps: seq<Step>)
    ensures steps == [ConnectionChanges(true), Answer, AnswerLooks(0), SweepBegins(0), SweepEnds(0)]
    ensures Run(steps) == Requests(true, false, 1, [Over], None, map[], multiset{})
  {
    hide Run, Visited, Moved, WithPhase;
    var s1 := AfterLook();
    var a1 := Requests(true, false, 1, [Looked], None, map[], multiset{});
    var s2 := s1 + [SweepBegins(0)];
    var a2 := a1.(passes := [Sweeping({})], sweeper := Some(0));
    assert a1.channels.Keys == {};
    RunSnoc(s1, a1, SweepBegins(0), a2);
    steps := s2 + [SweepEnds(0)];
    RunSnoc(s2, a2, SweepEnds(0), a2.(passes := [Over], sweeper := None));
  }

  /** It happens: the channel is registered after the sweep, and its opener looks before the change of
      state is made. Connected and authorized, nobody has asked for the channel or is about to. */
  lemma RequestIsLost(id: nat) returns (steps: seq<Step>)
    ensures Steady(steps)
    ensures Run(steps) == Requests(true, true, 0, [Over], None, map[id := Held(Requested, Finished)], multiset{})
  {
    hide Run, Visited, Moved;
    var s1 := AfterSweep();
    var a1 := Requests(true, false, 1, [Over], None, map[], multiset{});
    var s2 := s1 + [Register(id)];
    var a2 := a1.(channels := map[id := Held(Requested, Registered)]);
    RunSnoc(s1, a1, Register(id), a2);
    var s3 := s2 + [LookAtConnection(id)];
    var a3 := a1.(channels := map[id := Held(Requested, Connected)]);
    RunSnoc(s2, a2, LookAtConnection(id), a3);
    var s4 := s3 + [LookAtAuthorization(id)];
    var a4 := a1.(channels := map[id := Held(Requested, Finished)]);
    RunSnoc(s3, a3, LookAtAuthorization(id), a4);
    steps := s4 + [AuthorizationIsWritten];
    RunSnoc(s4, a4, AuthorizationIsWritten, a4.(writes := 0, authorized := true));
  }

  // ---------- Exactly when it can still be asked for ----------

  function Continue(s: Requests, steps: seq<Step>): Requests
    decreases |steps|
  {
    if steps == [] then s else Continue(Next(s, steps[0]), steps[1..])
  }

  /** No answer arrives, and the holder of the channel does not ask. */
  predicate NoHelp(step: Step, id: nat) {
    step != Answer && step != HolderRequests(id) && step != HolderSends(id)
  }

  ghost predicate NoHelpIn(steps: seq<Step>, id: nat) {
    forall i :: 0 <= i < |steps| ==> NoHelp(steps[i], id)
  }

  ghost predicate WillBeAsked(s: Requests, id: nat) {
    exists more :: NoHelpIn(more, id) && id in Continue(s, more).sent
  }

  ghost predicate PassUnderWay(s: Requests) {
    exists i :: 0 <= i < |s.passes| && s.passes[i] != Over
  }

  lemma AskedBefore(s: Requests, step: Step, id: nat)
    requires NoHelp(step, id) && WillBeAsked(Next(s, step), id)
    ensures WillBeAsked(s, id)
  {
    var more :| NoHelpIn(more, id) && id in Continue(Next(s, step), more).sent;
    var all := [step] + more;
    assert all[1..] == more;
    assert NoHelpIn(all, id) && Continue(s, all) == Continue(Next(s, step), more);
  }

  lemma AskedAlready(s: Requests, id: nat)
    requires id in s.sent
    ensures WillBeAsked(s, id)
  {
    assert NoHelpIn([], id) && Continue(s, []) == s;
  }

  lemma VisitAsks(s: Requests, i: nat, id: nat)
    requires WillVisit(s, i, id) && InState(s, id, Requested)
    ensures WillBeAsked(s, id)
  {
    AskedAlready(Next(s, SweepVisits(i, id)), id);
    AskedBefore(s, SweepVisits(i, id), id);
  }

  lemma LookedAsks(s: Requests, i: nat, id: nat)
    requires PassAt(s, i, Looked) && s.sweeper == None && InState(s, id, Requested)
    ensures WillBeAsked(s, id)
  {
    VisitAsks(Next(s, SweepBegins(i)), i, id);
    AskedBefore(s, SweepBegins(i), id);
  }

  lemma UnderWayAsks(s: Requests, id: nat)
    requires Inv(s) && id !in s.sent && InState(s, id, Requested) && PassUnderWay(s)
    ensures WillBeAsked(s, id)
  {
    var i :| 0 <= i < |s.passes| && s.passes[i] != Over;
    if s.sweeper.Some? {
      assert !AskedOrPast(s, id);
      VisitAsks(s, s.sweeper.value, id);
    } else if s.passes[i] == Looked {
      LookedAsks(s, i, id);
    } else {
      var up := Next(s, ConnectionChanges(true));
      LookedAsks(Next(up, AnswerLooks(i)), i, id);
      AskedBefore(up, AnswerLooks(i), id);
      AskedBefore(s, ConnectionChanges(true), id);
    }
  }

  ghost predicate Forgotten(s: Requests, id: nat) {
    Inv(s) && At(s, id, Finished) && id !in s.sent && !(InState(s, id, Requested) && PassUnderWay(s))
  }

  lemma PassesOfNext(s: Requests, step: Step)
    requires step != Answer
    ensures PassUnderWay(Next(s, step)) ==> PassUnderWay(s)
  {
    var t := Next(s, step);
    if i :| 0 <= i < |t.passes| && t.passes[i] != Over {
      assert s.passes[i] != Over;
    }
  }

  lemma SweepIsUnderWay(s: Requests, step: Step, id: nat)
    ensures SweepAsks(s, step, id) ==> InState(s, id, Requested) && PassUnderWay(s)
  {
    if SweepAsks(s, step, id) {
      assert s.passes[step.i] != Over;
    }
  }

  lemma ForgottenStays(s: Requests, step: Step, id: nat)
    requires Forgotten(s, id) && NoHelp(step, id)
    ensures Forgotten(Next(s, step), id)
  {
    NextKeepsInv(s, step);
    NextIsLater(s, step);
    PassesOfNext(s, step);
    PhaseOfNext(s, step, id);
    SentOfNext(s, step, id);
    SweepIsUnderWay(s, step, id);
    hide Next;
  }

  lemma {:induction false} ForgottenForEver(s: Requests, more: seq<Step>, id: nat)
    requires Forgotten(s, id) && NoHelpIn(more, id)
    ensures Forgotten(Continue(s, more), id)
    decreases |more|
  {
    hide Next, Forgotten, NoHelp;
    if more != [] {
      ForgottenStays(s, more[0], id);
      ForgottenForEver(Next(s, more[0]), more[1..], id);
    }
  }

  lemma {:induction false} RunOfConcat(steps: seq<Step>, more: seq<Step>)
    ensures Run(steps + more) == Continue(Run(steps), more)
    decreases |more|
  {
    hide Next;
    if more == [] {
      assert steps + more == steps;
    } else {
      assert steps + more == (steps + [more[0]]) + more[1..];
      RunSnoc(steps, Run(steps), more[0], Next(Run(steps), more[0]));
      RunOfConcat(steps + [more[0]], more[1..]);
    }
  }

  /** At any moment of any run, a channel whose opener has finished and that has not been asked for can
      still be asked for, without another answer and without its holder, if and only if it is still
      requested and the processing of some answer is not over. */
  lemma StillAskedIff(steps: seq<Step>, id: nat)
    requires At(Run(steps), id, Finished) && id !in Run(steps).sent
    ensures (InState(Run(steps), id, Requested) && PassUnderWay(Run(steps))) <==>
            exists more :: NoHelpIn(more, id) && id in Run(steps + more).sent
  {
    RunKeepsInv(steps);
    var s := Run(steps);
    hide Run, Continue, NoHelpIn, Inv, PassUnderWay, Next;
    if InState(s, id, Requested) && PassUnderWay(s) {
      UnderWayAsks(s, id);
      var more :| NoHelpIn(more, id) && id in Continue(s, more).sent;
      RunOfConcat(steps, more);
    } else {
      forall more | NoHelpIn(more, id) ensures id !in Run(steps + more).sent {
        RunOfConcat(steps, more);
        ForgottenForEver(s, more, id);
      }
    }
  }

  /** Another answer brings a chance back: if the channel is still requested, some continuation asks for
      it, without its holder. */
  lemma AnAnswerHelps(steps: seq<Step>, id: nat)
    requires InState(Run(steps), id, Requested)
    ensures exists more :: NoHelpIn(more, id) && id in Run(steps + [Answer] + more).sent
  {
    RunKeepsInv(steps);
    var s := Run(steps);
    RunSnoc(steps, s, Answer, Next(s, Answer));
    NextKeepsInv(s, Answer);
    var t := Next(s, Answer);
    assert t.passes[|s.passes|] != Over && InState(t, id, Requested);
    if id in t.sent {
      AskedAlready(t, id);
    } else {
      UnderWayAsks(t, id);
    }
    hide Run, Continue, NoHelpIn, Next;
    var more :| NoHelpIn(more, id) && id in Continue(t, more).sent;
    RunOfConcat(steps + [Answer], more);
  }

  // ---------- Two passes for one message ----------

  /** The visits of a sweep in this order, with nothing in between. */
  function VisitAll(s: Requests, i: nat, order: seq<nat>): Requests
    decreases |order|
  {
    if order == [] then s else VisitAll(Next(s, SweepVisits(i, order[0])), i, order[1..])
  }

  lemma {:induction false} VisitAllAsksOnce(s: Requests, i: nat, order: seq<nat>, id: nat)
    requires i < |s.passes| && s.passes[i].Sweeping?
    requires forall k :: k in order <==> k in s.passes[i].todo
    requires forall m, n :: 0 <= m < n < |order| ==> order[m] != order[n]
    ensures var t := VisitAll(s, i, order);
            && t == s.(passes := s.passes[i := Sweeping({})], sent := t.sent)
            && t.sent[id] == s.sent[id] + if id in order && InState(s, id, Requested) then 1 else 0
    decreases |order|
  {
    if order != [] {
      var first, rest := order[0], order[1..];
      assert first in order;
      var t := Next(s, SweepVisits(i, first));
      forall k ensures k in rest <==> k in t.passes[i].todo {
        assert k in order <==> k == first || k in rest;
      }
      VisitAllAsksOnce(t, i, rest, id);
      assert InState(t, id, Requested) == InState(s, id, Requested);
    } else {
      assert s.passes[i].todo == {};
    }
  }

  /** One pass of an answer from its arrival to its end, with nothing in between. */
  function WholePass(s: Requests, order: seq<nat>): Requests {
    var i := |s.passes|;
    Next(VisitAll(Next(Next(Next(s, Answer), AnswerLooks(i)), SweepBegins(i)), i, order), SweepEnds(i))
  }

  lemma WholePassAsksOnce(s: Requests, order: seq<nat>, id: nat)
    requires s.sweeper == None && s.connected
    requires forall k :: k in order <==> k in s.channels
    requires forall m, n :: 0 <= m < n < |order| ==> order[m] != order[n]
    ensures var t := WholePass(s, order);
            && t.sweeper == None && t.connected && t.channels == s.channels
            && t.sent[id] == s.sent[id] + if InState(s, id, Requested) then 1 else 0
  {
    var i := |s.passes|;
    var t := Next(Next(Next(s, Answer), AnswerLooks(i)), SweepBegins(i));
    assert t == s.(writes := s.writes + 1, passes := s.passes + [Sweeping(s.channels.Keys)], sweeper := Some(i));
    VisitAllAsksOnce(t, i, order, id);
  }

  /** An AUTHORIZED message for the connection is processed twice in a row, so a channel that stays
      requested is asked for twice, and one that is opened or closed already is not asked for. */
  lemma AskedTwice(s: Requests, order: seq<nat>, again: seq<nat>, id: nat)
    requires s.sweeper == None && s.connected
    requires forall k :: k in order <==> k in s.channels
    requires forall m, n :: 0 <= m < n < |order| ==> order[m] != order[n]
    requires forall k :: k in again <==> k in s.channels
    requires forall m, n :: 0 <= m < n < |again| ==> again[m] != again[n]
    ensures WholePass(WholePass(s, order), again).sent[id]
         == s.sent[id] + if InState(s, id, Requested) then 2 else 0
  {
    hide WholePass;
    WholePassAsksOnce(s, order, id);
    WholePassAsksOnce(WholePass(s, order), again, id);
  }

  // ---------- What holders and channels do ----------

  /** A request of the holder asks in every state of the channel; one sent as a message, exactly while
      the channel is open. */
  lemma HoldersAsk(s: Requests, id: nat)
    requires id in s.channels
    ensures Next(s, HolderRequests(id)).sent[id] == s.sent[id] + 1
    ensures Next(s, HolderSends(id)).sent[id] == s.sent[id] + if s.channels[id].state == Opened then 1 else 0
  {
  }

  /** A channel that is registered is requested at first; it can be opened from there, and closed from
      anywhere. */
  lemma ChannelsMove(s: Requests, id: nat)
    ensures id !in s.channels && s.sweeper == None ==>
              var t := Next(s, Register(id)); id in t.channels && t.channels[id].state == Requested
    ensures id in s.channels ==>
              && Next(s, ChannelMoves(id, Closed)).channels[id].state == Closed
              && (s.channels[id].state == Requested ==> Next(s, ChannelMoves(id, Opened)).channels[id].state == Opened)
  {
  }

  /** The authorization can be lost, and the public setter can bring it back. */
  lemma AuthorizationMoves(s: Requests)
    ensures !Next(s, AuthorizationIsLost).authorized
    ensures Next(Next(s, SetterAuthorizes), AuthorizationIsWritten).authorized
    ensures Next(Next(s, SetterAuthorizes), AuthorizationIsWritten).writes == s.writes
  {
  }

  /** The opener of the channel looks at the connection with this step and finds it up, or at the
      authorization and finds it given. */
  ghost predicate FoundConnected(steps: seq<Step>, j: nat, id: nat)
    requires j < |steps|
  {
    steps[j] == LookAtConnection(id) && Run(steps[..j]).connected
  }

  ghost predicate FoundAuthorized(steps: seq<Step>, j: nat, id: nat)
    requires j < |steps|
  {
    steps[j] == LookAtAuthorization(id) && Run(steps[..j]).authorized
  }

  ghost predicate WasConnected(steps: seq<Step>, id: nat) {
    exists j :: 0 <= j < |steps| && FoundConnected(steps, j, id)
  }

  ghost predicate WasAuthorized(steps: seq<Step>, id: nat) {
    exists j :: 0 <= j < |steps| && FoundAuthorized(steps, j, id)
  }

  lemma ConnectedBefore(steps: seq<Step>, id: nat)
    requires steps != []
    ensures WasConnected(steps, id) <==>
            WasConnected(steps[..|steps| - 1], id) || FoundConnected(steps, |steps| - 1, id)
  {
    var front := steps[..|steps| - 1];
    hide Run;
    forall j | 0 <= j < |front| ensures FoundConnected(front, j, id) == FoundConnected(steps, j, id) {
      assert front[..j] == steps[..j];
    }
    hide FoundConnected;
  }

  lemma AuthorizedBefore(steps: seq<Step>, id: nat)
    requires steps != []
    ensures WasAuthorized(steps, id) <==>
            WasAuthorized(steps[..|steps| - 1], id) || FoundAuthorized(steps, |steps| - 1, id)
  {
    var front := steps[..|steps| - 1];
    hide Run;
    forall j | 0 <= j < |front| ensures FoundAuthorized(front, j, id) == FoundAuthorized(steps, j, id) {
      assert front[..j] == steps[..j];
    }
    hide FoundAuthorized;
  }

  lemma PhasesAreFound(s: Requests, step: Step, id: nat)
    ensures At(Next(s, step), id, Connected) ==>
              At(s, id, Connected) || (step == LookAtConnection(id) && s.connected)
    ensures At(Next(s, step), id, Asking) ==>
              At(s, id, Asking) || (At(s, id, Connected) && step == LookAtAuthorization(id) && s.authorized)
  {
  }

  /** Over every run, an opener is about to ask only if it has found the client connected and
      authorized. */
  lemma {:induction false} OpenersAskOnlyWhenReady(steps: seq<Step>, id: nat)
    ensures At(Run(steps), id, Connected) ==> WasConnected(steps, id)
    ensures At(Run(steps), id, Asking) ==> WasConnected(steps, id) && WasAuthorized(steps, id)
  {
    hide Next, At, WasConnected, WasAuthorized;
    if steps == [] {
      NobodyAtFirst(id);
    } else {
      OpenersAskOnlyWhenReady(steps[..|steps| - 1], id);
      ConnectedBefore(steps, id);
      AuthorizedBefore(steps, id);
      PhasesAreFound(Run(steps[..|steps| - 1]), steps[|steps| - 1], id);
    }
  }

  lemma NobodyAtFirst(id: nat)
    ensures !At(INIT, id, Connected) && !At(INIT, id, Asking)
  {
  }
}
