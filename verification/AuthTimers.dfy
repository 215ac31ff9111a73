/**
  Authentication: the authorization state, and the timeout that guards an answer of the server.

  Every call that sends a token arms the timeout and starts a timer of its own; timers are never
  cancelled and fire in any order. Answers of the server disarm the timeout. Whatever changes the
  authorization state is spawned on its own; it reads the state, writes it and notifies listeners
  under three separate locks, so unlike the connection state its changes need not form a chain.
 */
module AuthTimers {
  import opened Runs
  import opened Wrappers

  datatype AuthState = Unauthorized | Authorizing | Authorized

  /** What matters for timeouts, in order: a call past its empty-token check, the arming of the
      timeout by such a call, an AUTH_STATE answer, and a published timeout. */
  datatype Event = Called | Armed | Answered | TimedOut

  /** A spawned change: before its read, having read the old state, or having made the change with
      this position in the log of changes and not yet notified the listeners. */
  datatype SetTask =
    | ToRead(newState: AuthState)
    | ToWrite(newState: AuthState, oldState: AuthState)
    | ToNotify(change: nat)
    | Finished

  /** A timer: still sleeping, or having read the authorization state. */
  datatype Timer = Sleeping | Woken(seen: AuthState) | Expired

  datatype Change = Change(newState: AuthState, oldState: AuthState)

  /** `calling` counts the calls that have not armed yet, `starting` those that have armed and have
      not started their timer. `changes` holds the changes in the order in which they were written;
      `told` holds their positions in the order in which the listeners were notified. */
  datatype Auth = Auth(
    state: AuthState,
    armed: bool,
    calling: nat,
    starting: nat,
    timers: seq<Timer>,
    tasks: seq<SetTask>,
    events: seq<Event>,
    changes: seq<Change>,
    told: seq<nat>)

  const INIT := Auth(Unauthorized, false, 0, 0, [], [], [], [], [])

  /** UserSets is a use of the public setter by a caller outside the client. */
  datatype Step =
    | Call(token: string)
    | Arm
    | StartTimer
    | TimerReads(timer: nat)
    | TimerFires(timer: nat)
    | Answer(state: string)
    | Disconnect
    | UserSets(newState: AuthState)
    | SetReads(task: nat)
    | SetWrites(task: nat)
    | SetNotifies(task: nat)

  /** The change an AUTH_STATE answer asks for; an unknown state is an error. */
  function AnsweredState(state: string): Option<AuthState> {
    if state == "AUTHORIZED" then Some(Authorized)
    else if state == "UNAUTHORIZED" then Some(Unauthorized)
    else None
  }

  function Spawned(a: Auth, newState: AuthState): Auth {
    a.(tasks := a.tasks + [ToRead(newState)])
  }

  function Fired(a: Auth, k: nat): Auth
    requires k < |a.timers| && a.timers[k].Woken?
  {
    var b := a.(timers := a.timers[k := Expired]);
    if a.timers[k].seen == Authorizing && a.armed
    then Spawned(b.(armed := false, events := a.events + [TimedOut]), Unauthorized)
    else b
  }

  function TaskStep(a: Auth, k: nat): Auth
    requires k < |a.tasks|
  {
    match a.tasks[k]
    case ToRead(newState) =>
      a.(tasks := a.tasks[k := if a.state == newState then Finished else ToWrite(newState, a.state)])
    case ToWrite(newState, oldState) =>
      a.(tasks := a.tasks[k := ToNotify(|a.changes|)],
         state := newState,
         changes := a.changes + [Change(newState, oldState)])
    case ToNotify(change) => a.(tasks := a.tasks[k := Finished], told := a.told + [change])
    case Finished => a
  }

  /** A step that is not possible does nothing. An answer with an unknown state disarms as well. */
  function Next(a: Auth, step: Step): Auth {
    match step
    case Call(token) =>
      if token == "" then a
      else Spawned(a.(calling := a.calling + 1, events := a.events + [Called]), Authorizing)
    case Arm =>
      if a.calling == 0 then a
      else a.(calling := a.calling - 1, starting := a.starting + 1, armed := true, events := a.events + [Armed])
    case StartTimer =>
      if a.starting == 0 then a
      else a.(starting := a.starting - 1, timers := a.timers + [Sleeping])
    case TimerReads(k) =>
      if k < |a.timers| && a.timers[k] == Sleeping then a.(timers := a.timers[k := Woken(a.state)]) else a
    case TimerFires(k) => if k < |a.timers| && a.timers[k].Woken? then Fired(a, k) else a
    case Answer(state) =>
      var b := a.(armed := false, events := a.events + [Answered]);
      if AnsweredState(state).Some? then Spawned(b, AnsweredState(state).value) else b
    case Disconnect => Spawned(a, Unauthorized)
    case UserSets(newState) => Spawned(a, newState)
    case SetReads(k) => if k < |a.tasks| && a.tasks[k].ToRead? then TaskStep(a, k) else a
    case SetWrites(k) => if k < |a.tasks| && a.tasks[k].ToWrite? then TaskStep(a, k) else a
    case SetNotifies(k) => if k < |a.tasks| && a.tasks[k].ToNotify? then TaskStep(a, k) else a
  }

  function Run(steps: seq<Step>): Auth {
    if steps == [] then INIT else Next(Run(steps[..|steps| - 1]), steps[|steps| - 1])
  }

  lemma RunSnoc(front: seq<Step>, a: Auth, step: Step, b: Auth)
    requires Run(front) == a && Next(a, step) == b
    ensures Run(front + [step]) == b
  {
    assert (front + [step])[..|front|] == front;
  }

  // ---------- Timeouts, armings and calls ----------

  function Count(events: seq<Event>, e: Event): nat {
    if events == [] then 0
    else Count(events[..|events| - 1], e) + if events[|events| - 1] == e then 1 else 0
  }

  /** The latest event other than a call, if any. */
  function Latest(events: seq<Event>): Option<Event> {
    if events == [] then None
    else if events[|events| - 1] != Called then Some(events[|events| - 1])
    else Latest(events[..|events| - 1])
  }

  /** Every published timeout follows an arming, with nothing but calls in between. */
  predicate TimeoutsFollowArming(events: seq<Event>) {
    forall i :: 0 <= i < |events| && events[i] == TimedOut ==> Latest(events[..i]) == Some(Armed)
  }

  ghost predicate Inv(a: Auth) {
    && (a.armed <==> Latest(a.events) == Some(Armed))
    && TimeoutsFollowArming(a.events)
    && Count(a.events, Called) == Count(a.events, Armed) + a.calling
  }

  lemma EventAppended(events: seq<Event>, e: Event)
    requires TimeoutsFollowArming(events)
    requires e == TimedOut ==> Latest(events) == Some(Armed)
    ensures TimeoutsFollowArming(events + [e])
    ensures Latest(events + [e]) == if e == Called then Latest(events) else Some(e)
    ensures forall x :: Count(events + [e], x) == Count(events, x) + if e == x then 1 else 0
  {
    var all := events + [e];
    assert all[..|events|] == events;
    forall i | 0 <= i < |all| && all[i] == TimedOut ensures Latest(all[..i]) == Some(Armed) {
      if i < |events| {
        assert all[..i] == events[..i];
      }
    }
  }

  lemma NextKeepsInv(a: Auth, step: Step)
    requires Inv(a)
    ensures Inv(Next(a, step))
  {
    hide TimeoutsFollowArming, Latest, Count;
    match step
    case Call(token) => EventAppended(a.events, Called);
    case Arm => EventAppended(a.events, Armed);
    case TimerFires(_) => if a.armed { EventAppended(a.events, TimedOut); }
    case Answer(_) => EventAppended(a.events, Answered);
    case _ =>
  }

  lemma {:induction false} RunKeepsInv(steps: seq<Step>)
    ensures Inv(Run(steps))
  {
    if steps != [] {
      RunKeepsInv(steps[..|steps| - 1]);
      NextKeepsInv(Run(steps[..|steps| - 1]), steps[|steps| - 1]);
    }
  }

  lemma {:induction false} LatestIsLatest(events: seq<Event>) returns (k: nat)
    requires Latest(events).Some?
    ensures k < |events| && events[k] == Latest(events).value && events[k] != Called
    ensures forall i :: k < i < |events| ==> events[i] == Called
  {
    if events[|events| - 1] != Called {
      k := |events| - 1;
    } else {
      k := LatestIsLatest(events[..|events| - 1]);
    }
  }

  lemma {:induction false} NoMoreTimeoutsThanArmings(events: seq<Event>)
    requires TimeoutsFollowArming(events)
    ensures Count(events, TimedOut) + (if Latest(events) == Some(Armed) then 1 else 0) <= Count(events, Armed)
  {
    if events != [] {
      var front, last := events[..|events| - 1], events[|events| - 1];
      assert events == front + [last];
      forall i | 0 <= i < |front| && front[i] == TimedOut ensures Latest(front[..i]) == Some(Armed) {
        assert front[..i] == events[..i] && events[i] == TimedOut;
      }
      NoMoreTimeoutsThanArmings(front);
    }
  }

  /** With any number of timers firing in any order, there are never more published timeouts than
      calls that passed the empty-token check. */
  lemma TimeoutsNeverExceedCalls(steps: seq<Step>)
    ensures var events := Run(steps).events;
            Count(events, TimedOut) <= Count(events, Armed) <= Count(events, Called)
  {
    RunKeepsInv(steps);
    NoMoreTimeoutsThanArmings(Run(steps).events);
  }

  /** Before a published timeout, and after the last timeout or answer before it, a call has armed
      the timeout. So two timeouts have an arming between them, and an answer silences all timers
      until the next arming. */
  lemma ArmedBetween(steps: seq<Step>, i: nat, j: nat)
    requires var events := Run(steps).events;
             i < j < |events| && events[i] in {TimedOut, Answered} && events[j] == TimedOut
    ensures exists k :: i < k < j && Run(steps).events[k] == Armed
  {
    RunKeepsInv(steps);
    hide Run;
    var events := Run(steps).events;
    assert Latest(events[..j]) == Some(Armed);
    var k := LatestIsLatest(events[..j]);
    assert events[..j][i] == events[i] && events[k] == Armed;
  }

  lemma AfterCall() returns (steps: seq<Step>, a: Auth)
    ensures a == Auth(Unauthorized, false, 1, 0, [], [ToRead(Authorizing)], [Called], [], [])
    ensures steps == [Call("token")] && Run(steps) == a
  {
    assert Run([]) == INIT;
    steps := [] + [Call("token")];
    a := Auth(Unauthorized, false, 1, 0, [], [ToRead(Authorizing)], [Called], [], []);
    RunSnoc([], INIT, Call("token"), a);
  }

  lemma CalledThenAnswered() returns (steps: seq<Step>, a: Auth)
    ensures a == Auth(Authorizing, false, 1, 0, [], [ToNotify(0)], [Called, Answered],
                      [Change(Authorizing, Unauthorized)], [])
    ensures Run(steps) == a && forall i :: 0 <= i < |steps| ==> !steps[i].UserSets?
  {
    hide Run, Fired;
    var s1, a1 := AfterCall();
    var s2 := s1 + [SetReads(0)];
    var a2 := a1.(tasks := [ToWrite(Authorizing, Unauthorized)]);
    RunSnoc(s1, a1, SetReads(0), a2);
    var s3 := s2 + [SetWrites(0)];
    var a3 := a2.(state := Authorizing, tasks := [ToNotify(0)], changes := [Change(Authorizing, Unauthorized)]);
    RunSnoc(s2, a2, SetWrites(0), a3);
    steps := s3 + [Answer("")];
    a := a3.(events := [Called, Answered]);
    RunSnoc(s3, a3, Answer(""), a);
  }

  /** The arming cannot be replaced by the call itself: a call that was made before an answer can arm
      after it, and its timer then publishes although no call was made since. */
  lemma CallsAreNotEnough() returns (steps: seq<Step>)
    ensures Run(steps).events == [Called, Answered, Armed, TimedOut]
    ensures forall i :: 0 <= i < |steps| ==> !steps[i].UserSets?
  {
    hide Run, TaskStep;
    var s4, a4 := CalledThenAnswered();
    var s5 := s4 + [Arm];
    var a5 := a4.(calling := 0, starting := 1, armed := true, events := [Called, Answered, Armed]);
    RunSnoc(s4, a4, Arm, a5);
    var s6 := s5 + [StartTimer];
    var a6 := a5.(starting := 0, timers := [Sleeping]);
    RunSnoc(s5, a5, StartTimer, a6);
    var s7 := s6 + [TimerReads(0)];
    var a7 := a6.(timers := [Woken(Authorizing)]);
    RunSnoc(s6, a6, TimerReads(0), a7);
    steps := s7 + [TimerFires(0)];
    RunSnoc(s7, a7, TimerFires(0), Fired(a7, 0));
  }

  // ---------- When a further timeout is possible ----------

  function Continue(a: Auth, steps: seq<Step>): Auth
    decreases |steps|
  {
    if steps == [] then a else Continue(Next(a, steps[0]), steps[1..])
  }

  lemma {:induction false} RunOfConcat(steps: seq<Step>, more: seq<Step>)
    ensures Run(steps + more) == Continue(Run(steps), more)
    decreases |more|
  {
    hide Next;
    if more == [] {
      assert steps + more == steps;
    } else {
      assert steps + more == (steps + [more[0]]) + more[1..];
      RunSnoc(steps, Run(steps), more[0], Next(Run(steps), more[0]));
      RunOfConcat(steps + [more[0]], more[1..]);
    }
  }

  function Timeouts(a: Auth): nat {
    Count(a.events, TimedOut)
  }

  /** Not a call past its token check, and a use of the public setter only where `sets` admits it. */
  predicate Uncalled(step: Step, sets: bool) {
    && (step.Call? ==> step.token == "")
    && (step.UserSets? ==> sets)
  }

  predicate AllUncalled(steps: seq<Step>, sets: bool) {
    forall i :: 0 <= i < |steps| ==> Uncalled(steps[i], sets)
  }

  /** Some future without a call publishes a timeout. */
  ghost predicate Fires(a: Auth, sets: bool) {
    exists more :: AllUncalled(more, sets) && Timeouts(Continue(a, more)) > Timeouts(a)
  }

  predicate SetsAuthorizing(t: SetTask) {
    (t.ToRead? || t.ToWrite?) && t.newState == Authorizing
  }

  /** The state is Authorizing, or something already spawned will make it so. */
  ghost predicate WillAuthorize(a: Auth) {
    a.state == Authorizing || exists k :: 0 <= k < |a.tasks| && SetsAuthorizing(a.tasks[k])
  }

  ghost predicate HasTimer(a: Auth, timer: Timer) {
    exists k :: 0 <= k < |a.timers| && a.timers[k] == timer
  }

  /** A timer that has seen Authorizing needs the timeout to be armed, now or by a call under way; a
      timer that has still to look must also find Authorizing. */
  ghost predicate CanTimeOut(a: Auth, sets: bool) {
    || ((a.armed || a.calling > 0) && HasTimer(a, Woken(Authorizing)))
    || ((a.calling > 0 || (a.armed && (a.starting > 0 || HasTimer(a, Sleeping)))) && (sets || WillAuthorize(a)))
  }

  lemma CountSnoc(events: seq<Event>, e: Event)
    ensures Count(events + [e], TimedOut) == Count(events, TimedOut) + if e == TimedOut then 1 else 0
  {
    assert (events + [e])[..|events|] == events;
  }

  lemma TimeoutsOfNext(a: Auth, step: Step)
    ensures Timeouts(Next(a, step)) == Timeouts(a) +
              if step.TimerFires? && step.timer < |a.timers| && a.timers[step.timer] == Woken(Authorizing) && a.armed
              then 1 else 0
  {
    hide Count, TaskStep;
    CountSnoc(a.events, Called);
    CountSnoc(a.events, Armed);
    CountSnoc(a.events, Answered);
    CountSnoc(a.events, TimedOut);
    if step.SetReads? || step.SetWrites? || step.SetNotifies? {
      TasksMakeNoEvents(a, step);
    }
  }

  lemma TasksMakeNoEvents(a: Auth, step: Step)
    requires step.SetReads? || step.SetWrites? || step.SetNotifies?
    ensures var b := Next(a, step);
            b == a.(state := b.state, tasks := b.tasks, changes := b.changes, told := b.told)
  {
  }

  /** Nothing that needs no call brings about the possibility of a timeout. */
  lemma TasksStaySilent(a: Auth, step: Step, sets: bool)
    requires step.SetReads? || step.SetWrites? || step.SetNotifies?
    ensures WillAuthorize(Next(a, step)) ==> WillAuthorize(a)
  {
    var b := Next(a, step);
    if k :| 0 <= k < |b.tasks| && SetsAuthorizing(b.tasks[k]) {
      assert SetsAuthorizing(a.tasks[k]);
    }
  }

  lemma SpawningKeeps(a: Auth, b: Auth, newState: AuthState)
    requires newState != Authorizing && b.state == a.state && b.tasks == a.tasks + [ToRead(newState)]
    ensures WillAuthorize(b) ==> WillAuthorize(a)
  {
    if k :| 0 <= k < |b.tasks| && SetsAuthorizing(b.tasks[k]) {
      assert SetsAuthorizing(a.tasks[k]);
    }
  }

  lemma SilentStays(a: Auth, step: Step, sets: bool)
    requires !CanTimeOut(a, sets) && Uncalled(step, sets)
    ensures !CanTimeOut(Next(a, step), sets) && Timeouts(Next(a, step)) == Timeouts(a)
  {
    hide Timeouts, TaskStep, SetsAuthorizing;
    TimeoutsOfNext(a, step);
    var b := Next(a, step);
    match step {
      case TimerReads(k) => assert forall t | HasTimer(b, t) && t != Woken(a.state) :: HasTimer(a, t);
      case TimerFires(k) =>
        assert forall t | HasTimer(b, t) && t != Expired :: HasTimer(a, t);
        if b.tasks != a.tasks { SpawningKeeps(a, b, Unauthorized); }
      case StartTimer => assert forall t | HasTimer(b, t) && t != Sleeping :: HasTimer(a, t);
      case Answer(state) =>
        if AnsweredState(state).Some? { SpawningKeeps(a, b, AnsweredState(state).value); }
      case Disconnect => SpawningKeeps(a, b, Unauthorized);
      case SetReads(_) => TasksStaySilent(a, step, sets); TasksMakeNoEvents(a, step);
      case SetWrites(_) => TasksStaySilent(a, step, sets); TasksMakeNoEvents(a, step);
      case SetNotifies(_) => TasksStaySilent(a, step, sets); TasksMakeNoEvents(a, step);
      case _ =>
    }
  }

  lemma {:induction false} SilentForEver(a: Auth, more: seq<Step>, sets: bool)
    requires !CanTimeOut(a, sets) && AllUncalled(more, sets)
    ensures Timeouts(Continue(a, more)) == Timeouts(a)
    decreases |more|
  {
    hide Next, Timeouts, CanTimeOut, Uncalled;
    if more != [] {
      SilentStays(a, more[0], sets);
      SilentForEver(Next(a, more[0]), more[1..], sets);
    }
  }

  /** What can fire after a step could fire before it. */
  lemma FiresBefore(a: Auth, step: Step, sets: bool)
    requires Uncalled(step, sets) && Fires(Next(a, step), sets)
    ensures Fires(a, sets)
  {
    hide Next, Timeouts, Uncalled;
    var more :| AllUncalled(more, sets) && Timeouts(Continue(Next(a, step), more)) > Timeouts(Next(a, step));
    TimeoutsOfNext(a, step);
    var all := [step] + more;
    assert all[1..] == more;
    assert AllUncalled(all, sets) && Continue(a, all) == Continue(Next(a, step), more);
  }

  lemma SeenFires(a: Auth, sets: bool)
    requires (a.armed || a.calling > 0) && HasTimer(a, Woken(Authorizing))
    ensures Fires(a, sets)
    decreases !a.armed
  {
    hide Timeouts;
    var k :| 0 <= k < |a.timers| && a.timers[k] == Woken(Authorizing);
    if a.armed {
      TimeoutsOfNext(a, TimerFires(k));
      var more := [TimerFires(k)];
      assert Continue(Next(a, TimerFires(k)), more[1..]) == Next(a, TimerFires(k));
      assert AllUncalled(more, sets) && Timeouts(Continue(a, more)) > Timeouts(a);
    } else {
      var b := Next(a, Arm);
      assert b.timers[k] == Woken(Authorizing);
      SeenFires(b, sets);
      FiresBefore(a, Arm, sets);
    }
  }

  lemma WakingFires(a: Auth, sets: bool)
    requires a.armed && (a.starting > 0 || HasTimer(a, Sleeping)) && a.state == Authorizing
    ensures Fires(a, sets)
    decreases !HasTimer(a, Sleeping)
  {
    hide Fires;
    if k :| 0 <= k < |a.timers| && a.timers[k] == Sleeping {
      assert Next(a, TimerReads(k)).timers[k] == Woken(Authorizing);
      SeenFires(Next(a, TimerReads(k)), sets);
      FiresBefore(a, TimerReads(k), sets);
    } else {
      var b := Next(a, StartTimer);
      assert b.timers[|a.timers|] == Sleeping;
      WakingFires(b, sets);
      FiresBefore(a, StartTimer, sets);
    }
  }

  lemma AuthorizingFires(a: Auth, sets: bool)
    requires a.armed && (a.starting > 0 || HasTimer(a, Sleeping)) && WillAuthorize(a)
    ensures Fires(a, sets)
  {
    hide Fires;
    if a.state == Authorizing {
      WakingFires(a, sets);
    } else {
      var k :| 0 <= k < |a.tasks| && SetsAuthorizing(a.tasks[k]);
      var b := if a.tasks[k].ToRead? then Next(a, SetReads(k)) else a;
      assert b.tasks[k].ToWrite? && b.tasks[k].newState == Authorizing && b.timers == a.timers;
      assert Next(b, SetWrites(k)).timers == a.timers;
      WakingFires(Next(b, SetWrites(k)), sets);
      FiresBefore(b, SetWrites(k), sets);
      if a.tasks[k].ToRead? {
        FiresBefore(a, SetReads(k), sets);
      }
    }
  }

  lemma PossibleFires(a: Auth, sets: bool)
    requires CanTimeOut(a, sets)
    ensures Fires(a, sets)
    decreases !WillAuthorize(a)
  {
    hide Fires, HasTimer;
    if (a.armed || a.calling > 0) && HasTimer(a, Woken(Authorizing)) {
      SeenFires(a, sets);
    } else if !WillAuthorize(a) {
      var b := Next(a, UserSets(Authorizing));
      assert SetsAuthorizing(b.tasks[|a.tasks|]);
      SameTimers(a, b);
      PossibleFires(b, sets);
      FiresBefore(a, UserSets(Authorizing), sets);
    } else if a.calling > 0 {
      AuthorizingFires(Next(a, Arm), sets);
      FiresBefore(a, Arm, sets);
    } else {
      AuthorizingFires(a, sets);
    }
  }

  lemma SameTimers(a: Auth, b: Auth)
    requires a.timers == b.timers
    ensures forall t :: HasTimer(a, t) == HasTimer(b, t)
  {
  }

  /** Exactly when a further timeout can be published without a further call, at any moment of any
      run: when a timer has seen Authorizing or one can still do so, and the timeout is armed or will
      be by a call that is under way. */
  lemma TimeoutPossibleIff(steps: seq<Step>, sets: bool)
    ensures CanTimeOut(Run(steps), sets) <==>
            exists more :: AllUncalled(more, sets) && Timeouts(Run(steps + more)) > Timeouts(Run(steps))
  {
    var a := Run(steps);
    hide Run, Continue, CanTimeOut, AllUncalled, Timeouts;
    if CanTimeOut(a, sets) {
      PossibleFires(a, sets);
      var more :| AllUncalled(more, sets) && Timeouts(Continue(a, more)) > Timeouts(a);
      RunOfConcat(steps, more);
    } else {
      forall more | AllUncalled(more, sets) ensures Timeouts(Run(steps + more)) == Timeouts(a) {
        RunOfConcat(steps, more);
        SilentForEver(a, more, sets);
      }
    }
  }

  /** In particular, once the latest arming has been answered or has fired, the client by itself can
      publish another timeout without another call if and only if some call has passed its token
      check and has not armed yet, and Authorizing has been seen by a timer or can still be. */
  lemma UncalledTimeoutIff(steps: seq<Step>)
    requires Latest(Run(steps).events) != Some(Armed)
    ensures var a := Run(steps);
            (a.calling > 0 && (WillAuthorize(a) || HasTimer(a, Woken(Authorizing)))) <==>
            exists more :: AllUncalled(more, false) && Timeouts(Run(steps + more)) > Timeouts(Run(steps))
  {
    RunKeepsInv(steps);
    hide Run, WillAuthorize, HasTimer, Timeouts, AllUncalled;
    TimeoutPossibleIff(steps, false);
  }

  /** If callers may use the public setter, a call that has not armed yet is enough. */
  lemma SetterTimeoutIff(steps: seq<Step>)
    requires Latest(Run(steps).events) != Some(Armed)
    ensures Run(steps).calling > 0 <==>
            exists more :: AllUncalled(more, true) && Timeouts(Run(steps + more)) > Timeouts(Run(steps))
  {
    RunKeepsInv(steps);
    hide Run, WillAuthorize, HasTimer, Timeouts, AllUncalled;
    TimeoutPossibleIff(steps, true);
  }

  // ---------- Changes of the state ----------

  /** The change starts where the one before it ended, or in Unauthorized. */
  predicate Linked(changes: seq<Change>, i: nat)
    requires i < |changes|
  {
    changes[i].oldState == if i == 0 then Unauthorized else changes[i - 1].newState
  }

  predicate AllLinked(changes: seq<Change>) {
    forall i :: 0 <= i < |changes| ==> Linked(changes, i)
  }

  /** A write by someone who has read another state than the one it replaces. */
  predicate StaleWrite(a: Auth, step: Step) {
    && step.SetWrites? && step.task < |a.tasks|
    && a.tasks[step.task].ToWrite? && a.tasks[step.task].oldState != a.state
  }

  /** A notification that is made while that of an earlier change is still waiting. */
  ghost predicate Overtakes(a: Auth, step: Step) {
    && step.SetNotifies? && step.task < |a.tasks| && a.tasks[step.task].ToNotify?
    && exists k :: 0 <= k < |a.tasks| && a.tasks[k].ToNotify? && a.tasks[k].change < a.tasks[step.task].change
  }

  ghost predicate NoStaleWrites(steps: seq<Step>) {
    forall i :: 0 <= i < |steps| ==> !StaleWrite(Run(steps[..i]), steps[i])
  }

  ghost predicate NoneOvertakes(steps: seq<Step>) {
    forall i :: 0 <= i < |steps| ==> !Overtakes(Run(steps[..i]), steps[i])
  }

  predicate ToldInOrder(told: seq<nat>) {
    forall i :: 0 <= i < |told| ==> told[i] == i
  }

  /** Of n changes, every one is told at most once, and is told already or still to be told. */
  ghost predicate ToldInv(n: nat, tasks: seq<SetTask>, told: seq<nat>) {
    && (forall i :: 0 <= i < |told| ==> told[i] < n)
    && (forall i, j :: 0 <= i < j < |told| ==> told[i] != told[j])
    && (forall k :: 0 <= k < |tasks| && tasks[k].ToNotify? ==> tasks[k].change < n && tasks[k].change !in told)
    && (forall k, l :: 0 <= k < l < |tasks| && tasks[k].ToNotify? && tasks[l].ToNotify? ==>
          tasks[k].change != tasks[l].change)
    && (forall i :: 0 <= i < n ==> i in told || ToNotify(i) in tasks)
  }

  /** The state is where the latest change led, and no change is idle. */
  ghost predicate ChangesInv(a: Auth) {
    && a.state == (if a.changes == [] then Unauthorized else a.changes[|a.changes| - 1].newState)
    && (forall i :: 0 <= i < |a.changes| ==> a.changes[i].newState != a.changes[i].oldState)
    && (forall k :: 0 <= k < |a.tasks| && a.tasks[k].ToWrite? ==> a.tasks[k].newState != a.tasks[k].oldState)
    && ToldInv(|a.changes|, a.tasks, a.told)
  }

  lemma StillTold(n: nat, tasks: seq<SetTask>, told: seq<nat>, k: nat, t: SetTask)
    requires ToldInv(n, tasks, told) && k < |tasks| && !tasks[k].ToNotify? && !t.ToNotify?
    ensures ToldInv(n, tasks[k := t], told)
  {
    forall i | 0 <= i < n && i !in told ensures ToNotify(i) in tasks[k := t] {
      var j :| 0 <= j < |tasks| && tasks[j] == ToNotify(i);
      assert tasks[k := t][j] == ToNotify(i);
    }
  }

  lemma WriteIsToBeTold(n: nat, tasks: seq<SetTask>, told: seq<nat>, k: nat)
    requires ToldInv(n, tasks, told) && k < |tasks| && !tasks[k].ToNotify?
    ensures ToldInv(n + 1, tasks[k := ToNotify(n)], told)
  {
    var after := tasks[k := ToNotify(n)];
    forall i | 0 <= i < n + 1 && i !in told ensures ToNotify(i) in after {
      if i == n {
        assert after[k] == ToNotify(i);
      } else {
        var j :| 0 <= j < |tasks| && tasks[j] == ToNotify(i);
        assert after[j] == ToNotify(i);
      }
    }
  }

  lemma NoticeIsTold(n: nat, tasks: seq<SetTask>, told: seq<nat>, k: nat)
    requires ToldInv(n, tasks, told) && k < |tasks| && tasks[k].ToNotify?
    ensures ToldInv(n, tasks[k := Finished], told + [tasks[k].change])
  {
    var after, now := tasks[k := Finished], told + [tasks[k].change];
    forall i | 0 <= i < n && i !in now ensures ToNotify(i) in after {
      assert i !in told by {
        assert told <= now;
      }
      var j :| 0 <= j < |tasks| && tasks[j] == ToNotify(i);
      assert j != k by {
        assert now[|told|] == tasks[k].change;
      }
      assert after[j] == ToNotify(i);
    }
  }

  lemma TaskKeepsChanges(a: Auth, k: nat)
    requires ChangesInv(a) && k < |a.tasks|
    ensures ChangesInv(TaskStep(a, k))
  {
    hide ToldInv;
    match a.tasks[k]
    case ToRead(_) => StillTold(|a.changes|, a.tasks, a.told, k, TaskStep(a, k).tasks[k]);
    case ToWrite(_, _) => WriteIsToBeTold(|a.changes|, a.tasks, a.told, k);
    case ToNotify(_) => NoticeIsTold(|a.changes|, a.tasks, a.told, k);
    case Finished =>
  }

  lemma SpawningKeepsChanges(a: Auth, b: Auth, t: SetTask)
    requires ChangesInv(a) && t.ToRead?
    requires b.state == a.state && b.changes == a.changes && b.told == a.told && b.tasks == a.tasks + [t]
    ensures ChangesInv(b)
  {
    forall i | ToNotify(i) in a.tasks ensures ToNotify(i) in b.tasks {
    }
  }

  lemma NextKeepsChanges(a: Auth, step: Step)
    requires ChangesInv(a)
    ensures ChangesInv(Next(a, step))
  {
    hide ToldInv, TaskStep;
    var b := Next(a, step);
    if step.SetReads? || step.SetWrites? || step.SetNotifies? {
      if step.task < |a.tasks| {
        TaskKeepsChanges(a, step.task);
      }
    } else if b.tasks != a.tasks {
      SpawningKeepsChanges(a, b, b.tasks[|a.tasks|]);
    }
  }

  lemma {:induction false} RunKeepsChanges(steps: seq<Step>)
    ensures ChangesInv(Run(steps))
  {
    hide Next;
    if steps != [] {
      RunKeepsChanges(steps[..|steps| - 1]);
      NextKeepsChanges(Run(steps[..|steps| - 1]), steps[|steps| - 1]);
    }
  }

  /** While notices are in order, the earliest change not told is waiting to be told, and is the next
      one; so telling any other overtakes it. */
  lemma OvertakesIffNotNext(a: Auth, step: Step)
    requires ChangesInv(a) && ToldInOrder(a.told)
    requires step.SetNotifies? && step.task < |a.tasks| && a.tasks[step.task].ToNotify?
    ensures Overtakes(a, step) <==> a.tasks[step.task].change != |a.told|
  {
    var change, next := a.tasks[step.task].change, |a.told|;
    forall i | 0 <= i < next ensures i in a.told {
      assert a.told[i] == i;
    }
    if change != next {
      assert next !in a.told;
      var k :| 0 <= k < |a.tasks| && a.tasks[k] == ToNotify(next);
    }
  }

  /** The changes made up to a moment are linked exactly if those before were and this one, if it is
      one, is not stale; and likewise for the order of the notices and overtaking. */
  lemma OneMoreStep(a: Auth, step: Step)
    requires ChangesInv(a)
    ensures AllLinked(Next(a, step).changes) <==> AllLinked(a.changes) && !StaleWrite(a, step)
    ensures ToldInOrder(Next(a, step).told) <==> ToldInOrder(a.told) && !Overtakes(a, step)
  {
    var b := Next(a, step);
    if ToldInOrder(a.told) && step.SetNotifies? && step.task < |a.tasks| && a.tasks[step.task].ToNotify? {
      OvertakesIffNotNext(a, step);
    }
    hide Overtakes, ToldInv;
    assert b.changes == a.changes || b.changes == a.changes + [b.changes[|a.changes|]];
    assert b.told == a.told || b.told == a.told + [b.told[|a.told|]];
    assert forall i :: 0 <= i < |a.changes| ==> Linked(b.changes, i) == Linked(a.changes, i);
    assert |b.changes| > |a.changes| ==> (Linked(b.changes, |a.changes|) <==> !StaleWrite(a, step));
    assert forall i :: 0 <= i < |a.told| ==> b.told[i] == a.told[i];
  }

  lemma NoStaleWritesSnoc(front: seq<Step>, last: Step)
    ensures NoStaleWrites(front + [last]) <==> NoStaleWrites(front) && !StaleWrite(Run(front), last)
  {
    hide Run, StaleWrite;
    var steps := front + [last];
    assert steps[..|front|] == front && steps[|front|] == last;
    forall i | 0 <= i < |front| ensures steps[..i] == front[..i] && steps[i] == front[i] {
    }
  }

  /** Over every run, the changes of the authorization state are linked if and only if every write
      replaces the very state its writer had read. */
  lemma {:induction false} ChangesLinkedIff(steps: seq<Step>)
    ensures AllLinked(Run(steps).changes) <==> NoStaleWrites(steps)
  {
    hide Next, AllLinked, ToldInOrder, NoStaleWrites, NoneOvertakes, ChangesInv;
    if steps == [] {
      EmptyIsLinked();
    } else {
      var front, last := steps[..|steps| - 1], steps[|steps| - 1];
      assert steps == front + [last];
      ChangesLinkedIff(front);
      RunKeepsChanges(front);
      OneMoreStep(Run(front), last);
      NoStaleWritesSnoc(front, last);
    }
  }

  lemma EmptyIsLinked()
    ensures AllLinked([]) && ToldInOrder([]) && NoStaleWrites([]) && NoneOvertakes([])
  {
  }

  lemma NoneOvertakesSnoc(front: seq<Step>, last: Step)
    ensures NoneOvertakes(front + [last]) <==> NoneOvertakes(front) && !Overtakes(Run(front), last)
  {
    hide Run, Overtakes;
    var steps := front + [last];
    assert steps[..|front|] == front && steps[|front|] == last;
    forall i | 0 <= i < |front| ensures steps[..i] == front[..i] && steps[i] == front[i] {
    }
  }

  /** Over every run, the listeners are told of the changes in the order in which they were made if
      and only if no notification overtakes that of an earlier change. */
  lemma {:induction false} ToldInOrderIff(steps: seq<Step>)
    ensures ToldInOrder(Run(steps).told) <==> NoneOvertakes(steps)
  {
    hide Next, AllLinked, ToldInOrder, NoStaleWrites, NoneOvertakes, ChangesInv;
    if steps == [] {
      EmptyIsLinked();
    } else {
      var front, last := steps[..|steps| - 1], steps[|steps| - 1];
      assert steps == front + [last];
      ToldInOrderIff(front);
      RunKeepsChanges(front);
      OneMoreStep(Run(front), last);
      NoneOvertakesSnoc(front, last);
    }
  }

  /** What the listeners were told. */
  function Notices(a: Auth): seq<Change>
    requires forall i :: 0 <= i < |a.told| ==> a.told[i] < |a.changes|
  {
    seq(|a.told|, i requires 0 <= i < |a.told| && a.told[i] < |a.changes| => a.changes[a.told[i]])
  }

  lemma NoticesInOrder(a: Auth)
    requires ChangesInv(a) && AllLinked(a.changes) && ToldInOrder(a.told)
    ensures Notices(a) <= a.changes && AllLinked(Notices(a))
    ensures (forall k :: 0 <= k < |a.tasks| ==> !a.tasks[k].ToNotify?) ==> Notices(a) == a.changes
  {
    assert a.told != [] ==> a.told[|a.told| - 1] == |a.told| - 1;
    assert Notices(a) == a.changes[..|a.told|];
    forall i | 0 <= i < |a.told| ensures Linked(Notices(a), i) {
      assert Linked(a.changes, i);
    }
    if |a.told| < |a.changes| {
      assert |a.told| !in a.told;
      assert ToNotify(|a.told|) in a.tasks;
    }
  }

  /** If no write is stale and no notice overtakes another, listeners are told a gapless chain from
      Unauthorized that is a beginning of the changes; and it is all of them, ending in the current
      state, once nothing is left to be told. */
  lemma NoticesChain(steps: seq<Step>)
    requires NoStaleWrites(steps) && NoneOvertakes(steps)
    ensures var a := Run(steps);
            && (forall i :: 0 <= i < |a.told| ==> a.told[i] < |a.changes|)
            && Notices(a) <= a.changes && AllLinked(Notices(a))
            && ((forall k :: 0 <= k < |a.tasks| ==> !a.tasks[k].ToNotify?) ==> Notices(a) == a.changes)
  {
    hide AllLinked, NoStaleWrites, ToldInOrder, NoneOvertakes, Run, Notices;
    ChangesLinkedIff(steps);
    ToldInOrderIff(steps);
    RunKeepsChanges(steps);
    NoticesInOrder(Run(steps));
  }

  /** Two changes can both start from the same old state: an answer arrives before the change spawned
      by the call has been written. */
  lemma AuthChangesNeedNotChain() returns (steps: seq<Step>)
    ensures Run(steps).changes == [Change(Authorizing, Unauthorized), Change(Authorized, Unauthorized)]
    ensures !AllLinked(Run(steps).changes)
    ensures forall i :: 0 <= i < |steps| ==> !steps[i].UserSets?
  {
    hide Run, Fired, Spawned;
    var s1, a1 := AfterCallAndAnswer();
    var s2 := s1 + [SetReads(0)];
    var a2 := a1.(tasks := [ToWrite(Authorizing, Unauthorized), ToRead(Authorized)]);
    RunSnoc(s1, a1, SetReads(0), a2);
    var s3 := s2 + [SetReads(1)];
    var a3 := a2.(tasks := [ToWrite(Authorizing, Unauthorized), ToWrite(Authorized, Unauthorized)]);
    RunSnoc(s2, a2, SetReads(1), a3);
    var s4 := s3 + [SetWrites(0)];
    var a4 := a3.(state := Authorizing, tasks := [ToNotify(0), ToWrite(Authorized, Unauthorized)],
                  changes := [Change(Authorizing, Unauthorized)]);
    RunSnoc(s3, a3, SetWrites(0), a4);
    steps := s4 + [SetWrites(1)];
    RunSnoc(s4, a4, SetWrites(1), TaskStep(a4, 1));
    assert !Linked(Run(steps).changes, 1);
  }

  lemma AfterCallAndAnswer() returns (steps: seq<Step>, a: Auth)
    ensures steps == [Call("token"), Answer("AUTHORIZED")]
    ensures a == Auth(Unauthorized, false, 1, 0, [], [ToRead(Authorizing), ToRead(Authorized)],
                      [Called, Answered], [], [])
    ensures Run(steps) == a
  {
    hide Run, Fired;
    var s1, a1 := AfterCall();
    steps := s1 + [Answer("AUTHORIZED")];
    a := a1.(events := [Called, Answered], tasks := [ToRead(Authorizing), ToRead(Authorized)]);
    RunSnoc(s1, a1, Answer("AUTHORIZED"), a);
  }

  lemma AfterFirstWrite() returns (steps: seq<Step>, a: Auth)
    ensures a == Auth(Authorizing, false, 1, 0, [], [ToNotify(0), ToWrite(Authorized, Authorizing)],
                      [Called, Answered], [Change(Authorizing, Unauthorized)], [])
    ensures Run(steps) == a && forall i :: 0 <= i < |steps| ==> !steps[i].UserSets?
  {
    hide Run, Fired, Spawned;
    var s1, a1 := AfterCallAndAnswer();
    var s2 := s1 + [SetReads(0)];
    var a2 := a1.(tasks := [ToWrite(Authorizing, Unauthorized), ToRead(Authorized)]);
    RunSnoc(s1, a1, SetReads(0), a2);
    var s3 := s2 + [SetWrites(0)];
    var changes := [Change(Authorizing, Unauthorized)];
    var a3 := a2.(state := Authorizing, tasks := [ToNotify(0), ToRead(Authorized)], changes := changes);
    RunSnoc(s2, a2, SetWrites(0), a3);
    steps := s3 + [SetReads(1)];
    a := a3.(tasks := [ToNotify(0), ToWrite(Authorized, Authorizing)]);
    RunSnoc(s3, a3, SetReads(1), a);
  }

  /** Linked changes can still be told in the opposite order. */
  lemma NoticesCanOvertake() returns (steps: seq<Step>)
    ensures AllLinked(Run(steps).changes) && Run(steps).told == [1, 0]
    ensures forall i :: 0 <= i < |steps| ==> !steps[i].UserSets?
  {
    hide Run, Fired, Spawned;
    var s1, a1 := AfterFirstWrite();
    var s2 := s1 + [SetWrites(1)];
    var changes := [Change(Authorizing, Unauthorized), Change(Authorized, Authorizing)];
    var a2 := a1.(state := Authorized, tasks := [ToNotify(0), ToNotify(1)], changes := changes);
    RunSnoc(s1, a1, SetWrites(1), a2);
    var s3 := s2 + [SetNotifies(1)];
    var a3 := a2.(tasks := [ToNotify(0), Finished], told := [1]);
    RunSnoc(s2, a2, SetNotifies(1), a3);
    steps := s3 + [SetNotifies(0)];
    RunSnoc(s3, a3, SetNotifies(0), a3.(tasks := [Finished, Finished], told := [1, 0]));
    assert Linked(changes, 0) && Linked(changes, 1);
  }

  // ---------- What changes the state ----------

  /** What a step asks the state to become: a call with a token, Authorizing; an answer, what it says; a
      published timeout and disconnecting, Unauthorized. */
  predicate AsksFor(a: Auth, step: Step, newState: AuthState) {
    match step
    case Call(token) => token != "" && newState == Authorizing
    case Answer(state) =>
      (state == "AUTHORIZED" && newState == Authorized) || (state == "UNAUTHORIZED" && newState == Unauthorized)
    case TimerFires(k) => Timeouts(Next(a, step)) > Timeouts(a) && newState == Unauthorized
    case Disconnect => newState == Unauthorized
    case UserSets(wanted) => newState == wanted
    case _ => false
  }

  predicate IsTaskStep(step: Step) {
    step.SetReads? || step.SetWrites? || step.SetNotifies?
  }

  /** Each of these steps spawns that change and no other, and no other step spawns one. */
  lemma SpawnedByStep(a: Auth, step: Step)
    ensures forall newState :: AsksFor(a, step, newState) ==> Next(a, step).tasks == a.tasks + [ToRead(newState)]
    ensures !IsTaskStep(step) ==>
              var b := Next(a, step);
              && b.state == a.state && b.changes == a.changes
              && (b.tasks == a.tasks
                  || exists newState :: AsksFor(a, step, newState) && b.tasks == a.tasks + [ToRead(newState)])
  {
    TimeoutsOfNext(a, step);
    hide Timeouts;
    var b := Next(a, step);
    if !IsTaskStep(step) && b.tasks != a.tasks {
      assert AsksFor(a, step, b.tasks[|a.tasks|].newState);
    }
  }

  /** A refusal, a disconnect and a published timeout each spawn the change to Unauthorized, and an
      acceptance the change to Authorized; a call with a token, the change to Authorizing. */
  lemma WhatIsSpawned(a: Auth, token: string, k: nat)
    ensures Next(a, Answer("UNAUTHORIZED")).tasks == a.tasks + [ToRead(Unauthorized)]
    ensures Next(a, Disconnect).tasks == a.tasks + [ToRead(Unauthorized)]
    ensures Timeouts(Next(a, TimerFires(k))) > Timeouts(a) ==>
              Next(a, TimerFires(k)).tasks == a.tasks + [ToRead(Unauthorized)]
    ensures Next(a, Answer("AUTHORIZED")).tasks == a.tasks + [ToRead(Authorized)]
    ensures token != "" ==> Next(a, Call(token)).tasks == a.tasks + [ToRead(Authorizing)]
  {
    TimeoutsOfNext(a, TimerFires(k));
    hide Timeouts;
  }

  /** A spawned change that runs leaves its state behind; it is recorded exactly if the state was another
      before. */
  lemma ChangeTakesEffect(a: Auth, k: nat, newState: AuthState)
    requires k < |a.tasks| && a.tasks[k] == ToRead(newState)
    ensures var b := Next(Next(a, SetReads(k)), SetWrites(k));
            && b.state == newState
            && b.changes == if a.state == newState then a.changes else a.changes + [Change(newState, a.state)]
  {
  }

  /** The state is this one, has been, or is on its way. */
  ghost predicate Wanted(a: Auth, x: AuthState) {
    || a.state == x
    || (exists i :: 0 <= i < |a.changes| && a.changes[i].newState == x)
    || (exists k :: 0 <= k < |a.tasks| && Sets(a.tasks[k], x))
  }

  predicate Sets(t: SetTask, x: AuthState) {
    (t.ToRead? || t.ToWrite?) && t.newState == x
  }

  lemma WantedAfterTask(a: Auth, k: nat, x: AuthState)
    requires k < |a.tasks| && Wanted(TaskStep(a, k), x)
    ensures Wanted(a, x)
  {
    var b := TaskStep(a, k);
    if Sets(a.tasks[k], x) {
      assert Wanted(a, x);
    } else {
      assert forall i :: 0 <= i < |b.changes| && b.changes[i].newState == x ==>
               i < |a.changes| && a.changes[i] == b.changes[i];
      assert forall j :: 0 <= j < |b.tasks| && Sets(b.tasks[j], x) ==> Sets(a.tasks[j], x);
    }
  }

  lemma WantedAfterSpawn(a: Auth, b: Auth, newState: AuthState, x: AuthState)
    requires b.state == a.state && b.changes == a.changes && b.tasks == a.tasks + [ToRead(newState)]
    requires Wanted(b, x)
    ensures Wanted(a, x) || newState == x
  {
    if j :| 0 <= j < |b.tasks| && Sets(b.tasks[j], x) {
      assert j < |a.tasks| ==> Sets(a.tasks[j], x);
    }
  }

  lemma WantedAfterStep(a: Auth, step: Step, x: AuthState)
    requires Wanted(Next(a, step), x)
    ensures Wanted(a, x) || AsksFor(a, step, x)
  {
    SpawnedByStep(a, step);
    var b := Next(a, step);
    if IsTaskStep(step) {
      hide Wanted, TaskStep;
      if b != a {
        WantedAfterTask(a, step.task, x);
      }
    } else {
      hide AsksFor, Wanted, Next;
      if b.tasks == a.tasks {
        SameStateAndTasks(a, b, x);
      } else {
        var newState :| AsksFor(a, step, newState) && b.tasks == a.tasks + [ToRead(newState)];
        WantedAfterSpawn(a, b, newState, x);
      }
    }
  }

  lemma SameStateAndTasks(a: Auth, b: Auth, x: AuthState)
    requires b.state == a.state && b.changes == a.changes && b.tasks == a.tasks
    ensures Wanted(a, x) == Wanted(b, x)
  {
  }

  ghost predicate AskedFor(steps: seq<Step>, x: AuthState) {
    exists i :: 0 <= i < |steps| && AsksFor(Run(steps[..i]), steps[i], x)
  }

  /** Over every run, the state is only what some step has asked for, or was from the start; so without
      the public setter the client is authorized only after an answer that says so, and authorizing
      only after a call with a token. */
  lemma {:induction false} StateNeedsAsking(steps: seq<Step>, x: AuthState)
    requires Wanted(Run(steps), x)
    ensures x == Unauthorized || AskedFor(steps, x)
  {
    hide Next, Wanted, AsksFor;
    if steps == [] {
      assert x == Unauthorized by {
        OnlyUnauthorizedAtFirst(x);
      }
    } else {
      var front, last := steps[..|steps| - 1], steps[|steps| - 1];
      WantedAfterStep(Run(front), last, x);
      if Wanted(Run(front), x) {
        StateNeedsAsking(front, x);
        if x != Unauthorized {
          var i :| 0 <= i < |front| && AsksFor(Run(front[..i]), front[i], x);
          assert front[..i] == steps[..i];
          assert AsksFor(Run(steps[..i]), steps[i], x);
        }
      } else {
        assert AsksFor(Run(steps[..|front|]), steps[|front|], x);
      }
    }
  }

  lemma OnlyUnauthorizedAtFirst(x: AuthState)
    ensures Wanted(INIT, x) ==> x == Unauthorized
  {
  }

  lemma AuthorizedNeedsAnswer(steps: seq<Step>)
    requires forall i :: 0 <= i < |steps| ==> !steps[i].UserSets?
    ensures var a := Run(steps);
            && ((a.state == Authorized || exists i :: 0 <= i < |a.changes| && a.changes[i].newState == Authorized) ==>
                  Occurs(steps, Answer("AUTHORIZED")))
            && ((a.state == Authorizing || exists i :: 0 <= i < |a.changes| && a.changes[i].newState == Authorizing) ==>
                  exists token :: token != "" && Occurs(steps, Call(token)))
  {
    var a := Run(steps);
    if Wanted(a, Authorized) {
      StateNeedsAsking(steps, Authorized);
      var i :| 0 <= i < |steps| && AsksFor(Run(steps[..i]), steps[i], Authorized);
      assert steps[i] == Answer("AUTHORIZED");
    }
    if Wanted(a, Authorizing) {
      StateNeedsAsking(steps, Authorizing);
      var i :| 0 <= i < |steps| && AsksFor(Run(steps[..i]), steps[i], Authorizing);
      assert steps[i].Call? && Occurs(steps, Call(steps[i].token));
    }
    hide Run;
  }

  // ---------- The object ----------

  /** The two locked fields of the client, with the spawned work and the history that surround them.
      Each method is one region between two points at which something else may run. */
  class AuthCell {
    var authState: AuthState
    var authTimeout: bool
    var lastAuthToken: Option<string>
    ghost var calling: nat
    ghost var starting: nat
    ghost var timers: seq<Timer>
    ghost var tasks: seq<SetTask>
    ghost var events: seq<Event>
    ghost var changes: seq<Change>
    ghost var told: seq<nat>

    ghost function View(): Auth
      reads this
    {
      Auth(authState, authTimeout, calling, starting, timers, tasks, events, changes, told)
    }

    constructor ()
      ensures View() == INIT && lastAuthToken == None
    {
      authState, authTimeout, lastAuthToken := Unauthorized, false, None;
      calling, starting, timers, tasks, events, changes, told := 0, 0, [], [], [], [], [];
    }

    /** The beginning of a call; an empty token is refused. */
    method BeginAuth(token: string) returns (accepted: bool)
      modifies this
      ensures accepted <==> token != ""
      ensures View() == Next(old(View()), Call(token)) && lastAuthToken == old(lastAuthToken)
    {
      if token == "" {
        return false;
      }
      tasks := tasks + [ToRead(Authorizing)];
      calling := calling + 1;
      events := events + [Called];
      accepted := true;
    }

    method ArmTimeout()
      requires calling > 0
      modifies this
      ensures View() == Next(old(View()), Arm) && lastAuthToken == old(lastAuthToken)
    {
      authTimeout := true;
      calling, starting := calling - 1, starting + 1;
      events := events + [Armed];
    }

    /** What a timer does after its sleep, having read the state before. */
    method Fire(ghost timer: nat, seen: AuthState) returns (published: bool)
      requires timer < |timers| && timers[timer] == Woken(seen)
      modifies this
      ensures published <==> seen == Authorizing && old(authTimeout)
      ensures View() == Next(old(View()), TimerFires(timer)) && lastAuthToken == old(lastAuthToken)
    {
      timers := timers[timer := Expired];
      published := seen == Authorizing && authTimeout;
      if published {
        authTimeout := false;
        tasks := tasks + [ToRead(Unauthorized)];
        events := events + [TimedOut];
      }
    }

    /** An AUTH_STATE answer; a state other than the two known ones is an error, and a refusal makes
        the client forget its token. */
    method ProcessAnswer(state: string) returns (ok: bool)
      modifies this
      ensures ok <==> state in {"AUTHORIZED", "UNAUTHORIZED"}
      ensures View() == Next(old(View()), Answer(state))
      ensures !authTimeout && tasks == old(tasks) + if state == "AUTHORIZED" then [ToRead(Authorized)]
                                                    else if state == "UNAUTHORIZED" then [ToRead(Unauthorized)]
                                                    else []
      ensures lastAuthToken == if state == "UNAUTHORIZED" then None else old(lastAuthToken)
    {
      authTimeout := false;
      events := events + [Answered];
      ok := true;
      if state == "AUTHORIZED" {
        tasks := tasks + [ToRead(Authorized)];
      } else if state == "UNAUTHORIZED" {
        tasks := tasks + [ToRead(Unauthorized)];
        lastAuthToken := None;
      } else {
        ok := false;
      }
    }

    /** The first region of a spawned change. */
    method ReadOldState(ghost task: nat, newState: AuthState) returns (oldState: AuthState, changes: bool)
      requires task < |tasks| && tasks[task] == ToRead(newState)
      modifies this`tasks
      ensures oldState == authState && (changes <==> authState != newState)
      ensures View() == Next(old(View()), SetReads(task))
    {
      oldState := authState;
      changes := oldState != newState;
      tasks := tasks[task := if changes then ToWrite(newState, oldState) else Finished];
    }

    /** The second region: whatever the state is now, it is overwritten. */
    method WriteNewState(ghost task: nat, newState: AuthState, ghost oldState: AuthState)
      requires task < |tasks| && tasks[task] == ToWrite(newState, oldState)
      modifies this`tasks, this`authState, this`changes
      ensures View() == Next(old(View()), SetWrites(task))
    {
      authState := newState;
      tasks := tasks[task := ToNotify(|changes|)];
      changes := changes + [Change(newState, oldState)];
    }
  }
}
