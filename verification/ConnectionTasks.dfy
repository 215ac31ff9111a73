/**
  Changes of the connection state. Every request to change it is spawned on its own, and what is
  spawned runs in any order. Each holds the state from its comparison to its last notification;
  listeners can be added in between.
 */
module ConnectionTasks {
  import opened Wrappers

  datatype ConnectionState = NotConnected | Connecting | Connected

  datatype Change = Change(newState: ConnectionState, oldState: ConnectionState)

  type ListenerId = nat

  /** `tasks` holds the requested state of every change that was spawned, until it has run. `log`
      records every change. `notifying` says that a task has changed the state and has not told
      the listeners yet; it still holds the state. `heard` is what each listener was told. */
  datatype Connection = Connection(
    state: ConnectionState,
    tasks: seq<Option<ConnectionState>>,
    notifying: bool,
    log: seq<Change>,
    heard: map<ListenerId, seq<Change>>)

  const INIT := Connection(NotConnected, [], false, [], map[])

  datatype Step =
    | Spawn(newState: ConnectionState)
    | Write(task: nat)
    | Notify
    | AddListener(l: ListenerId)

  function WriteState(c: Connection, newState: ConnectionState): Connection {
    if c.state == newState then c
    else c.(state := newState, log := c.log + [Change(newState, c.state)], notifying := true)
  }

  function NotifyAll(c: Connection): Connection
    requires c.notifying ==> c.log != []
  {
    if !c.notifying then c
    else c.(notifying := false, heard := map l | l in c.heard :: c.heard[l] + [c.log[|c.log| - 1]])
  }

  function Next(c: Connection, step: Step): Connection
    requires c.notifying ==> c.log != []
  {
    match step
    case Spawn(newState) => c.(tasks := c.tasks + [Some(newState)])
    case Write(task) =>
      if task < |c.tasks| && c.tasks[task].Some? && !c.notifying
      then WriteState(c.(tasks := c.tasks[task := None]), c.tasks[task].value)
      else c
    case Notify => NotifyAll(c)
    case AddListener(l) => if l in c.heard then c else c.(heard := c.heard[l := []])
  }

  /** The changes lead from one state to another without gaps, and none of them is idle. */
  predicate Chain(from: ConnectionState, log: seq<Change>, to: ConnectionState) {
    if log == [] then from == to
    else
      var last := log[|log| - 1];
      && last.newState == to && last.oldState != to
      && Chain(from, log[..|log| - 1], last.oldState)
  }

  predicate SuffixOf<T(==)>(a: seq<T>, b: seq<T>) {
    |a| <= |b| && a == b[|b| - |a|..]
  }

  /** The changes all present listeners have been told. */
  function Told(c: Connection): seq<Change> {
    if c.notifying && c.log != [] then c.log[..|c.log| - 1] else c.log
  }

  ghost predicate Inv(c: Connection) {
    && Chain(NotConnected, c.log, c.state)
    && (c.notifying ==> c.log != [])
    && forall l :: l in c.heard ==> SuffixOf(c.heard[l], Told(c))
  }

  lemma SuffixExtends<T>(a: seq<T>, b: seq<T>, x: T)
    requires SuffixOf(a, b)
    ensures SuffixOf(a + [x], b + [x])
  {
    assert (b + [x])[|b| - |a|..] == b[|b| - |a|..] + [x];
  }

  lemma WriteKeepsInv(c: Connection, newState: ConnectionState)
    requires Inv(c) && !c.notifying
    ensures Inv(WriteState(c, newState))
  {
    hide SuffixOf;
    var d := WriteState(c, newState);
    if d.log != c.log {
      assert d.log[..|d.log| - 1] == c.log;
    }
  }

  lemma NotifyKeepsInv(c: Connection)
    requires Inv(c)
    ensures Inv(NotifyAll(c))
  {
    hide Chain;
    if c.notifying {
      var last := c.log[|c.log| - 1];
      assert c.log == Told(c) + [last];
      forall l | l in c.heard ensures SuffixOf(c.heard[l] + [last], c.log) {
        SuffixExtends(c.heard[l], Told(c), last);
      }
    }
  }

  lemma NextKeepsInv(c: Connection, step: Step)
    requires Inv(c)
    ensures Inv(Next(c, step))
  {
    hide Chain, WriteState, NotifyAll;
    match step
    case Write(task) =>
      if task < |c.tasks| && c.tasks[task].Some? && !c.notifying {
        WriteKeepsInv(c.(tasks := c.tasks[task := None]), c.tasks[task].value);
      }
    case Notify => NotifyKeepsInv(c);
    case _ =>
  }

  function Run(steps: seq<Step>): (c: Connection)
    ensures Inv(c)
  {
    if steps == [] then INIT
    else
      var before := Run(steps[..|steps| - 1]);
      NextKeepsInv(before, steps[|steps| - 1]);
      Next(before, steps[|steps| - 1])
  }

  /** A change that starts where the one before it ended, or in `from`, and ends elsewhere. */
  predicate Linked(from: ConnectionState, log: seq<Change>, i: nat)
    requires i < |log|
  {
    && log[i].oldState == (if i == 0 then from else log[i - 1].newState)
    && log[i].oldState != log[i].newState
  }

  lemma {:induction false} ChainLinks(from: ConnectionState, log: seq<Change>, to: ConnectionState)
    requires Chain(from, log, to)
    ensures forall i :: 0 <= i < |log| ==> Linked(from, log, i)
    ensures to == if log == [] then from else log[|log| - 1].newState
  {
    if log != [] {
      var front, last := log[..|log| - 1], log[|log| - 1];
      ChainLinks(from, front, last.oldState);
      forall i | 0 <= i < |front| ensures Linked(from, log, i) {
        assert Linked(from, front, i);
      }
    }
  }

  /** In every run, the changes start from NotConnected, each starts where the one before ended, none
      is from a state to itself, and the last ends in the current state. */
  lemma ChangesAreAChain(steps: seq<Step>)
    ensures var c := Run(steps);
            && (forall i :: 0 <= i < |c.log| ==> Linked(NotConnected, c.log, i))
            && c.state == if c.log == [] then NotConnected else c.log[|c.log| - 1].newState
  {
    ChainLinks(NotConnected, Run(steps).log, Run(steps).state);
  }

  /** Every listener, whenever it was added, has been told a gapless run of changes; when no
      notification is under way, what it has been told ends with the latest change, so the last state
      it knows of is the current one. */
  lemma ListenersSeeAChain(steps: seq<Step>, l: ListenerId)
    requires l in Run(steps).heard
    ensures var c := Run(steps);
            var heard := c.heard[l];
            && SuffixOf(heard, Told(c))
            && (forall i :: 0 <= i < |heard| ==> Linked(heard[0].oldState, heard, i))
            && (!c.notifying && heard != [] ==> heard[|heard| - 1].newState == c.state)
  {
    var c := Run(steps);
    ChangesAreAChain(steps);
    hide Run, Chain;
    var told, heard := Told(c), c.heard[l];
    var skipped := |told| - |heard|;
    forall i | 0 <= i < |heard|
      ensures heard[i] == c.log[skipped + i] && Linked(NotConnected, c.log, skipped + i)
    {
      assert heard[i] == told[skipped..][i];
    }
    forall i | 0 <= i < |heard| ensures Linked(heard[0].oldState, heard, i) {
      assert Linked(NotConnected, c.log, skipped + i);
      assert i > 0 ==> heard[i - 1] == c.log[skipped + (i - 1)];
    }
    assert heard != [] ==> heard[|heard| - 1] == c.log[skipped + (|heard| - 1)];
  }

  // ---------- What the steps do ----------

  /** Only a spawned change that runs changes the state, to the one it was spawned for; it is recorded
      exactly if the state was another before. */
  lemma WritesTakeEffect(c: Connection, step: Step)
    requires c.notifying ==> c.log != []
    ensures var d := Next(c, step);
            if step.Write? && step.task < |c.tasks| && c.tasks[step.task].Some? && !c.notifying then
              var newState := c.tasks[step.task].value;
              && d.state == newState && d.tasks == c.tasks[step.task := None]
              && (if c.state == newState then d.log == c.log && !d.notifying
                  else d.log == c.log + [Change(newState, c.state)] && d.notifying)
            else
              && d.state == c.state && d.log == c.log
              && d.tasks == if step.Spawn? then c.tasks + [Some(step.newState)] else c.tasks
  {
  }

  ghost predicate HasHeard(c: Connection, l: ListenerId, from: nat) {
    l in c.heard && from <= |Told(c)| && c.heard[l] == Told(c)[from..]
  }

  lemma AddingHearsNothing(c: Connection, l: ListenerId)
    requires (c.notifying ==> c.log != []) && l !in c.heard
    ensures HasHeard(Next(c, AddListener(l)), l, |Told(c)|)
  {
  }

  lemma HearingGoesOn(c: Connection, step: Step, l: ListenerId, from: nat)
    requires (c.notifying ==> c.log != []) && HasHeard(c, l, from)
    ensures HasHeard(Next(c, step), l, from)
  {
    var d := Next(c, step);
    if step == Notify && c.notifying {
      assert Told(d) == Told(c) + [c.log[|c.log| - 1]];
    } else {
      assert Told(d) == Told(c) by {
        if d.log != c.log {
          assert d.log[..|d.log| - 1] == c.log;
        }
      }
    }
  }

  /** Every listener hears everything: over every run, it has been told exactly the changes that were
      told from the moment it was added. */
  lemma {:induction false} ListenersHearAll(steps: seq<Step>, j: nat, l: ListenerId)
    requires j < |steps| && steps[j] == AddListener(l) && l !in Run(steps[..j]).heard
    ensures HasHeard(Run(steps), l, |Told(Run(steps[..j]))|)
  {
    hide Next, Inv, HasHeard, Told;
    var front := steps[..|steps| - 1];
    if j == |front| {
      assert Inv(Run(front));
      NotifyingHasLog(Run(front));
      AddingHearsNothing(Run(front), l);
    } else {
      assert front[..j] == steps[..j];
      ListenersHearAll(front, j, l);
      NotifyingHasLog(Run(front));
      HearingGoesOn(Run(front), steps[|front|], l, |Told(Run(steps[..j]))|);
    }
  }

  lemma NotifyingHasLog(c: Connection)
    requires Inv(c)
    ensures c.notifying ==> c.log != []
  {
  }

  // ---------- The object ----------

  class ConnectionCell {
    var state: ConnectionState
    /** What each listener was told. */
    var heard: map<ListenerId, seq<Change>>
    ghost var log: seq<Change>

    ghost function View(): Connection
      reads this
    {
      Connection(state, [], false, log, heard)
    }

    constructor ()
      ensures View() == INIT
    {
      state := NotConnected;
      heard := map[];
      log := [];
    }

    method AddConnectionStateListener(l: ListenerId)
      requires l !in heard
      modifies this`heard
      ensures View() == Next(old(View()), AddListener(l))
    {
      heard := heard[l := []];
    }

    /** The body of a task, when no listener is added during it. The listeners are told one by one, in
        the order of a hash map. */
    method SetConnectionState(newState: ConnectionState)
      modifies this
      ensures state == newState && heard.Keys == old(heard).Keys
      ensures forall l :: l in heard ==>
                heard[l] == old(heard)[l] + if old(state) == newState then [] else [Change(newState, old(state))]
      ensures View() == NotifyAll(WriteState(old(View()), newState))
    {
      if state == newState {
        return;
      }
      var oldState := state;
      state := newState;
      log := log + [Change(newState, oldState)];
      var todo := heard.Keys;
      while todo != {}
        invariant todo <= heard.Keys && heard.Keys == old(heard).Keys
        invariant state == newState && log == old(log) + [Change(newState, oldState)]
        invariant forall l :: l in heard ==>
                    heard[l] == if l in todo then old(heard)[l] else old(heard)[l] + [Change(newState, oldState)]
      {
        var l :| l in todo;
        heard := heard[l := heard[l] + [Change(newState, oldState)]];
        todo := todo - {l};
      }
      assert heard == map l | l in old(heard) :: old(heard)[l] + [Change(newState, oldState)];
    }
  }
}
