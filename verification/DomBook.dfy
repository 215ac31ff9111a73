/**
  The market-depth service: a book bound to one channel, kept under a configurable depth.

  DomStep is what one call does to the state, including calls that fail; the class DomService is the
  service itself.
 */
module DomBook {
  import opened BookSort
  import opened Floats
  import opened Wrappers

  datatype DomSetup = DomSetup(
    channel: u64,
    period: Option<u64>,
    depth: Option<u64>,
    format: Option<string>,
    fields: Option<seq<string>>)

  datatype DomConfig = DomConfig(channel: u64, period: u64, depth: u64, format: string, fields: seq<string>)

  datatype DomSnapshot = DomSnapshot(
    channel: u64,
    time: u64,
    sequence: Option<u64>,
    bids: seq<Entry>,
    asks: seq<Entry>)

  datatype Fault = NonFinitePrice | NonFiniteSize | NegativeSize

  datatype DomError =
    | InvalidChannel(channel: u64)
    | InvalidEntry(side: Side, index: nat, fault: Fault)
    | SendError

  datatype DomState = DomState(
    channel: u64,
    period: u64,
    depth: u64,
    format: string,
    fields: seq<string>,
    bids: seq<Entry>,
    asks: seq<Entry>,
    time: u64,
    sequence: Option<u64>)

  const DEFAULT := DomState(0, 1000, 10, "FULL", ["price", "size"], [], [], 0, None)

  // ---------- Snapshots ----------

  function FaultOf(e: Entry): Option<Fault> {
    if !e.price.Finite? then Some(NonFinitePrice)
    else if !e.size.Finite? then Some(NonFiniteSize)
    else if e.size.value < 0.0 then Some(NegativeSize)
    else None
  }

  /** The first entry that is not valid, if there is one. */
  function FirstFault(side: Side, entries: seq<Entry>): Option<DomError> {
    if entries == [] then None
    else
      var front, last := entries[..|entries| - 1], entries[|entries| - 1];
      match FirstFault(side, front)
      case Some(error) => Some(error)
      case None =>
        match FaultOf(last)
        case Some(fault) => Some(InvalidEntry(side, |front|, fault))
        case None => None
  }

  /** A side is rejected exactly when some entry is not valid, and the error names the first one. */
  lemma {:induction false} FirstFaultIsFirst(side: Side, entries: seq<Entry>)
    ensures FirstFault(side, entries) == None <==> AllValid(entries)
    ensures match FirstFault(side, entries)
            case None => true
            case Some(error) =>
              && error.InvalidEntry? && error.side == side
              && error.index < |entries|
              && FaultOf(entries[error.index]) == Some(error.fault)
              && AllValid(entries[..error.index])
  {
    if entries != [] {
      var front, last := entries[..|entries| - 1], entries[|entries| - 1];
      FirstFaultIsFirst(side, front);
      assert FaultOf(last) == None <==> ValidEntry(last);
      match FirstFault(side, front) {
        case Some(error) =>
          assert entries[..error.index] == front[..error.index];
        case None =>
          assert entries == front + [last];
      }
    }
  }

  function Truncated(s: seq<Entry>, depth: nat): seq<Entry> {
    if |s| > depth then s[..depth] else s
  }

  /** One side of the book made from a side of a snapshot. */
  function Kept(side: Side, entries: seq<Entry>, depth: nat): seq<Entry> {
    Truncated(StableSort(side, entries), depth)
  }

  function SnapshotError(s: DomState, m: DomSnapshot): Option<DomError> {
    if m.channel == 0 || (s.channel != 0 && s.channel != m.channel) then Some(InvalidChannel(m.channel))
    else match FirstFault(Bids, m.bids)
      case Some(error) => Some(error)
      case None => FirstFault(Asks, m.asks)
  }

  function WithSnapshot(s: DomState, m: DomSnapshot): DomState {
    s.(channel := m.channel,
       bids := Kept(Bids, m.bids, s.depth),
       asks := Kept(Asks, m.asks, s.depth),
       time := m.time,
       sequence := m.sequence)
  }

  // ---------- The calls ----------

  datatype Call =
    | Initialize(channel: u64, setup: Option<DomSetup>, sends: bool)
    | HandleConfig(config: DomConfig)
    | HandleSnapshot(snapshot: DomSnapshot)

  function Configured(s: DomState, setup: DomSetup): DomState {
    s.(period := if setup.period.Some? then setup.period.value else s.period,
       depth := if setup.depth.Some? then setup.depth.value else s.depth,
       format := if setup.format.Some? then setup.format.value else s.format,
       fields := if setup.fields.Some? then setup.fields.value else s.fields)
  }

  function Emptied(s: DomState): DomState {
    s.(bids := [], asks := [], time := 0, sequence := None)
  }

  /** The message an initialization sends: the caller's own, or one made from the state. */
  function SetupMessage(s: DomState, channel: u64, setup: Option<DomSetup>): DomSetup {
    match setup
    case Some(provided) => provided.(channel := channel)
    case None => DomSetup(channel, Some(s.period), Some(s.depth), Some(s.format), Some(s.fields))
  }

  /** Binding to the channel comes before the look at the setup's own channel, and clearing the book
      before sending, so an initialization that fails may have changed the state. */
  function InitializeStep(s: DomState, channel: u64, setup: Option<DomSetup>, sends: bool)
    : (DomState, Result<DomSetup, DomError>)
  {
    if channel == 0 || (s.channel != 0 && s.channel != channel) then (s, Err(InvalidChannel(channel)))
    else
      var bound := s.(channel := channel);
      if setup.Some? && setup.value.channel != 0 && setup.value.channel != channel
      then (bound, Err(InvalidChannel(setup.value.channel)))
      else
        var done := Emptied(if setup.Some? then Configured(bound, setup.value) else bound);
        (done, if sends then Ok(SetupMessage(s, channel, setup)) else Err(SendError))
  }

  function ConfigStep(s: DomState, c: DomConfig): (DomState, Result<(), DomError>) {
    if c.channel == 0 || (s.channel != 0 && s.channel != c.channel) then (s, Err(InvalidChannel(c.channel)))
    else
      (s.(channel := c.channel, period := c.period, depth := c.depth, format := c.format, fields := c.fields),
       Ok(()))
  }

  function SnapshotStep(s: DomState, m: DomSnapshot): (DomState, Result<(), DomError>) {
    match SnapshotError(s, m)
    case Some(error) => (s, Err(error))
    case None => (WithSnapshot(s, m), Ok(()))
  }

  function DomStep(s: DomState, call: Call): DomState {
    match call
    case Initialize(channel, setup, sends) => InitializeStep(s, channel, setup, sends).0
    case HandleConfig(config) => ConfigStep(s, config).0
    case HandleSnapshot(snapshot) => SnapshotStep(s, snapshot).0
  }

  function Run(calls: seq<Call>): DomState {
    if calls == [] then DEFAULT
    else DomStep(Run(calls[..|calls| - 1]), calls[|calls| - 1])
  }

  predicate AcceptedSnapshot(s: DomState, call: Call) {
    call.HandleSnapshot? && SnapshotStep(s, call.snapshot).1.Ok?
  }

  /** The depth in force when the last snapshot was accepted. */
  function DepthAtSnapshot(calls: seq<Call>): nat {
    if calls == [] then 0
    else
      var before := Run(calls[..|calls| - 1]);
      if AcceptedSnapshot(before, calls[|calls| - 1]) then before.depth
      else DepthAtSnapshot(calls[..|calls| - 1])
  }

  // ---------- What an accepted snapshot stores ----------

  /** Kept and dropped entries together are the snapshot's; no dropped entry beats a kept one; there
      are as many as fit; and entries of equal price are in order of arrival. */
  lemma KeptIsTheBest(side: Side, entries: seq<Entry>, depth: nat)
    requires AllValid(entries)
    ensures var sorted := StableSort(side, entries);
            var kept := Kept(side, entries, depth);
            var dropped := sorted[|kept|..];
            && |kept| == (if |entries| <= depth then |entries| else depth)
            && sorted == kept + dropped
            && multiset(kept) + multiset(dropped) == multiset(entries)
            && (forall i, j :: 0 <= i < |kept| && 0 <= j < |dropped| ==> !Beats(side, dropped[j], kept[i]))
            && Sorted(side, kept) && AllValid(kept)
            && (forall p :: AtPrice(kept, p) <= AtPrice(entries, p))
  {
    hide StableSort, Beats, ValidEntry, AtPrice;
    var sorted := StableSort(side, entries);
    var kept := Kept(side, entries, depth);
    SortIsPermutation(side, entries);
    SortIsSorted(side, entries);
    SortKeepsValidity(side, entries);
    var dropped := sorted[|kept|..];
    assert sorted == kept + dropped;
    forall p ensures AtPrice(kept, p) <= AtPrice(entries, p) {
      SortKeepsPrices(side, entries, p);
      AtPriceConcat(kept, dropped, p);
    }
    forall i, j | 0 <= i < |kept| && 0 <= j < |dropped| ensures !Beats(side, dropped[j], kept[i]) {
      assert kept[i] == sorted[i] && dropped[j] == sorted[|kept| + j];
    }
  }

  /** A smaller depth keeps a prefix of what a larger one keeps. */
  lemma SmallerDepthIsPrefix(side: Side, entries: seq<Entry>, small: nat, large: nat)
    requires small <= large
    ensures Kept(side, entries, small) <= Kept(side, entries, large)
    ensures Kept(side, entries, small) == Truncated(Kept(side, entries, large), small)
  {
    hide StableSort;
  }

  /** Sending an accepted book back as a snapshot changes nothing. */
  lemma ReapplyingChangesNothing(s: DomState, m: DomSnapshot)
    requires SnapshotStep(s, m).1.Ok?
    ensures var t := SnapshotStep(s, m).0;
            SnapshotStep(t, DomSnapshot(t.channel, t.time, t.sequence, t.bids, t.asks)) == (t, Ok(()))
  {
    FirstFaultIsFirst(Bids, m.bids);
    FirstFaultIsFirst(Asks, m.asks);
    KeptIsTheBest(Bids, m.bids, s.depth);
    KeptIsTheBest(Asks, m.asks, s.depth);
    var t := SnapshotStep(s, m).0;
    FirstFaultIsFirst(Bids, t.bids);
    FirstFaultIsFirst(Asks, t.asks);
    SortOfSorted(Bids, t.bids);
    SortOfSorted(Asks, t.asks);
  }

  // ---------- Every reachable state ----------

  ghost predicate SideInv(side: Side, s: seq<Entry>, depth: nat) {
    Sorted(side, s) && AllValid(s) && |s| <= depth
  }

  ghost predicate BookInv(s: DomState, depth: nat) {
    SideInv(Bids, s.bids, depth) && SideInv(Asks, s.asks, depth)
  }

  lemma StepKeepsBook(s: DomState, call: Call, depth: nat)
    requires BookInv(s, depth)
    ensures BookInv(DomStep(s, call), if AcceptedSnapshot(s, call) then s.depth else depth)
  {
    hide Beats, ValidEntry, StableSort;
    match call
    case HandleSnapshot(m) =>
      if SnapshotStep(s, m).1.Ok? {
        FirstFaultIsFirst(Bids, m.bids);
        FirstFaultIsFirst(Asks, m.asks);
        KeptIsTheBest(Bids, m.bids, s.depth);
        KeptIsTheBest(Asks, m.asks, s.depth);
      }
    case _ =>
  }

  /** After any sequence of calls, including failing ones, both sides are ordered, hold only finite
      prices and finite sizes that are not negative, and are no longer than the depth in force when
      the last snapshot was accepted. */
  lemma {:induction false} BookIsAlwaysOrdered(calls: seq<Call>)
    ensures BookInv(Run(calls), DepthAtSnapshot(calls))
  {
    if calls == [] {
      assert BookInv(DEFAULT, 0);
    } else {
      hide DomStep, BookInv, AcceptedSnapshot;
      BookIsAlwaysOrdered(calls[..|calls| - 1]);
      StepKeepsBook(Run(calls[..|calls| - 1]), calls[|calls| - 1], DepthAtSnapshot(calls[..|calls| - 1]));
    }
  }

  /** Once bound, the service stays bound to the same channel. */
  lemma {:induction false} ChannelNeverChanges(before: seq<Call>, after: seq<Call>)
    requires Run(before).channel != 0
    ensures Run(before + after).channel == Run(before).channel
  {
    hide Kept, FirstFault;
    if after == [] {
      assert before + after == before;
    } else {
      assert (before + after)[..|before + after| - 1] == before + after[..|after| - 1];
      ChannelNeverChanges(before, after[..|after| - 1]);
    }
  }

  /** Nothing in the book, and the setup says what is in force already. */
  predicate NothingToSetUp(s: DomState, setup: Option<DomSetup>) {
    && s.bids == [] && s.asks == [] && s.time == 0 && s.sequence == None
    && (setup.Some? ==>
          && setup.value.period in {None, Some(s.period)}
          && setup.value.depth in {None, Some(s.depth)}
          && setup.value.format in {None, Some(s.format)}
          && setup.value.fields in {None, Some(s.fields)})
  }

  /** When an initialization, if it fails, leaves the state alone: its channel is refused outright; or
      the service is bound already and the setup names another channel; or, where only sending can
      fail, there is nothing to bind, to set up or to clear. */
  predicate FailsCleanly(s: DomState, channel: u64, setup: Option<DomSetup>) {
    || channel == 0
    || (s.channel != 0 && s.channel != channel)
    || (s.channel != 0 && setup.Some? && setup.value.channel != 0 && setup.value.channel != channel)
    || (s.channel != 0 && NothingToSetUp(s, setup))
  }

  /** A rejected configuration or snapshot leaves the whole state as it was. A rejected
      initialization does so exactly when it fails cleanly. */
  lemma RejectionsLeaveStateAlone(s: DomState, call: Call)
    ensures call.HandleConfig? && ConfigStep(s, call.config).1.Err? ==> DomStep(s, call) == s
    ensures call.HandleSnapshot? && SnapshotStep(s, call.snapshot).1.Err? ==> DomStep(s, call) == s
    ensures call.Initialize? && InitializeStep(s, call.channel, call.setup, call.sends).1.Err? ==>
              (DomStep(s, call) == s <==> FailsCleanly(s, call.channel, call.setup))
  {
    if call.Initialize? {
      var bound := s.(channel := call.channel);
      var ready := if call.setup.Some? then Configured(bound, call.setup.value) else bound;
      assert Emptied(ready) == s <==> s.channel == call.channel && NothingToSetUp(s, call.setup);
    }
  }

  lemma RunSnoc(calls: seq<Call>, call: Call)
    ensures Run(calls + [call]) == DomStep(Run(calls), call)
  {
    assert (calls + [call])[..|calls|] == calls;
  }

  /** A new service that refuses a setup for another channel is bound to the requested one
      nevertheless, and from then on refuses the channel the setup was for. */
  lemma RefusedSetupBinds(channel: u64, other: u64, sends: bool)
    requires channel != 0 && other != 0 && channel != other
    ensures var setup := DomSetup(other, None, None, None, None);
            var call := Initialize(channel, Some(setup), sends);
            && InitializeStep(Run([]), channel, Some(setup), sends).1 == Err(InvalidChannel(other))
            && Run([call]).channel == channel
            && InitializeStep(Run([call]), other, None, true).1 == Err(InvalidChannel(other))
  {
    var call := Initialize(channel, Some(DomSetup(other, None, None, None, None)), sends);
    assert [] + [call] == [call];
    RunSnoc([], call);
  }

  /** On a service that has been set up and has got a snapshot, an initialization that is not sent
      has cleared the book. */
  lemma FailedSendClearsBook(channel: u64, snapshot: DomSnapshot)
    requires channel != 0 && snapshot.channel == channel
    requires AllValid(snapshot.bids) && AllValid(snapshot.asks)
    ensures var s := Run([Initialize(channel, None, true), HandleSnapshot(snapshot)]);
            && s.channel == channel && s.time == snapshot.time && s.sequence == snapshot.sequence
            && InitializeStep(s, channel, None, false) == (Emptied(s), Err(SendError))
            && (DomStep(s, Initialize(channel, None, false)) != s <==>
                snapshot.time != 0 || snapshot.sequence != None || snapshot.bids != [] || snapshot.asks != [])
  {
    var first, second := Initialize(channel, None, true), HandleSnapshot(snapshot);
    assert [] + [first] == [first] && [first] + [second] == [first, second];
    RunSnoc([], first);
    RunSnoc([first], second);
    var ready := Run([first]);
    assert ready.channel == channel && ready.depth == DEFAULT.depth;
    AcceptedIff(ready, snapshot);
    KeptIsTheBest(Bids, snapshot.bids, ready.depth);
    KeptIsTheBest(Asks, snapshot.asks, ready.depth);
  }

  /** Whether a snapshot is accepted depends on its channel and its entries alone, never on the order
      of its entries or on what the book holds. */
  lemma AcceptedIff(s: DomState, m: DomSnapshot)
    ensures SnapshotStep(s, m).1.Ok? <==>
            && m.channel != 0 && (s.channel == 0 || s.channel == m.channel)
            && AllValid(m.bids) && AllValid(m.asks)
  {
    FirstFaultIsFirst(Bids, m.bids);
    FirstFaultIsFirst(Asks, m.asks);
  }

  // ---------- What each call does ----------

  predicate Sound(e: Entry) {
    e.price.Finite? && e.size.Finite? && e.size.value >= 0.0
  }

  /** The best of the entries, best first: bids from the highest price, asks from the lowest; as many as
      fit; none that was not there; and whatever is left out is no better than anything kept. */
  ghost predicate BestOf(side: Side, entries: seq<Entry>, depth: nat, kept: seq<Entry>) {
    && |kept| == (if |entries| <= depth then |entries| else depth)
    && multiset(kept) <= multiset(entries)
    && (forall e :: e in multiset(entries) ==> Sound(e))
    && (forall i, j :: 0 <= i < j < |kept| ==> NoWorse(side, kept[i], kept[j]))
    && (forall i, e :: 0 <= i < |kept| && e in multiset(entries) - multiset(kept) ==> NoWorse(side, kept[i], e))
  }

  predicate NoWorse(side: Side, a: Entry, b: Entry) {
    && a.price.Finite? && b.price.Finite?
    && if side == Bids then a.price.value >= b.price.value else a.price.value <= b.price.value
  }

  lemma UnbeatenIsNoWorse(side: Side, a: Entry, b: Entry)
    requires ValidEntry(a) && ValidEntry(b)
    ensures NoWorse(side, a, b) <==> !Beats(side, b, a)
    ensures Sound(a)
  {
    BeatingMeans(b, a);
  }

  lemma KeptIsBestOf(side: Side, entries: seq<Entry>, depth: nat)
    requires AllValid(entries)
    ensures BestOf(side, entries, depth, Kept(side, entries, depth))
  {
    hide Kept, StableSort, Beats, NoWorse, Sound, ValidEntry, AtPrice;
    KeptIsTheBest(side, entries, depth);
    SortKeepsValidity(side, entries);
    var sorted := StableSort(side, entries);
    var kept := Kept(side, entries, depth);
    var dropped := sorted[|kept|..];
    assert multiset(entries) - multiset(kept) == multiset(dropped);
    forall e | e in multiset(entries) ensures Sound(e) {
      assert e in entries;
      UnbeatenIsNoWorse(side, e, e);
    }
    forall i, j | 0 <= i < j < |kept| ensures NoWorse(side, kept[i], kept[j]) {
      UnbeatenIsNoWorse(side, kept[i], kept[j]);
    }
    forall i, e | 0 <= i < |kept| && e in multiset(dropped) ensures NoWorse(side, kept[i], e) {
      var j :| 0 <= j < |dropped| && dropped[j] == e;
      assert sorted[|kept| + j] == e;
      UnbeatenIsNoWorse(side, kept[i], e);
    }
  }

  /** An accepted snapshot stores the best entries of each side, with the snapshot's time and sequence,
      binds the service to its channel, and changes no setting. */
  lemma SnapshotStoresTheBest(s: DomState, m: DomSnapshot)
    requires SnapshotStep(s, m).1.Ok?
    ensures var t := SnapshotStep(s, m).0;
            && BestOf(Bids, m.bids, s.depth, t.bids)
            && BestOf(Asks, m.asks, s.depth, t.asks)
            && t.channel == m.channel && t.time == m.time && t.sequence == m.sequence
            && t.period == s.period && t.depth == s.depth && t.format == s.format && t.fields == s.fields
  {
    AcceptedIff(s, m);
    KeptIsBestOf(Bids, m.bids, s.depth);
    KeptIsBestOf(Asks, m.asks, s.depth);
    hide Kept, BestOf;
  }

  predicate IsFaultOf(fault: Fault, e: Entry) {
    match fault
    case NonFinitePrice => !e.price.Finite?
    case NonFiniteSize => e.price.Finite? && !e.size.Finite?
    case NegativeSize => e.price.Finite? && e.size.Finite? && e.size.value < 0.0
  }

  /** The first entry of the side that is not sound, and what is wrong with it. */
  predicate NamesFirstFault(error: DomError, side: Side, entries: seq<Entry>) {
    && error.InvalidEntry? && error.side == side && error.index < |entries|
    && IsFaultOf(error.fault, entries[error.index])
    && forall i :: 0 <= i < error.index ==> Sound(entries[i])
  }

  lemma FirstFaultMeans(side: Side, entries: seq<Entry>)
    ensures FirstFault(side, entries) == None <==> forall i :: 0 <= i < |entries| ==> Sound(entries[i])
    ensures FirstFault(side, entries).Some? ==> NamesFirstFault(FirstFault(side, entries).value, side, entries)
  {
    FirstFaultIsFirst(side, entries);
    if FirstFault(side, entries).Some? {
      var index := FirstFault(side, entries).value.index;
      assert forall i :: 0 <= i < index ==> entries[i] == entries[..index][i];
    }
  }

  /** Exactly when a snapshot is accepted, and why it is not: the channel comes first, then the bids,
      then the asks. */
  lemma SnapshotVerdict(s: DomState, m: DomSnapshot)
    ensures var r := SnapshotStep(s, m).1;
            var fits := m.channel != 0 && (s.channel == 0 || s.channel == m.channel);
            var bidsSound := forall i :: 0 <= i < |m.bids| ==> Sound(m.bids[i]);
            var asksSound := forall i :: 0 <= i < |m.asks| ==> Sound(m.asks[i]);
            && (r.Ok? <==> fits && bidsSound && asksSound)
            && (!fits ==> r == Err(InvalidChannel(m.channel)))
            && (fits && !bidsSound ==> NamesFirstFault(r.error, Bids, m.bids))
            && (fits && bidsSound && !asksSound ==> NamesFirstFault(r.error, Asks, m.asks))
  {
    FirstFaultMeans(Bids, m.bids);
    FirstFaultMeans(Asks, m.asks);
    hide FirstFault, Sound, NamesFirstFault;
  }

  /** A configuration for the service's channel is accepted, whatever it says, and no other is. Then it
      is what the service announces, and its depth is what the next snapshot is cut to; the book stays
      as it is until then. */
  lemma ConfigTakesEffect(s: DomState, c: DomConfig, m: DomSnapshot)
    ensures ConfigStep(s, c).1 ==
            if c.channel != 0 && (s.channel == 0 || s.channel == c.channel) then Ok(())
            else Err(InvalidChannel(c.channel))
    ensures ConfigStep(s, c).1.Ok? ==>
              var t := ConfigStep(s, c).0;
              && InitializeStep(t, c.channel, None, true).1
                 == Ok(DomSetup(c.channel, Some(c.period), Some(c.depth), Some(c.format), Some(c.fields)))
              && t.bids == s.bids && t.asks == s.asks && t.time == s.time && t.sequence == s.sequence
              && (SnapshotStep(t, m).1.Ok? ==>
                    && BestOf(Bids, m.bids, c.depth, SnapshotStep(t, m).0.bids)
                    && BestOf(Asks, m.asks, c.depth, SnapshotStep(t, m).0.asks))
  {
    var t := ConfigStep(s, c).0;
    if SnapshotStep(t, m).1.Ok? {
      SnapshotStoresTheBest(t, m);
    }
    hide SnapshotStep, BestOf;
  }

  function Or<T>(o: Option<T>, otherwise: T): T {
    if o.Some? then o.value else otherwise
  }

  /** Exactly when an initialization succeeds, and why it does not: the requested channel comes first,
      then the setup's own, then sending. */
  lemma InitializeVerdict(s: DomState, channel: u64, setup: Option<DomSetup>, sends: bool)
    ensures var r := InitializeStep(s, channel, setup, sends).1;
            var fits := channel != 0 && (s.channel == 0 || s.channel == channel);
            var agrees := setup.Some? ==> setup.value.channel in {0, channel};
            && (r.Ok? <==> fits && agrees && sends)
            && (!fits ==> r == Err(InvalidChannel(channel)))
            && (fits && !agrees ==> r == Err(InvalidChannel(setup.value.channel)))
            && (fits && agrees && !sends ==> r == Err(SendError))
  {
  }

  /** A successful initialization announces the caller's setup as it is, or else what is in force; from
      then on what the setup says is in force, and what it leaves open is as before; the book is empty.
      An initialization that cannot be sent does the same. */
  lemma SetupTakesEffect(s: DomState, channel: u64, setup: Option<DomSetup>)
    requires InitializeStep(s, channel, setup, true).1.Ok?
    ensures var t := InitializeStep(s, channel, setup, true).0;
            var message := InitializeStep(s, channel, setup, true).1.value;
            var inForce := DomSetup(channel, Some(s.period), Some(s.depth), Some(s.format), Some(s.fields));
            var given := if setup.Some? then setup.value else inForce;
            && message == DomSetup(channel, given.period, given.depth, given.format, given.fields)
            && InitializeStep(t, channel, None, true).1
               == Ok(DomSetup(channel, Some(Or(given.period, s.period)), Some(Or(given.depth, s.depth)),
                              Some(Or(given.format, s.format)), Some(Or(given.fields, s.fields))))
            && t.channel == channel && t.depth == Or(given.depth, s.depth)
            && t.bids == [] && t.asks == [] && t.time == 0 && t.sequence == None
            && InitializeStep(s, channel, setup, false).0 == t
  {
  }

  /** What a new service announces. */
  lemma NewServiceAnnounces(channel: u64)
    requires channel != 0
    ensures InitializeStep(Run([]), channel, None, true).1
         == Ok(DomSetup(channel, Some(1000), Some(10), Some("FULL"), Some(["price", "size"])))
  {
  }

  // ---------- The service ----------

  class DomService {
    var channel: u64
    var aggregationPeriod: u64
    var depthLimit: u64
    var dataFormat: string
    var orderFields: seq<string>
    var bids: seq<Entry>
    var asks: seq<Entry>
    var lastUpdateTime: u64
    var sequence: Option<u64>
    /** The setup messages sent. */
    var outbox: seq<DomSetup>

    function State(): DomState
      reads this
    {
      DomState(channel, aggregationPeriod, depthLimit, dataFormat, orderFields, bids, asks, lastUpdateTime, sequence)
    }

    constructor ()
      ensures State() == DEFAULT && outbox == []
    {
      channel := 0;
      aggregationPeriod := 1000;
      depthLimit := 10;
      dataFormat := "FULL";
      orderFields := ["price", "size"];
      bids, asks := [], [];
      lastUpdateTime := 0;
      sequence := None;
      outbox := [];
    }

    method ApplySetup(provided: DomSetup)
      modifies this`aggregationPeriod, this`depthLimit, this`dataFormat, this`orderFields
      ensures State() == Configured(old(State()), provided)
    {
      if provided.period.Some? {
        aggregationPeriod := provided.period.value;
      }
      if provided.depth.Some? {
        depthLimit := provided.depth.value;
      }
      if provided.format.Some? {
        dataFormat := provided.format.value;
      }
      if provided.fields.Some? {
        orderFields := provided.fields.value;
      }
    }

    method ClearBook()
      modifies this`lastUpdateTime, this`sequence, this`bids, this`asks
      ensures State() == Emptied(old(State()))
    {
      lastUpdateTime := 0;
      sequence := None;
      bids := [];
      asks := [];
    }

    /** `sends` says whether the connection takes the message. */
    method Initialize(channel: u64, setup: Option<DomSetup>, sends: bool) returns (r: Result<(), DomError>)
      modifies this
      ensures State() == DomStep(old(State()), Call.Initialize(channel, setup, sends))
      ensures var expected := InitializeStep(old(State()), channel, setup, sends).1;
              && (r.Ok? <==> expected.Ok?)
              && (r.Err? ==> r.error == expected.error)
              && outbox == old(outbox) + if expected.Ok? then [expected.value] else []
    {
      if channel == 0 {
        return Err(InvalidChannel(channel));
      }
      if this.channel != 0 && this.channel != channel {
        return Err(InvalidChannel(channel));
      }
      this.channel := channel;
      var message: DomSetup;
      if setup.Some? {
        var provided := setup.value;
        if provided.channel == 0 {
          provided := provided.(channel := channel);
        } else if provided.channel != channel {
          return Err(InvalidChannel(provided.channel));
        }
        ApplySetup(provided);
        message := provided;
      } else {
        message := DomSetup(this.channel, Some(aggregationPeriod), Some(depthLimit),
                            Some(dataFormat), Some(orderFields));
      }
      ClearBook();
      if !sends {
        return Err(SendError);
      }
      outbox := outbox + [message];
      r := Ok(());
    }

    method HandleConfig(config: DomConfig) returns (r: Result<(), DomError>)
      modifies this`channel, this`aggregationPeriod, this`depthLimit, this`dataFormat, this`orderFields
      ensures (State(), r) == ConfigStep(old(State()), config)
    {
      if config.channel == 0 {
        return Err(InvalidChannel(config.channel));
      }
      if channel != 0 && channel != config.channel {
        return Err(InvalidChannel(config.channel));
      }
      channel := config.channel;
      aggregationPeriod := config.period;
      depthLimit := config.depth;
      dataFormat := config.format;
      orderFields := config.fields;
      r := Ok(());
    }

    static method ValidateEntries(side: Side, entries: seq<Entry>) returns (error: Option<DomError>)
      ensures error == FirstFault(side, entries)
      ensures error == None <==> AllValid(entries)
    {
      FirstFaultIsFirst(side, entries);
      for idx := 0 to |entries|
        invariant FirstFault(side, entries[..idx]) == None
      {
        var entry := entries[idx];
        assert entries[..idx + 1][..idx] == entries[..idx];
        var fault :=
          if !entry.price.Finite? then Some(NonFinitePrice)
          else if !entry.size.Finite? then Some(NonFiniteSize)
          else if entry.size.value < 0.0 then Some(NegativeSize)
          else None;
        if fault.Some? {
          error := Some(InvalidEntry(side, idx, fault.value));
          FaultStays(side, entries, idx + 1);
          return;
        }
      }
      assert entries[..|entries|] == entries;
      error := None;
    }

    /** Both sides are checked before anything is stored. */
    method HandleSnapshot(m: DomSnapshot) returns (r: Result<(), DomError>)
      modifies this`channel, this`bids, this`asks, this`lastUpdateTime, this`sequence
      ensures (State(), r) == SnapshotStep(old(State()), m)
      ensures r.Ok? ==> BestOf(Bids, m.bids, depthLimit, bids) && BestOf(Asks, m.asks, depthLimit, asks)
    {
      hide FirstFault, StableSort, BestOf;
      if m.channel == 0 {
        return Err(InvalidChannel(m.channel));
      }
      if channel != 0 && channel != m.channel {
        return Err(InvalidChannel(m.channel));
      }
      var bidError := ValidateEntries(Bids, m.bids);
      if bidError.Some? {
        return Err(bidError.value);
      }
      var newBids := SortSide(Bids, m.bids);
      var askError := ValidateEntries(Asks, m.asks);
      if askError.Some? {
        return Err(askError.value);
      }
      var newAsks := SortSide(Asks, m.asks);
      if |newBids| > depthLimit {
        newBids := newBids[..depthLimit];
      }
      if |newAsks| > depthLimit {
        newAsks := newAsks[..depthLimit];
      }
      KeptIsBestOf(Bids, m.bids, depthLimit);
      KeptIsBestOf(Asks, m.asks, depthLimit);
      channel := m.channel;
      bids := newBids;
      asks := newAsks;
      lastUpdateTime := m.time;
      sequence := m.sequence;
      r := Ok(());
    }
  }

  lemma {:induction false} FaultStays(side: Side, entries: seq<Entry>, k: nat)
    requires k <= |entries| && FirstFault(side, entries[..k]).Some?
    ensures FirstFault(side, entries) == FirstFault(side, entries[..k])
  {
    if k == |entries| {
      assert entries[..k] == entries;
    } else {
      assert entries[..|entries| - 1][..k] == entries[..k];
      FaultStays(side, entries[..|entries| - 1], k);
    }
  }
}
