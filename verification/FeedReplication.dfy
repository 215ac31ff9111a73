/**
  Keeping the server's subscriptions in step with the feed's own.

  The feed handles subscribe, unsubscribe, reset and configure events one at a time. Between the
  moments at which a handler looks at the channel, changes the local map, looks at the channel again
  and queues its message, the channel may change state. Each of these moments is one step here.

  What the server does with the messages is an assumption of the model: reset clears, remove
  deletes, add inserts or replaces, by type, source and symbol; messages arrive in order.
 */
module FeedReplication {
  import opened ChannelModel
  import opened CompactDecoder
  import opened FeedConfiguration
  import opened Floats
  import opened JsonModel
  import opened SubscriptionKeys
  import opened Wrappers

  // ---------- Entries ----------

  /** A subscription as it is sent. */
  datatype Entry = Entry(triple: Triple, fromTime: Option<u64>)

  predicate HasString(members: map<string, Json>, name: string) {
    name in members && members[name].Str?
  }

  predicate Absent(members: map<string, Json>, name: string) {
    name !in members || members[name].Null?
  }

  /** The key of a subscription: anything that has a type and a symbol has one, and a source that is
      not a string counts as none. */
  function SubscriptionKey(v: Json): Option<string> {
    if !v.Object? || !HasString(v.members, "type") || !HasString(v.members, "symbol") then None
    else
      var source := if HasString(v.members, "source") then Some(v.members["source"].s) else None;
      Some(KeyOf(Triple(v.members["type"].s, source, v.members["symbol"].s)))
  }

  /** The subscription as it can be sent: here a source must be a string if there is one, and a time
      must be an unsigned integer. */
  function ToEntry(v: Json): Option<Entry> {
    if !v.Object? || !HasString(v.members, "type") || !HasString(v.members, "symbol") then None
    else
      var m := v.members;
      if !Absent(m, "source") && !m["source"].Str? then None
      else if !Absent(m, "fromTime") && (!m["fromTime"].Int? || m["fromTime"].i < 0) then None
      else
        Some(Entry(Triple(m["type"].s,
                          if Absent(m, "source") then None else Some(m["source"].s),
                          m["symbol"].s),
                   if Absent(m, "fromTime") then None else Some(m["fromTime"].i)))
  }

  /** What is sent for a subscription has the key it is stored under. */
  lemma EntryKey(v: Json)
    requires ToEntry(v).Some?
    ensures SubscriptionKey(v) == Some(KeyOf(ToEntry(v).value.triple))
  {
  }

  /** How a subscription is written: without what it does not have. */
  function FromEntry(e: Entry): Json {
    var m := map["type" := Str(e.triple.kind), "symbol" := Str(e.triple.symbol)];
    var n := if e.triple.source.Some? then m["source" := Str(e.triple.source.value)] else m;
    Object(if e.fromTime.Some? then n["fromTime" := Int(e.fromTime.value)] else n)
  }

  /** What is written is read back. */
  lemma EntryRoundTrip(e: Entry)
    ensures ToEntry(FromEntry(e)) == Some(e)
  {
  }

  /** Exactly which values can be sent, and as what. */
  lemma SendableIff(v: Json)
    ensures ToEntry(v).Some? <==>
            && v.Object? && "type" in v.members && v.members["type"].Str?
            && "symbol" in v.members && v.members["symbol"].Str?
            && ("source" in v.members ==> v.members["source"].Str? || v.members["source"].Null?)
            && ("fromTime" in v.members ==>
                  (v.members["fromTime"].Int? && v.members["fromTime"].i >= 0) || v.members["fromTime"].Null?)
    ensures ToEntry(v).Some? ==>
              var e := ToEntry(v).value;
              && v.members["type"] == Str(e.triple.kind) && v.members["symbol"] == Str(e.triple.symbol)
              && (e.triple.source == None <==> "source" !in v.members || v.members["source"] == Null)
              && (e.triple.source.Some? ==> v.members["source"] == Str(e.triple.source.value))
              && (e.fromTime == None <==> "fromTime" !in v.members || v.members["fromTime"] == Null)
              && (e.fromTime.Some? ==> v.members["fromTime"] == Int(e.fromTime.value))
  {
  }

  // ---------- What the handlers do to the local map ----------

  type Subscriptions = map<string, Json>

  function InsertAll(subs: Subscriptions, vs: seq<Json>): Subscriptions {
    if vs == [] then subs
    else
      var front, v := vs[..|vs| - 1], vs[|vs| - 1];
      match SubscriptionKey(v)
      case Some(key) => InsertAll(subs, front)[key := v]
      case None => InsertAll(subs, front)
  }

  /** The values that have a key. */
  function Keyed(vs: seq<Json>): seq<Json> {
    if vs == [] then []
    else
      var front, v := vs[..|vs| - 1], vs[|vs| - 1];
      if SubscriptionKey(v).Some? then Keyed(front) + [v] else Keyed(front)
  }

  function DeleteAll(subs: Subscriptions, vs: seq<Json>): Subscriptions {
    if vs == [] then subs
    else
      var front, v := vs[..|vs| - 1], vs[|vs| - 1];
      match SubscriptionKey(v)
      case Some(key) => DeleteAll(subs, front) - {key}
      case None => DeleteAll(subs, front)
  }

  /** The values whose key was there when their turn came. */
  function Deleted(subs: Subscriptions, vs: seq<Json>): seq<Json> {
    if vs == [] then []
    else
      var front, v := vs[..|vs| - 1], vs[|vs| - 1];
      var key := SubscriptionKey(v);
      if key.Some? && key.value in DeleteAll(subs, front) then Deleted(subs, front) + [v]
      else Deleted(subs, front)
  }

  /** The values that can be sent. */
  function Entries(vs: seq<Json>): seq<Entry> {
    if vs == [] then []
    else
      var front, v := vs[..|vs| - 1], vs[|vs| - 1];
      match ToEntry(v)
      case Some(e) => Entries(front) + [e]
      case None => Entries(front)
  }

  // ---------- Messages and what the server makes of them ----------

  datatype AcceptConfig = AcceptConfig(
    period: Option<F64>,
    format: Option<DataFormat>,
    fields: Option<FieldMap>)

  datatype Message =
    | Subscription(add: Option<seq<Entry>>, remove: Option<seq<Entry>>, reset: Option<bool>)
    | Setup(config: AcceptConfig)

  type Remote = map<Triple, Entry>

  function AddAll(remote: Remote, entries: seq<Entry>): Remote {
    if entries == [] then remote
    else
      var last := entries[|entries| - 1];
      AddAll(remote, entries[..|entries| - 1])[last.triple := last]
  }

  function RemoveAll(remote: Remote, entries: seq<Entry>): Remote {
    if entries == [] then remote
    else RemoveAll(remote, entries[..|entries| - 1]) - {entries[|entries| - 1].triple}
  }

  function Apply(remote: Remote, m: Message): Remote {
    match m
    case Setup(_) => remote
    case Subscription(add, remove, reset) =>
      var cleared := if reset == Some(true) then map[] else remote;
      var removed := if remove.Some? then RemoveAll(cleared, remove.value) else cleared;
      if add.Some? then AddAll(removed, add.value) else removed
  }

  function Replay(messages: seq<Message>): Remote {
    if messages == [] then map[]
    else Apply(Replay(messages[..|messages| - 1]), messages[|messages| - 1])
  }

  lemma ReplaySnoc(messages: seq<Message>, m: Message)
    ensures Replay(messages + [m]) == Apply(Replay(messages), m)
  {
    assert (messages + [m])[..|messages|] == messages;
  }

  // ---------- The feed as a state machine ----------

  datatype Event =
    | Subscribe(vs: seq<Json>)
    | Unsubscribe(vs: seq<Json>)
    | Reset
    | Configure(config: AcceptConfig)

  /** Where the handler of the current event is: waiting for an event, past its first look at the
      channel, with a message to send, or past the second look. */
  datatype Phase = Idle | Accepted(event: Event) | Built(message: Message) | Cleared(message: Message)

  /** `sent` holds the queued messages in order, `lost` those that failed the second look. */
  datatype FeedState = FeedState(
    channel: ChannelState,
    subs: Subscriptions,
    accept: AcceptConfig,
    phase: Phase,
    sent: seq<Message>,
    lost: seq<Message>)

  datatype Action =
    | Take(event: Event)
    | Work
    | CheckSend
    | Enqueue
    | ChannelMoves(to: ChannelState)

  /** A configure event is stored before the channel is looked at; the others are dropped unless the
      channel is open. */
  function TakeEvent(s: FeedState, event: Event): FeedState {
    if event.Configure? then s.(accept := event.config, phase := Accepted(event))
    else if s.channel == Opened then s.(phase := Accepted(event))
    else s
  }

  function WithMessage(s: FeedState, entries: seq<Entry>, m: Message): FeedState {
    s.(phase := if entries == [] then Idle else Built(m))
  }

  function WorkOn(s: FeedState, event: Event): FeedState {
    match event
    case Subscribe(vs) =>
      var added := Entries(Keyed(vs));
      WithMessage(s.(subs := InsertAll(s.subs, vs)), added, Subscription(Some(added), None, None))
    case Unsubscribe(vs) =>
      var removed := Entries(Deleted(s.subs, vs));
      WithMessage(s.(subs := DeleteAll(s.subs, vs)), removed, Subscription(None, Some(removed), None))
    case Reset =>
      s.(subs := map[], phase := Built(Subscription(None, None, Some(true))))
    case Configure(_) =>
      s.(phase := if s.channel == Opened then Built(Setup(s.accept)) else Idle)
  }

  /** A step that is not possible in the current phase does nothing. */
  function Next(s: FeedState, a: Action): FeedState {
    match (s.phase, a)
    case (Idle, Take(event)) => TakeEvent(s, event)
    case (Accepted(event), Work) => WorkOn(s, event)
    case (Built(m), CheckSend) =>
      if s.channel == Opened then s.(phase := Cleared(m)) else s.(phase := Idle, lost := s.lost + [m])
    case (Cleared(m), Enqueue) => s.(phase := Idle, sent := s.sent + [m])
    case (_, ChannelMoves(to)) => if Allowed(s.channel, to) then s.(channel := to) else s
    case _ => s
  }

  function Run(s: FeedState, actions: seq<Action>): FeedState {
    if actions == [] then s
    else Next(Run(s, actions[..|actions| - 1]), actions[|actions| - 1])
  }

  /** A feed on a new channel. */
  function Init(accept: AcceptConfig, channel: ChannelState): FeedState {
    FeedState(channel, map[], accept, Idle, [], [])
  }

  // ---------- In step ----------

  predicate IsFor(v: Json, t: Triple) {
    ToEntry(v).Some? && ToEntry(v).value.triple == t
  }

  ghost predicate Holds(remote: Remote, v: Json) {
    && ToEntry(v).Some?
    && ToEntry(v).value.triple in remote
    && remote[ToEntry(v).value.triple] == ToEntry(v).value
  }

  /** The server holds every local subscription under its own type, source and symbol, and nothing
      else. */
  ghost predicate InStep(remote: Remote, subs: Subscriptions) {
    && (forall k :: k in subs ==> Holds(remote, subs[k]))
    && (forall t :: t in remote ==> exists k :: k in subs && IsFor(subs[k], t))
  }

  /** A set of values a server can follow: every value that has a key can be sent, and values with one
      key are about one type, source and symbol. */
  ghost predicate Replicable(values: iset<Json>) {
    && (forall v :: v in values && SubscriptionKey(v).Some? ==> ToEntry(v).Some?)
    && (forall v, w :: v in values && w in values
                       && SubscriptionKey(v).Some? && SubscriptionKey(v) == SubscriptionKey(w)
                       && ToEntry(v).Some? && ToEntry(w).Some? ==>
          ToEntry(v).value.triple == ToEntry(w).value.triple)
  }

  ghost predicate Over(values: iset<Json>, vs: seq<Json>) {
    forall i :: 0 <= i < |vs| ==> vs[i] in values
  }

  /** Every subscription is one of the values, stored under its own key. */
  ghost predicate OwnKeys(values: iset<Json>, subs: Subscriptions) {
    forall k :: k in subs ==> subs[k] in values && SubscriptionKey(subs[k]) == Some(k)
  }

  lemma InsertKeepsInStep(values: iset<Json>, remote: Remote, subs: Subscriptions, v: Json, key: string)
    requires Replicable(values) && OwnKeys(values, subs) && InStep(remote, subs)
    requires v in values && SubscriptionKey(v) == Some(key)
    ensures ToEntry(v).Some?
    ensures InStep(remote[ToEntry(v).value.triple := ToEntry(v).value], subs[key := v])
  {
    hide ToEntry, SubscriptionKey, KeyOf;
    var e := ToEntry(v).value;
    var remote', subs' := remote[e.triple := e], subs[key := v];
    EntryKey(v);
    forall k | k in subs' ensures Holds(remote', subs'[k]) {
      if k != key {
        assert Holds(remote, subs[k]);
        EntryKey(subs[k]);
      }
    }
    forall t | t in remote' ensures exists k :: k in subs' && IsFor(subs'[k], t) {
      if t == e.triple {
        assert IsFor(subs'[key], t);
      } else {
        var k :| k in subs && IsFor(subs[k], t);
        assert IsFor(subs'[k], t);
      }
    }
  }

  lemma DeleteKeepsInStep(values: iset<Json>, remote: Remote, subs: Subscriptions, v: Json, key: string)
    requires Replicable(values) && OwnKeys(values, subs) && InStep(remote, subs)
    requires v in values && SubscriptionKey(v) == Some(key)
    ensures ToEntry(v).Some?
    ensures InStep(remote - {ToEntry(v).value.triple}, subs - {key})
  {
    hide ToEntry, SubscriptionKey, KeyOf;
    var e := ToEntry(v).value;
    var remote', subs' := remote - {e.triple}, subs - {key};
    EntryKey(v);
    forall k | k in subs' ensures Holds(remote', subs'[k]) {
      assert Holds(remote, subs[k]);
      EntryKey(subs[k]);
    }
    forall t | t in remote' ensures exists k :: k in subs' && IsFor(subs'[k], t) {
      var k :| k in subs && IsFor(subs[k], t);
      assert IsFor(subs'[k], t);
    }
  }

  lemma {:induction false} InsertAllKeepsInStep(values: iset<Json>, remote: Remote, subs: Subscriptions, vs: seq<Json>)
    requires Replicable(values) && OwnKeys(values, subs) && InStep(remote, subs) && Over(values, vs)
    ensures OwnKeys(values, InsertAll(subs, vs))
    ensures InStep(AddAll(remote, Entries(Keyed(vs))), InsertAll(subs, vs))
  {
    hide InStep, ToEntry, SubscriptionKey, Replicable;
    if vs != [] {
      var front, v := vs[..|vs| - 1], vs[|vs| - 1];
      InsertAllKeepsInStep(values, remote, subs, front);
      if SubscriptionKey(v).Some? {
        var before := Entries(Keyed(front));
        InsertKeepsInStep(values, AddAll(remote, before), InsertAll(subs, front), v, SubscriptionKey(v).value);
        assert (Keyed(front) + [v])[..|Keyed(front)|] == Keyed(front);
        assert (before + [ToEntry(v).value])[..|before|] == before;
      }
    }
  }

  lemma {:induction false} DeleteAllKeepsInStep(values: iset<Json>, remote: Remote, subs: Subscriptions, vs: seq<Json>)
    requires Replicable(values) && OwnKeys(values, subs) && InStep(remote, subs) && Over(values, vs)
    ensures OwnKeys(values, DeleteAll(subs, vs))
    ensures InStep(RemoveAll(remote, Entries(Deleted(subs, vs))), DeleteAll(subs, vs))
  {
    hide InStep, ToEntry, SubscriptionKey, Replicable;
    if vs != [] {
      var front, v := vs[..|vs| - 1], vs[|vs| - 1];
      DeleteAllKeepsInStep(values, remote, subs, front);
      var before := Deleted(subs, front);
      if SubscriptionKey(v).Some? {
        var key := SubscriptionKey(v).value;
        if key in DeleteAll(subs, front) {
          DeleteKeepsInStep(values, RemoveAll(remote, Entries(before)), DeleteAll(subs, front), v, key);
          assert (before + [v])[..|before|] == before;
          assert (Entries(before) + [ToEntry(v).value])[..|Entries(before)|] == Entries(before);
        } else {
          assert DeleteAll(subs, front) - {key} == DeleteAll(subs, front);
        }
      }
    }
  }

  lemma EmptyInStep()
    ensures InStep(map[], map[])
  {
  }

  // ---------- Replication over every run ----------

  ghost predicate EventOver(values: iset<Json>, event: Event) {
    match event
    case Subscribe(vs) => Over(values, vs)
    case Unsubscribe(vs) => Over(values, vs)
    case _ => true
  }

  ghost predicate RunOver(values: iset<Json>, actions: seq<Action>) {
    forall i :: 0 <= i < |actions| && actions[i].Take? ==> EventOver(values, actions[i].event)
  }

  /** Between events the two sides are in step, but for at most one message that was lost when the
      channel closed. */
  ghost predicate Settled(s: FeedState) {
    && InStep(Replay(s.sent + s.lost), s.subs)
    && |s.lost| <= 1
    && (s.lost != [] ==> s.channel == Closed)
  }

  /** The message being sent is the only one the server lacks. */
  ghost predicate Sending(s: FeedState, m: Message) {
    s.channel != Requested && s.lost == [] && InStep(Apply(Replay(s.sent), m), s.subs)
  }

  ghost predicate Inv(values: iset<Json>, s: FeedState) {
    && OwnKeys(values, s.subs)
    && match s.phase
       case Idle => Settled(s)
       case Accepted(event) =>
         Settled(s) && (!event.Configure? ==> s.channel != Requested && s.lost == [] && EventOver(values, event))
       case Built(m) => Sending(s, m)
       case Cleared(m) => Sending(s, m)
  }

  lemma WorkKeepsInv(values: iset<Json>, s: FeedState, event: Event)
    requires Replicable(values) && Inv(values, s) && s.phase == Accepted(event)
    ensures Inv(values, WorkOn(s, event))
  {
    hide InStep, Keyed, Entries, Deleted, InsertAll, DeleteAll, Over, OwnKeys, Replicable;
    var remote := Replay(s.sent);
    assert s.lost == [] ==> s.sent + s.lost == s.sent;
    match event
    case Subscribe(vs) =>
      InsertAllKeepsInStep(values, remote, s.subs, vs);
      assert Entries(Keyed(vs)) == [] ==> AddAll(remote, Entries(Keyed(vs))) == remote;
    case Unsubscribe(vs) =>
      DeleteAllKeepsInStep(values, remote, s.subs, vs);
      assert Entries(Deleted(s.subs, vs)) == [] ==> RemoveAll(remote, Entries(Deleted(s.subs, vs))) == remote;
    case Reset =>
      EmptyInStep();
      NothingHasOwnKeys(values);
    case Configure(_) =>
      assert Apply(remote, Setup(s.accept)) == remote;
  }

  lemma NothingHasOwnKeys(values: iset<Json>)
    ensures OwnKeys(values, map[])
  {
  }

  /** Once the channel has been seen open it can only become closed, so a message that fails the
      second look at the channel is the last one that is ever lost. */
  lemma SendingKeepsInv(values: iset<Json>, s: FeedState, m: Message)
    requires Sending(s, m) && OwnKeys(values, s.subs)
    ensures s.phase == Built(m) ==> Inv(values, Next(s, CheckSend))
    ensures s.phase == Cleared(m) ==> Inv(values, Next(s, Enqueue))
  {
    hide InStep, Apply, Replay, OwnKeys;
    ReplaySnoc(s.sent, m);
    assert s.sent + [m] + [] == s.sent + [m];
    assert [] + [m] == [m];
  }

  lemma NextKeepsInv(values: iset<Json>, s: FeedState, a: Action)
    requires Replicable(values) && Inv(values, s)
    requires a.Take? ==> EventOver(values, a.event)
    ensures Inv(values, Next(s, a))
  {
    hide InStep, WorkOn, OwnKeys, Replicable, Apply, Replay, EventOver;
    match (s.phase, a)
    case (Accepted(event), Work) => WorkKeepsInv(values, s, event);
    case (Built(m), CheckSend) => SendingKeepsInv(values, s, m);
    case (Cleared(m), Enqueue) => SendingKeepsInv(values, s, m);
    case _ =>
  }

  lemma {:induction false} RunKeepsInv(values: iset<Json>, accept: AcceptConfig, channel: ChannelState,
                                       actions: seq<Action>)
    requires Replicable(values) && RunOver(values, actions)
    ensures Inv(values, Run(Init(accept, channel), actions))
  {
    hide Next, Inv, EventOver, Replicable;
    if actions == [] {
      assert Inv(values, Init(accept, channel)) by {
        InitInv(values, accept, channel);
      }
    } else {
      var front, last := actions[..|actions| - 1], actions[|actions| - 1];
      assert last.Take? ==> EventOver(values, last.event);
      RunKeepsInv(values, accept, channel, front);
      NextKeepsInv(values, Run(Init(accept, channel), front), last);
    }
  }

  lemma InitInv(values: iset<Json>, accept: AcceptConfig, channel: ChannelState)
    ensures Inv(values, Init(accept, channel))
  {
    EmptyInStep();
  }

  /** Replication: for every run of events over a replicable set of values, whatever the channel does
      at whatever moment, whenever no event is being handled and the channel is not closed, replaying
      all sent messages gives exactly the local subscriptions. At most one message is ever lost, only
      when the channel has closed, and it is all that the server then lacks. */
  lemma ServerIsInStep(values: iset<Json>, accept: AcceptConfig, channel: ChannelState, actions: seq<Action>)
    requires Replicable(values) && RunOver(values, actions)
    ensures var s := Run(Init(accept, channel), actions);
            s.phase == Idle ==>
              && (s.channel != Closed ==> s.lost == [] && InStep(Replay(s.sent), s.subs))
              && |s.lost| <= 1
              && InStep(Replay(s.sent + s.lost), s.subs)
  {
    RunKeepsInv(values, accept, channel, actions);
    var s := Run(Init(accept, channel), actions);
    assert s.lost == [] ==> s.sent + s.lost == s.sent;
  }

  /** Subscriptions without separators in the wrong places are replicable, whatever their symbols. */
  lemma PlainIsReplicable(values: iset<Json>)
    requires forall v :: v in values && SubscriptionKey(v).Some? ==> ToEntry(v).Some? && Plain(ToEntry(v).value.triple)
    ensures Replicable(values)
  {
    hide ToEntry, SubscriptionKey, KeyOf, Plain;
    forall v, w | v in values && w in values && SubscriptionKey(v).Some? && SubscriptionKey(v) == SubscriptionKey(w)
      ensures ToEntry(v).value.triple == ToEntry(w).value.triple
    {
      EntryKey(v);
      EntryKey(w);
      KeyIsInjective(ToEntry(v).value.triple, ToEntry(w).value.triple);
    }
  }

  function EntriesOf(subs: Subscriptions): map<string, Entry> {
    map k | k in subs && ToEntry(subs[k]).Some? :: ToEntry(subs[k]).value
  }

  ghost predicate AllPlain(subs: Subscriptions) {
    forall k :: k in subs ==> ToEntry(subs[k]).Some? && Plain(ToEntry(subs[k]).value.triple)
  }

  lemma OwnKeysParse(values: iset<Json>, subs: Subscriptions, k: string)
    requires OwnKeys(values, subs) && AllPlain(subs) && k in subs
    ensures var e := ToEntry(subs[k]).value;
            KeyOf(e.triple) == k && Plain(e.triple) && ParseKey(k) == Some(e.triple)
  {
    EntryKey(subs[k]);
    ParseOfPlain(ToEntry(subs[k]).value.triple);
  }

  /** For them, being in step is the refinement of the triple-keyed map by the string-keyed one. */
  lemma InStepIsRefinement(values: iset<Json>, remote: Remote, subs: Subscriptions)
    requires OwnKeys(values, subs) && AllPlain(subs)
    ensures InStep(remote, subs) <==> Refines(EntriesOf(subs), remote)
  {
    hide ToEntry, SubscriptionKey, KeyOf, Plain, ParseKey, OwnKeys;
    var byKey := EntriesOf(subs);
    if InStep(remote, subs) {
      forall t | t in remote ensures Plain(t) && KeyOf(t) in byKey && byKey[KeyOf(t)] == remote[t] {
        var k :| k in subs && IsFor(subs[k], t);
        OwnKeysParse(values, subs, k);
        assert Holds(remote, subs[k]);
      }
      forall k | k in byKey ensures ParseKey(k).Some? && ParseKey(k).value in remote && KeyOf(ParseKey(k).value) == k {
        OwnKeysParse(values, subs, k);
        assert Holds(remote, subs[k]);
      }
    }
    if Refines(byKey, remote) {
      forall t | t in remote ensures exists k :: k in subs && IsFor(subs[k], t) {
        OwnKeysParse(values, subs, KeyOf(t));
        ParseOfPlain(t);
        assert IsFor(subs[KeyOf(t)], t);
      }
      forall k | k in subs ensures Holds(remote, subs[k]) {
        OwnKeysParse(values, subs, k);
        assert k in byKey;
      }
    }
  }

  // ---------- The whole state in one message ----------

  function Values(subs: Subscriptions, order: seq<string>): (vs: seq<Json>)
    requires forall i :: 0 <= i < |order| ==> order[i] in subs
    ensures |vs| == |order| && forall i :: 0 <= i < |vs| ==> vs[i] == subs[order[i]]
  {
    seq(|order|, i requires 0 <= i < |order| && order[i] in subs => subs[order[i]])
  }

  /** The message that resets the server and adds everything, in the order of a hash map. */
  function UpdateMessage(subs: Subscriptions, order: seq<string>): Message
    requires forall i :: 0 <= i < |order| ==> order[i] in subs
  {
    var entries := Entries(Values(subs, order));
    Subscription(if entries == [] then None else Some(entries), None, Some(true))
  }

  function Restrict(subs: Subscriptions, keys: seq<string>): Subscriptions {
    map k | k in subs && k in keys :: subs[k]
  }

  lemma RestrictSnoc(values: iset<Json>, subs: Subscriptions, front: seq<string>, key: string)
    requires OwnKeys(values, subs) && key in subs
    ensures OwnKeys(values, Restrict(subs, front))
    ensures Restrict(subs, front + [key]) == Restrict(subs, front)[key := subs[key]]
    ensures subs[key] in values && SubscriptionKey(subs[key]) == Some(key)
  {
  }

  lemma {:induction false} AddedPrefixInStep(values: iset<Json>, subs: Subscriptions, order: seq<string>)
    requires Replicable(values) && OwnKeys(values, subs) && forall k :: k in order ==> k in subs
    ensures InStep(AddAll(map[], Entries(Values(subs, order))), Restrict(subs, order))
  {
    hide InStep, Replicable, SubscriptionKey, ToEntry, OwnKeys;
    if order == [] {
      EmptyInStep();
      assert Restrict(subs, order) == map[];
      assert Values(subs, order) == [];
    } else {
      hide Restrict;
      var front, key := order[..|order| - 1], order[|order| - 1];
      AddedPrefixInStep(values, subs, front);
      var vs := Values(subs, order);
      assert key in order;
      assert vs[..|vs| - 1] == Values(subs, front) && vs[|vs| - 1] == subs[key];
      var before := Entries(Values(subs, front));
      RestrictSnoc(values, subs, front, key);
      InsertKeepsInStep(values, AddAll(map[], before), Restrict(subs, front), subs[key], key);
      var e := ToEntry(subs[key]).value;
      assert (before + [e])[..|before|] == before;
      assert order == front + [key];
    }
  }

  /** Only one remote state is in step with given subscriptions. */
  lemma InStepIsUnique(a: Remote, b: Remote, subs: Subscriptions)
    requires InStep(a, subs) && InStep(b, subs)
    ensures a == b
  {
    hide ToEntry;
    forall t | t in a ensures t in b && b[t] == a[t] {
      var k :| k in subs && IsFor(subs[k], t);
      assert Holds(a, subs[k]) && Holds(b, subs[k]);
    }
    forall t | t in b ensures t in a {
      var k :| k in subs && IsFor(subs[k], t);
      assert Holds(a, subs[k]);
    }
  }

  /** Sending everything at once says the same as all the messages that were sent: for every run,
      between events and while the channel is not closed, the reset-and-add message built from the
      local map, in any order of its entries and whatever the server held before, brings the server
      to exactly where the messages brought it. */
  lemma UpdateSaysTheSame(values: iset<Json>, accept: AcceptConfig, channel: ChannelState, actions: seq<Action>,
                          order: seq<string>, held: Remote)
    requires Replicable(values) && RunOver(values, actions)
    requires var s := Run(Init(accept, channel), actions);
             s.phase == Idle && s.channel != Closed
             && (forall i :: 0 <= i < |order| ==> order[i] in s.subs)
             && (forall k :: k in s.subs ==> k in order)
    ensures var s := Run(Init(accept, channel), actions);
            Apply(held, UpdateMessage(s.subs, order)) == Replay(s.sent)
  {
    hide ToEntry, SubscriptionKey, OwnKeys, Values, Entries, Next, Replicable, RunOver, InStep;
    var s := Run(Init(accept, channel), actions);
    ServerIsInStep(values, accept, channel, actions);
    RunKeepsInv(values, accept, channel, actions);
    assert forall k :: k in order ==> k in s.subs;
    AddedPrefixInStep(values, s.subs, order);
    assert Restrict(s.subs, order) == s.subs;
    var entries := Entries(Values(s.subs, order));
    assert Apply(held, UpdateMessage(s.subs, order)) == AddAll(map[], entries);
    InStepIsUnique(AddAll(map[], entries), Replay(s.sent), s.subs);
  }

  // ---------- Where replication fails ----------

  /** The handling of one event that nothing interrupts. */
  function Handle(s: FeedState, event: Event): FeedState {
    Next(Next(Next(Next(s, Take(event)), Work), CheckSend), Enqueue)
  }

  lemma HandleIsRun(s: FeedState, event: Event)
    ensures Run(s, [Take(event), Work, CheckSend, Enqueue]) == Handle(s, event)
  {
    hide Next;
    var a1 := [Take(event)];
    var a2 := a1 + [Work];
    var a3 := a2 + [CheckSend];
    var a4 := a3 + [Enqueue];
    assert a4[..3] == a3 && a3[..2] == a2 && a2[..1] == a1 && a1[..0] == [];
    assert Run(s, a1) == Next(s, Take(event));
    assert Run(s, a2) == Next(Run(s, a1), Work);
    assert Run(s, a3) == Next(Run(s, a2), CheckSend);
    assert Run(s, a4) == Next(Run(s, a3), Enqueue);
    assert a4 == [Take(event), Work, CheckSend, Enqueue];
  }

  lemma OneSubscription(subs: Subscriptions, v: Json)
    requires SubscriptionKey(v).Some?
    ensures Keyed([v]) == [v]
    ensures Entries([v]) == if ToEntry(v).Some? then [ToEntry(v).value] else []
    ensures InsertAll(subs, [v]) == subs[SubscriptionKey(v).value := v]
  {
    assert [v][..0] == [];
    assert Keyed([v]) == Keyed([]) + [v];
    assert Entries([v]) == if ToEntry(v).Some? then Entries([]) + [ToEntry(v).value] else Entries([]);
    assert InsertAll(subs, [v]) == InsertAll(subs, [])[SubscriptionKey(v).value := v];
  }

  /** What an uninterrupted subscribe does. */
  lemma HandleSubscribe(s: FeedState, vs: seq<Json>)
    requires s.channel == Opened && s.phase == Idle
    ensures var entries := Entries(Keyed(vs));
            Handle(s, Subscribe(vs)) ==
              s.(subs := InsertAll(s.subs, vs),
                 sent := if entries == [] then s.sent else s.sent + [Subscription(Some(entries), None, None)])
  {
    hide Keyed, Entries, InsertAll;
    var entries := Entries(Keyed(vs));
    var a := Next(s, Take(Subscribe(vs)));
    assert a == s.(phase := Accepted(Subscribe(vs)));
    var b := Next(a, Work);
    assert b == WorkOn(a, Subscribe(vs));
    var m := Subscription(Some(entries), None, None);
    assert b == s.(subs := InsertAll(s.subs, vs), phase := if entries == [] then Idle else Built(m));
    var c := Next(b, CheckSend);
    assert entries != [] ==> c == b.(phase := Cleared(m));
  }

  lemma OneAdded(sent: seq<Message>, e: Entry)
    ensures Replay(sent + [Subscription(Some([e]), None, None)]) == Replay(sent)[e.triple := e]
  {
    ReplaySnoc(sent, Subscription(Some([e]), None, None));
    assert [e][..0] == [];
    assert AddAll(Replay(sent), [e]) == AddAll(Replay(sent), [])[e.triple := e];
  }

  /** A value that has a key but cannot be sent, such as one whose source is a number, is stored
      without the server hearing of it; one that can be sent is held by the server afterwards. */
  lemma SubscribedIffSendable(s: FeedState, v: Json)
    requires s.channel == Opened && s.phase == Idle && SubscriptionKey(v).Some?
    ensures var t := Handle(s, Subscribe([v]));
            && t.subs == s.subs[SubscriptionKey(v).value := v]
            && (t.sent != s.sent <==> ToEntry(v).Some?)
            && (Holds(Replay(t.sent), v) <==> ToEntry(v).Some?)
  {
    hide ToEntry, SubscriptionKey, Keyed, Entries, InsertAll, Replay, Handle;
    HandleSubscribe(s, [v]);
    OneSubscription(s.subs, v);
    if ToEntry(v).Some? {
      OneAdded(s.sent, ToEntry(v).value);
    }
  }

  lemma UnsendableSource()
    ensures var v := Object(map["type" := Str("Quote"), "symbol" := Str("AAPL"), "source" := Int(5)]);
            SubscriptionKey(v) == Some("Quote:AAPL") && ToEntry(v) == None
  {
    assert KeyOf(Triple("Quote", None, "AAPL")) == "Quote:AAPL";
  }

  function Subscribing(t: Triple): Json {
    FromEntry(Entry(t, None))
  }

  lemma SubscribingMeans(t: Triple)
    ensures ToEntry(Subscribing(t)) == Some(Entry(t, None))
    ensures SubscriptionKey(Subscribing(t)) == Some(KeyOf(t))
  {
    EntryRoundTrip(Entry(t, None));
    EntryKey(Subscribing(t));
  }

  lemma TwoSubscriptions(subs: Subscriptions, v: Json, w: Json)
    requires SubscriptionKey(v).Some? && SubscriptionKey(v) == SubscriptionKey(w)
    requires ToEntry(v).Some? && ToEntry(w).Some?
    ensures Keyed([v, w]) == [v, w]
    ensures Entries([v, w]) == [ToEntry(v).value, ToEntry(w).value]
    ensures InsertAll(subs, [v, w]) == subs[SubscriptionKey(w).value := w]
  {
    hide ToEntry, SubscriptionKey;
    assert [v, w][..1] == [v];
    OneSubscription(subs, v);
  }

  lemma TwoAdded(remote: Remote, e: Entry, f: Entry)
    ensures AddAll(remote, [e, f]) == remote[e.triple := e][f.triple := f]
  {
    assert [e, f][..1] == [e] && [e][..0] == [];
    assert AddAll(remote, [e]) == remote[e.triple := e];
  }

  /** Subscribing on a new feed to two values with one key but different triples leaves one local
      subscription where the server has two. */
  lemma CollisionDiverges(accept: AcceptConfig, v: Json, w: Json)
    requires SubscriptionKey(v).Some? && SubscriptionKey(v) == SubscriptionKey(w)
    requires ToEntry(v).Some? && ToEntry(w).Some? && ToEntry(v).value.triple != ToEntry(w).value.triple
    ensures var s := Handle(Init(accept, Opened), Subscribe([v, w]));
            && s.subs == map[SubscriptionKey(w).value := w]
            && Replay(s.sent).Keys == {ToEntry(v).value.triple, ToEntry(w).value.triple}
            && s.channel == Opened && s.phase == Idle
            && !InStep(Replay(s.sent), s.subs)
  {
    var e, f := ToEntry(v).value, ToEntry(w).value;
    hide ToEntry, SubscriptionKey, Keyed, Entries, InsertAll, AddAll, Handle;
    HandleSubscribe(Init(accept, Opened), [v, w]);
    TwoSubscriptions(map[], v, w);
    TwoAdded(map[], e, f);
    var m := Subscription(Some([e, f]), None, None);
    ReplaySnoc([], m);
    assert Replay([]) == map[];
    var held := map[e.triple := e][f.triple := f];
    assert held.Keys == {e.triple, f.triple};
    assert Replay([] + [m]) == held;
    assert e.triple in held && !IsFor(w, e.triple);
  }

  /** For every triple that is not plain there is a plain one that collides with it. */
  lemma CollidingKeysDiverge(accept: AcceptConfig, t: Triple) returns (u: Triple)
    requires !Plain(t)
    ensures Plain(u) && u != t
    ensures var s := Handle(Init(accept, Opened), Subscribe([Subscribing(t), Subscribing(u)]));
            && s.subs.Keys == {KeyOf(t)}
            && Replay(s.sent).Keys == {t, u}
  {
    KeyCollidesIffNotPlain(t);
    u :| Plain(u) && u != t && KeyOf(u) == KeyOf(t);
    hide KeyOf, Plain, Subscribing, ToEntry, SubscriptionKey, Handle, Replay, InStep;
    SubscribingMeans(t);
    SubscribingMeans(u);
    CollisionDiverges(accept, Subscribing(t), Subscribing(u));
  }

  ghost predicate InStepAtRest(s: FeedState) {
    s.phase == Idle && s.channel != Closed ==> InStep(Replay(s.sent), s.subs)
  }

  ghost predicate AlwaysInStep(values: iset<Json>) {
    forall accept, channel, actions :: RunOver(values, actions) ==> InStepAtRest(Run(Init(accept, channel), actions))
  }

  const NO_CONFIG := AcceptConfig(None, None, None)

  lemma OneEventRun(values: iset<Json>, vs: seq<Json>)
    requires AlwaysInStep(values) && Over(values, vs)
    ensures InStepAtRest(Handle(Init(NO_CONFIG, Opened), Subscribe(vs)))
  {
    hide InStepAtRest, Handle, Run;
    HandleIsRun(Init(NO_CONFIG, Opened), Subscribe(vs));
    assert RunOver(values, [Take(Subscribe(vs)), Work, CheckSend, Enqueue]);
  }

  /** Exactly which subscriptions a server can follow: every run over a set of values stays in step if
      and only if every value of the set that has a key can be sent, and no two of them share a key
      while they differ in type, source or symbol. */
  lemma InStepIffReplicable(values: iset<Json>)
    ensures AlwaysInStep(values) <==> Replicable(values)
  {
    hide ToEntry, SubscriptionKey, Handle, Replay, Run, RunOver;
    if Replicable(values) {
      forall accept, channel, actions | RunOver(values, actions)
        ensures InStepAtRest(Run(Init(accept, channel), actions))
      {
        ServerIsInStep(values, accept, channel, actions);
      }
    } else if v :| v in values && SubscriptionKey(v).Some? && ToEntry(v) == None {
      assert !AlwaysInStep(values) by {
        UnsendableDiverges(NO_CONFIG, v);
        if AlwaysInStep(values) {
          hide AlwaysInStep;
          OneEventRun(values, [v]);
        }
      }
    } else {
      var v, w :| v in values && w in values
                  && SubscriptionKey(v).Some? && SubscriptionKey(v) == SubscriptionKey(w)
                  && ToEntry(v).Some? && ToEntry(w).Some?
                  && ToEntry(v).value.triple != ToEntry(w).value.triple;
      assert !AlwaysInStep(values) by {
        CollisionDiverges(NO_CONFIG, v, w);
        if AlwaysInStep(values) {
          hide AlwaysInStep;
          OneEventRun(values, [v, w]);
        }
      }
    }
  }

  lemma UnsendableDiverges(accept: AcceptConfig, v: Json)
    requires SubscriptionKey(v).Some? && ToEntry(v) == None
    ensures var s := Handle(Init(accept, Opened), Subscribe([v]));
            && s.subs.Keys == {SubscriptionKey(v).value} && Replay(s.sent) == map[]
            && s.channel == Opened && s.phase == Idle
            && !InStep(Replay(s.sent), s.subs)
  {
    hide ToEntry, SubscriptionKey, Handle, Keyed, Entries, InsertAll;
    HandleSubscribe(Init(accept, Opened), [v]);
    OneSubscription(map[], v);
    assert !Holds(map[], v);
  }

  // ---------- What each event does ----------

  ghost predicate HasKey(vs: seq<Json>, k: string) {
    exists i :: 0 <= i < |vs| && SubscriptionKey(vs[i]) == Some(k)
  }

  /** The value at i is the last of the list with this key. */
  ghost predicate LastWith(vs: seq<Json>, i: nat, k: string) {
    && i < |vs| && SubscriptionKey(vs[i]) == Some(k)
    && forall j :: i < j < |vs| ==> SubscriptionKey(vs[j]) != Some(k)
  }

  lemma {:induction false} InsertAllMeans(subs: Subscriptions, vs: seq<Json>)
    ensures forall k :: k in InsertAll(subs, vs) <==> k in subs || HasKey(vs, k)
    ensures forall k :: k in subs && !HasKey(vs, k) ==> InsertAll(subs, vs)[k] == subs[k]
    ensures forall i: nat, k :: LastWith(vs, i, k) ==> k in InsertAll(subs, vs) && InsertAll(subs, vs)[k] == vs[i]
  {
    hide SubscriptionKey;
    if vs != [] {
      var front, v := vs[..|vs| - 1], vs[|vs| - 1];
      InsertAllMeans(subs, front);
      forall k ensures HasKey(vs, k) <==> HasKey(front, k) || SubscriptionKey(v) == Some(k) {
        HasKeySnoc(vs, k);
      }
      forall i: nat, k | LastWith(vs, i, k)
        ensures i < |front| ==> LastWith(front, i, k) && SubscriptionKey(v) != Some(k)
      {
      }
    }
  }

  lemma HasKeySnoc(vs: seq<Json>, k: string)
    requires vs != []
    ensures HasKey(vs, k) <==> HasKey(vs[..|vs| - 1], k) || SubscriptionKey(vs[|vs| - 1]) == Some(k)
  {
    hide SubscriptionKey;
    var front := vs[..|vs| - 1];
    if HasKey(front, k) {
      var i :| 0 <= i < |front| && SubscriptionKey(front[i]) == Some(k);
      assert SubscriptionKey(vs[i]) == Some(k);
    }
    if i :| 0 <= i < |vs| && SubscriptionKey(vs[i]) == Some(k) {
      assert i < |front| ==> SubscriptionKey(front[i]) == Some(k);
    }
  }

  lemma {:induction false} DeleteAllMeans(subs: Subscriptions, vs: seq<Json>)
    ensures forall k :: k in DeleteAll(subs, vs) <==> k in subs && !HasKey(vs, k)
    ensures forall k :: k in DeleteAll(subs, vs) ==> DeleteAll(subs, vs)[k] == subs[k]
  {
    hide SubscriptionKey;
    if vs != [] {
      DeleteAllMeans(subs, vs[..|vs| - 1]);
      forall k
        ensures HasKey(vs, k) <==> HasKey(vs[..|vs| - 1], k) || SubscriptionKey(vs[|vs| - 1]) == Some(k)
      {
        HasKeySnoc(vs, k);
      }
    }
  }

  /** What an uninterrupted unsubscribe does. */
  lemma HandleUnsubscribe(s: FeedState, vs: seq<Json>)
    requires s.channel == Opened && s.phase == Idle
    ensures var entries := Entries(Deleted(s.subs, vs));
            Handle(s, Unsubscribe(vs)) ==
              s.(subs := DeleteAll(s.subs, vs),
                 sent := if entries == [] then s.sent else s.sent + [Subscription(None, Some(entries), None)])
  {
    hide Deleted, Entries, DeleteAll;
    var entries := Entries(Deleted(s.subs, vs));
    var a := Next(s, Take(Unsubscribe(vs)));
    assert a == s.(phase := Accepted(Unsubscribe(vs)));
    var b := Next(a, Work);
    assert b == WorkOn(a, Unsubscribe(vs));
    var m := Subscription(None, Some(entries), None);
    assert b == s.(subs := DeleteAll(s.subs, vs), phase := if entries == [] then Idle else Built(m));
    var c := Next(b, CheckSend);
    assert entries != [] ==> c == b.(phase := Cleared(m));
  }

  /** Subscribing on an open channel stores the last value of each key, and leaves every other
      subscription as it was. */
  lemma SubscribeStores(s: FeedState, vs: seq<Json>)
    requires s.channel == Opened && s.phase == Idle
    ensures var t := Handle(s, Subscribe(vs));
            && t.phase == Idle && t.channel == Opened && t.accept == s.accept
            && (forall k :: k in t.subs <==> k in s.subs || HasKey(vs, k))
            && (forall k :: k in s.subs && !HasKey(vs, k) ==> t.subs[k] == s.subs[k])
            && (forall i: nat, k :: LastWith(vs, i, k) ==> t.subs[k] == vs[i])
  {
    hide InsertAll, Keyed, Entries, HasKey, LastWith, Handle;
    HandleSubscribe(s, vs);
    InsertAllMeans(s.subs, vs);
  }

  /** Unsubscribing on an open channel removes exactly the subscriptions whose key is mentioned. */
  lemma UnsubscribeRemoves(s: FeedState, vs: seq<Json>)
    requires s.channel == Opened && s.phase == Idle
    ensures var t := Handle(s, Unsubscribe(vs));
            && t.phase == Idle && t.channel == Opened && t.accept == s.accept
            && (forall k :: k in t.subs <==>
                  k in s.subs && forall i :: 0 <= i < |vs| ==> SubscriptionKey(vs[i]) != Some(k))
            && (forall k :: k in t.subs ==> t.subs[k] == s.subs[k])
  {
    hide DeleteAll, Deleted, Entries, Handle, SubscriptionKey;
    HandleUnsubscribe(s, vs);
    DeleteAllMeans(s.subs, vs);
  }

  /** Some value of the list that has a key is for this type, source and symbol. */
  ghost predicate Names(vs: seq<Json>, t: Triple) {
    exists i :: 0 <= i < |vs| && SubscriptionKey(vs[i]).Some? && IsFor(vs[i], t)
  }

  /** What is named is added, each triple as the last value with its key says; the rest is as before. */
  ghost predicate Adds(remote: Remote, vs: seq<Json>, after: Remote) {
    && (forall x :: x in after <==> x in remote || Names(vs, x))
    && (forall x :: x in remote && !Names(vs, x) ==> after[x] == remote[x])
    && (forall i: nat, k :: LastWith(vs, i, k) ==> Holds(after, vs[i]))
  }

  /** Exactly what is named is gone; the rest is as before. */
  ghost predicate Removes(remote: Remote, vs: seq<Json>, after: Remote) {
    && (forall x :: x in after <==> x in remote && !Names(vs, x))
    && (forall x :: x in after ==> after[x] == remote[x])
  }

  /** In step, the server holds a triple exactly if a subscription is stored under its key. */
  lemma HeldUnderItsKey(values: iset<Json>, remote: Remote, subs: Subscriptions, t: Triple)
    requires OwnKeys(values, subs) && InStep(remote, subs)
    ensures t in remote <==> KeyOf(t) in subs && IsFor(subs[KeyOf(t)], t)
    ensures t in remote ==> Some(remote[t]) == ToEntry(subs[KeyOf(t)])
  {
    hide ToEntry, SubscriptionKey, KeyOf;
    if t in remote {
      var k :| k in subs && IsFor(subs[k], t);
      EntryKey(subs[k]);
      assert Holds(remote, subs[k]);
    }
    if KeyOf(t) in subs && IsFor(subs[KeyOf(t)], t) {
      assert Holds(remote, subs[KeyOf(t)]);
    }
  }

  /** And a value of the set names what is stored under its key. */
  lemma NamesWhatHasItsKey(values: iset<Json>, subs: Subscriptions, vs: seq<Json>, t: Triple)
    requires Replicable(values) && OwnKeys(values, subs) && Over(values, vs)
    ensures Names(vs, t) ==> HasKey(vs, KeyOf(t))
    ensures KeyOf(t) in subs && IsFor(subs[KeyOf(t)], t) && HasKey(vs, KeyOf(t)) ==> Names(vs, t)
  {
    hide ToEntry, SubscriptionKey, KeyOf;
    if Names(vs, t) {
      var i :| 0 <= i < |vs| && SubscriptionKey(vs[i]).Some? && IsFor(vs[i], t);
      EntryKey(vs[i]);
    }
    if KeyOf(t) in subs && IsFor(subs[KeyOf(t)], t) && HasKey(vs, KeyOf(t)) {
      var i :| 0 <= i < |vs| && SubscriptionKey(vs[i]) == Some(KeyOf(t));
      assert vs[i] in values && subs[KeyOf(t)] in values;
      assert IsFor(vs[i], t);
    }
  }

  lemma ReplayOfUnsubscribe(s: FeedState, vs: seq<Json>)
    requires s.channel == Opened && s.phase == Idle
    ensures var t := Handle(s, Unsubscribe(vs));
            && t.subs == DeleteAll(s.subs, vs)
            && Replay(t.sent) == RemoveAll(Replay(s.sent), Entries(Deleted(s.subs, vs)))
  {
    hide Handle, Deleted, Entries, DeleteAll;
    HandleUnsubscribe(s, vs);
    ReplaySnoc(s.sent, Subscription(None, Some(Entries(Deleted(s.subs, vs))), None));
  }

  lemma RemovedTriple(values: iset<Json>, remote: Remote, subs: Subscriptions, vs: seq<Json>, after: Remote, x: Triple)
    requires Replicable(values) && Over(values, vs) && OwnKeys(values, subs) && InStep(remote, subs)
    requires OwnKeys(values, DeleteAll(subs, vs)) && InStep(after, DeleteAll(subs, vs))
    ensures x in after <==> x in remote && !Names(vs, x)
    ensures x in after ==> after[x] == remote[x]
  {
    hide ToEntry, SubscriptionKey, KeyOf, Replicable, OwnKeys, InStep, DeleteAll, Names, IsFor, HasKey, Over;
    DeleteAllMeans(subs, vs);
    HeldUnderItsKey(values, remote, subs, x);
    HeldUnderItsKey(values, after, DeleteAll(subs, vs), x);
    NamesWhatHasItsKey(values, subs, vs, x);
  }

  /** The removals reach the server. */
  lemma UnsubscribeReachesServer(values: iset<Json>, s: FeedState, vs: seq<Json>)
    requires s.channel == Opened && s.phase == Idle
    requires Replicable(values) && Over(values, vs) && OwnKeys(values, s.subs) && InStep(Replay(s.sent), s.subs)
    ensures var t := Handle(s, Unsubscribe(vs));
            InStep(Replay(t.sent), t.subs) && Removes(Replay(s.sent), vs, Replay(t.sent))
  {
    hide SubscriptionKey, Handle, Deleted, Entries, Replicable, OwnKeys, InStep, DeleteAll, Replay, RemoveAll;
    hide Names, Over;
    var t := Handle(s, Unsubscribe(vs));
    ReplayOfUnsubscribe(s, vs);
    DeleteAllKeepsInStep(values, Replay(s.sent), s.subs, vs);
    forall x
      ensures x in Replay(t.sent) <==> x in Replay(s.sent) && !Names(vs, x)
      ensures x in Replay(t.sent) ==> Replay(t.sent)[x] == Replay(s.sent)[x]
    {
      RemovedTriple(values, Replay(s.sent), s.subs, vs, Replay(t.sent), x);
    }
  }

  lemma ReplayOfSubscribe(s: FeedState, vs: seq<Json>)
    requires s.channel == Opened && s.phase == Idle
    ensures var t := Handle(s, Subscribe(vs));
            t.subs == InsertAll(s.subs, vs) && Replay(t.sent) == AddAll(Replay(s.sent), Entries(Keyed(vs)))
  {
    hide Handle, Keyed, Entries, InsertAll;
    HandleSubscribe(s, vs);
    ReplaySnoc(s.sent, Subscription(Some(Entries(Keyed(vs))), None, None));
  }

  lemma AddedTriple(values: iset<Json>, remote: Remote, subs: Subscriptions, vs: seq<Json>, after: Remote, x: Triple)
    requires Replicable(values) && Over(values, vs) && OwnKeys(values, subs) && InStep(remote, subs)
    requires OwnKeys(values, InsertAll(subs, vs)) && InStep(after, InsertAll(subs, vs))
    ensures x in after <==> x in remote || Names(vs, x)
    ensures x in remote && !Names(vs, x) ==> after[x] == remote[x]
  {
    hide ToEntry, SubscriptionKey, KeyOf, Replicable, OwnKeys, InStep, InsertAll, Over;
    hide Names, IsFor, HasKey, LastWith;
    InsertAllMeans(subs, vs);
    HeldUnderItsKey(values, remote, subs, x);
    HeldUnderItsKey(values, after, InsertAll(subs, vs), x);
    NamesWhatHasItsKey(values, subs, vs, x);
    NamesWhatHasItsKey(values, InsertAll(subs, vs), vs, x);
    NamedIsStored(values, subs, vs, x);
  }

  /** The additions reach the server. */
  lemma SubscribeReachesServer(values: iset<Json>, s: FeedState, vs: seq<Json>)
    requires s.channel == Opened && s.phase == Idle
    requires Replicable(values) && Over(values, vs) && OwnKeys(values, s.subs) && InStep(Replay(s.sent), s.subs)
    ensures var t := Handle(s, Subscribe(vs));
            InStep(Replay(t.sent), t.subs) && Adds(Replay(s.sent), vs, Replay(t.sent))
  {
    hide SubscriptionKey, Handle, Keyed, Entries, Replicable, OwnKeys, InStep, InsertAll, Replay, AddAll;
    hide Names, HasKey, Holds, Over;
    var t := Handle(s, Subscribe(vs));
    ReplayOfSubscribe(s, vs);
    InsertAllKeepsInStep(values, Replay(s.sent), s.subs, vs);
    forall x
      ensures x in Replay(t.sent) <==> x in Replay(s.sent) || Names(vs, x)
      ensures x in Replay(s.sent) && !Names(vs, x) ==> Replay(t.sent)[x] == Replay(s.sent)[x]
    {
      AddedTriple(values, Replay(s.sent), s.subs, vs, Replay(t.sent), x);
    }
    forall i: nat, k | LastWith(vs, i, k) ensures Holds(Replay(t.sent), vs[i]) {
      InsertAllMeans(s.subs, vs);
      StoredIsHeld(Replay(t.sent), t.subs, k);
    }
  }

  lemma StoredIsHeld(remote: Remote, subs: Subscriptions, k: string)
    ensures InStep(remote, subs) && k in subs ==> Holds(remote, subs[k])
  {
  }

  lemma NamedIsStored(values: iset<Json>, subs: Subscriptions, vs: seq<Json>, t: Triple)
    requires Replicable(values) && OwnKeys(values, subs) && Over(values, vs)
    ensures Names(vs, t) ==> KeyOf(t) in InsertAll(subs, vs) && IsFor(InsertAll(subs, vs)[KeyOf(t)], t)
    ensures KeyOf(t) in subs && IsFor(subs[KeyOf(t)], t) ==>
              KeyOf(t) in InsertAll(subs, vs) && IsFor(InsertAll(subs, vs)[KeyOf(t)], t)
  {
    hide ToEntry, SubscriptionKey, KeyOf, InsertAll, IsFor;
    InsertAllMeans(subs, vs);
    var k := KeyOf(t);
    if Names(vs, t) {
      var i :| 0 <= i < |vs| && SubscriptionKey(vs[i]).Some? && IsFor(vs[i], t);
      NamedHasKey(vs[i], t);
      var last := LastOf(vs, i, k);
      SameKeySameTriple(values, vs[i], vs[last], t);
    } else if k in subs && IsFor(subs[k], t) && HasKey(vs, k) {
      var i :| 0 <= i < |vs| && SubscriptionKey(vs[i]) == Some(k);
      var last := LastOf(vs, i, k);
      SameKeySameTriple(values, subs[k], vs[last], t);
    }
  }

  lemma NamedHasKey(v: Json, t: Triple)
    requires IsFor(v, t)
    ensures SubscriptionKey(v) == Some(KeyOf(t))
  {
    EntryKey(v);
  }

  lemma SameKeySameTriple(values: iset<Json>, v: Json, w: Json, t: Triple)
    requires Replicable(values) && v in values && w in values
    requires SubscriptionKey(v).Some? && SubscriptionKey(v) == SubscriptionKey(w) && IsFor(v, t)
    ensures IsFor(w, t)
  {
    hide ToEntry, SubscriptionKey;
  }

  lemma {:induction false} LastOf(vs: seq<Json>, i: nat, k: string) returns (last: nat)
    requires i < |vs| && SubscriptionKey(vs[i]) == Some(k)
    ensures LastWith(vs, last, k)
    decreases |vs| - i
  {
    hide SubscriptionKey;
    if j :| i < j < |vs| && SubscriptionKey(vs[j]) == Some(k) {
      last := LastOf(vs, j, k);
    } else {
      last := i;
    }
  }

  /** A reset leaves nothing on either side, whatever there was. */
  lemma ResetEmpties(s: FeedState)
    requires s.channel == Opened && s.phase == Idle
    ensures var t := Handle(s, Reset);
            && t.subs == map[] && Replay(t.sent) == map[]
            && t.phase == Idle && t.channel == Opened && t.accept == s.accept
  {
    ReplaySnoc(s.sent, Subscription(None, None, Some(true)));
  }

  /** A configuration is remembered in any state, and announced, as it is and once, on an open channel;
      subscriptions are not affected. */
  lemma ConfigureAnnounces(s: FeedState, config: AcceptConfig)
    requires s.phase == Idle
    ensures var t := Handle(s, Configure(config));
            && t.accept == config && t.phase == Idle && t.channel == s.channel && t.lost == s.lost
            && t.subs == s.subs && Replay(t.sent) == Replay(s.sent)
            && t.sent == if s.channel == Opened then s.sent + [Setup(config)] else s.sent
  {
    ReplaySnoc(s.sent, Setup(config));
  }

  /** Everything else is dropped without a trace unless the channel is open. */
  lemma NotOpenIgnores(s: FeedState, event: Event)
    requires s.phase == Idle && s.channel != Opened && !event.Configure?
    ensures Handle(s, event) == s
  {
  }

  /** Only what was there is removed: an unsubscribe that mentions no stored key leaves no trace. */
  lemma {:induction false} NothingDeleted(subs: Subscriptions, vs: seq<Json>)
    requires forall i :: 0 <= i < |vs| ==> SubscriptionKey(vs[i]).Some? ==> SubscriptionKey(vs[i]).value !in subs
    ensures Deleted(subs, vs) == [] && DeleteAll(subs, vs) == subs
  {
    hide SubscriptionKey;
    if vs != [] {
      NothingDeleted(subs, vs[..|vs| - 1]);
      var key := SubscriptionKey(vs[|vs| - 1]);
      assert key.Some? ==> subs - {key.value} == subs;
    }
  }

  lemma UnsubscribeOfNothing(s: FeedState, vs: seq<Json>)
    requires s.channel == Opened && s.phase == Idle
    requires forall i :: 0 <= i < |vs| ==> SubscriptionKey(vs[i]).Some? ==> SubscriptionKey(vs[i]).value !in s.subs
    ensures Handle(s, Unsubscribe(vs)) == s
  {
    hide SubscriptionKey, Handle;
    HandleUnsubscribe(s, vs);
    NothingDeleted(s.subs, vs);
  }

  /** A message about subscriptions does one thing, and to at least one of them. */
  predicate SaysSomething(m: Message) {
    m.Subscription? ==>
      || (m.remove == None && m.reset == None && m.add.Some? && m.add.value != [])
      || (m.add == None && m.reset == None && m.remove.Some? && m.remove.value != [])
      || m == Subscription(None, None, Some(true))
  }

  ghost predicate AllSaySomething(s: FeedState) {
    && (forall m :: m in s.sent ==> SaysSomething(m))
    && (forall m :: m in s.lost ==> SaysSomething(m))
    && (s.phase.Built? || s.phase.Cleared? ==> SaysSomething(s.phase.message))
  }

  lemma NextSaysSomething(s: FeedState, a: Action)
    requires AllSaySomething(s)
    ensures AllSaySomething(Next(s, a))
  {
    hide Keyed, Deleted, Entries, InsertAll, DeleteAll;
  }

  /** Over every run, no message without content is sent. */
  lemma {:induction false} MessagesSaySomething(accept: AcceptConfig, channel: ChannelState, actions: seq<Action>)
    ensures AllSaySomething(Run(Init(accept, channel), actions))
  {
    hide Next;
    if actions != [] {
      MessagesSaySomething(accept, channel, actions[..|actions| - 1]);
      NextSaysSomething(Run(Init(accept, channel), actions[..|actions| - 1]), actions[|actions| - 1]);
    }
  }

  /** With nothing to add, the message of the whole state is a plain reset. */
  lemma UpdateOfNothing(subs: Subscriptions)
    ensures UpdateMessage(subs, []) == Subscription(None, None, Some(true))
  {
    assert Values(subs, []) == [];
  }

  /** The second look: an open channel lets the message through, and any other loses it, in every state
      that is left. */
  lemma SecondLook(s: FeedState, m: Message)
    requires s.phase == Built(m)
    ensures var t := Next(Next(s, CheckSend), Enqueue);
            if s.channel == Opened then t == s.(phase := Idle, sent := s.sent + [m])
            else t == s.(phase := Idle, lost := s.lost + [m])
  {
  }

  /** On a closed channel nothing more is ever sent, but for a message past its second look. */
  lemma {:induction false} ClosedFeedIsSilent(s: FeedState, actions: seq<Action>)
    requires s.channel == Closed && !s.phase.Cleared?
    ensures var t := Run(s, actions); t.channel == Closed && !t.phase.Cleared? && t.sent == s.sent
  {
    hide WorkOn;
    if actions != [] {
      ClosedFeedIsSilent(s, actions[..|actions| - 1]);
      WorkClearsNothing(Run(s, actions[..|actions| - 1]));
    }
  }

  lemma WorkClearsNothing(s: FeedState)
    ensures s.phase.Accepted? ==>
              var t := WorkOn(s, s.phase.event); t.channel == s.channel && t.sent == s.sent && !t.phase.Cleared?
  {
    hide Keyed, Deleted, Entries, InsertAll, DeleteAll;
  }

  /** The channel can close at any moment, and open from Requested; it goes nowhere else. */
  lemma ChannelMovesOn(s: FeedState, to: ChannelState)
    ensures Next(s, ChannelMoves(Closed)).channel == Closed
    ensures s.channel == Requested ==> Next(s, ChannelMoves(Opened)).channel == Opened
    ensures Next(s, ChannelMoves(to)).channel in {s.channel, to}
    ensures Next(s, ChannelMoves(to)) == s.(channel := Next(s, ChannelMoves(to)).channel)
  {
  }

  /** The type under which a message is handed to the channel. */
  function TypeOf(m: Message): string {
    match m
    case Subscription(_, _, _) => "FEED_SUBSCRIPTION"
    case Setup(_) => "FEED_SETUP"
  }

  /** The channel accepts what a feed sends exactly while it is open. */
  lemma ChannelAcceptsFeed(c: Chan, m: Message, payload: Json)
    ensures SendCheck(c, ChannelMessage(TypeOf(m), payload), true) ==
            if c.state == Opened then Ok(Outgoing(TypeOf(m), c.id, FromSend)) else Err(NotReady(c.state))
  {
  }

  // ---------- The feed ----------

  class Feed {
    var channelState: ChannelState
    var subscriptions: Subscriptions
    var acceptConfig: AcceptConfig
    /** Where the event loop is, and what it has sent. */
    var phase: Phase
    var sent: seq<Message>
    ghost var lost: seq<Message>

    ghost function View(): FeedState
      reads this
    {
      FeedState(channelState, subscriptions, acceptConfig, phase, sent, lost)
    }

    constructor (accept: AcceptConfig, channelState: ChannelState)
      ensures View() == Init(accept, channelState)
    {
      this.channelState := channelState;
      subscriptions := map[];
      acceptConfig := accept;
      phase := Idle;
      sent, lost := [], [];
    }

    /** The first look of a handler at the channel. */
    method TakeEvent(event: Event)
      requires phase == Idle
      modifies this`acceptConfig, this`phase
      ensures View() == Next(old(View()), Take(event))
    {
      match event {
        case Configure(config) =>
          acceptConfig := config;
          phase := Accepted(event);
        case _ =>
          if channelState == Opened {
            phase := Accepted(event);
          }
      }
    }

    method RecordSubscriptions(vs: seq<Json>) returns (added: seq<Json>)
      modifies this`subscriptions
      ensures subscriptions == InsertAll(old(subscriptions), vs) && added == Keyed(vs)
    {
      hide SubscriptionKey;
      added := [];
      for i := 0 to |vs|
        invariant subscriptions == InsertAll(old(subscriptions), vs[..i]) && added == Keyed(vs[..i])
      {
        assert vs[..i + 1][..i] == vs[..i];
        var key := SubscriptionKey(vs[i]);
        if key.Some? {
          subscriptions := subscriptions[key.value := vs[i]];
          added := added + [vs[i]];
        }
      }
      assert vs[..|vs|] == vs;
    }

    method DropSubscriptions(vs: seq<Json>) returns (removed: seq<Json>)
      modifies this`subscriptions
      ensures subscriptions == DeleteAll(old(subscriptions), vs) && removed == Deleted(old(subscriptions), vs)
    {
      hide SubscriptionKey;
      removed := [];
      for i := 0 to |vs|
        invariant subscriptions == DeleteAll(old(subscriptions), vs[..i])
        invariant removed == Deleted(old(subscriptions), vs[..i])
      {
        assert vs[..i + 1][..i] == vs[..i];
        var key := SubscriptionKey(vs[i]);
        if key.Some? {
          if key.value in subscriptions {
            subscriptions := subscriptions - {key.value};
            removed := removed + [vs[i]];
          } else {
            assert subscriptions - {key.value} == subscriptions;
          }
        }
      }
      assert vs[..|vs|] == vs;
    }

    method Convert(vs: seq<Json>) returns (entries: seq<Entry>)
      ensures entries == Entries(vs)
    {
      hide ToEntry;
      entries := [];
      for i := 0 to |vs|
        invariant entries == Entries(vs[..i])
      {
        assert vs[..i + 1][..i] == vs[..i];
        var e := ToEntry(vs[i]);
        if e.Some? {
          entries := entries + [e.value];
        }
      }
      assert vs[..|vs|] == vs;
    }

    /** The change to the local map, and the message about it. Nothing is sent when nothing changed or
        nothing about it can be sent. */
    method Work()
      requires phase.Accepted?
      modifies this`subscriptions, this`phase
      ensures View() == Next(old(View()), Action.Work)
      ensures match old(phase.event)
              case Subscribe(vs) =>
                && (forall k :: k in subscriptions <==> k in old(subscriptions) || HasKey(vs, k))
                && (forall i: nat, k :: LastWith(vs, i, k) ==> subscriptions[k] == vs[i])
              case Unsubscribe(vs) =>
                forall k :: k in subscriptions <==> k in old(subscriptions) && !HasKey(vs, k)
              case Reset => subscriptions == map[]
              case Configure(_) => subscriptions == old(subscriptions)
    {
      hide InsertAll, DeleteAll, Keyed, Deleted, Entries, HasKey, LastWith, SubscriptionKey;
      match phase.event {
        case Subscribe(vs) =>
          InsertAllMeans(subscriptions, vs);
          var added := RecordSubscriptions(vs);
          var entries := Convert(added);
          phase := if entries == [] then Idle else Built(Subscription(Some(entries), None, None));
        case Unsubscribe(vs) =>
          DeleteAllMeans(subscriptions, vs);
          var removed := DropSubscriptions(vs);
          var entries := Convert(removed);
          phase := if entries == [] then Idle else Built(Subscription(None, Some(entries), None));
        case Reset =>
          subscriptions := map[];
          phase := Built(Subscription(None, None, Some(true)));
        case Configure(_) =>
          phase := if channelState == Opened then Built(Setup(acceptConfig)) else Idle;
      }
    }

    /** The second look, made by the channel's send. */
    method CheckSend()
      requires phase.Built?
      modifies this`phase, this`lost
      ensures View() == Next(old(View()), Action.CheckSend)
    {
      if channelState == Opened {
        phase := Cleared(phase.message);
      } else {
        lost := lost + [phase.message];
        phase := Idle;
      }
    }

    method Enqueue()
      requires phase.Cleared?
      modifies this`phase, this`sent
      ensures View() == Next(old(View()), Action.Enqueue)
    {
      sent := sent + [phase.message];
      phase := Idle;
    }

    /** Something else moves the channel. */
    method ChannelMoved(to: ChannelState)
      modifies this`channelState
      ensures View() == Next(old(View()), ChannelMoves(to))
    {
      if Allowed(channelState, to) {
        channelState := to;
      }
    }
  }
}
