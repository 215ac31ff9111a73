/**
  The feed's configuration. Every FEED_CONFIG message is merged by a task of its own, so merges may
  run in any order; every FEED_DATA message is decoded under the configuration it finds.
 */
module FeedConfiguration {
  import opened CompactDecoder
  import opened FeedCodec
  import opened FeedEvents
  import opened Floats
  import opened Wrappers

  datatype DataFormat = FullFormat | CompactFormat

  datatype FeedConfig = FeedConfig(period: F64, format: DataFormat, fields: Option<FieldMap>)

  /** A FEED_CONFIG message: a period, a format, and possibly columns for some event types. */
  datatype ConfigMessage = ConfigMessage(period: F64, format: DataFormat, fields: Option<FieldMap>)

  // ---------- Merging ----------

  predicate Mentions(m: ConfigMessage, t: string) {
    m.fields.Some? && t in m.fields.value
  }

  function Merge(config: FeedConfig, m: ConfigMessage): FeedConfig {
    FeedConfig(m.period, m.format,
               match (config.fields, m.fields)
               case (_, None) => config.fields
               case (None, Some(_)) => m.fields
               case (Some(existing), Some(new')) => Some(existing + new'))
  }

  /** The configuration after the merge tasks have run in the given order. */
  function Merged(config: FeedConfig, messages: seq<ConfigMessage>): FeedConfig {
    if messages == [] then config
    else Merge(Merged(config, messages[..|messages| - 1]), messages[|messages| - 1])
  }

  /** What is forwarded for a data message: compact data is dropped while no columns are known. */
  ghost function DecodeUnder(c: Coding, config: FeedConfig, data: FeedData): seq<Event>
    requires data.Compact? && config.fields.Some? ==> Divisible(config.fields.value, data.batches)
  {
    match data
    case Full(events) => events
    case Compact(batches) => if config.fields.Some? then DecodeBatches(c, config.fields.value, batches) else []
  }

  // ---------- The listener of the feed's channel ----------

  class FeedListener {
    var config: FeedConfig
    /** What listeners of feed data have been sent. */
    var forwarded: seq<Event>

    constructor ()
      ensures config == FeedConfig(Finite(0.0), FullFormat, None) && forwarded == []
    {
      config := FeedConfig(Finite(0.0), FullFormat, None);
      forwarded := [];
    }

    /** The merge task. The new columns are inserted one by one in the unspecified order of a hash
        map; whatever the order, the result is the merge. */
    method MergeTask(m: ConfigMessage)
      modifies this`config
      ensures config == Merge(old(config), m)
    {
      config := config.(period := m.period, format := m.format);
      if m.fields.Some? {
        var newFields := m.fields.value;
        if config.fields.Some? {
          var todo := newFields.Keys;
          while todo != {}
            invariant todo <= newFields.Keys
            invariant config.fields.Some?
            invariant config == old(config).(period := m.period, format := m.format, fields := config.fields)
            invariant config.fields.value
                   == old(config).fields.value + (map t | t in newFields && t !in todo :: newFields[t])
          {
            var t :| t in todo;
            config := config.(fields := Some(config.fields.value[t := newFields[t]]));
            todo := todo - {t};
          }
          assert newFields == map t | t in newFields && t !in todo :: newFields[t];
        } else {
          config := config.(fields := m.fields);
        }
      }
    }

    /** The decode task: compact data is dropped while no columns are known. */
    method DataTask(c: Coding, data: FeedData)
      requires WellFormedTable(c.table)
      requires data.Compact? && config.fields.Some? ==> Divisible(config.fields.value, data.batches)
      modifies this`forwarded
      ensures forwarded == old(forwarded) + DecodeUnder(c, config, data)
    {
      hide DecodeBatches, WellFormedTable;
      match data
      case Full(events) =>
        for k := 0 to |events|
          invariant forwarded == old(forwarded) + events[..k]
        {
          forwarded := forwarded + [events[k]];
        }
        assert events[..|events|] == events;
      case Compact(_) =>
        if config.fields.Some? {
          var events := CompactToFull(c, data, config.fields.value);
          for k := 0 to |events|
            invariant forwarded == old(forwarded) + events[..k]
          {
            forwarded := forwarded + [events[k]];
          }
          assert events[..|events|] == events;
        }
    }
  }

  // ---------- The last message wins ----------

  /** For a fixed order, the columns of a type are those of the last message that mentions it, and
      the period and format are those of the last message. */
  lemma {:induction false} LastMessageWins(config: FeedConfig, messages: seq<ConfigMessage>, k: nat, t: string)
    requires k < |messages| && Mentions(messages[k], t)
    requires forall i :: k < i < |messages| ==> !Mentions(messages[i], t)
    ensures var r := Merged(config, messages);
            && r.fields.Some? && t in r.fields.value
            && r.fields.value[t] == messages[k].fields.value[t]
            && r.period == messages[|messages| - 1].period
            && r.format == messages[|messages| - 1].format
  {
    var last := |messages| - 1;
    if k < last {
      assert !Mentions(messages[last], t);
      LastMessageWins(config, messages[..last], k, t);
    }
  }

  /** The period and the format are always those of the last message. */
  lemma SettingsAreTheLast(config: FeedConfig, messages: seq<ConfigMessage>)
    requires messages != []
    ensures Merged(config, messages).period == messages[|messages| - 1].period
    ensures Merged(config, messages).format == messages[|messages| - 1].format
  {
  }

  /** A type no message mentions keeps the columns it had, if any. */
  lemma {:induction false} UnmentionedTypesStay(config: FeedConfig, messages: seq<ConfigMessage>, t: string)
    requires forall m :: m in messages ==> !Mentions(m, t)
    ensures var r := Merged(config, messages);
            && (config.fields.Some? ==> r.fields.Some?)
            && ((r.fields.Some? && t in r.fields.value) <==> (config.fields.Some? && t in config.fields.value))
            && (config.fields.Some? && t in config.fields.value ==> r.fields.value[t] == config.fields.value[t])
  {
    if messages != [] {
      assert !Mentions(messages[|messages| - 1], t);
      UnmentionedTypesStay(config, messages[..|messages| - 1], t);
    }
  }

  lemma {:induction false} ColumnsKnown(config: FeedConfig, messages: seq<ConfigMessage>)
    ensures Merged(config, messages).fields.Some? <==>
            config.fields.Some? || exists m :: m in messages && m.fields.Some?
  {
    if messages != [] {
      var front, last := messages[..|messages| - 1], messages[|messages| - 1];
      ColumnsKnown(config, front);
      assert messages == front + [last];
      assert last in messages;
      if m :| m in messages && m.fields.Some? && m != last {
        assert m in front;
      }
    }
  }

  // ---------- Order does not matter exactly when the messages agree ----------

  /** Two messages agree when they have the same period and format, and the same columns for the
      types they both mention. */
  ghost predicate Agree(m: ConfigMessage, n: ConfigMessage) {
    && m.period == n.period && m.format == n.format
    && forall t :: Mentions(m, t) && Mentions(n, t) ==> m.fields.value[t] == n.fields.value[t]
  }

  ghost predicate Compatible(messages: seq<ConfigMessage>) {
    forall i, j :: 0 <= i < j < |messages| ==> Agree(messages[i], messages[j])
  }

  ghost predicate OrderIndependent(config: FeedConfig, messages: seq<ConfigMessage>) {
    forall order: seq<ConfigMessage> :: multiset(order) == multiset(messages) ==>
      Merged(config, order) == Merged(config, messages)
  }

  lemma CompatibleMembersAgree(messages: seq<ConfigMessage>, m: ConfigMessage, n: ConfigMessage)
    requires Compatible(messages) && m in messages && n in messages
    ensures Agree(m, n)
  {
    var i :| 0 <= i < |messages| && messages[i] == m;
    var j :| 0 <= j < |messages| && messages[j] == n;
    assert i < j ==> Agree(messages[i], messages[j]);
    assert j < i ==> Agree(messages[j], messages[i]);
  }

  lemma LastMention(messages: seq<ConfigMessage>, t: string) returns (k: nat)
    requires exists m :: m in messages && Mentions(m, t)
    ensures k < |messages| && Mentions(messages[k], t)
    ensures forall i :: k < i < |messages| ==> !Mentions(messages[i], t)
  {
    k := |messages| - 1;
    while !Mentions(messages[k], t)
      invariant k < |messages|
      invariant forall i :: k < i < |messages| ==> !Mentions(messages[i], t)
      invariant exists m :: m in messages[..k + 1] && Mentions(m, t)
      decreases k
    {
      var m :| m in messages[..k + 1] && Mentions(m, t);
      assert messages[..k + 1] == messages[..k] + [messages[k]];
      assert m in messages[..k];
      k := k - 1;
    }
  }

  lemma PermutationsHaveTheSameMembers<T>(a: seq<T>, b: seq<T>)
    requires multiset(a) == multiset(b)
    ensures |a| == |b|
    ensures forall x :: x in a <==> x in b
  {
    assert |multiset(a)| == |a| && |multiset(b)| == |b|;
    forall x ensures x in a <==> x in b {
      assert x in a <==> x in multiset(a);
      assert x in b <==> x in multiset(b);
    }
  }

  /** In any order, a type has the columns of whichever compatible message mentions it. */
  lemma MentionedColumns(config: FeedConfig, messages: seq<ConfigMessage>, order: seq<ConfigMessage>,
                         m: ConfigMessage, t: string)
    requires Compatible(messages) && multiset(order) == multiset(messages)
    requires m in messages && Mentions(m, t)
    ensures var r := Merged(config, order);
            r.fields.Some? && t in r.fields.value && r.fields.value[t] == m.fields.value[t]
  {
    PermutationsHaveTheSameMembers(order, messages);
    var k := LastMention(order, t);
    LastMessageWins(config, order, k, t);
    CompatibleMembersAgree(messages, order[k], m);
  }

  lemma CompatibleOrdersAgree(config: FeedConfig, messages: seq<ConfigMessage>, order: seq<ConfigMessage>)
    requires Compatible(messages) && multiset(order) == multiset(messages)
    ensures Merged(config, order) == Merged(config, messages)
  {
    PermutationsHaveTheSameMembers(order, messages);
    if messages != [] {
      CompatibleMembersAgree(messages, order[|order| - 1], messages[|messages| - 1]);
      var a, b := Merged(config, order), Merged(config, messages);
      ColumnsKnown(config, order);
      ColumnsKnown(config, messages);
      if a.fields.Some? {
        forall t
          ensures t in a.fields.value <==> t in b.fields.value
          ensures t in a.fields.value ==> a.fields.value[t] == b.fields.value[t]
        {
          if m :| m in messages && Mentions(m, t) {
            MentionedColumns(config, messages, order, m, t);
            MentionedColumns(config, messages, messages, m, t);
          } else {
            UnmentionedTypesStay(config, order, t);
            UnmentionedTypesStay(config, messages, t);
          }
        }
        assert a.fields.value == b.fields.value;
      }
    }
  }

  /** The message at position k moved to the end. */
  function MovedToEnd(messages: seq<ConfigMessage>, k: nat): (order: seq<ConfigMessage>)
    requires k < |messages|
    ensures multiset(order) == multiset(messages)
    ensures |order| == |messages| && order[|order| - 1] == messages[k]
  {
    assert messages == messages[..k] + [messages[k]] + messages[k + 1..];
    messages[..k] + messages[k + 1..] + [messages[k]]
  }

  lemma DisagreementShows(config: FeedConfig, messages: seq<ConfigMessage>, i: nat, j: nat)
    requires i < j < |messages| && !Agree(messages[i], messages[j])
    ensures Merged(config, MovedToEnd(messages, i)) != Merged(config, MovedToEnd(messages, j))
  {
    var a, b := MovedToEnd(messages, i), MovedToEnd(messages, j);
    var m, n := messages[i], messages[j];
    var last := |messages| - 1;
    if m.period == n.period && m.format == n.format {
      var t :| Mentions(m, t) && Mentions(n, t) && m.fields.value[t] != n.fields.value[t];
      LastMessageWins(config, a, last, t);
      LastMessageWins(config, b, last, t);
    }
  }

  /** Every order of running the merge tasks gives the same configuration exactly when the messages
      agree with each other. */
  lemma OrderIndependentIffCompatible(config: FeedConfig, messages: seq<ConfigMessage>)
    ensures OrderIndependent(config, messages) <==> Compatible(messages)
  {
    if Compatible(messages) {
      forall order: seq<ConfigMessage> | multiset(order) == multiset(messages)
        ensures Merged(config, order) == Merged(config, messages)
      {
        CompatibleOrdersAgree(config, messages, order);
      }
    } else {
      var i, j :| 0 <= i < j < |messages| && !Agree(messages[i], messages[j]);
      DisagreementShows(config, messages, i, j);
    }
  }

  /** In particular when they share period and format and no type is mentioned twice. */
  lemma DisjointMessagesCommute(config: FeedConfig, messages: seq<ConfigMessage>)
    requires forall i, j :: 0 <= i < j < |messages| ==>
               messages[i].period == messages[j].period && messages[i].format == messages[j].format
    requires forall i, j, t :: 0 <= i < j < |messages| && Mentions(messages[i], t) ==> !Mentions(messages[j], t)
    ensures OrderIndependent(config, messages)
  {
    forall i, j | 0 <= i < j < |messages| ensures Agree(messages[i], messages[j]) {
      assert forall t :: Mentions(messages[i], t) ==> !Mentions(messages[j], t);
    }
    OrderIndependentIffCompatible(config, messages);
  }

  // ---------- New types leave known types alone ----------

  /** However many messages arrive for types that are not yet known, in whatever order, data that
      could be decoded before decodes to the same events, and any other data to at least those. */
  lemma NewTypesKeepDecoding(c: Coding, config: FeedConfig, messages: seq<ConfigMessage>, batches: seq<Batch>)
    requires config.fields.Some?
    requires forall m, t :: m in messages && Mentions(m, t) ==> t !in config.fields.value
    ensures Merged(config, messages).fields.Some?
    ensures var before, after := config.fields.value, Merged(config, messages).fields.value;
            && Extends(before, after)
            && (Divisible(after, batches) ==>
                && Divisible(before, batches)
                && Subsequence(DecodeBatches(c, before, batches), DecodeBatches(c, after, batches))
                && ((forall k :: 0 <= k < |batches| ==> batches[k].kind in before) ==>
                    DecodeBatches(c, after, batches) == DecodeBatches(c, before, batches)))
  {
    hide DecodeBatches;
    ColumnsKnown(config, messages);
    var before, after := config.fields.value, Merged(config, messages).fields.value;
    forall t | t in before ensures t in after && after[t] == before[t] {
      UnmentionedTypesStay(config, messages, t);
    }
    if Divisible(after, batches) {
      assert Divisible(before, batches);
      DecodingIsMonotone(c, before, after, batches);
      if forall k :: 0 <= k < |batches| ==> batches[k].kind in before {
        UnseenTypesDoNotMatter(c, before, after, batches);
      }
    }
  }

  // ---------- Merges and data in any order ----------

  /** What the listener spawns for a message. */
  datatype Task = MergeOf(m: ConfigMessage) | DecodeOf(data: FeedData)

  /** The lists of columns are not empty, which decoding demands. */
  ghost predicate Usable(fields: Option<FieldMap>) {
    fields.Some? ==> forall t :: t in fields.value ==> fields.value[t] != []
  }

  ghost predicate AllUsable(config: FeedConfig, tasks: seq<Task>) {
    Usable(config.fields) && forall m :: MergeOf(m) in tasks ==> Usable(m.fields)
  }

  function MergesOf(tasks: seq<Task>): seq<ConfigMessage> {
    if tasks == [] then []
    else
      var front := MergesOf(tasks[..|tasks| - 1]);
      match tasks[|tasks| - 1]
      case MergeOf(m) => front + [m]
      case DecodeOf(_) => front
  }

  lemma {:induction false} MergedIsUsable(config: FeedConfig, tasks: seq<Task>)
    requires AllUsable(config, tasks)
    ensures Usable(Merged(config, MergesOf(tasks)).fields)
  {
    if tasks != [] {
      var front, last := tasks[..|tasks| - 1], tasks[|tasks| - 1];
      assert forall t :: t in front ==> t in tasks;
      MergedIsUsable(config, front);
      if last.MergeOf? {
        assert last in tasks;
        var merges := MergesOf(front) + [last.m];
        assert merges[..|merges| - 1] == MergesOf(front);
      }
    }
  }

  /** What is forwarded when the spawned work runs in the given order. */
  ghost function Forwarded(c: Coding, config: FeedConfig, tasks: seq<Task>): seq<Event>
    requires AllUsable(config, tasks)
  {
    if tasks == [] then []
    else
      var front, last := tasks[..|tasks| - 1], tasks[|tasks| - 1];
      assert forall t :: t in front ==> t in tasks;
      MergedIsUsable(config, front);
      Forwarded(c, config, front)
      + (if last.DecodeOf? then DecodeUnder(c, Merged(config, MergesOf(front)), last.data) else [])
  }

  /** The columns of a type: those of the last merge that mentions it, if any has run, or else those
      it had before. */
  function ColumnsAfter(config: FeedConfig, tasks: seq<Task>, t: string): Option<seq<string>> {
    if tasks == [] then
      if config.fields.Some? && t in config.fields.value then Some(config.fields.value[t]) else None
    else
      var last := tasks[|tasks| - 1];
      if last.MergeOf? && Mentions(last.m, t) then Some(last.m.fields.value[t])
      else ColumnsAfter(config, tasks[..|tasks| - 1], t)
  }

  /** Batch by batch: a batch is decoded under the columns its type has by then, and dropped if it has
      none. */
  ghost function BatchesForwarded(c: Coding, config: FeedConfig, tasks: seq<Task>, batches: seq<Batch>): seq<Event>
    requires forall t :: ColumnsAfter(config, tasks, t) != Some([])
  {
    if batches == [] then []
    else
      var columns := ColumnsAfter(config, tasks, batches[0].kind);
      (if columns.Some? then DecodeRows(c, batches[0].kind, columns.value, batches[0].values) else [])
      + BatchesForwarded(c, config, tasks, batches[1..])
  }

  lemma {:induction false} ColumnsOfMerged(config: FeedConfig, tasks: seq<Task>, t: string)
    ensures var fields := Merged(config, MergesOf(tasks)).fields;
            ColumnsAfter(config, tasks, t) ==
              if fields.Some? && t in fields.value then Some(fields.value[t]) else None
  {
    if tasks != [] {
      var front, last := tasks[..|tasks| - 1], tasks[|tasks| - 1];
      ColumnsOfMerged(config, front, t);
      if last.MergeOf? {
        var merges := MergesOf(front) + [last.m];
        assert merges[..|merges| - 1] == MergesOf(front);
      }
    }
  }

  lemma ColumnsAreUsable(config: FeedConfig, tasks: seq<Task>, t: string)
    requires AllUsable(config, tasks)
    ensures ColumnsAfter(config, tasks, t) != Some([])
  {
    MergedIsUsable(config, tasks);
    ColumnsOfMerged(config, tasks, t);
  }

  lemma {:induction false} DecodedBatchByBatch(c: Coding, config: FeedConfig, tasks: seq<Task>, batches: seq<Batch>)
    requires forall t :: ColumnsAfter(config, tasks, t) != Some([])
    requires Usable(Merged(config, MergesOf(tasks)).fields)
    ensures DecodeUnder(c, Merged(config, MergesOf(tasks)), Compact(batches))
         == BatchesForwarded(c, config, tasks, batches)
  {
    hide DecodeRows, Merged, ColumnsAfter;
    if batches != [] {
      ColumnsOfMerged(config, tasks, batches[0].kind);
      DecodedBatchByBatch(c, config, tasks, batches[1..]);
    }
  }

  /** Over every order of the spawned work, and for the data at every position in it: full data is
      forwarded as it is, and of compact data exactly those batches are decoded whose type has been
      mentioned by a merge that ran before, or was known from the start, under the columns of the last
      such merge. Everything else is dropped. */
  lemma ForwardedAt(c: Coding, config: FeedConfig, tasks: seq<Task>, k: nat)
    requires AllUsable(config, tasks) && k < |tasks| && tasks[k].DecodeOf?
    ensures AllUsable(config, tasks[..k]) && AllUsable(config, tasks[..k + 1])
    ensures forall t :: ColumnsAfter(config, tasks[..k], t) != Some([])
    ensures Forwarded(c, config, tasks[..k + 1]) == Forwarded(c, config, tasks[..k]) +
              if tasks[k].data.Full? then tasks[k].data.events
              else BatchesForwarded(c, config, tasks[..k], tasks[k].data.batches)
  {
    var before, upTo := tasks[..k], tasks[..k + 1];
    assert upTo[..|upTo| - 1] == before && upTo[|upTo| - 1] == tasks[k];
    assert (forall t :: t in before ==> t in tasks) && (forall t :: t in upTo ==> t in tasks);
    MergedIsUsable(config, before);
    forall t ensures ColumnsAfter(config, before, t) != Some([]) {
      ColumnsAreUsable(config, before, t);
    }
    hide DecodeUnder, BatchesForwarded, Merged, ColumnsAfter;
    if tasks[k].data.Full? {
      FullIsForwarded(c, Merged(config, MergesOf(before)), tasks[k].data.events);
    } else {
      DecodedBatchByBatch(c, config, before, tasks[k].data.batches);
    }
  }

  lemma FullIsForwarded(c: Coding, config: FeedConfig, events: seq<Event>)
    ensures DecodeUnder(c, config, Full(events)) == events
  {
  }

  ghost predicate Known(config: FeedConfig, tasks: seq<Task>, t: string) {
    (config.fields.Some? && t in config.fields.value) || exists m :: MergeOf(m) in tasks && Mentions(m, t)
  }

  lemma {:induction false} ColumnsAreOfAMention(config: FeedConfig, tasks: seq<Task>, t: string)
    ensures Known(config, tasks, t) <==> ColumnsAfter(config, tasks, t).Some?
    ensures (exists m :: MergeOf(m) in tasks && Mentions(m, t)) ==>
              exists m :: MergeOf(m) in tasks && Mentions(m, t)
                && ColumnsAfter(config, tasks, t) == Some(m.fields.value[t])
  {
    if tasks != [] {
      var front, last := tasks[..|tasks| - 1], tasks[|tasks| - 1];
      assert tasks == front + [last];
      ColumnsAreOfAMention(config, front, t);
      if last.MergeOf? && Mentions(last.m, t) {
        assert MergeOf(last.m) in tasks;
      } else {
        assert forall m :: MergeOf(m) in tasks && Mentions(m, t) <==> MergeOf(m) in front && Mentions(m, t);
      }
    }
  }

  /** When does overtaking do harm? For configurations that agree with each other and a type that was
      not known from the start, data finds the same columns after two different amounts of work
      exactly if the type has been mentioned in both or in neither. So a batch is lost to reordering
      only by running before the first configuration of its type. */
  lemma SameColumnsIff(config: FeedConfig, a: seq<Task>, b: seq<Task>, messages: seq<ConfigMessage>, t: string)
    requires Compatible(messages)
    requires forall m :: MergeOf(m) in a || MergeOf(m) in b ==> m in messages
    requires !(config.fields.Some? && t in config.fields.value)
    ensures ColumnsAfter(config, a, t) == ColumnsAfter(config, b, t) <==> (Known(config, a, t) <==> Known(config, b, t))
  {
    ColumnsAreOfAMention(config, a, t);
    ColumnsAreOfAMention(config, b, t);
    hide ColumnsAfter;
    if Known(config, a, t) && Known(config, b, t) {
      var m :| MergeOf(m) in a && Mentions(m, t) && ColumnsAfter(config, a, t) == Some(m.fields.value[t]);
      var n :| MergeOf(n) in b && Mentions(n, t) && ColumnsAfter(config, b, t) == Some(n.fields.value[t]);
      CompatibleMembersAgree(messages, m, n);
    }
  }

  /** On a new listener, compact data that overtakes the configuration it depends on is dropped; in
      the order of arrival it is decoded. */
  lemma DataCanOvertake(c: Coding, config: FeedConfig, m: ConfigMessage, b: Batch)
    requires config.fields == None && Usable(m.fields) && Mentions(m, b.kind)
    ensures AllUsable(config, [MergeOf(m), DecodeOf(Compact([b]))])
    ensures AllUsable(config, [DecodeOf(Compact([b])), MergeOf(m)])
    ensures Forwarded(c, config, [MergeOf(m), DecodeOf(Compact([b]))])
         == DecodeRows(c, b.kind, m.fields.value[b.kind], b.values)
    ensures Forwarded(c, config, [DecodeOf(Compact([b])), MergeOf(m)]) == []
  {
    hide DecodeRows;
    var merge, decode := MergeOf(m), DecodeOf(Compact([b]));
    var late, inTime := [decode, merge], [merge, decode];
    assert inTime[..1] == [merge] && inTime[..2] == inTime && late[..1] == [decode] && late[..0] == [];
    assert [merge][..0] == [];
    ForwardedAt(c, config, inTime, 1);
    ForwardedAt(c, config, late, 0);
    assert ColumnsAfter(config, [merge], b.kind) == Some(m.fields.value[b.kind]);
    assert ColumnsAfter(config, [], b.kind) == None;
    assert [b][1..] == [];
  }
}
