/**
  From compact to full data: each batch is cut into rows, and each row is paired with the field
  names configured for the batch's event type.
 */
module CompactDecoder {
  import opened FeedCodec
  import opened FeedEvents
  import opened JsonModel
  import opened Wrappers

  /** The field names of each event type, in column order. */
  type FieldMap = map<string, seq<string>>

  /** The event table, and how strings are read as floats. */
  datatype Coding = Coding(parse: FloatParser, table: EventTable)

  /** A batch is cut by its number of fields, so a configured type needs at least one. */
  predicate Divisible(fields: FieldMap, batches: seq<Batch>) {
    forall k :: 0 <= k < |batches| && batches[k].kind in fields ==> fields[batches[k].kind] != []
  }

  // ---------- What decoding means ----------

  /** A row as named members: where a name is repeated, its last column counts. */
  function Named(names: seq<string>, row: seq<Json>): map<string, Json>
    requires |row| <= |names|
    decreases |row|
  {
    if row == [] then map[]
    else
      var last := |row| - 1;
      Named(names, row[..last])[names[last] := row[last]]
  }

  /** The members of a row's event object. The tag is the batch's type, whatever the row says. */
  function RowMembers(kind: string, names: seq<string>, row: seq<Json>): map<string, Json>
    requires |row| <= |names|
  {
    Named(names, row)[TAG := Str(kind)]
  }

  /** At most one event: a row that is not an event of its type yields nothing. */
  function DecodeRow(c: Coding, kind: string, names: seq<string>, row: seq<Json>): seq<Event>
    requires |row| <= |names|
  {
    match DecodeEvent(c.parse, c.table, Object(RowMembers(kind, names, row)))
    case Some(e) => [e]
    case None => []
  }

  /** The events of the complete rows, in order. */
  function DecodeRows(c: Coding, kind: string, names: seq<string>, values: seq<Json>): seq<Event>
    requires names != []
  {
    if |values| < |names| then []
    else DecodeRow(c, kind, names, values[..|names|])
         + DecodeRows(c, kind, names, values[|names|..])
  }

  /** A batch of a type without configured fields yields nothing. */
  function DecodeBatch(c: Coding, fields: FieldMap, b: Batch): seq<Event>
    requires b.kind in fields ==> fields[b.kind] != []
  {
    if b.kind in fields then DecodeRows(c, b.kind, fields[b.kind], b.values) else []
  }

  function DecodeBatches(c: Coding, fields: FieldMap, batches: seq<Batch>): seq<Event>
    requires Divisible(fields, batches)
  {
    if batches == [] then []
    else DecodeBatch(c, fields, batches[0])
         + DecodeBatches(c, fields, batches[1..])
  }

  ghost function DecodeData(c: Coding, fields: FieldMap, data: FeedData): seq<Event>
    requires data.Compact? ==> Divisible(fields, data.batches)
  {
    match data
    case Full(events) => events
    case Compact(batches) => DecodeBatches(c, fields, batches)
  }

  // ---------- The decoder ----------

  method BuildRow(kind: string, names: seq<string>, row: seq<Json>) returns (obj: map<string, Json>)
    requires |row| <= |names|
    ensures obj == RowMembers(kind, names, row)
  {
    obj := map[TAG := Str(kind)];
    for i := 0 to |names|
      invariant obj == RowMembers(kind, names, if i <= |row| then row[..i] else row)
    {
      if i < |row| {
        assert row[..i + 1][..i] == row[..i];
        assert RowMembers(kind, names, row[..i + 1])
            == Named(names, row[..i])[names[i] := row[i]][TAG := Str(kind)];
        // Skip the tag, which is already set.
        if names[i] != TAG {
          obj := obj[names[i] := row[i]];
        }
      } else {
        assert i == |row| ==> row[..i] == row;
      }
    }
    assert row[..|row|] == row;
  }

  method TryRow(c: Coding, kind: string, names: seq<string>, row: seq<Json>)
    returns (events: seq<Event>)
    requires |row| <= |names|
    ensures events == DecodeRow(c, kind, names, row)
  {
    var obj := BuildRow(kind, names, row);
    match DecodeEvent(c.parse, c.table, Object(obj)) {
      case Some(event) => events := [event];
      case None => events := [];
    }
  }

  /** The rows of one batch. When there is no complete row and no value at all, one empty row is
      still tried; it never decodes, because every event type requires a field. */
  method DecodeOneBatch(c: Coding, kind: string, names: seq<string>, values: seq<Json>)
    returns (events: seq<Event>)
    requires WellFormedTable(c.table) && names != []
    ensures events == DecodeRows(c, kind, names, values)
  {
    hide *;
    events := [];
    var numFields := |names|;
    var numEvents := |values| / numFields;
    RoundsExhaust(|values|, numFields);
    if numEvents == 0 && values != [] {
      TooShort(c, kind, names, values);
      return;
    }
    NothingDone(c, kind, names, values);
    ghost var done := 0;
    var rounds := if numEvents >= 1 then numEvents else 1;
    for eventIdx := 0 to rounds
      invariant done == eventIdx * numFields
      invariant values == [] ==> events == []
      invariant values != [] ==> done <= |values| && RowsDone(c, kind, names, values, done, events)
    {
      var start := eventIdx * numFields;
      var end := if start + numFields <= |values| then start + numFields else |values|;
      NextRow(|values|, numFields, eventIdx);
      var row := values[start..end];
      var decoded := TryRow(c, kind, names, row);
      if values == [] {
        PhantomRowYieldsNothing(c, kind, names);
      } else {
        assert start == done && end == done + |names|;
        RowDone(c, kind, names, values, done, events, row, decoded);
      }
      events := events + decoded;
      done := done + numFields;
    }
    if values == [] {
      TooShort(c, kind, names, values);
    } else {
      AllDone(c, kind, names, values, done, events);
    }
  }

  /** The events found so far, followed by those of the values still to come, are all of them. */
  ghost predicate RowsDone(c: Coding, kind: string, names: seq<string>, values: seq<Json>,
                           done: nat, events: seq<Event>)
    requires names != [] && done <= |values|
  {
    DecodeRows(c, kind, names, values) == events + DecodeRows(c, kind, names, values[done..])
  }

  lemma TooShort(c: Coding, kind: string, names: seq<string>, values: seq<Json>)
    requires |values| < |names|
    ensures DecodeRows(c, kind, names, values) == []
  {
  }

  lemma NothingDone(c: Coding, kind: string, names: seq<string>, values: seq<Json>)
    requires names != []
    ensures RowsDone(c, kind, names, values, 0, [])
  {
    assert values[0..] == values;
  }

  lemma AllDone(c: Coding, kind: string, names: seq<string>, values: seq<Json>,
                done: nat, events: seq<Event>)
    requires names != [] && done <= |values| < done + |names|
    requires RowsDone(c, kind, names, values, done, events)
    ensures events == DecodeRows(c, kind, names, values)
  {
  }

  lemma RowDone(c: Coding, kind: string, names: seq<string>, values: seq<Json>,
                done: nat, events: seq<Event>, row: seq<Json>, decoded: seq<Event>)
    requires names != [] && done + |names| <= |values|
    requires RowsDone(c, kind, names, values, done, events)
    requires row == values[done..done + |names|] && decoded == DecodeRow(c, kind, names, row)
    ensures RowsDone(c, kind, names, values, done + |names|, events + decoded)
  {
    hide DecodeRow;
    assert values[done..][..|names|] == row;
    assert values[done..][|names|..] == values[done + |names|..];
  }

  lemma ProductGrows(a: nat, b: nat, n: nat)
    requires a <= b
    ensures a * n <= b * n
  {
  }

  /** The slice of a row is in bounds, also when the row after the last value is tried. */
  lemma NextRow(len: nat, n: nat, k: nat)
    requires 0 < n
    requires if len == 0 then k == 0 else k < len / n
    ensures (k + 1) * n == k * n + n
    ensures if len == 0 then k * n == 0 else k * n + n <= len
  {
    var q := len / n;
    assert len == q * n + len % n;
    if len != 0 {
      ProductGrows(k + 1, q, n);
    }
  }

  lemma RoundsExhaust(len: nat, n: nat)
    requires 0 < n
    ensures 0 <= len - (len / n) * n < n
  {
    assert len == (len / n) * n + len % n;
  }

  /** The empty row tried for an empty batch is not an event. */
  lemma PhantomRowYieldsNothing(c: Coding, kind: string, names: seq<string>)
    requires WellFormedTable(c.table)
    ensures DecodeRow(c, kind, names, []) == []
  {
    assert RowMembers(kind, names, []) == map[TAG := Str(kind)];
    TagAloneDoesNotDecode(c.parse, c.table, kind);
  }

  method CompactToFull(c: Coding, data: FeedData, fields: FieldMap) returns (events: seq<Event>)
    requires WellFormedTable(c.table)
    requires data.Compact? ==> Divisible(fields, data.batches)
    ensures events == DecodeData(c, fields, data)
  {
    hide DecodeRows, DecodeEvent, WellFormedTable;
    match data
    case Full(fullEvents) =>
      events := fullEvents;
    case Compact(batches) =>
      events := [];
      for k := 0 to |batches|
        invariant events == DecodeBatches(c, fields, batches[..k])
      {
        var b := batches[k];
        DecodeBatchesSnoc(c, fields, batches[..k], b);
        assert batches[..k + 1] == batches[..k] + [b];
        if b.kind in fields {
          var decoded := DecodeOneBatch(c, b.kind, fields[b.kind], b.values);
          events := events + decoded;
        }
      }
      assert batches[..|batches|] == batches;
  }

  // ---------- Regrouping ----------

  /** Decoding distributes over concatenation of the batches. */
  lemma {:induction false} DecodeBatchesConcat(c: Coding, fields: FieldMap, a: seq<Batch>, b: seq<Batch>)
    requires Divisible(fields, a) && Divisible(fields, b) && Divisible(fields, a + b)
    ensures DecodeBatches(c, fields, a + b) == DecodeBatches(c, fields, a) + DecodeBatches(c, fields, b)
  {
    hide DecodeBatch;
    if a == [] {
      assert a + b == b;
    } else {
      assert (a + b)[1..] == a[1..] + b;
      DecodeBatchesConcat(c, fields, a[1..], b);
    }
  }

  lemma DecodeBatchesSnoc(c: Coding, fields: FieldMap, a: seq<Batch>, b: Batch)
    requires Divisible(fields, a) && Divisible(fields, [b]) && Divisible(fields, a + [b])
    ensures b.kind in fields ==> fields[b.kind] != []
    ensures DecodeBatches(c, fields, a + [b]) == DecodeBatches(c, fields, a) + DecodeBatch(c, fields, b)
  {
    assert [b][0] == b;
    DecodeBatchesConcat(c, fields, a, [b]);
    assert DecodeBatches(c, fields, [b][1..]) == [];
  }

  /** Cutting a batch at a row boundary splits its events. */
  lemma {:induction false} DecodeRowsConcat(c: Coding, kind: string, names: seq<string>,
                                               rows: nat, a: seq<Json>, b: seq<Json>)
    requires names != [] && |a| == rows * |names|
    ensures DecodeRows(c, kind, names, a + b) == DecodeRows(c, kind, names, a) + DecodeRows(c, kind, names, b)
    decreases rows
  {
    hide DecodeRow;
    if rows == 0 {
      assert a + b == b;
    } else {
      OneRowLess(rows, |names|);
      assert (a + b)[..|names|] == a[..|names|];
      assert (a + b)[|names|..] == a[|names|..] + b;
      DecodeRowsConcat(c, kind, names, rows - 1, a[|names|..], b);
    }
  }

  lemma OneRowLess(rows: nat, n: nat)
    requires 0 < rows
    ensures (rows - 1) * n == rows * n - n && n <= rows * n
  {
    ProductGrows(1, rows, n);
  }

  /** Two batches of one type may be sent as one, if the first is a number of complete rows. */
  lemma MergeBatches(c: Coding, fields: FieldMap, kind: string, rows: nat, a: seq<Json>, b: seq<Json>)
    requires kind in fields ==> fields[kind] != [] && |a| == rows * |fields[kind]|
    ensures DecodeBatches(c, fields, [Batch(kind, a), Batch(kind, b)])
         == DecodeBatches(c, fields, [Batch(kind, a + b)])
  {
    hide DecodeRows;
    DecodeBatchesSnoc(c, fields, [Batch(kind, a)], Batch(kind, b));
    assert [Batch(kind, a), Batch(kind, b)] == [Batch(kind, a)] + [Batch(kind, b)];
    DecodeBatchesSnoc(c, fields, [], Batch(kind, a));
    DecodeBatchesSnoc(c, fields, [], Batch(kind, a + b));
    assert [] + [Batch(kind, a)] == [Batch(kind, a)] && [] + [Batch(kind, a + b)] == [Batch(kind, a + b)];
    if kind in fields {
      DecodeRowsConcat(c, kind, fields[kind], rows, a, b);
    }
  }

  /** Values after the last complete row are ignored. */
  lemma TrailingValuesIgnored(c: Coding, kind: string, names: seq<string>, rows: nat, a: seq<Json>, tail: seq<Json>)
    requires names != [] && |a| == rows * |names| && |tail| < |names|
    ensures DecodeRows(c, kind, names, a + tail) == DecodeRows(c, kind, names, a)
  {
    DecodeRowsConcat(c, kind, names, rows, a, tail);
    TooShort(c, kind, names, tail);
  }

  /** A row that is not an event takes only itself out of the result. */
  lemma BadRowRemovesOnlyItself(c: Coding, kind: string, names: seq<string>,
                               rows: nat, a: seq<Json>, bad: seq<Json>, b: seq<Json>)
    requires names != [] && |a| == rows * |names| && |bad| == |names|
    requires DecodeEvent(c.parse, c.table, Object(RowMembers(kind, names, bad))) == None
    ensures DecodeRows(c, kind, names, a + bad + b) == DecodeRows(c, kind, names, a + b)
  {
    assert DecodeRow(c, kind, names, bad) == [];
    hide DecodeRow;
    assert a + bad + b == a + (bad + b);
    DecodeRowsConcat(c, kind, names, rows, a, bad + b);
    DecodeRowsConcat(c, kind, names, rows, a, b);
    assert (bad + b)[..|names|] == bad && (bad + b)[|names|..] == b;
  }

  // ---------- Decoding undoes columnar flattening ----------

  /** One value per column: the tag, the field's value, or null where the event has none. */
  function LayoutRow(names: seq<string>, e: Event): (row: seq<Json>)
    ensures |row| == |names|
  {
    seq(|names|, i requires 0 <= i < |names| => LayoutCell(names[i], e))
  }

  function LayoutCell(name: string, e: Event): Json {
    if name == TAG then Str(e.kind)
    else if name in e.fields then EncodeValue(e.fields[name])
    else Null
  }

  /** The rows of the events, one after the other. */
  function Layout(names: seq<string>, events: seq<Event>): seq<Json> {
    if events == [] then [] else LayoutRow(names, events[0]) + Layout(names, events[1..])
  }

  /** Every field with a value has a column. */
  ghost predicate Covers(names: seq<string>, e: Event) {
    forall n :: n in e.fields ==> n in names
  }

  lemma {:induction false} NamedOfLayout(names: seq<string>, e: Event, k: nat)
    requires k <= |names|
    ensures forall n :: n in Named(names, LayoutRow(names, e)[..k]) <==> n in names[..k]
    ensures forall n :: n in names[..k] ==> Named(names, LayoutRow(names, e)[..k])[n] == LayoutCell(n, e)
  {
    var row := LayoutRow(names, e);
    if k > 0 {
      NamedOfLayout(names, e, k - 1);
      assert row[..k][..k - 1] == row[..k - 1];
      assert names[..k] == names[..k - 1] + [names[k - 1]];
    }
  }

  /** A row laid out from an event reads back as the event's canonical part when the columns
      cover the event, and otherwise as something else or nothing. */
  lemma RowRoundTrip(c: Coding, names: seq<string>, e: Event)
    requires WellFormedTable(c.table) && WellTyped(c.table, e)
    ensures Covers(names, e) ==> DecodeRow(c, e.kind, names, LayoutRow(names, e)) == [Canonicalize(e)]
    ensures DecodeRow(c, e.kind, names, LayoutRow(names, e)) == [e] <==> Covers(names, e) && Canonical(e)
  {
    var row := LayoutRow(names, e);
    var members := RowMembers(e.kind, names, row);
    assert WellFormedVariant(c.table[e.kind]);
    NamedOfLayout(names, e, |names|);
    assert row[..|names|] == row && names[..|names|] == names;
    if Covers(names, e) {
      DecodeFaithfulMembers(c.parse, c.table, e, members);
      CanonicalizeIsIdentity(e);
    } else {
      var n :| n in e.fields && n !in names;
      assert n !in members;
      match DecodeEvent(c.parse, c.table, Object(members)) {
        case Some(d) => assert n !in d.fields;
        case None =>
      }
    }
  }

  lemma DecodeRowIsShort(c: Coding, kind: string, names: seq<string>, row: seq<Json>)
    requires |row| <= |names|
    ensures |DecodeRow(c, kind, names, row)| <= 1
  {
  }

  lemma {:induction false} LayoutRoundTrip(c: Coding, kind: string, names: seq<string>, events: seq<Event>)
    requires WellFormedTable(c.table) && names != []
    requires forall i :: 0 <= i < |events| ==> WellTyped(c.table, events[i]) && events[i].kind == kind
    ensures |DecodeRows(c, kind, names, Layout(names, events))| <= |events|
    ensures DecodeRows(c, kind, names, Layout(names, events)) == events <==>
            forall i :: 0 <= i < |events| ==> Covers(names, events[i]) && Canonical(events[i])
  {
    hide DecodeRow, DecodeEvent, WellFormedTable, WellTyped, Covers, Canonical, LayoutRow;
    if events != [] {
      var e, rest := events[0], events[1..];
      var row := LayoutRow(names, e);
      var layout := Layout(names, events);
      assert layout[..|names|] == row && layout[|names|..] == Layout(names, rest);
      RowRoundTrip(c, names, e);
      LayoutRoundTrip(c, kind, names, rest);
      DecodeRowIsShort(c, kind, names, row);
      var first := DecodeRow(c, kind, names, row);
      var others := DecodeRows(c, kind, names, Layout(names, rest));
      assert events == [e] + rest;
      if first + others == events {
        assert |first| == 1;
        assert first == (first + others)[..1] && others == (first + others)[1..];
      }
      assert first + others == events <==> first == [e] && others == rest;
      assert forall i :: 0 < i < |events| ==> events[i] == rest[i - 1];
    }
  }

  /** Events of one type, to be sent as one batch. */
  datatype Group = Group(kind: string, events: seq<Event>)

  /** Every type has columns, and every event belongs to its group. */
  ghost predicate ProperGroups(c: Coding, fields: FieldMap, groups: seq<Group>) {
    forall k :: 0 <= k < |groups| ==> ProperGroup(c, fields, groups[k])
  }

  ghost predicate ProperGroup(c: Coding, fields: FieldMap, g: Group) {
    && g.kind in fields && fields[g.kind] != []
    && forall i :: 0 <= i < |g.events| ==> WellTyped(c.table, g.events[i]) && g.events[i].kind == g.kind
  }

  /** The columns cover the events, and nothing in them turns into null. */
  ghost predicate Transmissible(fields: FieldMap, g: Group)
    requires g.kind in fields
  {
    forall i :: 0 <= i < |g.events| ==> Covers(fields[g.kind], g.events[i]) && Canonical(g.events[i])
  }

  ghost function LayoutGroups(c: Coding, fields: FieldMap, groups: seq<Group>): seq<Batch>
    requires ProperGroups(c, fields, groups)
  {
    if groups == [] then []
    else
      var g := groups[0];
      [Batch(g.kind, Layout(fields[g.kind], g.events))] + LayoutGroups(c, fields, groups[1..])
  }

  function EventsOf(groups: seq<Group>): seq<Event> {
    if groups == [] then [] else groups[0].events + EventsOf(groups[1..])
  }

  lemma {:induction false} LayoutIsDivisible(c: Coding, fields: FieldMap, groups: seq<Group>)
    requires ProperGroups(c, fields, groups)
    ensures Divisible(fields, LayoutGroups(c, fields, groups))
    ensures |LayoutGroups(c, fields, groups)| == |groups|
  {
    if groups != [] {
      LayoutIsDivisible(c, fields, groups[1..]);
    }
  }

  lemma {:induction false} GroupsRoundTrip(c: Coding, fields: FieldMap, groups: seq<Group>)
    requires WellFormedTable(c.table) && ProperGroups(c, fields, groups)
    requires Divisible(fields, LayoutGroups(c, fields, groups))
    ensures |DecodeBatches(c, fields, LayoutGroups(c, fields, groups))| <= |EventsOf(groups)|
    ensures DecodeBatches(c, fields, LayoutGroups(c, fields, groups)) == EventsOf(groups) <==>
            forall k :: 0 <= k < |groups| ==> groups[k].kind in fields && Transmissible(fields, groups[k])
  {
    if groups != [] {
      var g, rest := groups[0], groups[1..];
      assert ProperGroup(c, fields, g);
      LayoutIsDivisible(c, fields, rest);
      GroupsRoundTrip(c, fields, rest);
      LayoutRoundTrip(c, g.kind, fields[g.kind], g.events);
      hide DecodeRows, WellFormedTable, Transmissible, Layout, ProperGroup;
      var layout := LayoutGroups(c, fields, groups);
      assert layout[1..] == LayoutGroups(c, fields, rest);
      var first := DecodeRows(c, g.kind, fields[g.kind], Layout(fields[g.kind], g.events));
      var others := DecodeBatches(c, fields, LayoutGroups(c, fields, rest));
      assert DecodeBatches(c, fields, layout) == first + others;
      EqualConcat(first, others, g.events, EventsOf(rest));
      assert first == g.events <==> Transmissible(fields, g) by {
        TransmissibleMeans(fields, g);
      }
      assert forall k :: 0 < k < |groups| ==> groups[k] == rest[k - 1];
      assert groups == [g] + rest;
    }
  }

  lemma TransmissibleMeans(fields: FieldMap, g: Group)
    requires g.kind in fields
    ensures Transmissible(fields, g) <==>
            forall i :: 0 <= i < |g.events| ==> Covers(fields[g.kind], g.events[i]) && Canonical(g.events[i])
  {
  }

  lemma EqualConcat<T>(a: seq<T>, b: seq<T>, c: seq<T>, d: seq<T>)
    requires |a| <= |c| && |b| <= |d|
    ensures a + b == c + d <==> a == c && b == d
  {
    if a + b == c + d {
      assert |a + b| == |c + d|;
      assert a == (a + b)[..|a|] && c == (c + d)[..|c|];
      assert b == (a + b)[|a|..] && d == (c + d)[|c|..];
    }
  }

  lemma {:induction false} EventsOfProperGroups(c: Coding, fields: FieldMap, groups: seq<Group>)
    requires ProperGroups(c, fields, groups)
    ensures WellTypedData(c.table, Full(EventsOf(groups)))
    ensures (forall k :: 0 <= k < |groups| ==> groups[k].kind in fields && Transmissible(fields, groups[k])) ==>
              forall i :: 0 <= i < |EventsOf(groups)| ==> Canonical(EventsOf(groups)[i])
  {
    hide WellTyped, Canonical, Covers;
    if groups != [] {
      var g, rest := groups[0], groups[1..];
      EventsOfProperGroups(c, fields, rest);
      assert ProperGroup(c, fields, g);
      assert forall k :: 0 <= k < |rest| ==> rest[k] == groups[k + 1];
    }
  }

  /** What a client is told does not depend on the format the server chose. Sent over the wire as
      compact data, under any columns, the events come out as the original list exactly when the
      columns cover them and nothing in them turns into null; sent as full data they then come out
      as the same list. */
  lemma CompactAgreesWithFull(c: Coding, fields: FieldMap, groups: seq<Group>)
    requires WellFormedTable(c.table) && ProperGroups(c, fields, groups) && groups != []
    ensures var compact := Compact(LayoutGroups(c, fields, groups));
            && Unwire(c.parse, c.table, Wire(c.table, compact)) == Ok(compact)
            && Divisible(fields, compact.batches)
            && (DecodeData(c, fields, compact) == EventsOf(groups) <==>
                forall k :: 0 <= k < |groups| ==> groups[k].kind in fields && Transmissible(fields, groups[k]))
    ensures var full := Full(EventsOf(groups));
            && WellTypedData(c.table, full)
            && DecodeData(c, fields, full) == EventsOf(groups)
            && ((forall k :: 0 <= k < |groups| ==> groups[k].kind in fields && Transmissible(fields, groups[k])) ==>
                Unwire(c.parse, c.table, Wire(c.table, full)) == Ok(full))
  {
    hide WellFormedTable, WellTyped, Canonical, Transmissible, DecodeEvent, EncodeEvent, ProperGroups, LayoutGroups;
    LayoutIsDivisible(c, fields, groups);
    GroupsRoundTrip(c, fields, groups);
    WireRoundTrip(c.parse, c.table, Compact(LayoutGroups(c, fields, groups)));
    EventsOfProperGroups(c, fields, groups);
    WireRoundTrip(c.parse, c.table, Full(EventsOf(groups)));
  }

  // ---------- More configuration never takes events away ----------

  ghost predicate Extends(small: FieldMap, large: FieldMap) {
    forall k :: k in small ==> k in large && large[k] == small[k]
  }

  /** a is b with some elements left out. */
  predicate Subsequence<T(==)>(a: seq<T>, b: seq<T>) {
    if a == [] then true
    else if b == [] then false
    else (a[0] == b[0] && Subsequence(a[1..], b[1..])) || Subsequence(a, b[1..])
  }

  lemma {:induction false} SubsequencePrepend<T>(head: seq<T>, a: seq<T>, b: seq<T>)
    requires Subsequence(a, b)
    ensures Subsequence(head + a, head + b)
    ensures Subsequence(a, head + b)
  {
    if head == [] {
      assert head + a == a && head + b == b;
    } else {
      SubsequencePrepend(head[1..], a, b);
      assert (head + a)[1..] == head[1..] + a;
      assert (head + b)[1..] == head[1..] + b;
    }
  }

  /** The events decoded under fewer configured types are those decoded under more, with some left
      out and none reordered. */
  lemma {:induction false} DecodingIsMonotone(c: Coding, small: FieldMap, large: FieldMap, batches: seq<Batch>)
    requires Extends(small, large) && Divisible(large, batches) && Divisible(small, batches)
    ensures Subsequence(DecodeBatches(c, small, batches), DecodeBatches(c, large, batches))
  {
    hide DecodeRows;
    if batches != [] {
      var b, rest := batches[0], batches[1..];
      DecodingIsMonotone(c, small, large, rest);
      SubsequencePrepend(DecodeBatch(c, large, b), DecodeBatches(c, small, rest), DecodeBatches(c, large, rest));
      if b.kind !in small {
        assert DecodeBatches(c, small, batches) == DecodeBatches(c, small, rest);
      }
    }
  }

  /** Configuration for types that do not occur in the data changes nothing. */
  lemma {:induction false} UnseenTypesDoNotMatter(c: Coding, small: FieldMap, large: FieldMap, batches: seq<Batch>)
    requires Extends(small, large) && Divisible(large, batches) && Divisible(small, batches)
    requires forall k :: 0 <= k < |batches| && batches[k].kind in large ==> batches[k].kind in small
    ensures DecodeBatches(c, small, batches) == DecodeBatches(c, large, batches)
  {
    hide DecodeRows;
    if batches != [] {
      var rest := batches[1..];
      forall k | 0 <= k < |rest| && rest[k].kind in large ensures rest[k].kind in small {
        assert rest[k] == batches[k + 1];
      }
      UnseenTypesDoNotMatter(c, small, large, rest);
      var b := batches[0];
      assert b.kind in large ==> b.kind in small;
    }
  }

  // ---------- Rows and batches, without the decoder ----------

  lemma {:induction false} NamedAt(names: seq<string>, row: seq<Json>, k: nat)
    requires k < |row| <= |names|
    requires forall i :: k < i < |row| ==> names[i] != names[k]
    ensures names[k] in Named(names, row) && Named(names, row)[names[k]] == row[k]
    decreases |row|
  {
    var last := |row| - 1;
    if k < last {
      NamedAt(names, row[..last], k);
    }
  }

  lemma {:induction false} NamedOnly(names: seq<string>, row: seq<Json>)
    requires |row| <= |names|
    ensures forall n :: n in Named(names, row) <==> n in names[..|row|]
    decreases |row|
  {
    if row != [] {
      var last := |row| - 1;
      NamedOnly(names, row[..last]);
      assert names[..|row|] == names[..last] + [names[last]];
    }
  }

  /** The object made of a row: its type is the batch's, whatever the row says; each name has the value
      of its last column; and there is nothing else. */
  lemma RowMeans(kind: string, names: seq<string>, row: seq<Json>)
    requires |row| <= |names|
    ensures var members := RowMembers(kind, names, row);
            && "eventType" in members && members["eventType"] == Str(kind)
            && (forall n :: n in members <==> n == "eventType" || n in names[..|row|])
            && (forall k :: 0 <= k < |row| && names[k] != "eventType"
                            && (forall i :: k < i < |row| ==> names[i] != names[k]) ==>
                  members[names[k]] == row[k])
  {
    NamedOnly(names, row);
    forall k | 0 <= k < |row| && (forall i :: k < i < |row| ==> names[i] != names[k])
      ensures names[k] in Named(names, row) && Named(names, row)[names[k]] == row[k]
    {
      NamedAt(names, row, k);
    }
  }

  /** Every event of a batch has the batch's type, and there is at most one for each complete row. */
  lemma {:induction false} EventsOfBatch(c: Coding, kind: string, names: seq<string>, values: seq<Json>)
    requires names != []
    ensures forall e :: e in DecodeRows(c, kind, names, values) ==> e.kind == kind
    ensures |DecodeRows(c, kind, names, values)| * |names| <= |values|
    decreases |values|
  {
    hide DecodeRow;
    if |values| >= |names| {
      var rest := DecodeRows(c, kind, names, values[|names|..]);
      var first := DecodeRow(c, kind, names, values[..|names|]);
      EventsOfBatch(c, kind, names, values[|names|..]);
      RowEventHasItsType(c, kind, names, values[..|names|]);
      OneMoreEvent(|first|, |rest|, |names|);
    }
  }

  lemma OneMoreEvent(first: nat, rest: nat, n: nat)
    requires first <= 1
    ensures (first + rest) * n <= n + rest * n
  {
  }

  lemma RowEventHasItsType(c: Coding, kind: string, names: seq<string>, row: seq<Json>)
    requires |row| <= |names|
    ensures |DecodeRow(c, kind, names, row)| <= 1
    ensures forall e :: e in DecodeRow(c, kind, names, row) ==> e.kind == kind
  {
  }

  /** Batches of types without columns contribute nothing. */
  lemma {:induction false} UnconfiguredYieldNothing(c: Coding, fields: FieldMap, batches: seq<Batch>)
    requires Divisible(fields, batches)
    requires forall k :: 0 <= k < |batches| ==> batches[k].kind !in fields
    ensures DecodeBatches(c, fields, batches) == []
  {
    if batches != [] {
      UnconfiguredYieldNothing(c, fields, batches[1..]);
    }
  }
}
