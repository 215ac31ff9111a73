/**
  The wire form of FEED_DATA: full data is an array of event objects, compact data is a flat array
  alternating event types and value arrays.
 */
module FeedCodec {
  import opened FeedEvents
  import opened JsonModel
  import opened Wrappers

  /** One entry of compact data: an event type and a run of values, several rows long. */
  datatype Batch = Batch(kind: string, values: seq<Json>)

  datatype FeedData = Full(events: seq<Event>) | Compact(batches: seq<Batch>)

  datatype CodecError = ExpectedArray | NeitherFullNorCompact

  // ---------- Writing ----------

  /** What the Rust types enforce: full data holds well-typed events. */
  ghost predicate WellTypedData(table: EventTable, data: FeedData) {
    data.Full? ==> forall i :: 0 <= i < |data.events| ==> WellTyped(table, data.events[i])
  }

  function Alternate(batches: seq<Batch>): seq<Json> {
    if batches == [] then []
    else [Str(batches[0].kind), Array(batches[0].values)] + Alternate(batches[1..])
  }

  lemma AlternateAppend(batches: seq<Batch>, b: Batch)
    ensures Alternate(batches + [b]) == Alternate(batches) + [Str(b.kind), Array(b.values)]
  {
    if batches != [] {
      assert (batches + [b])[1..] == batches[1..] + [b];
    }
  }

  ghost function Wire(table: EventTable, data: FeedData): Json
    requires WellTypedData(table, data)
  {
    match data
    case Full(events) => Array(seq(|events|, i requires 0 <= i < |events| => EncodeEvent(table, events[i])))
    case Compact(batches) => Array(Alternate(batches))
  }

  method Serialize(table: EventTable, data: FeedData) returns (j: Json)
    requires WellTypedData(table, data)
    ensures j == Wire(table, data)
  {
    match data
    case Full(events) =>
      j := Array(seq(|events|, i requires 0 <= i < |events| => EncodeEvent(table, events[i])));
    case Compact(batches) =>
      var flat := [];
      for k := 0 to |batches|
        invariant flat == Alternate(batches[..k])
      {
        AlternateAppend(batches[..k], batches[k]);
        assert batches[..k + 1] == batches[..k] + [batches[k]];
        flat := flat + [Str(batches[k].kind)];
        flat := flat + [Array(batches[k].values)];
      }
      assert batches[..|batches|] == batches;
      j := Array(flat);
  }

  // ---------- Reading ----------

  /** A string directly followed by an array. */
  predicate PairAt(a: seq<Json>, i: nat) {
    i + 1 < |a| && a[i].Str? && a[i + 1].Array?
  }

  function BatchOf(a: seq<Json>, i: nat): Batch
    requires PairAt(a, i)
  {
    Batch(a[i].s, a[i + 1].items)
  }

  /** The pairs found by looking at every adjacent position, one after the other. */
  function Pairs(a: seq<Json>): seq<Batch> {
    if a == [] then []
    else if PairAt(a, 0) then [BatchOf(a, 0)] + Pairs(a[1..])
    else Pairs(a[1..])
  }

  lemma NoPairFromArray(a: seq<Json>)
    requires a != [] && a[0].Array?
    ensures Pairs(a) == Pairs(a[1..])
  {
  }

  /** The scan of the deserializer. It steps over both elements of a pair and one element
      otherwise, and still finds every pair: the second element of a pair starts none. */
  method ScanPairs(a: seq<Json>) returns (batches: seq<Batch>)
    requires |a| >= 2
    ensures batches == Pairs(a)
  {
    batches := [];
    var i := 0;
    while i < |a| - 1
      invariant 0 <= i <= |a|
      invariant Pairs(a) == batches + Pairs(a[i..])
    {
      if a[i].Str? && a[i + 1].Array? {
        var b := Batch(a[i].s, a[i + 1].items);
        NoPairFromArray(a[i + 1..]);
        assert Pairs(a[i..]) == [b] + Pairs(a[i + 2..]) by {
          assert PairAt(a[i..], 0) && a[i..][1..] == a[i + 1..] && a[i + 1..][1..] == a[i + 2..];
        }
        batches := batches + [b];
        i := i + 2;
      } else {
        assert Pairs(a[i..]) == Pairs(a[i + 1..]) by {
          assert !PairAt(a[i..], 0) && a[i..][1..] == a[i + 1..];
        }
        i := i + 1;
      }
    }
    assert Pairs(a[i..]) == [];
  }

  /** Compact data starts with a pair. */
  predicate LooksCompact(a: seq<Json>) {
    PairAt(a, 0)
  }

  /** One element that is not an event fails the whole array. */
  function DecodeEvents(parse: FloatParser, table: EventTable, a: seq<Json>): Option<seq<Event>> {
    if a == [] then Some([])
    else match DecodeEvent(parse, table, a[0])
      case None => None
      case Some(e) =>
        match DecodeEvents(parse, table, a[1..])
        case None => None
        case Some(rest) => Some([e] + rest)
  }

  function Unwire(parse: FloatParser, table: EventTable, j: Json): Result<FeedData, CodecError> {
    if !j.Array? then Err(ExpectedArray)
    else if LooksCompact(j.items) then Ok(Compact(Pairs(j.items)))
    else match DecodeEvents(parse, table, j.items)
      case Some(events) => Ok(Full(events))
      case None => Err(NeitherFullNorCompact)
  }

  method Deserialize(parse: FloatParser, table: EventTable, j: Json) returns (r: Result<FeedData, CodecError>)
    ensures r == Unwire(parse, table, j)
  {
    if !j.Array? {
      return Err(ExpectedArray);
    }
    var a := j.items;
    if a == [] {
      return Ok(Full([]));
    }
    if |a| >= 2 && a[0].Str? && a[1].Array? {
      var batches := ScanPairs(a);
      return Ok(Compact(batches));
    }
    match DecodeEvents(parse, table, a) {
      case Some(events) => return Ok(Full(events));
      case None => return Err(NeitherFullNorCompact);
    }
  }

  // ---------- The scan ----------

  /** The positions from i on at which a pair starts. */
  function PairStartsFrom(a: seq<Json>, i: nat): seq<nat>
    decreases |a| - i
  {
    if i >= |a| then []
    else if PairAt(a, i) then [i] + PairStartsFrom(a, i + 1)
    else PairStartsFrom(a, i + 1)
  }

  lemma {:induction false} StartsAreThePairs(a: seq<Json>, i: nat)
    ensures forall p :: p in PairStartsFrom(a, i) <==> i <= p && PairAt(a, p)
    ensures forall k :: 0 <= k < |PairStartsFrom(a, i)| ==> PairAt(a, PairStartsFrom(a, i)[k])
    ensures forall k, l :: 0 <= k < l < |PairStartsFrom(a, i)| ==>
              PairStartsFrom(a, i)[k] < PairStartsFrom(a, i)[l]
    decreases |a| - i
  {
    if i < |a| {
      StartsAreThePairs(a, i + 1);
      var rest := PairStartsFrom(a, i + 1);
      forall k | 0 <= k < |rest| ensures i + 1 <= rest[k] {
        assert rest[k] in rest;
      }
    }
  }

  /** What a scan reports that sees exactly these pairs. */
  function BatchesAt(a: seq<Json>, starts: seq<nat>): seq<Batch>
    requires forall k :: 0 <= k < |starts| ==> PairAt(a, starts[k])
  {
    seq(|starts|, k requires 0 <= k < |starts| && PairAt(a, starts[k]) => BatchOf(a, starts[k]))
  }

  lemma {:induction false} PairsFollowTheStarts(a: seq<Json>, i: nat)
    requires i <= |a|
    requires forall k :: 0 <= k < |PairStartsFrom(a, i)| ==> PairAt(a, PairStartsFrom(a, i)[k])
    ensures Pairs(a[i..]) == BatchesAt(a, PairStartsFrom(a, i))
    decreases |a| - i
  {
    if i < |a| {
      assert a[i..][1..] == a[i + 1..];
      assert PairAt(a[i..], 0) <==> PairAt(a, i);
      StartsAreThePairs(a, i + 1);
      PairsFollowTheStarts(a, i + 1);
      var rest := PairStartsFrom(a, i + 1);
      if PairAt(a, i) {
        assert BatchOf(a[i..], 0) == BatchOf(a, i);
        assert BatchesAt(a, [i] + rest) == [BatchOf(a, i)] + BatchesAt(a, rest);
      }
    }
  }

  /** The scan reports one batch for each position at which a pair starts and for no other, in
      the order of the positions. */
  lemma PairsAreAtTheStarts(a: seq<Json>)
    ensures var starts := PairStartsFrom(a, 0);
            && (forall p :: p in starts <==> 0 <= p && PairAt(a, p))
            && (forall k, l :: 0 <= k < l < |starts| ==> starts[k] < starts[l])
            && (forall k :: 0 <= k < |starts| ==> PairAt(a, starts[k]))
            && Pairs(a) == BatchesAt(a, starts)
  {
    StartsAreThePairs(a, 0);
    PairsFollowTheStarts(a, 0);
    assert a[0..] == a;
  }

  /** Whether a pair starts at the end of a and ends at the start of b. */
  predicate PairAcross(a: seq<Json>, b: seq<Json>) {
    a != [] && b != [] && a[|a| - 1].Str? && b[0].Array?
  }

  lemma {:induction false} PairsOfConcat(a: seq<Json>, b: seq<Json>)
    requires !PairAcross(a, b)
    ensures Pairs(a + b) == Pairs(a) + Pairs(b)
  {
    if a == [] {
      assert a + b == b;
    } else {
      PairsOfConcat(a[1..], b);
      assert (a + b)[1..] == a[1..] + b;
      assert PairAt(a + b, 0) <==> PairAt(a, 0);
    }
  }

  /** A junk element placed where it neither splits a pair nor completes one changes nothing. */
  lemma JunkIsSkipped(a: seq<Json>, x: Json, b: seq<Json>)
    requires !PairAcross(a, b) && !PairAcross(a, [x]) && !PairAcross([x], b)
    ensures Pairs(a + [x] + b) == Pairs(a + b)
  {
    assert Pairs([x]) == [];
    PairsOfConcat(a, [x]);
    PairsOfConcat(a + [x], b);
    PairsOfConcat(a, b);
  }

  /** Scanning alternating data gives back the batches it was made of. */
  lemma {:induction false} ScanOfAlternate(batches: seq<Batch>)
    ensures Pairs(Alternate(batches)) == batches
  {
    if batches != [] {
      var head := [Str(batches[0].kind), Array(batches[0].values)];
      var rest := Alternate(batches[1..]);
      ScanOfAlternate(batches[1..]);
      PairsOfConcat(head, rest);
      assert head[1..] == [head[1]] && Pairs([head[1]]) == [];
      assert Pairs(head) == [batches[0]];
    }
  }

  // ---------- Round trips ----------

  function CanonicalizeAll(events: seq<Event>): (r: seq<Event>)
    ensures |r| == |events|
    ensures forall i :: 0 <= i < |r| ==> r[i] == Canonicalize(events[i])
  {
    seq(|events|, i requires 0 <= i < |events| => Canonicalize(events[i]))
  }

  lemma {:induction false} DecodeEventsElementwise(parse: FloatParser, table: EventTable,
                                                      a: seq<Json>, events: seq<Event>)
    requires |a| == |events|
    requires forall i :: 0 <= i < |a| ==> DecodeEvent(parse, table, a[i]) == Some(events[i])
    ensures DecodeEvents(parse, table, a) == Some(events)
  {
    if a != [] {
      DecodeEventsElementwise(parse, table, a[1..], events[1..]);
      assert events == [events[0]] + events[1..];
    }
  }

  /** What any data reads back as. Full stays full and compact stays compact, except that compact
      data without batches reads back as full data without events. */
  lemma WireMeaning(parse: FloatParser, table: EventTable, data: FeedData)
    requires WellFormedTable(table) && WellTypedData(table, data)
    ensures Unwire(parse, table, Wire(table, data)) ==
            match data
            case Full(events) => Ok(Full(CanonicalizeAll(events)))
            case Compact(batches) => if batches == [] then Ok(Full([])) else Ok(Compact(batches))
  {
    match data
    case Full(events) =>
      var a := Wire(table, data).items;
      forall i | 0 <= i < |events|
        ensures DecodeEvent(parse, table, a[i]) == Some(CanonicalizeAll(events)[i])
      {
        EventRoundTrip(parse, table, events[i]);
      }
      DecodeEventsElementwise(parse, table, a, CanonicalizeAll(events));
      assert !LooksCompact(a);
    case Compact(batches) =>
      ScanOfAlternate(batches);
      if batches != [] {
        assert Alternate(batches)[..2] == [Str(batches[0].kind), Array(batches[0].values)];
        assert PairAt(Alternate(batches), 0);
      }
  }

  /** Data survives the wire exactly when it is compact and not empty, or full with every double
      canonical and no configuration set to null. */
  lemma WireRoundTrip(parse: FloatParser, table: EventTable, data: FeedData)
    requires WellFormedTable(table) && WellTypedData(table, data)
    ensures Unwire(parse, table, Wire(table, data)) == Ok(data) <==>
            match data
            case Full(events) => forall i :: 0 <= i < |events| ==> Canonical(events[i])
            case Compact(batches) => batches != []
  {
    WireMeaning(parse, table, data);
    if data.Full? {
      var events := data.events;
      forall i | 0 <= i < |events|
        ensures CanonicalizeAll(events)[i] == events[i] <==> Canonical(events[i])
      {
        CanonicalizeIsIdentity(events[i]);
      }
      if forall i :: 0 <= i < |events| ==> Canonical(events[i]) {
        assert CanonicalizeAll(events) == events;
      }
    }
  }

  lemma {:induction false} DecodedEventsAreCanonical(parse: FloatParser, table: EventTable, a: seq<Json>)
    requires WellFormedTable(table)
    requires DecodeEvents(parse, table, a).Some?
    ensures var events := DecodeEvents(parse, table, a).value;
            forall i :: 0 <= i < |events| ==> WellTyped(table, events[i]) && Canonical(events[i])
  {
    if a != [] {
      DecodedEventIsCanonical(parse, table, a[0]);
      DecodedEventsAreCanonical(parse, table, a[1..]);
    }
  }

  /** Any document that is read at all can be written again and read back to the same data. */
  lemma ReadingIsStable(parse: FloatParser, table: EventTable, j: Json)
    requires WellFormedTable(table)
    requires Unwire(parse, table, j).Ok?
    ensures var data := Unwire(parse, table, j).value;
            && WellTypedData(table, data)
            && Unwire(parse, table, Wire(table, data)) == Ok(data)
  {
    var data := Unwire(parse, table, j).value;
    if data.Full? {
      DecodedEventsAreCanonical(parse, table, j.items);
    } else {
      assert PairAt(j.items, 0);
    }
    WireRoundTrip(parse, table, data);
  }

  // ---------- The wire form and its reading, without the coding ----------

  /** Compact data lies on the wire as its types at the even and its values at the odd positions. */
  lemma {:induction false} CompactOnTheWire(table: EventTable, batches: seq<Batch>)
    ensures var j := Wire(table, Compact(batches));
            && j.Array? && |j.items| == 2 * |batches|
            && forall k :: 0 <= k < |batches| ==>
                 j.items[2 * k] == Str(batches[k].kind) && j.items[2 * k + 1] == Array(batches[k].values)
  {
    if batches != [] {
      CompactOnTheWire(table, batches[1..]);
      var items, rest := Alternate(batches), Alternate(batches[1..]);
      assert items == [Str(batches[0].kind), Array(batches[0].values)] + rest;
      forall k | 0 <= k < |batches|
        ensures items[2 * k] == Str(batches[k].kind) && items[2 * k + 1] == Array(batches[k].values)
      {
        if k > 0 {
          assert items[2 * k] == rest[2 * (k - 1)] && items[2 * k + 1] == rest[2 * (k - 1) + 1];
        }
      }
    }
  }

  /** Full data lies on the wire as one object for each event, in order. */
  lemma FullOnTheWire(table: EventTable, events: seq<Event>)
    requires WellTypedData(table, Full(events)) && WellFormedTable(table)
    ensures var j := Wire(table, Full(events));
            && j.Array? && |j.items| == |events|
            && forall k :: 0 <= k < |events| ==> j.items[k] == EncodeEvent(table, events[k])
  {
  }

  lemma {:induction false} EventsDecodedIff(parse: FloatParser, table: EventTable, a: seq<Json>)
    ensures DecodeEvents(parse, table, a).Some? <==>
            forall k :: 0 <= k < |a| ==> DecodeEvent(parse, table, a[k]).Some?
    ensures DecodeEvents(parse, table, a).Some? ==>
              var events := DecodeEvents(parse, table, a).value;
              |events| == |a| && forall k :: 0 <= k < |a| ==> DecodeEvent(parse, table, a[k]) == Some(events[k])
  {
    hide DecodeEvent;
    if a != [] {
      EventsDecodedIff(parse, table, a[1..]);
      assert forall k :: 0 < k < |a| ==> a[k] == a[1..][k - 1];
      if forall k :: 0 <= k < |a| ==> DecodeEvent(parse, table, a[k]).Some? {
        forall k | 0 <= k < |a[1..]| ensures DecodeEvent(parse, table, a[1..][k]).Some? {
          assert a[1..][k] == a[k + 1];
        }
      }
    }
  }

  /** What is not an array is refused. An array that begins with a string and an array is compact. Any
      other is full data if every element is an event, and then has exactly these events; one element
      that is not an event makes it neither. */
  lemma ReadingMeans(parse: FloatParser, table: EventTable, j: Json)
    ensures !j.Array? ==> Unwire(parse, table, j) == Err(ExpectedArray)
    ensures j.Array? ==>
              var compact := |j.items| >= 2 && j.items[0].Str? && j.items[1].Array?;
              var r := Unwire(parse, table, j);
              && (compact <==> r.Ok? && r.value.Compact?)
              && (!compact && (exists k :: 0 <= k < |j.items| && DecodeEvent(parse, table, j.items[k]) == None) ==>
                    r == Err(NeitherFullNorCompact))
              && (!compact && (forall k :: 0 <= k < |j.items| ==> DecodeEvent(parse, table, j.items[k]).Some?) ==>
                    && r.Ok? && |r.value.events| == |j.items|
                    && forall k :: 0 <= k < |j.items| ==>
                         DecodeEvent(parse, table, j.items[k]) == Some(r.value.events[k]))
  {
    hide DecodeEvent;
    if j.Array? {
      EventsDecodedIff(parse, table, j.items);
    }
  }
}
