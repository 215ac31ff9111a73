/**
  Feed events and their JSON form: an object tagged with "eventType" whose other members follow
  the field table of the event's type.

  The coding is generic in that table. The table of the seventeen event types the client knows is
  DxEvents.DxTable.
 */
module FeedEvents {
  import opened Floats
  import opened JsonModel
  import opened Wrappers

  datatype FieldType = TString | TU64 | TDouble | TBool | TJson

  datatype FieldValue =
    | VString(s: string)
    | VU64(n: u64)
    | VDouble(d: JsonDouble)
    | VBool(b: bool)
    | VJson(j: Json)

  /** The fields of one event type. `omitNone` says that a field without a value is left out of
      the JSON object; otherwise it is written as null. */
  datatype Variant = Variant(required: set<string>, types: map<string, FieldType>, omitNone: bool)

  type EventTable = map<string, Variant>

  /** An event: its type, and the fields that have a value. */
  datatype Event = Event(kind: string, fields: map<string, FieldValue>)

  const TAG := "eventType"

  /** Every type has a required field, required fields are strings, and none is the tag. */
  ghost predicate WellFormedVariant(v: Variant) {
    && v.required != {}
    && v.required <= v.types.Keys
    && TAG !in v.types
    && forall n :: n in v.required ==> v.types[n] == TString
  }

  ghost predicate WellFormedTable(table: EventTable) {
    forall k :: k in table ==> WellFormedVariant(table[k])
  }

  function TypeOf(v: FieldValue): FieldType {
    match v
    case VString(_) => TString
    case VU64(_) => TU64
    case VDouble(_) => TDouble
    case VBool(_) => TBool
    case VJson(_) => TJson
  }

  /** What the event structs enforce by their field types. */
  ghost predicate WellTyped(table: EventTable, e: Event) {
    && e.kind in table
    && table[e.kind].required <= e.fields.Keys <= table[e.kind].types.Keys
    && forall n :: n in e.fields ==> TypeOf(e.fields[n]) == table[e.kind].types[n]
  }

  /** Values that do not turn into null on the wire. */
  predicate CanonicalValue(v: FieldValue) {
    match v
    case VDouble(d) => CanonicalDouble(d)
    case VJson(j) => !j.Null?
    case _ => true
  }

  ghost predicate Canonical(e: Event) {
    forall n :: n in e.fields ==> CanonicalValue(e.fields[n])
  }

  /** The event without the fields that turn into null on the wire. */
  function Canonicalize(e: Event): Event {
    Event(e.kind, map n | n in e.fields && CanonicalValue(e.fields[n]) :: e.fields[n])
  }

  lemma CanonicalizeIsIdentity(e: Event)
    ensures Canonicalize(e) == e <==> Canonical(e)
  {
    if Canonicalize(e) == e {
      forall n | n in e.fields ensures CanonicalValue(e.fields[n]) {
        assert n in Canonicalize(e).fields;
      }
    }
    if Canonical(e) {
      assert Canonicalize(e).fields == e.fields;
    }
  }

  function EncodeValue(v: FieldValue): Json {
    match v
    case VString(s) => Str(s)
    case VU64(n) => Int(n)
    case VDouble(d) => EncodeDouble(d)
    case VBool(b) => Bool(b)
    case VJson(j) => j
  }

  function DecodeValue(parse: FloatParser, ty: FieldType, j: Json): Option<FieldValue> {
    match ty
    case TString => if j.Str? then Some(VString(j.s)) else None
    case TU64 => if j.Int? && 0 <= j.i then Some(VU64(j.i)) else None
    case TDouble =>
      (match DecodeDouble(parse, j)
       case Some(d) => Some(VDouble(d))
       case None => None)
    case TBool => if j.Bool? then Some(VBool(j.b)) else None
    case TJson => Some(VJson(j))
  }

  /** A value is null on the wire exactly when it is not canonical, and is otherwise read back. */
  lemma ValueRoundTrip(parse: FloatParser, v: FieldValue)
    ensures EncodeValue(v).Null? <==> !CanonicalValue(v)
    ensures CanonicalValue(v) ==> DecodeValue(parse, TypeOf(v), EncodeValue(v)) == Some(v)
  {
    if v.VDouble? {
      DoubleRoundTrip(parse, v.d);
    }
  }

  /** The JSON object of an event: the tag, then its fields. */
  function EncodeEvent(table: EventTable, e: Event): Json
    requires e.kind in table
  {
    var v := table[e.kind];
    Object((map n | n in v.types && (n in e.fields || !v.omitNone) ::
              if n in e.fields then EncodeValue(e.fields[n]) else Null)[TAG := Str(e.kind)])
  }

  /** An optional field that is absent or null has no value; a required field must be there. */
  predicate FieldPresent(v: Variant, members: map<string, Json>, n: string) {
    n in members && (n in v.required || !members[n].Null?)
  }

  predicate FieldsDecode(parse: FloatParser, v: Variant, members: map<string, Json>) {
    && v.required <= members.Keys
    && forall n :: n in v.types && FieldPresent(v, members, n) ==>
         DecodeValue(parse, v.types[n], members[n]).Some?
  }

  /** Members the type does not know are ignored. */
  function DecodeFields(parse: FloatParser, v: Variant, members: map<string, Json>): map<string, FieldValue>
    requires FieldsDecode(parse, v, members)
  {
    map n | n in v.types && FieldPresent(v, members, n) ::
      DecodeValue(parse, v.types[n], members[n]).value
  }

  function DecodeEvent(parse: FloatParser, table: EventTable, j: Json): Option<Event> {
    if !j.Object? || TAG !in j.members then None
    else if !j.members[TAG].Str? || j.members[TAG].s !in table then None
    else
      var kind := j.members[TAG].s;
      if FieldsDecode(parse, table[kind], j.members)
      then Some(Event(kind, DecodeFields(parse, table[kind], j.members)))
      else None
  }

  /** An object that carries, for every field of the type, either the coded value, or null, or
      nothing where the event has no value, decodes to the canonical part of the event. */
  lemma DecodeFaithfulMembers(parse: FloatParser, table: EventTable, e: Event, members: map<string, Json>)
    requires WellFormedTable(table) && WellTyped(table, e)
    requires TAG in members && members[TAG] == Str(e.kind)
    requires forall n :: n in e.fields ==> n in members && members[n] == EncodeValue(e.fields[n])
    requires forall n :: n in members && n in table[e.kind].types && n !in e.fields ==> members[n].Null?
    ensures DecodeEvent(parse, table, Object(members)) == Some(Canonicalize(e))
  {
    var v := table[e.kind];
    assert WellFormedVariant(v);
    forall n | n in v.types && FieldPresent(v, members, n)
      ensures n in e.fields && CanonicalValue(e.fields[n])
      ensures DecodeValue(parse, v.types[n], members[n]) == Some(e.fields[n])
    {
      ValueRoundTrip(parse, e.fields[n]);
    }
    forall n | n in e.fields && CanonicalValue(e.fields[n])
      ensures FieldPresent(v, members, n)
    {
      ValueRoundTrip(parse, e.fields[n]);
    }
    assert DecodeFields(parse, v, members) == Canonicalize(e).fields;
  }

  /** Writing an event and reading it back keeps exactly its canonical part. */
  lemma EventRoundTrip(parse: FloatParser, table: EventTable, e: Event)
    requires WellFormedTable(table) && WellTyped(table, e)
    ensures DecodeEvent(parse, table, EncodeEvent(table, e)) == Some(Canonicalize(e))
  {
    assert WellFormedVariant(table[e.kind]);
    DecodeFaithfulMembers(parse, table, e, EncodeEvent(table, e).members);
  }

  /** Whatever is read is well typed and canonical, so it survives every further trip. */
  lemma DecodedEventIsCanonical(parse: FloatParser, table: EventTable, j: Json)
    requires WellFormedTable(table)
    requires DecodeEvent(parse, table, j).Some?
    ensures var e := DecodeEvent(parse, table, j).value;
            && WellTyped(table, e) && Canonical(e)
            && DecodeEvent(parse, table, EncodeEvent(table, e)) == Some(e)
  {
    var e := DecodeEvent(parse, table, j).value;
    var v := table[e.kind];
    assert WellFormedVariant(v);
    forall n | n in e.fields
      ensures TypeOf(e.fields[n]) == v.types[n] && CanonicalValue(e.fields[n])
    {
      assert FieldPresent(v, j.members, n);
    }
    CanonicalizeIsIdentity(e);
    EventRoundTrip(parse, table, e);
  }

  /** An object holding nothing but the tag is not an event of any type. */
  lemma TagAloneDoesNotDecode(parse: FloatParser, table: EventTable, kind: string)
    requires WellFormedTable(table)
    ensures DecodeEvent(parse, table, Object(map[TAG := Str(kind)])) == None
  {
    if kind in table {
      var v := table[kind];
      assert WellFormedVariant(v);
      var n :| n in v.required;
      assert n !in map[TAG := Str(kind)];
    }
  }

  // ---------- What is read and written, without the coding ----------

  /** What a field value says of the JSON value it was read from. */
  ghost predicate ReadFrom(parse: FloatParser, v: FieldValue, j: Json) {
    match v
    case VString(s) => j == Str(s)
    case VU64(n) => j == Int(n)
    case VBool(b) => j == Bool(b)
    case VJson(x) => j == x
    case VDouble(d) =>
      (match j
       case Float(r) => ToF64(d) == Finite(r)
       case Int(i) => ToF64(d) == Finite(i as real)
       case Bool(b) => ToF64(d) == Finite(if b then 1.0 else 0.0)
       case Str(s) =>
         if s == "NaN" then ToF64(d) == NotANumber
         else if s == "Infinity" then ToF64(d) == PosInf
         else if s == "-Infinity" then ToF64(d) == NegInf
         else parse(s) == Some(ToF64(d))
       case Object(members) => members == map[] && ToF64(d) == NotANumber
       case _ => false)
  }

  /** What a field of each type can be read from. */
  predicate Readable(parse: FloatParser, ty: FieldType, j: Json) {
    match ty
    case TString => j.Str?
    case TU64 => j.Int? && j.i >= 0
    case TBool => j.Bool?
    case TJson => true
    case TDouble =>
      || j.Float? || j.Int? || j.Bool? || j == Object(map[])
      || (j.Str? && (j.s in {"NaN", "Infinity", "-Infinity"} || parse(j.s).Some?))
  }

  lemma ValuesAreRead(parse: FloatParser, ty: FieldType, j: Json)
    requires !j.Null?
    ensures DecodeValue(parse, ty, j).Some? <==> Readable(parse, ty, j)
    ensures DecodeValue(parse, ty, j).Some? ==> ReadFrom(parse, DecodeValue(parse, ty, j).value, j)
  {
    match j
    case Str(s) => StringsKeepTheirValue(parse, s);
    case Object(members) => OthersKeepTheirValue(parse, true, [], members);
    case _ =>
  }

  /** Exactly which documents are events: objects whose "eventType" is a known type, with every
      required field there as a string, and with everything else that the type knows absent, null, or
      readable as its type. */
  lemma DecodesIff(parse: FloatParser, table: EventTable, j: Json)
    requires WellFormedTable(table)
    ensures DecodeEvent(parse, table, j).Some? <==>
            && j.Object? && "eventType" in j.members
            && j.members["eventType"].Str? && j.members["eventType"].s in table
            && var v := table[j.members["eventType"].s];
            && (forall n :: n in v.required ==> n in j.members && j.members[n].Str?)
            && (forall n :: n in v.types && n in j.members && !j.members[n].Null? ==>
                  Readable(parse, v.types[n], j.members[n]))
  {
    hide DecodeValue, Readable;
    if j.Object? && TAG in j.members && j.members[TAG].Str? && j.members[TAG].s in table {
      var v := table[j.members[TAG].s];
      assert WellFormedVariant(v);
      forall n | n in v.types && n in j.members
        ensures !j.members[n].Null? ==>
                  (DecodeValue(parse, v.types[n], j.members[n]).Some? <==> Readable(parse, v.types[n], j.members[n]))
        ensures n in v.required ==> (DecodeValue(parse, v.types[n], j.members[n]).Some? <==> j.members[n].Str?)
      {
        if !j.members[n].Null? {
          ValuesAreRead(parse, v.types[n], j.members[n]);
        }
        if n in v.required {
          StringsAreReadFromStrings(parse, j.members[n]);
        }
      }
    }
  }

  lemma StringsAreReadFromStrings(parse: FloatParser, j: Json)
    ensures DecodeValue(parse, TString, j).Some? <==> j.Str?
  {
  }

  /** What the event then is: of the tagged type, with a value for exactly those of the type's fields
      that are there and not null, each saying what its JSON value says. */
  lemma DecodedMeans(parse: FloatParser, table: EventTable, j: Json)
    requires WellFormedTable(table)
    requires DecodeEvent(parse, table, j).Some?
    ensures j.Object? && "eventType" in j.members
    ensures var e := DecodeEvent(parse, table, j).value;
            && e.kind in table && j.members["eventType"] == Str(e.kind)
            && (forall n :: n in e.fields <==>
                  n in table[e.kind].types && n in j.members && !j.members[n].Null?)
            && (forall n :: n in e.fields ==> ReadFrom(parse, e.fields[n], j.members[n]))
  {
    var e := DecodeEvent(parse, table, j).value;
    var v := table[e.kind];
    assert WellFormedVariant(v);
    hide DecodeValue, ReadFrom;
    forall n | n in v.types && FieldPresent(v, j.members, n)
      ensures !j.members[n].Null? && ReadFrom(parse, e.fields[n], j.members[n])
    {
      if n in v.required {
        StringsAreReadFromStrings(parse, j.members[n]);
      }
      ValuesAreRead(parse, v.types[n], j.members[n]);
    }
  }

  /** How a field value is written. */
  predicate WrittenAs(v: FieldValue, j: Json) {
    match v
    case VString(s) => j == Str(s)
    case VU64(n) => j == Int(n)
    case VBool(b) => j == Bool(b)
    case VJson(x) => j == x
    case VDouble(d) =>
      match ToF64(d)
      case Finite(r) => j == Float(r)
      case NotANumber => j == if d.Number? then Null else Str("NaN")
      case PosInf => j == if d.Number? then Null else Str("Infinity")
      case NegInf => j == if d.Number? then Null else Str("-Infinity")
  }

  /** The object written for an event holds its type, its values, and nothing else, but for nulls in
      place of missing values where the type does not leave them out. */
  lemma EncodedMeans(table: EventTable, e: Event)
    requires WellFormedTable(table) && WellTyped(table, e)
    ensures var j := EncodeEvent(table, e);
            && j.Object? && "eventType" in j.members && j.members["eventType"] == Str(e.kind)
            && (forall n :: n in e.fields ==> n in j.members && WrittenAs(e.fields[n], j.members[n]))
            && (forall n :: n in j.members && n != "eventType" && n !in e.fields ==>
                  n in table[e.kind].types && j.members[n].Null?)
            && (forall n :: n in table[e.kind].types && n !in e.fields ==>
                  (n in j.members <==> !table[e.kind].omitNone))
  {
    assert WellFormedVariant(table[e.kind]);
  }
}
