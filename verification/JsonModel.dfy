/**
  JSON values and the JSONDouble field type.

  JSON text is not modelled: a document is the value it parses to.
 */
module JsonModel {
  import opened Floats
  import opened Wrappers

  /** JSON integers are those that fit a signed or an unsigned 64-bit integer. */
  type JsonInt = i: int | -0x8000_0000_0000_0000 <= i < 0x1_0000_0000_0000_0000

  datatype Json =
    | Null
    | Bool(b: bool)
    | Int(i: JsonInt)
    | Float(r: real)
    | Str(s: string)
    | Array(items: seq<Json>)
    | Object(members: map<string, Json>)

  /** A double field: a number, or one of the three values that are not JSON numbers. */
  datatype JsonDouble = Number(f: F64) | NaN | Infinity | NegInfinity

  /** How a string that is none of the special names is read as a float, if it can be. */
  type FloatParser = string -> Option<F64>

  function FromF64(f: F64): JsonDouble {
    match f
    case NotANumber => NaN
    case PosInf => Infinity
    case NegInf => NegInfinity
    case Finite(_) => Number(f)
  }

  function ToF64(d: JsonDouble): F64 {
    match d
    case Number(f) => f
    case NaN => NotANumber
    case Infinity => PosInf
    case NegInfinity => NegInf
  }

  /** A double is canonical when the number constructor holds a finite number. */
  predicate CanonicalDouble(d: JsonDouble) {
    d.Number? ==> d.f.Finite?
  }

  /** A number that is not finite has no JSON number, and is written as null. */
  function EncodeDouble(d: JsonDouble): Json {
    match d
    case Number(Finite(r)) => Float(r)
    case Number(_) => Null
    case NaN => Str("NaN")
    case Infinity => Str("Infinity")
    case NegInfinity => Str("-Infinity")
  }

  function DecodeDouble(parse: FloatParser, j: Json): Option<JsonDouble> {
    match j
    case Float(r) => Some(FromF64(Finite(r)))
    case Int(i) => Some(Number(Finite(i as real)))
    case Str(s) =>
      if s == "NaN" then Some(NaN)
      else if s == "Infinity" then Some(Infinity)
      else if s == "-Infinity" then Some(NegInfinity)
      else (match parse(s)
            case Some(f) => Some(FromF64(f))
            case None => None)
    case Bool(b) => Some(Number(Finite(if b then 1.0 else 0.0)))
    case Null => Some(NaN)
    case Array(_) => None
    case Object(members) => if members == map[] then Some(NaN) else None
  }

  /** Converting a float to a double field and back loses nothing; the other way it does exactly
      when the double is not canonical. */
  lemma DoubleConversions(f: F64, d: JsonDouble)
    ensures ToF64(FromF64(f)) == f && CanonicalDouble(FromF64(f))
    ensures FromF64(ToF64(d)) == d <==> CanonicalDouble(d)
  {
  }

  /** A double survives the wire exactly when it is canonical. */
  lemma DoubleRoundTrip(parse: FloatParser, d: JsonDouble)
    ensures DecodeDouble(parse, EncodeDouble(d)) == Some(d) <==> CanonicalDouble(d)
    ensures EncodeDouble(d).Null? <==> !CanonicalDouble(d)
  {
  }

  /** A JSON number is read as its value, in whichever of its two forms it was written. */
  lemma NumbersKeepTheirValue(parse: FloatParser, i: JsonInt, r: real)
    ensures DecodeDouble(parse, Int(i)) == DecodeDouble(parse, Float(i as real))
    ensures DecodeDouble(parse, Float(r)).Some? && ToF64(DecodeDouble(parse, Float(r)).value) == Finite(r)
  {
  }

  /** The three special names are the three special values; every other string is read exactly if it
      can be read as a float, and then as that float. */
  lemma StringsKeepTheirValue(parse: FloatParser, s: string)
    ensures DecodeDouble(parse, Str("NaN")).Some? && ToF64(DecodeDouble(parse, Str("NaN")).value) == NotANumber
    ensures DecodeDouble(parse, Str("Infinity")).Some? && ToF64(DecodeDouble(parse, Str("Infinity")).value) == PosInf
    ensures DecodeDouble(parse, Str("-Infinity")).Some? && ToF64(DecodeDouble(parse, Str("-Infinity")).value) == NegInf
    ensures s !in {"NaN", "Infinity", "-Infinity"} ==>
              && (DecodeDouble(parse, Str(s)).Some? <==> parse(s).Some?)
              && (parse(s).Some? ==> ToF64(DecodeDouble(parse, Str(s)).value) == parse(s).value)
  {
  }

  /** A boolean counts as one or zero, null and an empty object as not a number; nothing else is read. */
  lemma OthersKeepTheirValue(parse: FloatParser, b: bool, items: seq<Json>, members: map<string, Json>)
    ensures DecodeDouble(parse, Bool(b)).Some?
    ensures ToF64(DecodeDouble(parse, Bool(b)).value) == Finite(if b then 1.0 else 0.0)
    ensures DecodeDouble(parse, Null).Some? && ToF64(DecodeDouble(parse, Null).value) == NotANumber
    ensures DecodeDouble(parse, Array(items)) == None
    ensures DecodeDouble(parse, Object(members)).Some? <==> members == map[]
    ensures members == map[] ==> ToF64(DecodeDouble(parse, Object(members)).value) == NotANumber
  {
  }

  /** A float is written as a number if it is finite, and otherwise by its name. */
  lemma FloatsAreWritten(f: F64)
    ensures EncodeDouble(FromF64(f)) ==
            match f
            case Finite(r) => Float(r)
            case NotANumber => Str("NaN")
            case PosInf => Str("Infinity")
            case NegInf => Str("-Infinity")
  {
  }
}
