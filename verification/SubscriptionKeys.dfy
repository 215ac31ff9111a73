/**
  The string under which the feed stores a subscription: `type#source:symbol`, or `type:symbol`
  when there is no source.
 */
module SubscriptionKeys {
  import opened Wrappers

  /** What a server tells subscriptions apart by. */
  datatype Triple = Triple(kind: string, source: Option<string>, symbol: string)

  function KeyOf(t: Triple): string {
    match t.source
    case Some(source) => t.kind + "#" + source + ":" + t.symbol
    case None => t.kind + ":" + t.symbol
  }

  /** Neither separator occurs where it would be taken for one. */
  predicate Plain(t: Triple) {
    && '#' !in t.kind && ':' !in t.kind
    && (t.source.Some? ==> ':' !in t.source.value)
  }

  /** The position of the first c, or the length if there is none. */
  function IndexOf(s: string, c: char): (i: nat)
    ensures i <= |s|
    ensures c !in s[..i]
    ensures i < |s| ==> s[i] == c
    ensures c in s ==> i < |s|
  {
    if s == "" || s[0] == c then 0
    else
      var rest := IndexOf(s[1..], c);
      assert s[..rest + 1] == [s[0]] + s[1..][..rest];
      rest + 1
  }

  lemma {:induction false} IndexOfConcat(a: string, c: char, b: string)
    requires c !in a
    ensures IndexOf(a + [c] + b, c) == |a|
  {
    if a != "" {
      assert (a + [c] + b)[1..] == a[1..] + [c] + b;
      IndexOfConcat(a[1..], c, b);
    }
  }

  /** The triple a key stands for: the symbol is what follows the first colon, and the source, if
      any, is what lies between the first hash before it and that colon. */
  function ParseKey(key: string): Option<Triple> {
    var colon := IndexOf(key, ':');
    if colon == |key| then None
    else
      var prefix, symbol := key[..colon], key[colon + 1..];
      var hash := IndexOf(prefix, '#');
      if hash == |prefix| then Some(Triple(prefix, None, symbol))
      else Some(Triple(prefix[..hash], Some(prefix[hash + 1..]), symbol))
  }

  lemma ParseOfPlain(t: Triple)
    requires Plain(t)
    ensures ParseKey(KeyOf(t)) == Some(t)
  {
    var prefix := if t.source.Some? then t.kind + ['#'] + t.source.value else t.kind;
    assert KeyOf(t) == prefix + [':'] + t.symbol;
    IndexOfConcat(prefix, ':', t.symbol);
    assert KeyOf(t)[..|prefix|] == prefix && KeyOf(t)[|prefix| + 1..] == t.symbol;
    if t.source.Some? {
      IndexOfConcat(t.kind, '#', t.source.value);
      assert prefix[..|t.kind|] == t.kind && prefix[|t.kind| + 1..] == t.source.value;
    }
  }

  /** Every string with a colon in it is the key of exactly one plain triple. */
  lemma KeyOfParse(key: string)
    requires ':' in key
    ensures ParseKey(key).Some?
    ensures var t := ParseKey(key).value; Plain(t) && KeyOf(t) == key
  {
    var colon := IndexOf(key, ':');
    var prefix, symbol := key[..colon], key[colon + 1..];
    assert key == prefix + [':'] + symbol;
    var hash := IndexOf(prefix, '#');
    if hash < |prefix| {
      assert prefix == prefix[..hash] + ['#'] + prefix[hash + 1..];
    } else {
      assert prefix[..hash] == prefix;
    }
  }

  lemma KeyHasColon(t: Triple)
    ensures ':' in KeyOf(t)
  {
    var n := |KeyOf(t)| - |t.symbol| - 1;
    assert KeyOf(t)[n] == ':';
  }

  /** A triple can be read back from its key exactly when it is plain. */
  lemma KeyRoundTrip(t: Triple)
    ensures ParseKey(KeyOf(t)) == Some(t) <==> Plain(t)
  {
    if Plain(t) {
      ParseOfPlain(t);
    } else {
      KeyHasColon(t);
      KeyOfParse(KeyOf(t));
    }
  }

  /** Plain triples have different keys. */
  lemma KeyIsInjective(t: Triple, u: Triple)
    requires Plain(t) && Plain(u)
    ensures KeyOf(t) == KeyOf(u) <==> t == u
  {
    ParseOfPlain(t);
    ParseOfPlain(u);
  }

  /** A triple shares its key with some other, plain triple exactly when it is not plain itself, so
      no weaker condition on the triples keeps their keys apart. */
  lemma KeyCollidesIffNotPlain(t: Triple)
    ensures !Plain(t) <==> exists u :: Plain(u) && u != t && KeyOf(u) == KeyOf(t)
  {
    KeyHasColon(t);
    KeyOfParse(KeyOf(t));
    if !Plain(t) {
      var u := ParseKey(KeyOf(t)).value;
      assert Plain(u) && u != t && KeyOf(u) == KeyOf(t);
    } else if u :| Plain(u) && u != t && KeyOf(u) == KeyOf(t) {
      KeyIsInjective(t, u);
    }
  }

  // ---------- The string-keyed map refines the triple-keyed one ----------

  /** The two maps hold the same entries. */
  ghost predicate Refines<V>(byKey: map<string, V>, byTriple: map<Triple, V>) {
    && (forall t :: t in byTriple ==> Plain(t) && KeyOf(t) in byKey && byKey[KeyOf(t)] == byTriple[t])
    && (forall k :: k in byKey ==> ParseKey(k).Some? && ParseKey(k).value in byTriple && KeyOf(ParseKey(k).value) == k)
  }

  /** Lookup, insertion and removal do the same on both maps. */
  lemma LookupAgrees<V>(byKey: map<string, V>, byTriple: map<Triple, V>, t: Triple)
    requires Refines(byKey, byTriple) && Plain(t)
    ensures KeyOf(t) in byKey <==> t in byTriple
  {
    ParseOfPlain(t);
  }

  lemma InsertKeepsRefinement<V>(byKey: map<string, V>, byTriple: map<Triple, V>, t: Triple, v: V)
    requires Refines(byKey, byTriple) && Plain(t)
    ensures Refines(byKey[KeyOf(t) := v], byTriple[t := v])
  {
    hide KeyOf, ParseKey, Plain;
    ParseOfPlain(t);
    forall u | u in byTriple ensures KeyOf(u) == KeyOf(t) <==> u == t {
      KeyIsInjective(t, u);
    }
  }

  lemma RemoveKeepsRefinement<V>(byKey: map<string, V>, byTriple: map<Triple, V>, t: Triple)
    requires Refines(byKey, byTriple) && Plain(t)
    ensures Refines(byKey - {KeyOf(t)}, byTriple - {t})
  {
    hide KeyOf, ParseKey, Plain;
    ParseOfPlain(t);
    forall u | u in byTriple ensures KeyOf(u) == KeyOf(t) <==> u == t {
      KeyIsInjective(t, u);
    }
  }

  /** At most one triple-keyed map is refined by a string-keyed one. */
  lemma RefinedMapIsUnique<V>(byKey: map<string, V>, a: map<Triple, V>, b: map<Triple, V>)
    requires Refines(byKey, a) && Refines(byKey, b)
    ensures a == b
  {
    forall t | t in a ensures t in b && b[t] == a[t] {
      ParseOfPlain(t);
    }
    forall t | t in b ensures t in a {
      ParseOfPlain(t);
    }
  }

  lemma KeyExamples()
    ensures KeyOf(Triple("Order", Some("NTV"), "AAPL")) == "Order#NTV:AAPL"
    ensures KeyOf(Triple("Quote", None, "AAPL")) == "Quote:AAPL"
  {
  }
}
