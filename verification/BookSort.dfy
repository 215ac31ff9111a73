/**
  Ordering one side of a market-depth book: bids from the highest price, asks from the lowest, and
  entries of equal price in the order in which they arrived.
 */
module BookSort {
  import opened Floats
  import opened Wrappers

  datatype Entry = Entry(price: F64, size: F64)

  datatype Side = Bids | Asks

  /** What a snapshot's entries must satisfy. */
  predicate ValidEntry(e: Entry) {
    e.price.Finite? && e.size.Finite? && e.size.value >= 0.0
  }

  predicate AllValid(entries: seq<Entry>) {
    forall i :: 0 <= i < |entries| ==> ValidEntry(entries[i])
  }

  /** The comparison the sort is given. It has no answer when a price is not a number. */
  function Compare(side: Side, a: Entry, b: Entry): Option<Ordering> {
    match side
    case Bids => PartialCmp(b.price, a.price)
    case Asks => PartialCmp(a.price, b.price)
  }

  predicate Beats(side: Side, a: Entry, b: Entry) {
    Compare(side, a, b) == Some(Less)
  }

  /** Valid entries can always be compared, and their prices order them totally. */
  lemma ComparisonIsTotal(side: Side, a: Entry, b: Entry, c: Entry)
    requires ValidEntry(a) && ValidEntry(b) && ValidEntry(c)
    ensures Compare(side, a, b).Some?
    ensures Beats(side, a, b) ==> !Beats(side, b, a)
    ensures !Beats(side, b, a) && !Beats(side, c, b) ==> !Beats(side, c, a)
    ensures !Beats(side, a, b) && !Beats(side, b, a) <==> a.price == b.price
  {
  }

  /** Among valid entries, a bid beats another by a higher price and an ask by a lower one. */
  lemma BeatingMeans(a: Entry, b: Entry)
    requires ValidEntry(a) && ValidEntry(b)
    ensures Beats(Bids, a, b) <==> a.price.value > b.price.value
    ensures Beats(Asks, a, b) <==> a.price.value < b.price.value
  {
  }

  lemma BeatingIsByPrice(side: Side, a: Entry, b: Entry, c: Entry)
    ensures a.price == b.price ==> Beats(side, a, c) == Beats(side, b, c)
  {
  }

  /** No entry beats one before it. */
  predicate Sorted(side: Side, s: seq<Entry>) {
    forall i, j :: 0 <= i < j < |s| ==> !Beats(side, s[j], s[i])
  }

  /** The entries of one price, in order. */
  function AtPrice(s: seq<Entry>, p: F64): seq<Entry> {
    if s == [] then []
    else if s[0].price == p then [s[0]] + AtPrice(s[1..], p)
    else AtPrice(s[1..], p)
  }

  /** Sorted bids fall in price and sorted asks rise. */
  lemma SortedMeans(side: Side, s: seq<Entry>)
    requires AllValid(s)
    ensures Sorted(side, s) <==>
            forall i, j :: 0 <= i < j < |s| ==>
              if side == Bids then s[i].price.value >= s[j].price.value else s[i].price.value <= s[j].price.value
  {
    hide Beats;
    forall i, j | 0 <= i < j < |s|
      ensures !Beats(side, s[j], s[i]) <==>
              if side == Bids then s[i].price.value >= s[j].price.value else s[i].price.value <= s[j].price.value
    {
      BeatingMeans(s[j], s[i]);
    }
  }

  /** What a stable sort is: ordered, and for every price the same entries in the same order. */
  ghost predicate IsStableSort(side: Side, entries: seq<Entry>, s: seq<Entry>) {
    Sorted(side, s) && forall p :: AtPrice(s, p) == AtPrice(entries, p)
  }

  // ---------- Sorting ----------

  /** The entry goes behind everything it does not beat. */
  function Insert(side: Side, s: seq<Entry>, e: Entry): seq<Entry> {
    if s == [] then [e]
    else if Beats(side, e, s[0]) then [e] + s
    else [s[0]] + Insert(side, s[1..], e)
  }

  function StableSort(side: Side, entries: seq<Entry>): seq<Entry> {
    if entries == [] then []
    else Insert(side, StableSort(side, entries[..|entries| - 1]), entries[|entries| - 1])
  }

  lemma {:induction false} InsertAt(side: Side, s: seq<Entry>, e: Entry, k: nat)
    requires k <= |s|
    requires forall i :: 0 <= i < k ==> !Beats(side, e, s[i])
    requires k < |s| ==> Beats(side, e, s[k])
    ensures Insert(side, s, e) == s[..k] + [e] + s[k..]
  {
    hide Beats;
    if k == 0 {
      assert s[..0] + [e] + s[0..] == [e] + s;
    } else {
      InsertAt(side, s[1..], e, k - 1);
      assert s[..k] == [s[0]] + s[1..][..k - 1] && s[1..][k - 1..] == s[k..];
    }
  }

  lemma {:induction false} InsertKeepsMembers(side: Side, s: seq<Entry>, e: Entry)
    ensures multiset(Insert(side, s, e)) == multiset(s) + multiset{e}
  {
    hide Beats;
    if s != [] {
      assert s == [s[0]] + s[1..];
      InsertKeepsMembers(side, s[1..], e);
    }
  }

  lemma {:induction false} SortIsPermutation(side: Side, entries: seq<Entry>)
    ensures multiset(StableSort(side, entries)) == multiset(entries)
    ensures |StableSort(side, entries)| == |entries|
  {
    if entries != [] {
      var front, last := entries[..|entries| - 1], entries[|entries| - 1];
      SortIsPermutation(side, front);
      InsertKeepsMembers(side, StableSort(side, front), last);
      assert entries == front + [last];
    }
    assert |multiset(StableSort(side, entries))| == |StableSort(side, entries)|;
  }

  lemma ValidityIsOfMembers(a: seq<Entry>, b: seq<Entry>)
    requires AllValid(a) && multiset(a) == multiset(b)
    ensures AllValid(b)
  {
    forall i | 0 <= i < |b| ensures ValidEntry(b[i]) {
      assert b[i] in multiset(b);
      assert b[i] in a;
    }
  }

  lemma SortKeepsValidity(side: Side, entries: seq<Entry>)
    requires AllValid(entries)
    ensures AllValid(StableSort(side, entries))
  {
    SortIsPermutation(side, entries);
    ValidityIsOfMembers(entries, StableSort(side, entries));
  }

  lemma {:induction false} InsertKeepsSorted(side: Side, s: seq<Entry>, e: Entry)
    requires AllValid(s) && ValidEntry(e) && Sorted(side, s)
    ensures Sorted(side, Insert(side, s, e))
  {
    hide Beats, ValidEntry;
    var t := Insert(side, s, e);
    if s == [] {
    } else if Beats(side, e, s[0]) {
      forall j | 0 <= j < |s| ensures !Beats(side, s[j], e) {
        ComparisonIsTotal(side, e, s[0], s[j]);
      }
      assert t == [e] + s;
    } else {
      InsertKeepsSorted(side, s[1..], e);
      InsertKeepsMembers(side, s[1..], e);
      forall j | 0 < j < |t| ensures !Beats(side, t[j], t[0]) {
        assert t[j] in multiset(t[1..]) && t[1..] == Insert(side, s[1..], e);
        assert t[j] == e || t[j] in s[1..];
      }
      assert Sorted(side, t[1..]);
      forall i, j | 0 <= i < j < |t| ensures !Beats(side, t[j], t[i]) {
        assert i > 0 ==> t[1..][i - 1] == t[i] && t[1..][j - 1] == t[j];
      }
    }
  }

  lemma {:induction false} InsertKeepsPrices(side: Side, s: seq<Entry>, e: Entry, p: F64)
    requires AllValid(s) && ValidEntry(e) && Sorted(side, s)
    ensures AtPrice(Insert(side, s, e), p) == AtPrice(s, p) + AtPrice([e], p)
  {
    hide Beats, ValidEntry;
    assert AtPrice([e][1..], p) == [];
    if s == [] {
    } else if Beats(side, e, s[0]) {
      assert ([e] + s)[1..] == s;
      if e.price == p {
        forall i | 0 <= i < |s| ensures s[i].price != p {
          ComparisonIsTotal(side, e, s[0], s[i]);
          BeatingIsByPrice(side, e, s[i], s[0]);
          assert i > 0 ==> !Beats(side, s[i], s[0]);
        }
        NoneAtPrice(s, p);
      }
    } else {
      var t := Insert(side, s, e);
      assert t[1..] == Insert(side, s[1..], e);
      InsertKeepsPrices(side, s[1..], e, p);
    }
  }

  lemma {:induction false} NoneAtPrice(s: seq<Entry>, p: F64)
    requires forall i :: 0 <= i < |s| ==> s[i].price != p
    ensures AtPrice(s, p) == []
  {
    if s != [] {
      NoneAtPrice(s[1..], p);
    }
  }

  lemma {:induction false} AtPriceConcat(a: seq<Entry>, b: seq<Entry>, p: F64)
    ensures AtPrice(a + b, p) == AtPrice(a, p) + AtPrice(b, p)
  {
    if a == [] {
      assert a + b == b;
    } else {
      assert (a + b)[1..] == a[1..] + b;
      AtPriceConcat(a[1..], b, p);
    }
  }

  lemma {:induction false} SortIsSorted(side: Side, entries: seq<Entry>)
    requires AllValid(entries)
    ensures Sorted(side, StableSort(side, entries))
    ensures AllValid(StableSort(side, entries))
    ensures forall i, j :: 0 <= i < j < |StableSort(side, entries)| ==>
              var s := StableSort(side, entries);
              if side == Bids then s[i].price.value >= s[j].price.value else s[i].price.value <= s[j].price.value
  {
    if entries != [] {
      var front, last := entries[..|entries| - 1], entries[|entries| - 1];
      SortIsSorted(side, front);
      InsertKeepsSorted(side, StableSort(side, front), last);
    }
    SortKeepsValidity(side, entries);
    SortedMeans(side, StableSort(side, entries));
  }

  lemma {:induction false} SortKeepsPrices(side: Side, entries: seq<Entry>, p: F64)
    requires AllValid(entries)
    ensures AtPrice(StableSort(side, entries), p) == AtPrice(entries, p)
  {
    if entries != [] {
      var front, last := entries[..|entries| - 1], entries[|entries| - 1];
      SortKeepsPrices(side, front, p);
      SortIsSorted(side, front);
      SortKeepsValidity(side, front);
      InsertKeepsPrices(side, StableSort(side, front), last, p);
      AtPriceConcat(front, [last], p);
      assert entries == front + [last];
    }
  }

  lemma SortIsStable(side: Side, entries: seq<Entry>)
    requires AllValid(entries)
    ensures IsStableSort(side, entries, StableSort(side, entries))
  {
    SortIsSorted(side, entries);
    forall p ensures AtPrice(StableSort(side, entries), p) == AtPrice(entries, p) {
      SortKeepsPrices(side, entries, p);
    }
  }

  // ---------- There is only one stable sort ----------

  lemma {:induction false} MemberAtPrice(s: seq<Entry>, p: F64)
    requires AtPrice(s, p) != []
    ensures exists i :: 0 <= i < |s| && s[i].price == p
  {
    if s[0].price != p {
      MemberAtPrice(s[1..], p);
      var i :| 0 <= i < |s[1..]| && s[1..][i].price == p;
      assert s[i + 1].price == p;
    } else {
      assert s[0].price == p;
    }
  }

  lemma OwnPrice(s: seq<Entry>)
    requires s != []
    ensures AtPrice(s, s[0].price) != []
  {
  }

  /** The first entry of one list is not beaten by the first entry of the other. */
  lemma HeadIsBest(side: Side, a: seq<Entry>, b: seq<Entry>)
    requires AllValid(a) && AllValid(b) && Sorted(side, a) && a != [] && b != []
    requires AtPrice(a, b[0].price) == AtPrice(b, b[0].price)
    ensures !Beats(side, b[0], a[0])
  {
    MemberAtPrice(a, b[0].price);
    var i :| 0 <= i < |a| && a[i].price == b[0].price;
    assert i > 0 ==> !Beats(side, a[i], a[0]);
  }

  /** Two ordered lists with the same entries in the same order at every price are the same list, so
      it does not matter how the sort is implemented. */
  lemma {:induction false} StableSortIsUnique(side: Side, a: seq<Entry>, b: seq<Entry>)
    requires AllValid(a) && AllValid(b) && Sorted(side, a) && Sorted(side, b)
    requires forall p :: AtPrice(a, p) == AtPrice(b, p)
    ensures a == b
  {
    if a == [] {
      if b != [] {
        OwnPrice(b);
        assert false;
      }
    } else {
      OwnPrice(a);
      assert AtPrice(b, a[0].price) == AtPrice(a, a[0].price);
      MemberAtPrice(b, a[0].price);
      assert AtPrice(a, b[0].price) == AtPrice(b, b[0].price);
      HeadIsBest(side, a, b);
      HeadIsBest(side, b, a);
      ComparisonIsTotal(side, a[0], b[0], a[0]);
      hide Beats, ValidEntry;
      assert a[0] == AtPrice(a, a[0].price)[0] && b[0] == AtPrice(b, a[0].price)[0];
      forall p ensures AtPrice(a[1..], p) == AtPrice(b[1..], p) {
        assert AtPrice(a, p) == AtPrice(b, p);
        if a[0].price == p {
          assert AtPrice(a[1..], p) == AtPrice(a, p)[1..];
          assert AtPrice(b[1..], p) == AtPrice(b, p)[1..];
        }
      }
      StableSortIsUnique(side, a[1..], b[1..]);
      assert a == [a[0]] + a[1..] && b == [b[0]] + b[1..];
    }
  }

  /** Any stable sort of valid entries is this one. */
  lemma AnyStableSortIsThisOne(side: Side, entries: seq<Entry>, s: seq<Entry>)
    requires AllValid(entries) && AllValid(s) && IsStableSort(side, entries, s)
    ensures s == StableSort(side, entries)
  {
    SortIsStable(side, entries);
    SortKeepsValidity(side, entries);
    StableSortIsUnique(side, s, StableSort(side, entries));
  }

  lemma SortOfSorted(side: Side, s: seq<Entry>)
    requires AllValid(s) && Sorted(side, s)
    ensures StableSort(side, s) == s
  {
    AnyStableSortIsThisOne(side, s, s);
  }

  // ---------- Sorting in a loop ----------

  /** Every comparison has an answer, so taking it never fails. */
  method SortSide(side: Side, entries: seq<Entry>) returns (s: seq<Entry>)
    requires AllValid(entries)
    ensures s == StableSort(side, entries)
  {
    hide Beats, Insert;
    s := [];
    for n := 0 to |entries|
      invariant s == StableSort(side, entries[..n])
    {
      var e := entries[n];
      SortKeepsValidity(side, entries[..n]);
      var k := 0;
      while k < |s| && Unwrapped(side, e, s[k]) != Less
        invariant 0 <= k <= |s|
        invariant forall i :: 0 <= i < k ==> !Beats(side, e, s[i])
      {
        k := k + 1;
      }
      InsertAt(side, s, e, k);
      s := s[..k] + [e] + s[k..];
      assert entries[..n + 1][..n] == entries[..n];
    }
    assert entries[..|entries|] == entries;
  }

  function Unwrapped(side: Side, a: Entry, b: Entry): (o: Ordering)
    requires ValidEntry(a) && ValidEntry(b)
    ensures o == Less <==> Beats(side, a, b)
  {
    Compare(side, a, b).value
  }
}
