/**
 Flight offers as the flight-search provider returns them in its `best_flights`
 list, the sort key used to rank them, and a stable sort by that key.

 The ranking sorts by an offer's price, and an offer without a price gets
 positive infinity as its key, so it compares above every priced offer. Python's built-in `sorted`
 is a stable sort, so offers with equal keys keep their input order. This
 module defines a stable insertion sort, `SortByPrice`, and proves that it is
 the ONLY stable sort of its input (`StableSortUnique`), so any correct stable
 sort, Python's included, computes the same sequence.
 */
module Offers {
  import opened Wrappers

  /** One entry of `best_flights`: its optional price, and the rest of the
      provider's fields, which the ranking never inspects. */
  datatype Offer = Offer(price: Option<int>, details: string)

  /** The sort key: a present price, or the infinity sentinel used for a
      missing one. */
  datatype Key = Finite(amount: int) | Infinity

  /** An offer's key: its price, or infinity, which ranks above every price. */
  function KeyOf(o: Offer): (k: Key)
    ensures o.price.Some? ==> k == Finite(o.price.value)
    ensures o.price.None? ==> k == Infinity
  {
    match o.price
    case Some(p) => Finite(p)
    case None => Infinity
  }

  /** Python's `<` on keys: integers as usual, every integer below infinity,
      and infinity below nothing. */
  function Less(a: Key, b: Key): (r: bool)
    ensures r ==> a != b
    ensures a.Finite? && b.Finite? ==> (r <==> a.amount < b.amount)
    ensures a.Finite? && b == Infinity ==> r
    ensures a == Infinity ==> !r
  {
    match (a, b)
    case (Finite(x), Finite(y)) => x < y
    case (Finite(_), Infinity) => true
    case (Infinity, _) => false
  }

  predicate LessEq(a: Key, b: Key) {
    !Less(b, a)
  }

  /** `LessEq` is a total order on keys: this is what makes the stable sort
      unique. */
  lemma LessEqIsTotalOrder(a: Key, b: Key, c: Key)
    ensures LessEq(a, a)
    ensures LessEq(a, b) || LessEq(b, a)
    ensures LessEq(a, b) && LessEq(b, a) ==> a == b
    ensures LessEq(a, b) && LessEq(b, c) ==> LessEq(a, c)
  {
  }

  /** Non-decreasing by key, so every priced offer comes before every unpriced one. */
  ghost predicate Sorted(s: seq<Offer>) {
    forall i, j :: 0 <= i < j < |s| ==> LessEq(KeyOf(s[i]), KeyOf(s[j]))
  }

  /** The offers of `s` whose key is `k`, in their order in `s`. */
  function WithKey(s: seq<Offer>, k: Key): (r: seq<Offer>)
    ensures |r| <= |s|
  {
    if s == [] then []
    else if KeyOf(s[0]) == k then [s[0]] + WithKey(s[1..], k)
    else WithKey(s[1..], k)
  }

  lemma {:induction false} WithKeyMember(s: seq<Offer>, k: Key, x: Offer)
    requires x in WithKey(s, k)
    ensures x in s && KeyOf(x) == k
  {
    if KeyOf(s[0]) != k || x != s[0] {
      WithKeyMember(s[1..], k, x);
    }
  }

  /** A stable sort of `s` by price: sorted, and for every key the offers with
      that key appear in the same order as in `s`. */
  ghost predicate IsStableSortOf(r: seq<Offer>, s: seq<Offer>) {
    Sorted(r) && forall k :: WithKey(r, k) == WithKey(s, k)
  }

  /** Puts `o` in front of the first offer whose key is not below its own,
      so that `o` precedes every offer of `s` with an equal key. */
  function Insert(o: Offer, s: seq<Offer>): (r: seq<Offer>)
    ensures |r| == |s| + 1
  {
    if s == [] then [o]
    else if LessEq(KeyOf(o), KeyOf(s[0])) then [o] + s
    else [s[0]] + Insert(o, s[1..])
  }

  /** Stable insertion sort: the head is inserted in front of the equal keys
      of the sorted tail. */
  function SortByPrice(s: seq<Offer>): (r: seq<Offer>)
    ensures |r| == |s|
  {
    if s == [] then [] else Insert(s[0], SortByPrice(s[1..]))
  }

  lemma {:induction false} InsertPermutes(o: Offer, s: seq<Offer>)
    ensures multiset(Insert(o, s)) == multiset(s) + multiset{o}
  {
    if s != [] && !LessEq(KeyOf(o), KeyOf(s[0])) {
      InsertPermutes(o, s[1..]);
      assert s == [s[0]] + s[1..];
    }
  }

  /** The sort neither loses nor invents nor duplicates an offer. */
  lemma {:induction false} SortByPricePermutes(s: seq<Offer>)
    ensures multiset(SortByPrice(s)) == multiset(s)
  {
    if s != [] {
      SortByPricePermutes(s[1..]);
      InsertPermutes(s[0], SortByPrice(s[1..]));
      assert s == [s[0]] + s[1..];
    }
  }

  /** The subsequence of a sequence built from its head. */
  lemma WithKeyCons(x: Offer, s: seq<Offer>, k: Key)
    ensures WithKey([x] + s, k) == (if KeyOf(x) == k then [x] else []) + WithKey(s, k)
  {
    assert ([x] + s)[1..] == s;
  }

  lemma {:induction false} WithKeyConcat(a: seq<Offer>, b: seq<Offer>, k: Key)
    ensures WithKey(a + b, k) == WithKey(a, k) + WithKey(b, k)
  {
    if a == [] {
      assert a + b == b;
    } else {
      var x, rest := a[0], a[1..];
      assert a == [x] + rest;
      assert a + b == [x] + (rest + b);
      WithKeyConcat(rest, b, k);
      WithKeyCons(x, rest + b, k);
      WithKeyCons(x, rest, k);
    }
  }

  /** Inserting `o` adds it in front of the other offers with its key and
      leaves the subsequences of every other key as they were. */
  lemma {:induction false} InsertWithKey(o: Offer, s: seq<Offer>, k: Key)
    ensures WithKey(Insert(o, s), k) == (if KeyOf(o) == k then [o] else []) + WithKey(s, k)
  {
    if s == [] {
      WithKeyCons(o, [], k);
      assert [o] + [] == [o];
    } else if LessEq(KeyOf(o), KeyOf(s[0])) {
      WithKeyCons(o, s, k);
    } else {
      var t := Insert(o, s[1..]);
      assert Insert(o, s) == [s[0]] + t;
      assert KeyOf(s[0]) != KeyOf(o);
      InsertWithKey(o, s[1..], k);
      assert s == [s[0]] + s[1..];
      WithKeyCons(s[0], s[1..], k);
      WithKeyCons(s[0], t, k);
    }
  }

  lemma {:induction false} InsertSorted(o: Offer, s: seq<Offer>)
    requires Sorted(s)
    ensures Sorted(Insert(o, s))
  {
    if s == [] {
    } else if LessEq(KeyOf(o), KeyOf(s[0])) {
    } else {
      var t := Insert(o, s[1..]);
      InsertSorted(o, s[1..]);
      InsertPermutes(o, s[1..]);
      forall j | 0 <= j < |t|
        ensures LessEq(KeyOf(s[0]), KeyOf(t[j]))
      {
        assert t[j] in multiset(t);
        if t[j] != o {
          assert t[j] in s[1..];
        }
      }
    }
  }

  /** The insertion sort is a stable sort of its input. */
  lemma {:induction false} SortByPriceIsStableSort(s: seq<Offer>)
    ensures IsStableSortOf(SortByPrice(s), s)
  {
    if s != [] {
      SortByPriceIsStableSort(s[1..]);
      InsertSorted(s[0], SortByPrice(s[1..]));
      forall k ensures WithKey(SortByPrice(s), k) == WithKey(s, k) {
        InsertWithKey(s[0], SortByPrice(s[1..]), k);
      }
    }
  }

  lemma {:induction false} SortedHeadIsLeast(s: seq<Offer>, x: Offer)
    requires Sorted(s) && x in s
    ensures LessEq(KeyOf(s[0]), KeyOf(x))
  {
    var i :| 0 <= i < |s| && s[i] == x;
    if i > 0 {
      assert LessEq(KeyOf(s[0]), KeyOf(s[i]));
    }
  }

  lemma WithKeyOfHead(s: seq<Offer>)
    requires s != []
    ensures WithKey(s, KeyOf(s[0])) == [s[0]] + WithKey(s[1..], KeyOf(s[0]))
  {
  }

  lemma WithKeyOfTail(s: seq<Offer>, k: Key)
    requires s != []
    ensures WithKey(s[1..], k) == if KeyOf(s[0]) == k then WithKey(s, k)[1..] else WithKey(s, k)
  {
    if KeyOf(s[0]) == k {
      assert WithKey(s, k) == [s[0]] + WithKey(s[1..], k);
    }
  }

  /** A stable sort is determined by its input: two sorted sequences that
      agree, key by key, on the order of their offers are equal. */
  lemma {:induction false} StableSortUnique(a: seq<Offer>, b: seq<Offer>)
    requires Sorted(a) && Sorted(b)
    requires forall k :: WithKey(a, k) == WithKey(b, k)
    ensures a == b
    decreases |a|
  {
    // neither can be empty without the other: its head's key would be missing from the other
    if a != [] { WithKeyOfHead(a); }
    if b != [] { WithKeyOfHead(b); }
    if a != [] {
      var ka, kb := KeyOf(a[0]), KeyOf(b[0]);
      var wa := WithKey(a, ka);
      var wb := WithKey(b, kb);
      assert wa == [a[0]] + WithKey(a[1..], ka);
      assert wb == [b[0]] + WithKey(b[1..], kb);
      // the head of each is the cheapest offer of the other
      WithKeyMember(b, ka, WithKey(b, ka)[0]);
      SortedHeadIsLeast(b, WithKey(b, ka)[0]);
      WithKeyMember(a, kb, WithKey(a, kb)[0]);
      SortedHeadIsLeast(a, WithKey(a, kb)[0]);
      LessEqIsTotalOrder(ka, kb, ka);
      assert ka == kb;
      assert a[0] == b[0];
      forall k ensures WithKey(a[1..], k) == WithKey(b[1..], k) {
        WithKeyOfTail(a, k);
        WithKeyOfTail(b, k);
      }
      StableSortUnique(a[1..], b[1..]);
      assert a == [a[0]] + a[1..];
      assert b == [b[0]] + b[1..];
    }
  }

  /** `SortByPrice` is exactly "the stable sort by price": a sequence is a
      stable sort of `s` if and only if it is `SortByPrice(s)`. */
  lemma StableSortCharacterised(r: seq<Offer>, s: seq<Offer>)
    ensures IsStableSortOf(r, s) <==> r == SortByPrice(s)
  {
    SortByPriceIsStableSort(s);
    if IsStableSortOf(r, s) {
      StableSortUnique(r, SortByPrice(s));
    }
  }
}
