/**
 The ranking step `extract_cheapest_flights`: read the `best_flights` list of
 a flight-search response, stable-sort it by price (a missing price ranking
 last) and keep the first three offers.
 */
module FlightRanker {
  import opened Wrappers
  import opened Offers

  /** How many offers the ranking keeps. */
  const Kept := 3

  /** The value a response holds under a key, as far as the ranking looks at
      it: a list of offers, or JSON null. */
  datatype Value = List(offers: seq<Offer>) | Null

  /** A parsed response body: the top-level JSON object. */
  type Response = map<string, Value>

  const BestFlightsKey := "best_flights"

  function Min(a: int, b: int): int {
    if a <= b then a else b
  }

  /** The value under `best_flights`, or an empty list when the key is missing. */
  function BestFlights(data: Response): (v: Value)
    ensures BestFlightsKey !in data ==> v == List([])
    ensures BestFlightsKey in data ==> v == data[BestFlightsKey]
  {
    if BestFlightsKey in data then data[BestFlightsKey] else List([])
  }

  /** Python's truthiness of that value: null and the empty list are falsy,
      a non-empty list is truthy. */
  function Truthy(v: Value): (r: bool)
    ensures !r <==> v.Null? || v.offers == []
  {
    v.List? && v.offers != []
  }

  /** The offers the ranking draws from: the list, or none when the key is
      missing or holds null. */
  function Listed(data: Response): seq<Offer> {
    match BestFlights(data)
    case List(offers) => offers
    case Null => []
  }

  /** The offers sorted by price, cut to the first `Kept` of them. */
  function Ranked(offers: seq<Offer>): (r: seq<Offer>)
    ensures r <= SortByPrice(offers)
    ensures |r| == Min(Kept, |offers|)
  {
    SortByPrice(offers)[..Min(Kept, |offers|)]
  }

  /** `extract_cheapest_flights`: the early return of an empty list for a
      falsy value, then the ranking. The early return changes nothing: the
      result is always the ranking of the listed offers. */
  function ExtractCheapestFlights(data: Response): (r: seq<Offer>)
    ensures BestFlightsKey !in data ==> r == []
    ensures BestFlightsKey in data && data[BestFlightsKey] == Null ==> r == []
    ensures r == Ranked(Listed(data))
  {
    var best := BestFlights(data);
    if !Truthy(best) then [] else Ranked(best.offers)
  }

  /** Exactly min(3, n) offers come back; in particular fewer than three are
      all returned. */
  lemma RankedLength(offers: seq<Offer>)
    ensures |Ranked(offers)| == Min(Kept, |offers|)
    ensures |offers| <= Kept ==> multiset(Ranked(offers)) == multiset(offers)
  {
    var t := SortByPrice(offers);
    SortByPricePermutes(offers);
    if |offers| <= Kept {
      assert t[..|t|] == t;
    }
  }

  /** The kept offers are non-decreasing by price. */
  lemma RankedSorted(offers: seq<Offer>)
    ensures Sorted(Ranked(offers))
  {
    SortByPriceIsStableSort(offers);
  }

  /** Every kept offer comes from the input and none is duplicated: the kept
      offers are a prefix of a permutation of the input, so they form a
      sub-multiset of it. */
  lemma RankedFromInput(offers: seq<Offer>)
    ensures Ranked(offers) <= SortByPrice(offers) && multiset(SortByPrice(offers)) == multiset(offers)
    ensures multiset(Ranked(offers)) <= multiset(offers)
  {
    var t := SortByPrice(offers);
    SortByPricePermutes(offers);
    var m := Min(Kept, |offers|);
    assert t == t[..m] + t[m..];
    assert multiset(t) == multiset(t[..m]) + multiset(t[m..]);
  }

  /** Stability: for every price, the kept offers with that price are the
      first offers of that price in input order. */
  lemma RankedStable(offers: seq<Offer>, k: Key)
    ensures WithKey(Ranked(offers), k) <= WithKey(offers, k)
  {
    var t := SortByPrice(offers);
    SortByPriceIsStableSort(offers);
    RankedLength(offers);
    var m := Min(Kept, |offers|);
    assert t == t[..m] + t[m..];
    WithKeyConcat(t[..m], t[m..], k);
  }

  /** Nothing cheaper was dropped: every offer left out ranks at or above
      every offer kept. */
  lemma RankedKeepsCheapest(offers: seq<Offer>)
    ensures forall o, x :: o in multiset(offers) - multiset(Ranked(offers)) && x in Ranked(offers) ==>
              LessEq(KeyOf(x), KeyOf(o))
  {
    var t := SortByPrice(offers);
    SortByPriceIsStableSort(offers);
    SortByPricePermutes(offers);
    var m := Min(Kept, |offers|);
    var r, rest := t[..m], t[m..];
    assert t == r + rest;
    assert multiset(offers) - multiset(r) == multiset(rest);
    SortedSplit(t, m);
  }

  /** In a sorted sequence nothing after position m ranks below anything before it. */
  lemma SortedSplit(t: seq<Offer>, m: nat)
    requires Sorted(t) && m <= |t|
    ensures forall o, x :: o in t[m..] && x in t[..m] ==> LessEq(KeyOf(x), KeyOf(o))
  {
    forall o, x | o in t[m..] && x in t[..m]
      ensures LessEq(KeyOf(x), KeyOf(o))
    {
      var j :| 0 <= j < |t| - m && t[m..][j] == o;
      var i :| 0 <= i < m && t[..m][i] == x;
      assert t[i] == x && t[m + j] == o;
    }
  }

  /** In a sorted sequence the unpriced offers are exactly the last ones:
      the offer at position i is priced iff i is below the number of priced
      offers. */
  lemma {:induction false} SortedPricedFirst(t: seq<Offer>)
    requires Sorted(t)
    ensures forall i :: 0 <= i < |t| ==> (t[i].price.Some? <==> i + |WithKey(t, Infinity)| < |t|)
  {
    if t != [] {
      var u := |WithKey(t[1..], Infinity)|;
      SortedPricedFirst(t[1..]);
      assert WithKey(t, Infinity) == (if KeyOf(t[0]) == Infinity then [t[0]] else []) + WithKey(t[1..], Infinity);
      if t[0].price.None? {
        // an unpriced head forces every later offer to be unpriced too
        assert forall i :: 0 <= i < |t| ==> t[i].price.None? by {
          forall i | 0 < i < |t| ensures t[i].price.None? {
            assert LessEq(KeyOf(t[0]), KeyOf(t[i]));
          }
        }
        if 1 < |t| {
          assert t[1..][0].price.None?;
        }
      } else {
        forall i | 0 < i < |t| ensures t[i].price.Some? <==> i + u < |t| {
          assert t[i] == t[1..][i - 1];
        }
      }
    }
  }

  /** Priced offers come first: a kept offer is priced exactly when fewer
      offers are in front of it than there are priced offers in the input.
      So an unpriced offer is kept only when fewer than three priced ones
      exist. */
  lemma RankedPricedFirst(offers: seq<Offer>)
    ensures forall i :: 0 <= i < |Ranked(offers)| ==>
              (Ranked(offers)[i].price.Some? <==> i + |WithKey(offers, Infinity)| < |offers|)
  {
    var t := SortByPrice(offers);
    SortByPriceIsStableSort(offers);
    SortedPricedFirst(t);
  }

  /** A missing list, JSON null or an empty list all rank to the empty list. */
  lemma NothingListedRanksEmpty(data: Response)
    requires Listed(data) == []
    ensures ExtractCheapestFlights(data) == []
  {
  }

  /** The example offers priced 500, none, 100, 300, none rank as 100, 300, 500. */
  lemma RankedExample()
    ensures var offers := [Offer(Some(500), "a"), Offer(None, "b"), Offer(Some(100), "c"),
                           Offer(Some(300), "d"), Offer(None, "e")];
            Ranked(offers) == [Offer(Some(100), "c"), Offer(Some(300), "d"), Offer(Some(500), "a")]
  {
  }
}
