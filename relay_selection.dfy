/** The overload-relay match in two tiers. Preferred: a relay whose range
    spans the whole band [0.8 * FLC, 1.2 * FLC] and which fits the
    contactor's frame (an empty frame list fits any frame), cheapest first.
    Fallback, reached only when no preferred relay exists: the cheapest
    relay whose range merely contains FLC, with no frame check. */
module RelaySelection {
  import opened Parts

  const BandLow: real := 0.8
  const BandHigh: real := 1.2

  /** The range spans FLC -20% .. FLC +20%. */
  predicate CoversBand(r: OverloadRelay, flc: real)
  {
    r.rangeMin <= flc * BandLow && r.rangeMax >= flc * BandHigh
  }

  /** The relay lists the frame, or lists no frame at all. */
  predicate FitsFrame(r: OverloadRelay, frame: string)
  {
    frame in r.compatibleFrames || |r.compatibleFrames| == 0
  }

  /** The range contains FLC itself. */
  predicate CoversPoint(r: OverloadRelay, flc: real)
  {
    r.rangeMin <= flc && r.rangeMax >= flc
  }

  /** A preferred-tier candidate. */
  predicate Preferred(r: OverloadRelay, flc: real, frame: string)
  {
    CoversBand(r, flc) && FitsFrame(r, frame)
  }

  /** The band query's filter, in catalog order. */
  function BandRelays(relays: seq<OverloadRelay>, flc: real): (b: seq<OverloadRelay>)
    ensures forall r :: r in b <==> r in relays && CoversBand(r, flc)
  {
    if relays == [] then []
    else
      assert relays == [relays[0]] + relays[1..];
      (if CoversBand(relays[0], flc) then [relays[0]] else []) + BandRelays(relays[1..], flc)
  }

  ghost predicate SortedByPrice(s: seq<OverloadRelay>)
  {
    forall i, j :: 0 <= i < j < |s| ==> s[i].price <= s[j].price
  }

  /** A relay no dearer than the head of a sorted list keeps it sorted. */
  lemma SortedCons(x: OverloadRelay, s: seq<OverloadRelay>)
    requires SortedByPrice(s) && (s == [] || x.price <= s[0].price)
    ensures SortedByPrice([x] + s)
  {
    var r := [x] + s;
    forall i, j | 0 <= i < j < |r| ensures r[i].price <= r[j].price {
      if i == 0 && j > 1 {
        assert r[j] == s[j - 1];
      }
    }
  }

  /** Insert into a price-sorted list, ahead of the entries of equal price. */
  function InsertByPrice(x: OverloadRelay, s: seq<OverloadRelay>): (r: seq<OverloadRelay>)
    requires SortedByPrice(s)
    ensures SortedByPrice(r)
    ensures multiset(r) == multiset(s) + multiset{x}
    ensures |r| == |s| + 1 && (r[0] == x || (s != [] && r[0] == s[0]))
  {
    if s == [] || x.price <= s[0].price then
      SortedCons(x, s);
      [x] + s
    else
      assert s == [s[0]] + s[1..];
      var tail := InsertByPrice(x, s[1..]);
      SortedCons(s[0], tail);
      [s[0]] + tail
  }

  /** The band query's `order_by(price)`: a permutation sorted by price.
      Each entry goes in ahead of the later entries of its price, so equal
      prices keep catalog order. */
  function SortByPrice(s: seq<OverloadRelay>): (r: seq<OverloadRelay>)
    ensures SortedByPrice(r)
    ensures multiset(r) == multiset(s)
  {
    if s == [] then []
    else
      assert s == [s[0]] + s[1..];
      InsertByPrice(s[0], SortByPrice(s[1..]))
  }

  /** The relays of one price, in list order. */
  function OfPrice(s: seq<OverloadRelay>, price: real): seq<OverloadRelay>
  {
    if s == [] then [] else (if s[0].price == price then [s[0]] else []) + OfPrice(s[1..], price)
  }

  /** Filtering a list with one more relay at its head. */
  lemma OfPriceCons(y: OverloadRelay, s: seq<OverloadRelay>, price: real)
    ensures OfPrice([y] + s, price) == (if y.price == price then [y] else []) + OfPrice(s, price)
  {
    assert ([y] + s)[1..] == s;
  }

  /** Insertion puts the new relay ahead of every relay of its price and
      leaves the order of each price's relays otherwise unchanged. */
  lemma {:induction false} InsertByPriceKeepsTies(x: OverloadRelay, s: seq<OverloadRelay>, price: real)
    requires SortedByPrice(s)
    ensures OfPrice(InsertByPrice(x, s), price) == (if x.price == price then [x] else []) + OfPrice(s, price)
  {
    if s == [] || x.price <= s[0].price {
      OfPriceCons(x, s, price);
    } else {
      var t := InsertByPrice(x, s[1..]);
      assert InsertByPrice(x, s) == [s[0]] + t;
      assert s == [s[0]] + s[1..];
      OfPriceCons(s[0], t, price);
      OfPriceCons(s[0], s[1..], price);
      InsertByPriceKeepsTies(x, s[1..], price);
      var rest := OfPrice(s[1..], price);
      if x.price == price {
        assert s[0].price != price;
        assert OfPrice(InsertByPrice(x, s), price) == OfPrice(t, price) == [x] + rest;
        assert OfPrice(s, price) == rest;
      } else {
        assert OfPrice(t, price) == rest;
      }
    }
  }

  /** The ordering is stable: for every price, the relays of that price
      come out in the order they went in. */
  lemma {:induction false} SortByPriceKeepsTies(s: seq<OverloadRelay>, price: real)
    ensures OfPrice(SortByPrice(s), price) == OfPrice(s, price)
  {
    if s != [] {
      SortByPriceKeepsTies(s[1..], price);
      InsertByPriceKeepsTies(s[0], SortByPrice(s[1..]), price);
    }
  }

  /** The first relay of a list that fits the frame. */
  function FirstFitting(s: seq<OverloadRelay>, frame: string): (r: Option<OverloadRelay>)
    ensures r.None? <==> forall x :: x in s ==> !FitsFrame(x, frame)
    ensures r.Some? ==> r.value in s && FitsFrame(r.value, frame)
  {
    if s == [] then None
    else if FitsFrame(s[0], frame) then Some(s[0])
    else
      assert s == [s[0]] + s[1..];
      FirstFitting(s[1..], frame)
  }

  /** In a price-sorted list the first fitting relay is a cheapest fitting one. */
  lemma {:induction false} FirstFittingCheapest(s: seq<OverloadRelay>, frame: string)
    requires SortedByPrice(s)
    requires FirstFitting(s, frame).Some?
    ensures forall x :: x in s && FitsFrame(x, frame) ==> FirstFitting(s, frame).value.price <= x.price
  {
    assert s == [s[0]] + s[1..];
    if !FitsFrame(s[0], frame) {
      assert SortedByPrice(s[1..]);
      FirstFittingCheapest(s[1..], frame);
      forall x | x in s && FitsFrame(x, frame) ensures x in s[1..] {
      }
    } else {
      forall x | x in s ensures s[0].price <= x.price {
        var j :| 0 <= j < |s| && s[j] == x;
      }
    }
  }

  /** The fallback query: the cheapest relay whose range contains FLC,
      None exactly when there is none. Among equal prices the earliest
      catalog entry is taken. */
  function CheapestCovering(relays: seq<OverloadRelay>, flc: real): (r: Option<OverloadRelay>)
    ensures r.None? <==> forall x :: x in relays ==> !CoversPoint(x, flc)
    ensures r.Some? ==> r.value in relays && CoversPoint(r.value, flc)
    ensures r.Some? ==> forall x :: x in relays && CoversPoint(x, flc) ==> r.value.price <= x.price
  {
    if relays == [] then None
    else
      assert relays == [relays[0]] + relays[1..];
      var rest := CheapestCovering(relays[1..], flc);
      if !CoversPoint(relays[0], flc) then rest
      else if rest.Some? && rest.value.price < relays[0].price then rest
      else Some(relays[0])
  }

  /** The whole match: the first frame-fitting relay of the price-sorted
      band candidates, else the fallback. Whatever it returns is a catalog
      relay that is either preferred or at least contains FLC. */
  function SelectRelay(relays: seq<OverloadRelay>, flc: real, frame: string): (r: Option<OverloadRelay>)
    ensures r.Some? ==> r.value in relays && (Preferred(r.value, flc, frame) || CoversPoint(r.value, flc))
  {
    var sorted := SortByPrice(BandRelays(relays, flc));
    var preferred := FirstFitting(sorted, frame);
    if preferred.Some? then
      assert preferred.value in multiset(sorted);
      assert preferred.value in BandRelays(relays, flc);
      preferred
    else CheapestCovering(relays, flc)
  }

  /** Tier one: when a preferred relay exists, the match is one of them and
      no preferred relay is cheaper. */
  lemma {:induction false} SelectRelayPreferred(relays: seq<OverloadRelay>, flc: real, frame: string)
    requires exists x :: x in relays && Preferred(x, flc, frame)
    ensures SelectRelay(relays, flc, frame).Some?
    ensures SelectRelay(relays, flc, frame).value in relays
    ensures Preferred(SelectRelay(relays, flc, frame).value, flc, frame)
    ensures forall x :: x in relays && Preferred(x, flc, frame) ==> SelectRelay(relays, flc, frame).value.price <= x.price
  {
    var sorted := SortByPrice(BandRelays(relays, flc));
    var w :| w in relays && Preferred(w, flc, frame);
    assert w in multiset(sorted);
    var preferred := FirstFitting(sorted, frame);
    assert preferred.Some?;
    FirstFittingCheapest(sorted, frame);
    assert preferred.value in multiset(sorted);
    forall x | x in relays && Preferred(x, flc, frame) ensures preferred.value.price <= x.price {
      assert x in multiset(sorted);
    }
  }

  /** Tier two: with no preferred relay, the match is exactly the cheapest
      relay containing FLC, frames ignored (None when there is none). */
  lemma {:induction false} SelectRelayFallback(relays: seq<OverloadRelay>, flc: real, frame: string)
    requires forall x :: x in relays ==> !Preferred(x, flc, frame)
    ensures SelectRelay(relays, flc, frame) == CheapestCovering(relays, flc)
  {
    var sorted := SortByPrice(BandRelays(relays, flc));
    forall x | x in sorted ensures !FitsFrame(x, frame) {
      assert x in multiset(sorted);
      assert x in multiset(BandRelays(relays, flc));
      assert x in BandRelays(relays, flc);
    }
  }

  /** The match finds nothing exactly when no relay is preferred and no
      relay's range contains FLC. */
  lemma {:induction false} SelectRelayNone(relays: seq<OverloadRelay>, flc: real, frame: string)
    ensures SelectRelay(relays, flc, frame).None?
        <==> forall x :: x in relays ==> !Preferred(x, flc, frame) && !CoversPoint(x, flc)
  {
    if exists x :: x in relays && Preferred(x, flc, frame) {
      SelectRelayPreferred(relays, flc, frame);
    } else {
      SelectRelayFallback(relays, flc, frame);
    }
  }

  /** For a non-negative current the band contains the point, so a relay
      of the first tier would also qualify for the fallback. */
  lemma BandContainsPoint(r: OverloadRelay, flc: real)
    requires flc >= 0.0 && CoversBand(r, flc)
    ensures CoversPoint(r, flc)
  {
  }

  /** The loop of the source: walk the price-sorted band candidates and
      return the first that fits the frame; otherwise run the fallback query. */
  method SelectOverloadRelay(relays: seq<OverloadRelay>, flc: real, frame: string) returns (relay: Option<OverloadRelay>)
    ensures relay == SelectRelay(relays, flc, frame)
  {
    var candidates := SortByPrice(BandRelays(relays, flc));
    for i := 0 to |candidates|
      invariant FirstFitting(candidates[i..], frame) == FirstFitting(candidates, frame)
    {
      if FitsFrame(candidates[i], frame) {
        return Some(candidates[i]);
      }
      assert candidates[i..][1..] == candidates[i + 1..];
    }
    relay := CheapestCovering(relays, flc);
  }
}
