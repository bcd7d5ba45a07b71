/** The contactor arrangement of each starting method, keyed by its name:
    DOL one main contactor; Star-Delta a main contactor plus star and delta
    contactors sized at 0.58 of the rating; Soft Starter and VFD one
    contactor kept under the bypass key. Any other name has no arrangement. */
module Topology {
  import opened Parts
  import opened ContactorSelection

  const StarDeltaFactor: real := 0.58

  /** The rating the star and delta contactors are sized for. */
  function StarDeltaRating(rating: real): real
  {
    rating * StarDeltaFactor
  }

  /** The record the arrangement is returned as: one optional entry per
      key the rest of the algorithm looks up, the number of contactors and
      their total price. The `input` key is looked up by the orchestrator
      but no arrangement ever fills it. */
  datatype ContactorSet = ContactorSet(
    main: Option<Contactor>,
    star: Option<Contactor>,
    delta: Option<Contactor>,
    bypass: Option<Contactor>,
    input: Option<Contactor>,
    quantity: nat,
    totalCost: real)

  /** The method names with an arrangement. */
  predicate Handled(methodName: string)
  {
    methodName == "DOL" || methodName == "Star-Delta" || methodName == "Soft Starter" || methodName == "VFD"
  }

  function OptionToSeq(o: Option<Contactor>): seq<Contactor>
  {
    if o.Some? then [o.value] else []
  }

  /** The populated entries, in key order main, star, delta, bypass, input. */
  function Populated(t: ContactorSet): seq<Contactor>
  {
    OptionToSeq(t.main) + OptionToSeq(t.star) + OptionToSeq(t.delta) + OptionToSeq(t.bypass) + OptionToSeq(t.input)
  }

  /** Sum of the prices of a list of contactors. */
  function TotalPrice(cs: seq<Contactor>): real
  {
    if cs == [] then 0.0 else cs[0].price + TotalPrice(cs[1..])
  }

  /** Build the arrangement for a method at the given rating and voltage.
      Whatever it returns records exactly as many contactors as it holds
      and their exact total price; the main (or bypass) entry is rated for
      the rating, the star and delta entries for 0.58 of it, and the star
      and delta entries are the same selection. It fails for a name it does
      not handle, or when a selection it makes finds nothing; Star-Delta
      succeeds whenever both of its selections do. */
  function GenerateContactors(contactors: seq<Contactor>, methodName: string, rating: real, voltage: real): (r: Option<ContactorSet>)
    ensures r.Some? ==> Handled(methodName)
    ensures r.Some? ==> r.value.quantity == |Populated(r.value)| && r.value.totalCost == TotalPrice(Populated(r.value))
    ensures r.Some? ==> r.value.input.None? && (r.value.main.Some? <==> r.value.bypass.None?)
    ensures r.Some? && r.value.main.Some? ==> Adequate(r.value.main.value, rating, voltage)
    ensures r.Some? && r.value.bypass.Some? ==> Adequate(r.value.bypass.value, rating, voltage)
    ensures r.Some? && r.value.star.Some? ==> Adequate(r.value.star.value, StarDeltaRating(rating), voltage)
    ensures r.Some? ==> r.value.star == r.value.delta
    ensures r.Some? && r.value.main.Some? ==> r.value.main == SelectBestContactor(contactors, rating, voltage)
    ensures r.Some? && r.value.bypass.Some? ==> r.value.bypass == SelectBestContactor(contactors, rating, voltage)
    ensures r.Some? && methodName == "Star-Delta" ==> r.value.star == SelectBestContactor(contactors, StarDeltaRating(rating), voltage)
    ensures r.Some? ==> (r.value.star.Some? <==> methodName == "Star-Delta")
    ensures r.Some? ==> (r.value.bypass.Some? <==> methodName == "Soft Starter" || methodName == "VFD")
    ensures Handled(methodName) && SelectBestContactor(contactors, rating, voltage).None? ==> r.None?
    ensures methodName == "Star-Delta" && SelectBestContactor(contactors, StarDeltaRating(rating), voltage).None? ==> r.None?
    ensures Handled(methodName) && methodName != "Star-Delta" && SelectBestContactor(contactors, rating, voltage).Some? ==> r.Some?
    ensures (&& methodName == "Star-Delta"
             && SelectBestContactor(contactors, rating, voltage).Some?
             && SelectBestContactor(contactors, StarDeltaRating(rating), voltage).Some?)
            ==> r.Some?
  {
    var primary := SelectBestContactor(contactors, rating, voltage);
    if methodName == "DOL" then
      if primary.None? then None
      else
        var t := ContactorSet(primary, None, None, None, None, 1, primary.value.price);
        assert Populated(t) == [primary.value];
        Some(t)
    else if methodName == "Star-Delta" then
      if primary.None? then None
      else
        var star := SelectBestContactor(contactors, StarDeltaRating(rating), voltage);
        var delta := SelectBestContactor(contactors, StarDeltaRating(rating), voltage);
        if star.None? || delta.None? then None
        else
          var t := ContactorSet(primary, star, delta, None, None, 3, primary.value.price + star.value.price + delta.value.price);
          assert Populated(t) == [primary.value, star.value, delta.value];
          assert TotalPrice(Populated(t)[2..]) == delta.value.price;
          Some(t)
    else if methodName == "Soft Starter" || methodName == "VFD" then
      if primary.None? then None
      else
        var t := ContactorSet(None, None, None, primary, None, 1, primary.value.price);
        assert Populated(t) == [primary.value];
        Some(t)
    else None
  }

  /** For a non-negative rating a Star-Delta arrangement fails only when
      the main selection fails, and its star and delta contactors are never
      rated above the main contactor. */
  lemma {:induction false} StarDeltaSizing(contactors: seq<Contactor>, rating: real, voltage: real)
    requires rating >= 0.0
    ensures GenerateContactors(contactors, "Star-Delta", rating, voltage).None?
        <==> SelectBestContactor(contactors, rating, voltage).None?
    ensures GenerateContactors(contactors, "Star-Delta", rating, voltage).Some? ==>
      var t := GenerateContactors(contactors, "Star-Delta", rating, voltage).value;
      t.star.value.currentRating <= t.main.value.currentRating
  {
    if SelectBestContactor(contactors, rating, voltage).Some? {
      SelectionMonotone(contactors, StarDeltaRating(rating), rating, voltage);
    }
  }

  /** The entry whose frame selects the overload relay: main, else bypass,
      else input. It is one of the arrangement's contactors, and there is
      one whenever any of those three keys is filled. */
  function PrimaryContactor(t: ContactorSet): (r: Option<Contactor>)
    ensures r.Some? <==> t.main.Some? || t.bypass.Some? || t.input.Some?
    ensures r.Some? ==> r.value in Populated(t)
  {
    if t.main.Some? then t.main
    else if t.bypass.Some? then t.bypass
    else t.input
  }

  /** Every arrangement has a primary contactor, and it never comes from
      the input key: for VFD it is the contactor stored under bypass. */
  lemma {:induction false} PrimaryNeverInput(contactors: seq<Contactor>, methodName: string, rating: real, voltage: real)
    requires GenerateContactors(contactors, methodName, rating, voltage).Some?
    ensures var t := GenerateContactors(contactors, methodName, rating, voltage).value;
      PrimaryContactor(t).Some? && PrimaryContactor(t) == (if t.main.Some? then t.main else t.bypass)
      && PrimaryContactor(t) == SelectBestContactor(contactors, rating, voltage)
  {
  }
}
