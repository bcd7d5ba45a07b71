/** The contactor query: among the contactors rated for at least the
    requested current and voltage, the first in ascending order of current
    rating, then price. */
module ContactorSelection {
  import opened Parts

  /** Meets both minimum ratings. */
  predicate Adequate(c: Contactor, minCurrent: real, minVoltage: real)
  {
    c.currentRating >= minCurrent && c.voltageRating >= minVoltage
  }

  /** The query's ordering: current rating ascending, then price ascending. */
  predicate Precedes(a: Contactor, b: Contactor)
  {
    a.currentRating < b.currentRating || (a.currentRating == b.currentRating && a.price < b.price)
  }

  /** The cheapest adequate contactor: None exactly when nothing qualifies,
      otherwise a qualifying catalog entry that no qualifying entry precedes.
      Among exact ties (same rating and price) the earliest entry is taken. */
  function SelectBestContactor(contactors: seq<Contactor>, minCurrent: real, minVoltage: real): (r: Option<Contactor>)
    ensures r.None? <==> forall c :: c in contactors ==> !Adequate(c, minCurrent, minVoltage)
    ensures r.Some? ==> r.value in contactors && Adequate(r.value, minCurrent, minVoltage)
    ensures r.Some? ==> forall c :: c in contactors && Adequate(c, minCurrent, minVoltage) ==> !Precedes(c, r.value)
  {
    if contactors == [] then None
    else
      assert contactors == [contactors[0]] + contactors[1..];
      var rest := SelectBestContactor(contactors[1..], minCurrent, minVoltage);
      if !Adequate(contactors[0], minCurrent, minVoltage) then rest
      else if rest.Some? && Precedes(rest.value, contactors[0]) then rest
      else Some(contactors[0])
  }

  /** Asking for less never yields a larger contactor: the selection at a
      lower rating is never ordered after the selection at a higher one. */
  lemma {:induction false} SelectionMonotone(contactors: seq<Contactor>, low: real, high: real, minVoltage: real)
    requires low <= high
    requires SelectBestContactor(contactors, high, minVoltage).Some?
    ensures SelectBestContactor(contactors, low, minVoltage).Some?
    ensures !Precedes(SelectBestContactor(contactors, high, minVoltage).value, SelectBestContactor(contactors, low, minVoltage).value)
    ensures SelectBestContactor(contactors, low, minVoltage).value.currentRating <= SelectBestContactor(contactors, high, minVoltage).value.currentRating
  {
    var h := SelectBestContactor(contactors, high, minVoltage).value;
    assert Adequate(h, low, minVoltage);
  }
}
