/** The flattened, role-labelled list of parts shown with a
    recommendation: one line per contactor role of the starting method,
    then the overload relay if one was found. */
module Components {
  import opened Parts
  import opened Topology

  /** One line of the parts list. */
  datatype Component = Component(
    role: string,
    model: string,
    manufacturer: string,
    quantity: nat,
    unitPrice: real,
    totalPrice: real)

  const RelayRole: string := "Overload Relay"

  function ContactorLine(role: string, c: Contactor): Component
  {
    Component(role, c.model, c.manufacturer, 1, c.price, c.price)
  }

  function RelayLine(r: OverloadRelay): Component
  {
    Component(RelayRole, r.model, r.manufacturer, 1, r.price, r.price)
  }

  /** The keys the method's branch reads are present in the arrangement
      (a missing key is a lookup failure in the source). */
  predicate HasRolesFor(t: ContactorSet, methodName: string)
  {
    && (methodName == "DOL" || methodName == "Star-Delta" ==> t.main.Some?)
    && (methodName == "Star-Delta" ==> t.star.Some? && t.delta.Some?)
    && (methodName == "Soft Starter" || methodName == "VFD" ==> t.bypass.Some?)
  }

  /** The role labels a method's contactors are listed under, in order. */
  function ContactorRoles(methodName: string): seq<string>
  {
    if methodName == "DOL" then ["Main Contactor"]
    else if methodName == "Star-Delta" then ["Main Contactor", "Star Contactor", "Delta Contactor"]
    else if methodName == "Soft Starter" then ["Bypass Contactor"]
    else if methodName == "VFD" then ["Input Contactor"]
    else []
  }

  function Roles(lines: seq<Component>): (roles: seq<string>)
    ensures |roles| == |lines|
    ensures forall i :: 0 <= i < |lines| ==> roles[i] == lines[i].role
  {
    if lines == [] then [] else [lines[0].role] + Roles(lines[1..])
  }

  /** Sum of the line totals. */
  function LinesTotal(lines: seq<Component>): real
  {
    if lines == [] then 0.0 else lines[0].totalPrice + LinesTotal(lines[1..])
  }

  lemma {:induction false} LinesTotalAppend(a: seq<Component>, b: seq<Component>)
    ensures LinesTotal(a + b) == LinesTotal(a) + LinesTotal(b)
  {
    if a == [] {
      assert a + b == b;
    } else {
      assert (a + b)[1..] == a[1..] + b;
      LinesTotalAppend(a[1..], b);
    }
  }

  /** The contactor lines of the arrangement, as the method's branch lists
      them: one single-unit line per role of the method, in role order. */
  function ContactorLines(t: ContactorSet, methodName: string): (lines: seq<Component>)
    requires HasRolesFor(t, methodName)
    ensures Roles(lines) == ContactorRoles(methodName)
    ensures forall i :: 0 <= i < |lines| ==> lines[i].quantity == 1 && lines[i].totalPrice == lines[i].unitPrice
  {
    if methodName == "DOL" then [ContactorLine("Main Contactor", t.main.value)]
    else if methodName == "Star-Delta" then
      [ContactorLine("Main Contactor", t.main.value),
       ContactorLine("Star Contactor", t.star.value),
       ContactorLine("Delta Contactor", t.delta.value)]
    else if methodName == "Soft Starter" then [ContactorLine("Bypass Contactor", t.bypass.value)]
    else if methodName == "VFD" then [ContactorLine("Input Contactor", t.bypass.value)]
    else []
  }

  /** The parts list: the method's roles in their fixed order, then the
      relay line last exactly when a relay is present; every line is one
      unit priced at its unit price. */
  function ComponentList(t: ContactorSet, relay: Option<OverloadRelay>, methodName: string): (lines: seq<Component>)
    requires HasRolesFor(t, methodName)
    ensures Roles(lines) == ContactorRoles(methodName) + (if relay.Some? then [RelayRole] else [])
    ensures forall i :: 0 <= i < |lines| ==> lines[i].quantity == 1 && lines[i].totalPrice == lines[i].unitPrice
    ensures relay.Some? <==> |lines| > 0 && lines[|lines| - 1].role == RelayRole
    ensures relay.Some? ==> lines[|lines| - 1] == RelayLine(relay.value)
  {
    ContactorLines(t, methodName) + (if relay.Some? then [RelayLine(relay.value)] else [])
  }

  /** An arrangement built for a method has every key that method's
      branch of the parts list reads. */
  lemma {:induction false} GeneratedHasRoles(contactors: seq<Contactor>, methodName: string, rating: real, voltage: real)
    requires GenerateContactors(contactors, methodName, rating, voltage).Some?
    ensures HasRolesFor(GenerateContactors(contactors, methodName, rating, voltage).value, methodName)
  {
  }

  /** The shape of an arrangement built for a method, as its builder
      promises it. */
  predicate BuiltFor(t: ContactorSet, methodName: string)
  {
    && HasRolesFor(t, methodName) && Handled(methodName)
    && t.input.None? && (t.main.Some? <==> t.bypass.None?)
    && (t.star.Some? <==> methodName == "Star-Delta") && t.star == t.delta
  }

  /** A built arrangement's contactor lines follow its populated entries
      one for one. */
  lemma {:induction false} LinesFollowArrangement(t: ContactorSet, methodName: string, relay: Option<OverloadRelay>)
    requires BuiltFor(t, methodName)
    ensures |ContactorRoles(methodName)| == |Populated(t)|
    ensures var lines := ComponentList(t, relay, methodName);
      forall i :: 0 <= i < |Populated(t)| ==>
        && lines[i].model == Populated(t)[i].model
        && lines[i].manufacturer == Populated(t)[i].manufacturer
        && lines[i].unitPrice == Populated(t)[i].price
  {
    var lines := ComponentList(t, relay, methodName);
    var cl := ContactorLines(t, methodName);
    var p := Populated(t);
    if methodName == "Star-Delta" {
      assert p == [t.main.value, t.star.value, t.delta.value];
      assert cl == [ContactorLine("Main Contactor", p[0]), ContactorLine("Star Contactor", p[1]), ContactorLine("Delta Contactor", p[2])];
    } else if methodName == "DOL" {
      assert p == [t.main.value];
      assert cl == [ContactorLine("Main Contactor", p[0])];
    } else {
      assert p == [t.bypass.value];
      assert cl == [ContactorLine(ContactorRoles(methodName)[0], p[0])];
    }
    forall i | 0 <= i < |p|
      ensures lines[i].model == p[i].model && lines[i].manufacturer == p[i].manufacturer && lines[i].unitPrice == p[i].price
    {
      assert lines[i] == cl[i];
    }
  }

  /** A built arrangement's contactor lines add up to its contactors' prices. */
  lemma {:induction false} LinesTotalOfArrangement(t: ContactorSet, methodName: string, relay: Option<OverloadRelay>)
    requires BuiltFor(t, methodName)
    ensures LinesTotal(ComponentList(t, relay, methodName))
         == TotalPrice(Populated(t)) + (if relay.Some? then relay.value.price else 0.0)
  {
    var cl := ContactorLines(t, methodName);
    var rl := if relay.Some? then [RelayLine(relay.value)] else [];
    LinesTotalAppend(cl, rl);
    if methodName == "Star-Delta" {
      assert Populated(t) == [t.main.value, t.star.value, t.delta.value];
      assert LinesTotal(cl[2..]) == t.delta.value.price;
      assert TotalPrice(Populated(t)[2..]) == t.delta.value.price;
    } else if methodName == "DOL" {
      assert Populated(t) == [t.main.value];
    } else {
      assert Populated(t) == [t.bypass.value];
    }
  }

  /** For an arrangement built for the same method, the parts list opens
      with one line per contactor of the arrangement, in the arrangement's
      key order, each carrying that contactor's model, manufacturer and
      price; the Star-Delta lines are main, star, delta in that order. */
  lemma {:induction false} ComponentListContactors(contactors: seq<Contactor>, methodName: string, rating: real, voltage: real, relay: Option<OverloadRelay>)
    requires GenerateContactors(contactors, methodName, rating, voltage).Some?
    ensures var t := GenerateContactors(contactors, methodName, rating, voltage).value;
      && HasRolesFor(t, methodName)
      && |ContactorRoles(methodName)| == |Populated(t)| == t.quantity
      && var lines := ComponentList(t, relay, methodName);
         forall i :: 0 <= i < |Populated(t)| ==>
           && lines[i].model == Populated(t)[i].model
           && lines[i].manufacturer == Populated(t)[i].manufacturer
           && lines[i].unitPrice == Populated(t)[i].price
  {
    var t := GenerateContactors(contactors, methodName, rating, voltage).value;
    assert BuiltFor(t, methodName);
    LinesFollowArrangement(t, methodName, relay);
  }

  /** For an arrangement built for the same method, the parts list adds up
      to the arrangement's total plus the relay price, if any. */
  lemma {:induction false} ComponentListTotal(contactors: seq<Contactor>, methodName: string, rating: real, voltage: real, relay: Option<OverloadRelay>)
    requires GenerateContactors(contactors, methodName, rating, voltage).Some?
    ensures HasRolesFor(GenerateContactors(contactors, methodName, rating, voltage).value, methodName)
    ensures LinesTotal(ComponentList(GenerateContactors(contactors, methodName, rating, voltage).value, relay, methodName))
         == GenerateContactors(contactors, methodName, rating, voltage).value.totalCost + (if relay.Some? then relay.value.price else 0.0)
  {
    var t := GenerateContactors(contactors, methodName, rating, voltage).value;
    assert BuiltFor(t, methodName);
    LinesTotalOfArrangement(t, methodName, relay);
  }

  /** The append/extend steps of the source, building the list in place. */
  method GenerateComponentList(t: ContactorSet, relay: Option<OverloadRelay>, methodName: string) returns (components: seq<Component>)
    requires HasRolesFor(t, methodName)
    ensures components == ComponentList(t, relay, methodName)
  {
    components := [];
    if methodName == "DOL" {
      components := components + [ContactorLine("Main Contactor", t.main.value)];
    } else if methodName == "Star-Delta" {
      components := components + [
        ContactorLine("Main Contactor", t.main.value),
        ContactorLine("Star Contactor", t.star.value),
        ContactorLine("Delta Contactor", t.delta.value)];
    } else if methodName == "Soft Starter" || methodName == "VFD" {
      var role := if methodName == "Soft Starter" then "Bypass Contactor" else "Input Contactor";
      components := components + [ContactorLine(role, t.bypass.value)];
    }
    if relay.Some? {
      components := components + [RelayLine(relay.value)];
    }
  }
}
