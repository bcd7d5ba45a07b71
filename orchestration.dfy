/** The recommendation request: validate the motor data, convert between
    HP and kW, check the requested starting method against the motor's
    power, size the breaker, pick the contactors and the overload relay,
    and total the cost. */
module Orchestration {
  import opened Parts
  import opened Electrical
  import opened Compatibility
  import opened ContactorSelection
  import opened RelaySelection
  import opened Topology
  import opened Components

  const KwPerHp: real := 0.746
  const DefaultVoltage: real := 415.0
  const DefaultFrequency: real := 50.0
  const DefaultPowerFactor: real := 0.8
  const DefaultEfficiency: real := 0.9

  /** The request fields; None is a field left out of the request. */
  datatype MotorRequest = MotorRequest(
    powerHp: Option<real>,
    powerKw: Option<real>,
    voltage: Option<real>,
    frequency: Option<real>,
    startingMethod: Option<string>,
    powerFactor: Option<real>,
    efficiency: Option<real>)

  /** The error answers of a request. `InternalError` is the catch-all,
      reached here only by the division by zero in the FLC formula. */
  datatype Error =
    | MissingPower
    | MissingStartingMethod
    | IncompatibleMethod(compatible: seq<StartingMethod>)
    | NoSuitableContactors
    | InternalError

  datatype Result<+T> = Ok(value: T) | Err(error: Error)

  /** The echoed and derived motor data of an answer. */
  datatype MotorSpecs = MotorSpecs(
    powerHp: real,
    powerKw: real,
    voltage: real,
    frequency: real,
    fullLoadCurrent: real,
    powerFactor: real,
    efficiency: real)

  datatype Recommendation = Recommendation(
    motor: MotorSpecs,
    startingMethod: string,
    breakerRating: real,
    contactors: ContactorSet,
    overloadRelay: Option<OverloadRelay>,
    totalCost: real,
    components: seq<Component>,
    compatibleMethods: seq<StartingMethod>)

  /** A number counts as supplied when present and non-zero (a zero power
      is treated as missing). */
  predicate Given(x: Option<real>)
  {
    x.Some? && x.value != 0.0
  }

  /** A method name counts as supplied when present and non-empty. */
  predicate Named(s: Option<string>)
  {
    s.Some? && s.value != ""
  }

  function OrDefault(x: Option<real>, default: real): real
  {
    if x.Some? then x.value else default
  }

  datatype MotorPower = MotorPower(hp: real, kw: real)

  /** The HP/kW conversion: fails exactly when neither unit is supplied;
      a supplied unit is never overwritten, and a derived one stands in the
      0.746 kW/HP ratio to the supplied one. With both supplied, both are
      kept as given. */
  function NormalizePower(hp: Option<real>, kw: Option<real>): (r: Option<MotorPower>)
    ensures r.None? <==> !Given(hp) && !Given(kw)
    ensures r.Some? ==> r.value.hp != 0.0 && r.value.kw != 0.0
    ensures r.Some? && Given(hp) ==> r.value.hp == hp.value
    ensures r.Some? && Given(kw) ==> r.value.kw == kw.value
    ensures r.Some? && !(Given(hp) && Given(kw)) ==> r.value.kw == r.value.hp * KwPerHp
  {
    if Given(hp) && !Given(kw) then Some(MotorPower(hp.value, hp.value * KwPerHp))
    else if Given(kw) && !Given(hp) then Some(MotorPower(kw.value / KwPerHp, kw.value))
    else if !Given(hp) && !Given(kw) then None
    else Some(MotorPower(hp.value, kw.value))
  }

  /** The FLC of a request once its power is known, or None on a zero
      denominator. */
  function RequestFlc(num: Numerics, req: MotorRequest, power: MotorPower): Option<real>
  {
    FullLoadCurrent(num, power.kw, OrDefault(req.voltage, DefaultVoltage), OrDefault(req.powerFactor, DefaultPowerFactor),
                    OrDefault(req.efficiency, DefaultEfficiency))
  }

  /** Every check of the endpoint passes: a power is supplied, a method is
      named, the catalog lists it as fitting the motor's HP, the FLC formula
      has a non-zero denominator, and the method's arrangement can be built
      at the breaker rating. */
  predicate Feasible(cat: Catalog, num: Numerics, req: MotorRequest)
  {
    var power := NormalizePower(req.powerHp, req.powerKw);
    && power.Some? && Named(req.startingMethod)
    && req.startingMethod.value in Names(CompatibleMethods(cat.methods, power.value.hp))
    && var flc := RequestFlc(num, req, power.value);
       && flc.Some?
       && GenerateContactors(cat.contactors, req.startingMethod.value, BreakerRating(num, flc.value),
                             OrDefault(req.voltage, DefaultVoltage)).Some?
  }

  /** The answer to a request, step by step as the endpoint computes it:
      the validation steps here, the part selection in SelectParts. It
      succeeds exactly when every check passes, and a success answers for
      the requested method with the list of methods fitting the HP. */
  function Recommend(cat: Catalog, num: Numerics, req: MotorRequest): (r: Result<Recommendation>)
    ensures r.Ok? <==> Feasible(cat, num, req)
    ensures r.Ok? ==> && Named(req.startingMethod) && r.value.startingMethod == req.startingMethod.value
                      && r.value.compatibleMethods == CompatibleMethods(cat.methods, NormalizePower(req.powerHp, req.powerKw).value.hp)
  {
    var power := NormalizePower(req.powerHp, req.powerKw);
    if power.None? then Err(MissingPower)
    else if !Named(req.startingMethod) then Err(MissingStartingMethod)
    else
      var compatible := CompatibleMethods(cat.methods, power.value.hp);
      if req.startingMethod.value !in Names(compatible) then Err(IncompatibleMethod(compatible))
      else SelectParts(cat, num, req, power.value, compatible)
  }

  /** FLC, breaker rating and contactors for a validated request: it fails
      with the internal error exactly on a zero denominator in the FLC
      formula, otherwise with "no suitable contactors" exactly when the
      arrangement cannot be built at the breaker rating. A success carries
      that FLC, that rating and that arrangement. */
  function SelectParts(cat: Catalog, num: Numerics, req: MotorRequest, power: MotorPower, compatible: seq<StartingMethod>): (r: Result<Recommendation>)
    requires Named(req.startingMethod)
    ensures r.Err? ==> (r.error == InternalError <==> RequestFlc(num, req, power).None?)
    ensures r.Err? && r.error != InternalError ==> r.error == NoSuitableContactors
    ensures r.Ok? <==> && RequestFlc(num, req, power).Some?
                       && GenerateContactors(cat.contactors, req.startingMethod.value, BreakerRating(num, RequestFlc(num, req, power).value),
                                             OrDefault(req.voltage, DefaultVoltage)).Some?
    ensures r.Ok? ==> && r.value.motor.fullLoadCurrent == RequestFlc(num, req, power).value
                      && r.value.breakerRating == BreakerRating(num, r.value.motor.fullLoadCurrent)
                      && Some(r.value.contactors)
                         == GenerateContactors(cat.contactors, req.startingMethod.value, r.value.breakerRating, OrDefault(req.voltage, DefaultVoltage))
  {
    var voltage := OrDefault(req.voltage, DefaultVoltage);
    var flc := RequestFlc(num, req, power);
    if flc.None? then Err(InternalError)
    else
      var breaker := BreakerRating(num, flc.value);
      var contactors := GenerateContactors(cat.contactors, req.startingMethod.value, breaker, voltage);
      if contactors.None? then Err(NoSuitableContactors)
      else
        GeneratedHasRoles(cat.contactors, req.startingMethod.value, breaker, voltage);
        Ok(Assemble(cat, num, req, power, compatible, flc.value, breaker, contactors.value))
  }

  /** A cost plus the relay's price, if there is a relay. */
  function WithRelayPrice(cost: real, relay: Option<OverloadRelay>): real
  {
    if relay.Some? then cost + relay.value.price else cost
  }

  /** The answer once the contactors are chosen: the relay for the primary
      contactor's frame, the total cost and the parts list. The relay, if
      any, is a catalog relay preferred for that frame or at least
      containing FLC; the total is the contactor total plus the relay
      price, rounded; the parts list carries the method's roles, then the
      relay's. */
  function Assemble(cat: Catalog, num: Numerics, req: MotorRequest, power: MotorPower, compatible: seq<StartingMethod>,
                    flc: real, breaker: real, t: ContactorSet): (r: Recommendation)
    requires Named(req.startingMethod) && HasRolesFor(t, req.startingMethod.value)
    ensures r.overloadRelay.Some? ==>
      && PrimaryContactor(t).Some? && r.overloadRelay.value in cat.relays
      && (Preferred(r.overloadRelay.value, flc, PrimaryContactor(t).value.frameSize) || CoversPoint(r.overloadRelay.value, flc))
    ensures r.totalCost == Round(num, WithRelayPrice(t.totalCost, r.overloadRelay), 2)
    ensures Roles(r.components) == ContactorRoles(req.startingMethod.value) + (if r.overloadRelay.Some? then [RelayRole] else [])
  {
    var primary := PrimaryContactor(t);
    var relay := if primary.Some? then SelectRelay(cat.relays, flc, primary.value.frameSize) else None;
    var total := WithRelayPrice(t.totalCost, relay);
    var specs := MotorSpecs(
      Round(num, power.hp, 1), Round(num, power.kw, 2), OrDefault(req.voltage, DefaultVoltage),
      OrDefault(req.frequency, DefaultFrequency), flc,
      OrDefault(req.powerFactor, DefaultPowerFactor), OrDefault(req.efficiency, DefaultEfficiency));
    Recommendation(specs, req.startingMethod.value, breaker, t, relay, Round(num, total, 2),
                   ComponentList(t, relay, req.startingMethod.value), compatible)
  }

  /** The endpoint body: reassigns the power variables and returns at the
      first failing check; AssembleRecommendation does the rest. */
  method CalculateRecommendation(cat: Catalog, num: Numerics, req: MotorRequest) returns (result: Result<Recommendation>)
    ensures result == Recommend(cat, num, req)
  {
    var motorPowerHp := req.powerHp;
    var motorPowerKw := req.powerKw;
    var voltage := OrDefault(req.voltage, DefaultVoltage);
    var powerFactor := OrDefault(req.powerFactor, DefaultPowerFactor);
    var efficiency := OrDefault(req.efficiency, DefaultEfficiency);

    if Given(motorPowerHp) && !Given(motorPowerKw) {
      motorPowerKw := Some(motorPowerHp.value * KwPerHp);
    } else if Given(motorPowerKw) && !Given(motorPowerHp) {
      motorPowerHp := Some(motorPowerKw.value / KwPerHp);
    } else if !Given(motorPowerHp) && !Given(motorPowerKw) {
      return Err(MissingPower);
    }
    if !Named(req.startingMethod) {
      return Err(MissingStartingMethod);
    }
    var name := req.startingMethod.value;
    var power := MotorPower(motorPowerHp.value, motorPowerKw.value);
    assert NormalizePower(req.powerHp, req.powerKw) == Some(power);

    var compatible := GetCompatibleStartingMethods(cat.methods, motorPowerHp.value);
    if name !in Names(compatible) {
      return Err(IncompatibleMethod(compatible));
    }
    assert Recommend(cat, num, req) == SelectParts(cat, num, req, power, compatible);

    var flc := FullLoadCurrent(num, motorPowerKw.value, voltage, powerFactor, efficiency);
    if flc.None? {
      return Err(InternalError);
    }
    var breaker := BreakerRating(num, flc.value);

    var contactors := GenerateContactors(cat.contactors, name, breaker, voltage);
    if contactors.None? {
      return Err(NoSuitableContactors);
    }
    GeneratedHasRoles(cat.contactors, name, breaker, voltage);
    var rec := AssembleRecommendation(cat, num, req, power, compatible, flc.value, breaker, contactors.value);
    result := Ok(rec);
  }

  /** The tail of the endpoint body once the contactors are chosen: pick
      the relay for the primary contactor's frame, add its price to the
      total in place, build the parts list and the answer. */
  method AssembleRecommendation(cat: Catalog, num: Numerics, req: MotorRequest, power: MotorPower, compatible: seq<StartingMethod>,
                                flc: real, breaker: real, t: ContactorSet) returns (rec: Recommendation)
    requires Named(req.startingMethod) && HasRolesFor(t, req.startingMethod.value)
    ensures rec == Assemble(cat, num, req, power, compatible, flc, breaker, t)
  {
    var primary := PrimaryContactor(t);
    var relay: Option<OverloadRelay> := None;
    if primary.Some? {
      relay := SelectOverloadRelay(cat.relays, flc, primary.value.frameSize);
    }

    var totalCost := t.totalCost;
    if relay.Some? {
      totalCost := totalCost + relay.value.price;
    }
    assert totalCost == WithRelayPrice(t.totalCost, relay);

    var components := GenerateComponentList(t, relay, req.startingMethod.value);
    var specs := MotorSpecs(Round(num, power.hp, 1), Round(num, power.kw, 2),
                            OrDefault(req.voltage, DefaultVoltage), OrDefault(req.frequency, DefaultFrequency), flc,
                            OrDefault(req.powerFactor, DefaultPowerFactor), OrDefault(req.efficiency, DefaultEfficiency));
    rec := Recommendation(specs, req.startingMethod.value, breaker, t, relay, Round(num, totalCost, 2), components, compatible);
  }

  /** The validation answers, each exactly characterised: missing power
      (neither unit supplied, a zero counting as absent), missing method,
      and an incompatible method, which carries the compatible list. */
  lemma {:induction false} RecommendValidation(cat: Catalog, num: Numerics, req: MotorRequest)
    ensures Recommend(cat, num, req) == Err(MissingPower) <==> !Given(req.powerHp) && !Given(req.powerKw)
    ensures Recommend(cat, num, req) == Err(MissingStartingMethod)
        <==> (Given(req.powerHp) || Given(req.powerKw)) && !Named(req.startingMethod)
    ensures (Recommend(cat, num, req).Err? && Recommend(cat, num, req).error.IncompatibleMethod?)
        <==> (Given(req.powerHp) || Given(req.powerKw)) && Named(req.startingMethod)
             && forall m :: m in cat.methods && m.name == req.startingMethod.value
                            ==> !Accepts(m, NormalizePower(req.powerHp, req.powerKw).value.hp)
    ensures Recommend(cat, num, req).Err? && Recommend(cat, num, req).error.IncompatibleMethod? ==>
      Recommend(cat, num, req).error.compatible == CompatibleMethods(cat.methods, NormalizePower(req.powerHp, req.powerKw).value.hp)
  {
    var power := NormalizePower(req.powerHp, req.powerKw);
    if power.Some? && Named(req.startingMethod) {
      CompatibleNameCharacterized(cat.methods, power.value.hp, req.startingMethod.value);
    }
  }

  /** A successful answer is the assembly of its validated power, FLC,
      breaker rating and contactor arrangement. */
  lemma {:induction false} SuccessAssembled(cat: Catalog, num: Numerics, req: MotorRequest)
      returns (power: MotorPower, flc: real, breaker: real, t: ContactorSet)
    requires Recommend(cat, num, req).Ok?
    ensures Named(req.startingMethod) && NormalizePower(req.powerHp, req.powerKw) == Some(power)
    ensures req.startingMethod.value in Names(CompatibleMethods(cat.methods, power.hp))
    ensures FullLoadCurrent(num, power.kw, OrDefault(req.voltage, DefaultVoltage), OrDefault(req.powerFactor, DefaultPowerFactor),
                            OrDefault(req.efficiency, DefaultEfficiency)) == Some(flc)
    ensures breaker == BreakerRating(num, flc)
    ensures GenerateContactors(cat.contactors, req.startingMethod.value, breaker, OrDefault(req.voltage, DefaultVoltage)) == Some(t)
    ensures HasRolesFor(t, req.startingMethod.value)
    ensures Recommend(cat, num, req)
         == Ok(Assemble(cat, num, req, power, CompatibleMethods(cat.methods, power.hp), flc, breaker, t))
  {
    power := NormalizePower(req.powerHp, req.powerKw).value;
    var voltage := OrDefault(req.voltage, DefaultVoltage);
    flc := FullLoadCurrent(num, power.kw, voltage, OrDefault(req.powerFactor, DefaultPowerFactor),
                           OrDefault(req.efficiency, DefaultEfficiency)).value;
    breaker := BreakerRating(num, flc);
    t := GenerateContactors(cat.contactors, req.startingMethod.value, breaker, voltage).value;
    GeneratedHasRoles(cat.contactors, req.startingMethod.value, breaker, voltage);
  }

  /** What every successful answer satisfies: the method is one the
      catalog lists as fitting the motor's power and one with an
      arrangement; the breaker is round(FLC x 1.5, 2); the primary
      contactor is the adequate selection at that rating, and the
      arrangement's count and total are exact. */
  lemma {:induction false} RecommendSuccess(cat: Catalog, num: Numerics, req: MotorRequest)
    requires Recommend(cat, num, req).Ok?
    ensures Named(req.startingMethod) && Recommend(cat, num, req).value.startingMethod == req.startingMethod.value
    ensures exists m :: m in cat.methods && m.name == req.startingMethod.value
                        && Accepts(m, NormalizePower(req.powerHp, req.powerKw).value.hp)
    ensures Handled(req.startingMethod.value)
    ensures var rec := Recommend(cat, num, req).value;
      rec.breakerRating == BreakerRating(num, rec.motor.fullLoadCurrent)
    ensures var rec := Recommend(cat, num, req).value;
      var voltage := OrDefault(req.voltage, DefaultVoltage);
      && PrimaryContactor(rec.contactors) == SelectBestContactor(cat.contactors, rec.breakerRating, voltage)
      && PrimaryContactor(rec.contactors).Some?
      && Adequate(PrimaryContactor(rec.contactors).value, rec.breakerRating, voltage)
    ensures var t := Recommend(cat, num, req).value.contactors;
      t.quantity == |Populated(t)| && t.totalCost == TotalPrice(Populated(t))
  {
    var power, flc, breaker, t := SuccessAssembled(cat, num, req);
    CompatibleNameCharacterized(cat.methods, power.hp, req.startingMethod.value);
    PrimaryNeverInput(cat.contactors, req.startingMethod.value, breaker, OrDefault(req.voltage, DefaultVoltage));
  }

  /** The star and delta contactors of a successful answer: present exactly
      for Star-Delta, and then both the contactor selection at 0.58 of the
      breaker rating, so each is adequate for that reduced rating. */
  lemma {:induction false} RecommendStarDelta(cat: Catalog, num: Numerics, req: MotorRequest, rec: Recommendation)
    requires Recommend(cat, num, req) == Ok(rec)
    ensures rec.contactors.star.Some? <==> rec.startingMethod == "Star-Delta"
    ensures rec.contactors.star.Some? ==>
      && rec.contactors.star == rec.contactors.delta
      && rec.contactors.star == SelectBestContactor(cat.contactors, StarDeltaRating(rec.breakerRating), OrDefault(req.voltage, DefaultVoltage))
      && Adequate(rec.contactors.star.value, StarDeltaRating(rec.breakerRating), OrDefault(req.voltage, DefaultVoltage))
  {
    var power, flc, breaker, t := SuccessAssembled(cat, num, req);
    assert rec == Assemble(cat, num, req, power, CompatibleMethods(cat.methods, power.hp), flc, breaker, t);
    assert rec.contactors == t && rec.breakerRating == breaker;
  }

  /** The relay and the cost of every successful answer: the relay is the
      two-tier match for the primary contactor's frame, the total is the
      rounded contactor total plus the relay price if any, and the parts
      list adds up to the unrounded total. */
  lemma {:induction false} RecommendRelayAndCost(cat: Catalog, num: Numerics, req: MotorRequest)
    requires Recommend(cat, num, req).Ok?
    ensures PrimaryContactor(Recommend(cat, num, req).value.contactors).Some?
    ensures var rec := Recommend(cat, num, req).value;
      rec.overloadRelay == SelectRelay(cat.relays, rec.motor.fullLoadCurrent, PrimaryContactor(rec.contactors).value.frameSize)
    ensures var rec := Recommend(cat, num, req).value;
      && rec.totalCost == Round(num, WithRelayPrice(rec.contactors.totalCost, rec.overloadRelay), 2)
      && LinesTotal(rec.components) == WithRelayPrice(rec.contactors.totalCost, rec.overloadRelay)
  {
    var power, flc, breaker, t := SuccessAssembled(cat, num, req);
    var voltage := OrDefault(req.voltage, DefaultVoltage);
    PrimaryNeverInput(cat.contactors, req.startingMethod.value, breaker, voltage);
    var rec := Recommend(cat, num, req).value;
    ComponentListTotal(cat.contactors, req.startingMethod.value, breaker, voltage, rec.overloadRelay);
  }

  /** A method name with no arrangement (such as Autotransformer, which
      the catalog may hold and the compatibility check may pass) is never
      recommended: once validation and the FLC succeed, the answer is
      "no suitable contactors". */
  lemma {:induction false} UnhandledMethodRejected(cat: Catalog, num: Numerics, req: MotorRequest)
    requires Named(req.startingMethod) && !Handled(req.startingMethod.value)
    ensures !Recommend(cat, num, req).Ok?
    ensures (Given(req.powerHp) || Given(req.powerKw))
         && req.startingMethod.value in Names(CompatibleMethods(cat.methods, NormalizePower(req.powerHp, req.powerKw).value.hp))
         && PhaseFactor(num, OrDefault(req.voltage, DefaultVoltage), OrDefault(req.powerFactor, DefaultPowerFactor),
                        OrDefault(req.efficiency, DefaultEfficiency)) != 0.0
         ==> Recommend(cat, num, req) == Err(NoSuitableContactors)
  {
  }

  /** A missing overload relay is not an error: when every check passes
      but no relay's range contains the (non-negative) FLC, the answer
      succeeds with no relay and the total is the contactor total alone. */
  lemma {:induction false} MissingRelayTolerated(cat: Catalog, num: Numerics, req: MotorRequest)
    requires Feasible(cat, num, req)
    requires var flc := RequestFlc(num, req, NormalizePower(req.powerHp, req.powerKw).value).value;
      flc >= 0.0 && forall x :: x in cat.relays ==> !CoversPoint(x, flc)
    ensures Recommend(cat, num, req).Ok?
    ensures Recommend(cat, num, req).value.overloadRelay.None?
    ensures Recommend(cat, num, req).value.totalCost == Round(num, Recommend(cat, num, req).value.contactors.totalCost, 2)
    ensures |Recommend(cat, num, req).value.components| == |ContactorRoles(Recommend(cat, num, req).value.startingMethod)|
  {
    var rec := Recommend(cat, num, req).value;
    var flc := rec.motor.fullLoadCurrent;
    var frame := PrimaryContactor(rec.contactors).value.frameSize;
    forall x | x in cat.relays ensures !Preferred(x, flc, frame) {
      if CoversBand(x, flc) {
        BandContainsPoint(x, flc);
      }
    }
    SelectRelayFallback(cat.relays, flc, frame);
    assert |Roles(rec.components)| == |rec.components|;
  }

  /** With both units supplied neither is overwritten: the HP figure drives
      the compatibility check and the kW figure drives the FLC. */
  lemma {:induction false} BothUnitsKept(cat: Catalog, num: Numerics, req: MotorRequest)
    requires Given(req.powerHp) && Given(req.powerKw)
    requires Recommend(cat, num, req).Ok?
    ensures var rec := Recommend(cat, num, req).value;
      var voltage := OrDefault(req.voltage, DefaultVoltage);
      var pf := OrDefault(req.powerFactor, DefaultPowerFactor);
      var eff := OrDefault(req.efficiency, DefaultEfficiency);
      && rec.compatibleMethods == CompatibleMethods(cat.methods, req.powerHp.value)
      && PhaseFactor(num, voltage, pf, eff) != 0.0
      && rec.motor.fullLoadCurrent == Round(num, RawFullLoadCurrent(num, req.powerKw.value, voltage, pf, eff), 2)
  {
  }
}
